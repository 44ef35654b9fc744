/** `WebMenuItemApi`: mapping a menu item model to its list and detail objects, and
    applying create, update and patch objects to a model. Create and update overwrite
    every writable property; patch overwrites only the properties it carries. */
module WebMenuItemApi {
  import opened Common
  import opened SwiftInt

  /** The writable properties of a menu item, as one value. */
  datatype MenuItemValues = MenuItemValues(
    text: string,
    url: string,
    icon: Option<string>,
    isBlank: bool,
    priority: Int,
    permission: Option<string>,
    menuId: Uuid)

  /** `WebMenuItemModel`. The source's `label` property is called `text` throughout,
      `label` being a Dafny keyword; `uuid` is the model's identifier, `menuId` the parent menu's (`$menu.id`). */
  class WebMenuItemModel {
    var uuid: Uuid
    var text: string
    var url: string
    var icon: Option<string>
    var isBlank: bool
    var priority: Int
    var permission: Option<string>
    var menuId: Uuid

    constructor (uuid: Uuid, v: MenuItemValues)
      ensures this.uuid == uuid && Values() == v
    {
      this.uuid := uuid;
      text, url, icon, isBlank := v.text, v.url, v.icon, v.isBlank;
      priority, permission, menuId := v.priority, v.permission, v.menuId;
    }

    function Values(): MenuItemValues
      reads this
    {
      MenuItemValues(text, url, icon, isBlank, priority, permission, menuId)
    }
  }

  datatype ListObject = ListObject(id: Uuid, text: string, url: string, menuId: Uuid)

  datatype DetailObject = DetailObject(
    id: Uuid, text: string, url: string, icon: Option<string>, isBlank: bool,
    priority: Int, permission: Option<string>, menuId: Uuid)

  datatype CreateObject = CreateObject(
    text: string, url: string, icon: Option<string>, isBlank: bool,
    priority: Int, permission: Option<string>, menuId: Uuid)

  datatype UpdateObject = UpdateObject(
    text: string, url: string, icon: Option<string>, isBlank: bool,
    priority: Int, permission: Option<string>, menuId: Uuid)

  /** Every property is optional: `None` means "leave as it is". */
  datatype PatchObject = PatchObject(
    text: Option<string>, url: Option<string>, icon: Option<string>, isBlank: Option<bool>,
    priority: Option<Int>, permission: Option<string>, menuId: Option<Uuid>)

  const EmptyPatch := PatchObject(None, None, None, None, None, None, None)

  function MapList(model: WebMenuItemModel): (r: ListObject)
    reads model
    ensures r.id == model.uuid && r.text == model.text && r.url == model.url && r.menuId == model.menuId
  {
    ListObject(model.uuid, model.text, model.url, model.menuId)
  }

  function MapDetail(model: WebMenuItemModel): (r: DetailObject)
    reads model
    ensures r.id == model.uuid
    ensures DetailValues(r) == model.Values()
  {
    DetailObject(model.uuid, model.text, model.url, model.icon, model.isBlank,
                 model.priority, model.permission, model.menuId)
  }

  /** The seven writable values a detail object reports. */
  function DetailValues(d: DetailObject): MenuItemValues {
    MenuItemValues(d.text, d.url, d.icon, d.isBlank, d.priority, d.permission, d.menuId)
  }

  /** The values a create object carries. */
  function CreatedValues(input: CreateObject): MenuItemValues {
    MenuItemValues(input.text, input.url, input.icon, input.isBlank, input.priority, input.permission, input.menuId)
  }

  /** The create object with the same values as an update object. */
  function UpdateAsCreate(input: UpdateObject): CreateObject {
    CreateObject(input.text, input.url, input.icon, input.isBlank, input.priority, input.permission, input.menuId)
  }

  /** Swift's `input.x ?? model.x` for every property. */
  function Patched(v: MenuItemValues, p: PatchObject): (r: MenuItemValues)
    ensures p.text.Some? ==> r.text == p.text.value
    ensures p.text.None? ==> r.text == v.text
    ensures p.url.Some? ==> r.url == p.url.value
    ensures p.url.None? ==> r.url == v.url
    ensures p.icon.Some? ==> r.icon == p.icon
    ensures p.icon.None? ==> r.icon == v.icon
    ensures p.isBlank.Some? ==> r.isBlank == p.isBlank.value
    ensures p.isBlank.None? ==> r.isBlank == v.isBlank
    ensures p.priority.Some? ==> r.priority == p.priority.value
    ensures p.priority.None? ==> r.priority == v.priority
    ensures p.permission.Some? ==> r.permission == p.permission
    ensures p.permission.None? ==> r.permission == v.permission
    ensures p.menuId.Some? ==> r.menuId == p.menuId.value
    ensures p.menuId.None? ==> r.menuId == v.menuId
  {
    MenuItemValues(
      p.text.GetOr(v.text),
      p.url.GetOr(v.url),
      if p.icon.Some? then p.icon else v.icon,
      p.isBlank.GetOr(v.isBlank),
      p.priority.GetOr(v.priority),
      if p.permission.Some? then p.permission else v.permission,
      p.menuId.GetOr(v.menuId))
  }

  method MapCreate(model: WebMenuItemModel, input: CreateObject)
    modifies model
    ensures model.uuid == old(model.uuid)
    ensures model.Values() == CreatedValues(input)
    ensures MapDetail(model) == DetailObject(model.uuid, input.text, input.url, input.icon, input.isBlank,
                                             input.priority, input.permission, input.menuId)
  {
    model.text := input.text;
    model.url := input.url;
    model.icon := input.icon;
    model.isBlank := input.isBlank;
    model.priority := input.priority;
    model.permission := input.permission;
    model.menuId := input.menuId;
  }

  method MapUpdate(model: WebMenuItemModel, input: UpdateObject)
    modifies model
    ensures model.uuid == old(model.uuid)
    ensures model.Values() == CreatedValues(UpdateAsCreate(input))
  {
    model.text := input.text;
    model.url := input.url;
    model.icon := input.icon;
    model.isBlank := input.isBlank;
    model.priority := input.priority;
    model.permission := input.permission;
    model.menuId := input.menuId;
  }

  method MapPatch(model: WebMenuItemModel, input: PatchObject)
    modifies model
    ensures model.uuid == old(model.uuid)
    ensures model.Values() == Patched(old(model.Values()), input)
  {
    model.text := input.text.GetOr(model.text);
    model.url := input.url.GetOr(model.url);
    model.icon := if input.icon.Some? then input.icon else model.icon;
    model.isBlank := input.isBlank.GetOr(model.isBlank);
    model.priority := input.priority.GetOr(model.priority);
    model.permission := if input.permission.Some? then input.permission else model.permission;
    model.menuId := input.menuId.GetOr(model.menuId);
  }

  // ---------------------------------------------------------------------------
  // Properties

  /** A patch that carries nothing changes nothing. */
  lemma EmptyPatchIsIdentity(v: MenuItemValues)
    ensures Patched(v, EmptyPatch) == v
  {
  }

  /** Applying a patch twice is applying it once. */
  lemma PatchIdempotent(v: MenuItemValues, p: PatchObject)
    ensures Patched(Patched(v, p), p) == Patched(v, p)
  {
  }

  /** A patch that carries every property is an update: the old values no longer matter. */
  lemma FullPatchIsUpdate(v: MenuItemValues, u: UpdateObject)
    requires u.icon.Some? && u.permission.Some?
    ensures Patched(v, PatchObject(Some(u.text), Some(u.url), u.icon, Some(u.isBlank), Some(u.priority),
                                   u.permission, Some(u.menuId))) == CreatedValues(UpdateAsCreate(u))
  {
  }

  /** Patching with `q` after `p` is patching once with `q` over `p`. */
  lemma PatchesCompose(v: MenuItemValues, p: PatchObject, q: PatchObject)
    ensures Patched(Patched(v, p), q) == Patched(v, Overlay(p, q))
  {
  }

  /** The patch that carries `q`'s values and, where `q` has none, `p`'s. */
  function Overlay(p: PatchObject, q: PatchObject): PatchObject {
    PatchObject(
      if q.text.Some? then q.text else p.text,
      if q.url.Some? then q.url else p.url,
      if q.icon.Some? then q.icon else p.icon,
      if q.isBlank.Some? then q.isBlank else p.isBlank,
      if q.priority.Some? then q.priority else p.priority,
      if q.permission.Some? then q.permission else p.permission,
      if q.menuId.Some? then q.menuId else p.menuId)
  }
}
