/** `SystemMenuItemEditForm`: the seven fields of the system menu item editor, their
    `config`, `read` and `write` callbacks, and the form's `load`, which checks the
    menu id from the route and sets the breadcrumb. The form's model is optional
    (`context.model?`): with no model, writes do nothing and reads show defaults. */
module SystemMenuItemEditForm {
  import opened Common
  import opened SwiftInt
  import opened Form

  /** The properties the form edits, as one value. The source's `label` is `text`
      here, `label` being a Dafny keyword. */
  datatype ItemValues = ItemValues(
    icon: Option<string>,
    text: string,
    url: string,
    priority: Int,
    isBlank: bool,
    permission: Option<string>,
    notes: Option<string>)

  /** `SystemMenuItemModel`. */
  class SystemMenuItemModel {
    var icon: Option<string>
    var text: string
    var url: string
    var priority: Int
    var isBlank: bool
    var permission: Option<string>
    var notes: Option<string>

    constructor (v: ItemValues)
      ensures Values() == v
    {
      icon, text, url, priority := v.icon, v.text, v.url, v.priority;
      isBlank, permission, notes := v.isBlank, v.permission, v.notes;
    }

    function Values(): ItemValues
      reads this
    {
      ItemValues(icon, text, url, priority, isBlank, permission, notes)
    }
  }

  /** The field keys, in the order the form declares them. */
  const FieldKeys: seq<string> := ["icon", "label", "url", "priority", "isBlank", "permission", "notes"]

  /** The keys whose field reads and writes a string property unchanged. */
  predicate IsStringKey(key: string) {
    key in ["icon", "label", "url", "permission", "notes"]
  }

  /** `createFormFields`. */
  function CreateFormFields(): (fields: seq<Field>)
    ensures Keys(fields) == FieldKeys
    ensures DistinctKeys(fields)
    ensures forall i :: 0 <= i < |fields| ==> fields[i].output == BlankOutput && fields[i].currentKey == None
    ensures fields[1].validators == [NonEmpty("Label is required")]
    ensures fields[2].validators == [NonEmpty("URL is required")]
    ensures forall i :: 0 <= i < |fields| && i != 1 && i != 2 ==> fields[i].validators == []
    ensures forall i :: 0 <= i < |fields| ==> (fields[i].kind == ToggleField <==> fields[i].key == "isBlank")
    ensures fields[0].kind == TextareaField && fields[6].kind == TextareaField
    ensures forall i :: 1 <= i <= 5 && i != 4 ==> fields[i].kind == TextField
  {
    [
      Build("icon", TextareaField, []),
      Build("label", TextField, [NonEmpty("Label is required")]),
      Build("url", TextField, [NonEmpty("URL is required")]),
      Build("priority", TextField, []),
      Build("isBlank", ToggleField, []),
      Build("permission", TextField, []),
      Build("notes", TextareaField, [])
    ]
  }

  /** The `config` callbacks: `label` and `url` are marked required and `priority`
      shows `String(100)` before anything is read; the other fields have none. */
  function Config(f: Field): (g: Field)
    ensures g.key == f.key && g.kind == f.kind && g.validators == f.validators && g.currentKey == f.currentKey
    ensures f.key == "label" || f.key == "url" ==> g.output == f.output.(required := true)
    ensures f.key == "priority" ==> g.output == f.output.(value := Some(Text("100")))
    ensures f.key != "label" && f.key != "url" && f.key != "priority" ==> g == f
  {
    if f.key == "label" || f.key == "url" then f.(output := f.output.(required := true))
    else if f.key == "priority" then
      HundredRendering();
      f.(output := f.output.(value := Some(Text(IntToString(100)))))
    else f
  }

  /** The value the `read` callback of field `key` shows for the (optional) model. */
  function ReadValue(key: string, model: Option<ItemValues>): Option<Value> {
    match key
    case "icon" => if model.Some? then Shown(model.value.icon) else None
    case "label" => if model.Some? then Some(Text(model.value.text)) else None
    case "url" => if model.Some? then Some(Text(model.value.url)) else None
    case "priority" => Some(Text(IntToString(if model.Some? then model.value.priority else 100)))
    case "isBlank" => Some(Flag(if model.Some? then model.value.isBlank else false))
    case "permission" => if model.Some? then Shown(model.value.permission) else None
    case "notes" => if model.Some? then Shown(model.value.notes) else None
    case _ => None
  }

  /** The `read` callbacks: set the field's shown value from the model, nothing else. */
  function Read(f: Field, model: Option<ItemValues>): (g: Field)
    requires f.key in FieldKeys
    ensures g == f.(output := f.output.(value := g.output.value))
    ensures model.None? && f.key == "priority" ==> g.output.value == Some(Text("100"))
    ensures model.None? && f.key == "isBlank" ==> g.output.value == Some(Flag(false))
    ensures model.None? && f.key != "priority" && f.key != "isBlank" ==> g.output.value == None
    ensures model.Some? && f.key == "priority" ==> g.output.value == Some(Text(IntToString(model.value.priority)))
    ensures model.Some? && f.key == "isBlank" ==> g.output.value == Some(Flag(model.value.isBlank))
    ensures model.Some? && f.key == "label" ==> g.output.value == Some(Text(model.value.text))
    ensures model.Some? && f.key == "url" ==> g.output.value == Some(Text(model.value.url))
    ensures model.Some? && f.key == "icon" ==> g.output.value == Shown(model.value.icon)
    ensures model.Some? && f.key == "permission" ==> g.output.value == Shown(model.value.permission)
    ensures model.Some? && f.key == "notes" ==> g.output.value == Shown(model.value.notes)
    // the value shown is the one the write round trip in `Written` is stated about
    ensures g.output.value == ReadValue(f.key, model)
  {
    HundredRendering();
    f.(output := f.output.(value := ReadValue(f.key, model)))
  }

  /** The shape of input each field receives: a flag for the toggle, text for the rest. */
  predicate Fits(key: string, input: Input) {
    key == "isBlank" <==> input.ToggleInput?
  }

  /** The model values after the `write` callback of field `key` with `input`. */
  function Written(key: string, v: ItemValues, input: Input): (r: ItemValues)
    requires Fits(key, input)
    // what is written is what is read back: the input itself for string fields, the flag
    // for the toggle, and for priority the parsed number, or 100 when it does not parse
    ensures IsStringKey(key) ==> ReadValue(key, Some(r)) == Some(Text(input.text))
    ensures key == "isBlank" ==> r.isBlank == input.on
    ensures key == "priority" ==> r.priority == ParseInt(input.text).GetOr(100)
    // every other field reads exactly what it read before
    ensures forall k :: k in FieldKeys && k != key ==> ReadValue(k, Some(r)) == ReadValue(k, Some(v))
    ensures key !in FieldKeys ==> r == v
  {
    match key
    case "icon" => v.(icon := Some(input.text))
    case "label" => v.(text := input.text)
    case "url" => v.(url := input.text)
    case "priority" => v.(priority := ParseInt(input.text).GetOr(100))
    case "isBlank" => v.(isBlank := input.on)
    case "permission" => v.(permission := Some(input.text))
    case "notes" => v.(notes := Some(input.text))
    case _ => v
  }

  const MenusRoot: string := "/admin/system/menus/"

  /** The breadcrumb `load` sets: system, menus, the menu, its items, then this page,
      labelled "Edit" when an item id is in the route and "Create" otherwise. */
  function Breadcrumb(menuId: Uuid, itemId: Option<Uuid>, safePath: string): (r: seq<Link>)
    ensures |r| == 5
    ensures r[0] == Link("System", "/admin/system/") && r[1] == Link("Menus", MenusRoot)
    ensures r[2].text == "Menu" && r[3].text == "Items"
    ensures r[2].url == r[1].url + menuId.uuidString + "/"
    ensures r[3].url == r[2].url + "items/"
    ensures r[4].text == (if itemId.Some? then "Edit" else "Create") && r[4].url == safePath
  {
    [
      Link("System", "/admin/system/"),
      Link("Menus", MenusRoot),
      Link("Menu", MenusRoot + menuId.uuidString + "/"),
      Link("Items", MenusRoot + menuId.uuidString + "/items/"),
      Link(if itemId != None then "Edit" else "Create", safePath)
    ]
  }

  /** The form's context: its optional model, its fields and its breadcrumb. */
  class EditForm {
    var model: SystemMenuItemModel?
    var fields: seq<Field>
    var breadcrumb: seq<Link>

    constructor ()
      ensures model == null && fields == CreateFormFields() && breadcrumb == []
    {
      model := null;
      fields := CreateFormFields();
      breadcrumb := [];
    }

    function ModelValues(): (r: Option<ItemValues>)
      reads this, model
    {
      if model == null then None else Some(model.Values())
    }

    /** Run the `write` callback of field `key`: `context.model?.x = input`. */
    method Write(key: string, input: Input)
      requires Fits(key, input)
      modifies model
      ensures model == old(model)
      ensures model != null ==> model.Values() == Written(key, old(model.Values()), input)
    {
      if model != null {
        match key
        case "icon" => model.icon := Some(input.text);
        case "label" => model.text := input.text;
        case "url" => model.url := input.text;
        case "priority" => model.priority := ParseInt(input.text).GetOr(100);
        case "isBlank" => model.isBlank := input.on;
        case "permission" => model.permission := Some(input.text);
        case "notes" => model.notes := Some(input.text);
        case _ =>
      }
    }

    /** `load`: without a menu id in the route, fail with bad request before touching
        the breadcrumb; otherwise set the breadcrumb and hand over to the engine's
        `context.load`, whose outcome is `contextLoad`. */
    method Load(menuId: Option<Uuid>, itemId: Option<Uuid>, safePath: string, contextLoad: Outcome)
      returns (r: Outcome)
      modifies this`breadcrumb
      ensures menuId.None? ==> r == Fail(Abort(BadRequest)) && breadcrumb == old(breadcrumb)
      ensures menuId.Some? ==> r == contextLoad && breadcrumb == Breadcrumb(menuId.value, itemId, safePath)
    {
      if menuId.None? {
        return Fail(Abort(BadRequest));
      }
      breadcrumb := Breadcrumb(menuId.value, itemId, safePath);
      return contextLoad;
    }
  }

  // ---------------------------------------------------------------------------
  // Properties

  /** The label and url validators fail exactly on empty input, with their messages. */
  lemma RequiredFields(input: string)
    ensures Check(CreateFormFields()[1].validators[0], input) ==
      if input == "" then Invalid(Some("Label is required")) else Valid
    ensures Check(CreateFormFields()[2].validators[0], input) ==
      if input == "" then Invalid(Some("URL is required")) else Valid
  {
  }

  /** Writing a priority text that parses and reading it back shows the number's
      canonical rendering; writing what was read restores the priority. */
  lemma {:induction false} PriorityRoundTrip(v: ItemValues, p: Int)
    ensures Written("priority", v, TextInput(IntToString(p))).priority == p
    ensures ReadValue("priority", Some(Written("priority", v, TextInput(IntToString(p))))) == Some(Text(IntToString(p)))
  {
    ParseIntRoundTrip(p);
  }

  /** Text that is not a number is stored as the default priority 100. */
  lemma UnparsablePriority(v: ItemValues, s: string)
    requires ParseInt(s).None?
    ensures ReadValue("priority", Some(Written("priority", v, TextInput(s)))) == Some(Text("100"))
  {
    HundredRendering();
  }
}
