/** `DeleteForm` and the default `DeleteController` actions: the confirmation page,
    the form-based delete and the API delete. Each delete checks access first
    (forbidden), the form delete then checks the form's anti-forgery token (bad
    request), and only then is the row looked up and removed. The permission check
    and the token check are oracles: the user's granted permissions and a flag. */
module DeleteController {
  import opened Common
  import opened Form

  datatype HttpMethod = Get | Post

  /** `DeleteForm`: posts, is submitted with "Delete", and carries one hidden field
      built from `redirect ?? ""`. */
  class DeleteForm {
    var redirect: Option<string>
    /** `action.method`. */
    var actionMethod: HttpMethod
    var submit: string

    constructor (redirect: Option<string> := None)
      ensures this.redirect == redirect && actionMethod == Post && submit == "Delete"
    {
      this.redirect := redirect;
      actionMethod := Post;
      submit := "Delete";
    }

    /** `createFields`: the single hidden field. */
    function CreateFields(): (fields: seq<Field>)
      reads this
      ensures |fields| == 1 && fields[0].kind == HiddenField && fields[0].validators == []
      ensures redirect.Some? ==> fields[0].key == redirect.value
      ensures redirect.None? ==> fields[0].key == ""
    {
      [Build(redirect.GetOr(""), HiddenField, [])]
    }
  }

  /** `FeatherPermission`: namespace, context and action. */
  datatype Permission = Permission(namespace: string, context: string, action: string)

  /** The model a controller manages, named by its module and model keys. */
  datatype ModelIdentity = ModelIdentity(moduleKey: string, modelKey: string)

  /** `Model.permission(action)`. */
  function ModelPermission(m: ModelIdentity, action: string): Permission {
    Permission(m.moduleKey, m.modelKey, action)
  }

  /** `deleteAccess`: whether the user holds the model's delete permission. */
  function DeleteAccess(granted: set<Permission>, m: ModelIdentity): (r: bool)
    ensures r <==> Permission(m.moduleKey, m.modelKey, "delete") in granted
  {
    ModelPermission(m, "delete") in granted
  }

  /** The table of the controller's model, as the set of stored identifiers. */
  class ModelStore {
    var ids: set<Uuid>

    constructor (ids: set<Uuid>)
      ensures this.ids == ids
    {
      this.ids := ids;
    }
  }

  /** `findBy(identifier(req), on:)`: the route's identifier (`id`, which may itself
      have failed to parse), provided such a row is stored. */
  function FindBy(ids: set<Uuid>, id: Result<Uuid>): (r: Result<Uuid>)
    ensures r.Ok? <==> id.Ok? && id.value in ids
    ensures r.Ok? ==> r == id
    ensures id.Err? ==> r == id
    ensures id.Ok? && id.value !in ids ==> r == Err(Abort(NotFound))
  {
    if id.Err? then id
    else if id.value in ids then id
    else Err(Abort(NotFound))
  }

  /** What the confirmation page shows: the row and the delete form. */
  datatype DeletePage = DeletePage(item: Uuid, formMethod: HttpMethod, submit: string, fields: seq<Field>)

  /** `deleteView`: find the row and render the confirmation page with a fresh
      `DeleteForm`. Loading the form (which generates its token) is not modelled.
      The store is only read. */
  method DeleteView(db: ModelStore, id: Result<Uuid>) returns (r: Result<DeletePage>)
    ensures r.Ok? <==> id.Ok? && id.value in db.ids
    ensures r.Err? ==> r.failure == FindBy(db.ids, id).failure
    ensures r.Ok? ==> r.value.item == id.value && r.value.formMethod == Post && r.value.submit == "Delete"
    ensures r.Ok? ==> r.value.fields == [Build("", HiddenField, [])]
  {
    var found := FindBy(db.ids, id);
    if found.Err? {
      return Err(found.failure);
    }
    var form := new DeleteForm();
    var fields := form.CreateFields();
    return Ok(DeletePage(found.value, form.actionMethod, form.submit, fields));
  }

  /** `delete`, on store contents `ids`: `hasAccess` is `deleteAccess`, `formValid` the
      form's validation, `path` the request path and `redirect` the submitted
      `redirect` value. Gives the new contents and the redirect target. */
  function DeleteOutcome(ids: set<Uuid>, hasAccess: bool, formValid: bool, id: Result<Uuid>,
                         path: string, redirect: Option<string>): (r: (set<Uuid>, Result<string>))
    ensures !hasAccess ==> r == (ids, Err(Abort(Forbidden)))
    ensures hasAccess && !formValid ==> r == (ids, Err(Abort(BadRequest)))
    ensures r.1.Ok? <==> hasAccess && formValid && id.Ok? && id.value in ids
    ensures hasAccess && formValid && !(id.Ok? && id.value in ids) ==> r.1 == Err(FindBy(ids, id).failure)
    ensures r.1.Ok? ==> r.0 == ids - {id.value}
    ensures r.1.Ok? && redirect.Some? ==> r.1.value == redirect.value
    ensures r.1.Ok? && redirect.None? ==> r.1.value == path
    ensures r.1.Err? ==> r.0 == ids
  {
    if !hasAccess then (ids, Err(Abort(Forbidden)))
    else if !formValid then (ids, Err(Abort(BadRequest)))
    else
      var found := FindBy(ids, id);
      if found.Err? then (ids, Err(found.failure))
      else (ids - {found.value}, Ok(redirect.GetOr(path)))
  }

  method Delete(db: ModelStore, granted: set<Permission>, m: ModelIdentity, formValid: bool,
                id: Result<Uuid>, path: string, redirect: Option<string>)
    returns (r: Result<string>)
    modifies db
    ensures (db.ids, r) == DeleteOutcome(old(db.ids), DeleteAccess(granted, m), formValid, id, path, redirect)
  {
    var hasAccess := DeleteAccess(granted, m);
    if !hasAccess {
      return Err(Abort(Forbidden));
    }
    var form := new DeleteForm();
    if !formValid {
      return Err(Abort(BadRequest));
    }
    var found := FindBy(db.ids, id);
    if found.Err? {
      return Err(found.failure);
    }
    db.ids := db.ids - {found.value};

    var url := path;
    if redirect.Some? {
      url := redirect.value;
    }
    return Ok(url);
  }

  /** The status `deleteApi` answers with. */
  datatype HttpStatus = NoContent

  /** `deleteApi`: no form, no token; forbidden without access, otherwise the row is
      removed and the answer is no content. */
  function DeleteApiOutcome(ids: set<Uuid>, hasAccess: bool, id: Result<Uuid>): (r: (set<Uuid>, Result<HttpStatus>))
    ensures !hasAccess ==> r == (ids, Err(Abort(Forbidden)))
    ensures r.1.Ok? <==> hasAccess && id.Ok? && id.value in ids
    ensures hasAccess && !(id.Ok? && id.value in ids) ==> r.1 == Err(FindBy(ids, id).failure)
    ensures r.1.Ok? ==> r.0 == ids - {id.value} && r.1.value == NoContent
    ensures r.1.Err? ==> r.0 == ids
  {
    if !hasAccess then (ids, Err(Abort(Forbidden)))
    else
      var found := FindBy(ids, id);
      if found.Err? then (ids, Err(found.failure))
      else (ids - {found.value}, Ok(NoContent))
  }

  method DeleteApi(db: ModelStore, granted: set<Permission>, m: ModelIdentity, id: Result<Uuid>)
    returns (r: Result<HttpStatus>)
    modifies db
    ensures (db.ids, r) == DeleteApiOutcome(old(db.ids), DeleteAccess(granted, m), id)
  {
    var hasAccess := DeleteAccess(granted, m);
    if !hasAccess {
      return Err(Abort(Forbidden));
    }
    var found := FindBy(db.ids, id);
    if found.Err? {
      return Err(found.failure);
    }
    db.ids := db.ids - {found.value};
    return Ok(NoContent);
  }

  // ---------------------------------------------------------------------------
  // Properties

  /** With a valid token, the form delete and the API delete leave the same rows, and
      succeed and fail together. */
  lemma FormAndApiAgree(ids: set<Uuid>, hasAccess: bool, id: Result<Uuid>, path: string, redirect: Option<string>)
    ensures DeleteOutcome(ids, hasAccess, true, id, path, redirect).0 == DeleteApiOutcome(ids, hasAccess, id).0
    ensures DeleteOutcome(ids, hasAccess, true, id, path, redirect).1.Ok? == DeleteApiOutcome(ids, hasAccess, id).1.Ok?
  {
  }

  /** A delete removes at most the one row it names, and never adds one. */
  lemma DeleteRemovesAtMostOne(ids: set<Uuid>, hasAccess: bool, formValid: bool, id: Result<Uuid>,
                               path: string, redirect: Option<string>)
    ensures var after := DeleteOutcome(ids, hasAccess, formValid, id, path, redirect).0;
      after <= ids && (after == ids || (id.Ok? && after == ids - {id.value}))
  {
  }
}
