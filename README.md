# Feather core: install wizard, menu item API, editor bindings, delete guards

A Dafny model of four small pieces of the Feather CMS (Swift, Vapor):

- **The installer's response hook** (`WebModule.installResponseHook`). A state
  machine over the process-wide install configuration: the current step and the
  completion flag. A request either renders the page of the current step or, with
  the `next` query flag, performs the step. Performing `start` first runs the
  `install` handlers and then advances. Performing `custom` advances at once.
  Performing `finish` marks the installation complete and redirects to `/`. Any
  other step is not answered. Beside it sit the lists WebModule contributes to the
  installer: the `custom` step, the "Lorem" page, the welcome-page variables, the
  home menu link and the concatenated permission lists. The install hook stores
  one page per requested page.
- **The menu item API** (`WebMenuItemApi`). It maps a model to list and detail
  objects. Create and update overwrite all seven writable properties. Patch
  overwrites a property only when the patch carries it (`input.x ?? model.x`).
- **Editor field bindings** (`SystemMenuItemEditForm`, `BlogCategoryEditor`,
  `WebMetadataEditor`, `MultiSelectionField`). Each field is a record
  (`Form.Field`) with a key, a widget kind, validators, view state and, for image
  fields, the current file key. The `config`, `load` and `read` callbacks are
  functions from a field to the updated field. The `write` callbacks are methods
  on the model classes. Each is specified by a function on a value snapshot of the
  model, and that function says what reads back and what stays untouched.
- **The delete guards** (`DeleteForm`, `DeleteController`). The form delete checks
  access (forbidden), then the form's token (bad request), and only then looks up
  and removes the row. It redirects to the submitted `redirect`, or else to the
  request path. The API delete has no form: access, then removal, then no
  content. The confirmation page only reads.

Swift's `Int`, `String(Int)` and `Int(String)` are written out in `SwiftInt`. That
covers the 64-bit range, the optional sign, digits only, and nil on anything else.
This lets the editors' `priority` fallback (`Int(input) ?? 100`) and its
write-what-was-read round trip be proved rather than assumed.

The hook registry, the form engine, the nonce check, the permission check and the
database are not modelled. What they return is an input: the `install`
handlers' outcome, the next install step, the `next` query value, the route
identifier, the token's validity, the user's granted permissions, and the set of
stored ids.

## Model

| member | source | states |
|---|---|---|
| `SwiftInt.NatToDecimal` | Sources/App/Blog/Editors/BlogCategoryEditor.swift:48 | `String(n)` of a non-negative number is a non-empty run of digits whose first digit is `0` exactly for zero |
| `SwiftInt.IntToString` | Sources/FeatherCore/_SystemModule/Forms/SystemMenuItemEditForm.swift:41 | `String(i)` is non-empty and starts with `-` exactly when `i` is negative |
| `SwiftInt.ParseInt` | Sources/FeatherCore/_SystemModule/Forms/SystemMenuItemEditForm.swift:42 | `Int(text)` is nil for empty text, for a lone sign, for a first character that is neither a digit nor a sign, for a non-digit after the first character, and for a value outside the `Int` range; plain digits give their value, `+` then digits their value, `-` then digits the negated value, when in range |
| `SwiftInt.DecimalRoundTrip` | Sources/App/Blog/Editors/BlogCategoryEditor.swift:48-49 | the digits `String(n)` prints denote `n` (by induction on `n`) |
| `SwiftInt.ParseIntRoundTrip` | Sources/App/Blog/Editors/BlogCategoryEditor.swift:48-49 | `Int(String(i)) == i` for every `Int` |
| `SwiftInt.HundredRendering` | Sources/FeatherCore/_SystemModule/Forms/SystemMenuItemEditForm.swift:40 | `String(100)` is `"100"` |
| `Form.Check` | Sources/FeatherCore/_SystemModule/Forms/SystemMenuItemEditForm.swift:26 | a non-empty validator passes exactly on non-empty input; a failure carries the validator's message, or none for the engine's `required` |
| `WebModule.InstallStepHook` | Sources/FeatherCore/Modules/Web/WebModule.swift:120-124 | WebModule contributes the single install step `custom`, priority 2 |
| `WebModule.InstallWebPagesHook` | Sources/FeatherCore/Modules/Web/WebModule.swift:69-73 | WebModule requests one page, titled "Lorem" with content "ipsum" |
| `WebModule.InstallCommonVariablesHook` | Sources/FeatherCore/Modules/Web/WebModule.swift:75-104 | five variables, pairwise distinct keys, all in the `welcomePage` namespace |
| `WebModule.WebMenusHook` | Sources/FeatherCore/Modules/Web/WebModule.swift:188-192 | one menu link, "Home" to `/` with priority 100 |
| `WebModule.InstallUserPermissionsHook` | Sources/FeatherCore/Modules/Web/WebModule.swift:60-67 | the result is the module's, page, menu, menu item and metadata permission lists concatenated in that order; its length is the sum of theirs |
| `WebModule.PagesFrom` | Sources/FeatherCore/Modules/Web/WebModule.swift:57 | one page model per request, in order, with the request's title and content |
| `WebModule.InstallHook` | Sources/FeatherCore/Modules/Web/WebModule.swift:55-58 | a failure collecting the requested pages is rethrown with the table untouched; otherwise the table gains exactly the requested pages, appended in order |
| `WebModule.InstallPath` | Sources/FeatherCore/Modules/Web/WebModule.swift:128-130 | the path is `/`, the install root, `/`, the step, `/`, then `?next=true` exactly when `next` holds; it ends in something other than `/` exactly when `next` holds |
| `WebModule.InstallResponse` | Sources/FeatherCore/Modules/Web/WebModule.swift:126-179 | start+perform runs the install handlers and on success sets the step to the next one and redirects to its path, on failure throws and leaves the configuration unchanged; custom+perform advances and redirects without handlers; finish+perform sets completion, leaves the step and redirects to `/`; without the flag nothing changes and a known step renders a link to its own path with `?next=true`; any other step answers nil and changes nothing; completion becomes true only by performing `finish` |
| `WebModule.InstallResponseHook` | Sources/FeatherCore/Modules/Web/WebModule.swift:126-179 | the imperative hook over the global configuration: the new configuration and the answer are those of `InstallResponse`, with an absent `next` query value read as false |
| `WebModule.NextLinkExtendsPath` | Sources/FeatherCore/Modules/Web/WebModule.swift:128-130 | a step's rendered link is its redirect path followed by `?next=true` |
| `WebModule.InstallPathInjective` | Sources/FeatherCore/Modules/Web/WebModule.swift:128-130 | under one install root, equal install paths have equal steps and equal flags |
| `WebModule.ContributedStepsAreHandled` | Sources/FeatherCore/Modules/Web/WebModule.swift:120-124 | the step WebModule contributes is a step its response hook answers (never nil) |
| `WebModule.CompletionIsPermanent` | Sources/FeatherCore/Modules/Web/WebModule.swift:165-169 | after completion, no sequence of requests clears the completion flag |
| `WebModule.ViewingChangesNothing` | Sources/FeatherCore/Modules/Web/WebModule.swift:143-175 | any sequence of requests without the `next` flag leaves the configuration as it was |
| `WebModule.StepsComeFromRequests` | Sources/FeatherCore/Modules/Web/WebModule.swift:139 | after any sequence of requests, the current step is the initial one or the next step supplied by one of the requests |
| `WebModule.RetryAfterFailedInstall` | Sources/FeatherCore/Modules/Web/WebModule.swift:136-141 | a failed install at `start` followed by a successful retry leaves the configuration where one successful attempt leaves it |
| `WebModule.FullInstallation` | Sources/FeatherCore/Modules/Web/WebModule.swift:136-169 | from `start`, with the completion flag either way, performing start, custom and finish in turn leaves the step at `finish` with installation complete, whatever the handlers report after `start` and whatever the last request names as next step |
| `WebMenuItemApi.MapList` | Sources/FeatherCore/Modules/Web/Apis/WebMenuItemApi.swift:19-21 | the list object carries the model's id, label, url and menu id unchanged |
| `WebMenuItemApi.MapDetail` | Sources/FeatherCore/Modules/Web/Apis/WebMenuItemApi.swift:23-32 | the detail object carries the model's id and all seven writable values unchanged |
| `WebMenuItemApi.Patched` | Sources/FeatherCore/Modules/Web/Apis/WebMenuItemApi.swift:54-62 | every property takes the patch's value when the patch carries one and keeps the old value otherwise |
| `WebMenuItemApi.MapCreate` | Sources/FeatherCore/Modules/Web/Apis/WebMenuItemApi.swift:34-42 | the id is kept, the seven values become the input's, and the detail object then reports exactly the id and the input's values |
| `WebMenuItemApi.MapUpdate` | Sources/FeatherCore/Modules/Web/Apis/WebMenuItemApi.swift:44-52 | the id is kept and the values are those a create with the same input gives, whatever the model held before |
| `WebMenuItemApi.MapPatch` | Sources/FeatherCore/Modules/Web/Apis/WebMenuItemApi.swift:54-62 | the id is kept and the values are the old values patched |
| `WebMenuItemApi.EmptyPatchIsIdentity` | Sources/FeatherCore/Modules/Web/Apis/WebMenuItemApi.swift:54-62 | a patch carrying nothing changes nothing |
| `WebMenuItemApi.PatchIdempotent` | Sources/FeatherCore/Modules/Web/Apis/WebMenuItemApi.swift:54-62 | applying a patch twice equals applying it once |
| `WebMenuItemApi.FullPatchIsUpdate` | Sources/FeatherCore/Modules/Web/Apis/WebMenuItemApi.swift:44-62 | a patch carrying every property has the effect of an update with those values |
| `WebMenuItemApi.PatchesCompose` | Sources/FeatherCore/Modules/Web/Apis/WebMenuItemApi.swift:54-62 | patching with `p` then `q` equals patching once with `q` laid over `p` |
| `SystemMenuItemEditForm.CreateFormFields` | Sources/FeatherCore/_SystemModule/Forms/SystemMenuItemEditForm.swift:17-56 | seven fields with pairwise distinct keys in the order icon, label, url, priority, isBlank, permission, notes; only label and url have a validator, with the messages "Label is required" and "URL is required"; only isBlank is a toggle |
| `SystemMenuItemEditForm.Config` | Sources/FeatherCore/_SystemModule/Forms/SystemMenuItemEditForm.swift:24-40 | label and url are marked required, priority shows "100", every other field is unchanged |
| `SystemMenuItemEditForm.Read` | Sources/FeatherCore/_SystemModule/Forms/SystemMenuItemEditForm.swift:20-53 | a read changes only the shown value; with no model priority shows "100", isBlank shows false and the rest show nothing; with a model label and url show the model's strings, icon, permission and notes show the model's value or nothing when it is nil, priority shows `String(priority)` and isBlank the model's flag; the shown value is the one `Written`'s round trip is stated about |
| `SystemMenuItemEditForm.Written` | Sources/FeatherCore/_SystemModule/Forms/SystemMenuItemEditForm.swift:21-54 | a string field reads back exactly what was written; isBlank takes the flag; priority takes `Int(input) ?? 100`; every other field reads exactly what it read before |
| `SystemMenuItemEditForm.Breadcrumb` | Sources/FeatherCore/_SystemModule/Forms/SystemMenuItemEditForm.swift:63-69 | five entries System, Menus, Menu, Items and this page; the menu's URL extends the menus URL with the menu id, the items URL extends that; the last is "Edit" exactly when an item id is present, otherwise "Create" |
| `SystemMenuItemEditForm.EditForm.constructor` | Sources/FeatherCore/_SystemModule/Forms/SystemMenuItemEditForm.swift:12-15 | a new form has no model and the declared fields |
| `SystemMenuItemEditForm.EditForm.Write` | Sources/FeatherCore/_SystemModule/Forms/SystemMenuItemEditForm.swift:21-54 | with a model, its values become those `Written` gives; with no model nothing changes |
| `SystemMenuItemEditForm.EditForm.Load` | Sources/FeatherCore/_SystemModule/Forms/SystemMenuItemEditForm.swift:58-71 | with no menu id: bad request, breadcrumb untouched; otherwise the breadcrumb is set and the engine's load outcome is returned |
| `SystemMenuItemEditForm.RequiredFields` | Sources/FeatherCore/_SystemModule/Forms/SystemMenuItemEditForm.swift:25-35 | the label and url validators fail exactly on empty input, with their messages |
| `SystemMenuItemEditForm.PriorityRoundTrip` | Sources/FeatherCore/_SystemModule/Forms/SystemMenuItemEditForm.swift:41-42 | writing `String(p)` stores `p`, and reading it back shows `String(p)` |
| `SystemMenuItemEditForm.UnparsablePriority` | Sources/FeatherCore/_SystemModule/Forms/SystemMenuItemEditForm.swift:42 | text that does not parse is stored as 100 and reads back as "100" |
| `BlogCategoryEditor.FormFields` | Sources/App/Blog/Editors/BlogCategoryEditor.swift:17-50 | fields image, title, excerpt, color, priority, with distinct keys; only title has a validator, the required one; image stores under `blog/category/` |
| `BlogCategoryEditor.Load` | Sources/App/Blog/Editors/BlogCategoryEditor.swift:21-25 | the image field's preview becomes the resolved URL of the stored key when there is one; otherwise the field is unchanged |
| `BlogCategoryEditor.Config` | Sources/App/Blog/Editors/BlogCategoryEditor.swift:45-47 | priority shows "100"; other fields are unchanged |
| `BlogCategoryEditor.Read` | Sources/App/Blog/Editors/BlogCategoryEditor.swift:26-48 | image takes the stored key as its current key; title, excerpt and color show the model's values; priority shows `String(priority)` |
| `BlogCategoryEditor.Written` | Sources/App/Blog/Editors/BlogCategoryEditor.swift:27-49 | image stores its current key; title, excerpt and color read back what was written; priority takes `Int(input) ?? 100`; each write leaves the four other properties unchanged |
| `BlogCategoryEditor.Editor.Write` | Sources/App/Blog/Editors/BlogCategoryEditor.swift:27-49 | the model's values become those `Written` gives |
| `BlogCategoryEditor.ImageRoundTrip` | Sources/App/Blog/Editors/BlogCategoryEditor.swift:26-27 | reading the image field and writing it back restores the stored key |
| `BlogCategoryEditor.PriorityRoundTrip` | Sources/App/Blog/Editors/BlogCategoryEditor.swift:48-49 | writing the priority read as `String(p)` restores `p`, and the field reads the same again |
| `BlogCategoryEditor.TitleRequired` | Sources/App/Blog/Editors/BlogCategoryEditor.swift:29-32 | the title validator rejects exactly the empty title |
| `WebMetadataEditor.FormFields` | Sources/FeatherCore/Modules/Web/Editors/WebMetadataEditor.swift:19-26 | exactly one field, the input `title` with the required validator |
| `WebMetadataEditor.Editor.Read` | Sources/FeatherCore/Modules/Web/Editors/WebMetadataEditor.swift:24 | the field shows the model's title and nothing else changes |
| `WebMetadataEditor.Editor.Write` | Sources/FeatherCore/Modules/Web/Editors/WebMetadataEditor.swift:25 | only the title may change, it becomes the input, and a read then shows the input |
| `WebMetadataEditor.TitleRequired` | Sources/FeatherCore/Modules/Web/Editors/WebMetadataEditor.swift:21-23 | only empty titles are rejected |
| `MultiSelectionField.MultiSelectionField.constructor` | Sources/FeatherCore/Form/Fields/MultiselectionField.swift:16-24 | field, input and output keys all equal `key`; `output.required` equals `required`; a required field has exactly one required validator, an optional one none |
| `MultiSelectionField.DefaultIsOptional` | Sources/FeatherCore/Form/Fields/MultiselectionField.swift:16 | leaving out `required` builds an optional field with no validator |
| `DeleteController.DeleteForm.constructor` | Sources/App/Feather/Controllers/DeleteController.swift:15-21 | the form posts, its submit label is "Delete", and it keeps the given redirect |
| `DeleteController.DeleteForm.CreateFields` | Sources/App/Feather/Controllers/DeleteController.swift:24-26 | a single hidden field without validators, built from the redirect, or "" when there is none |
| `DeleteController.DeleteAccess` | Sources/App/Feather/Controllers/DeleteController.swift:42-44 | access is exactly holding the model's `delete` permission |
| `DeleteController.FindBy` | Sources/App/Feather/Controllers/DeleteController.swift:47 | the lookup succeeds exactly for a parsed identifier that is stored; a parse failure is passed on, a missing row is not found |
| `DeleteController.DeleteView` | Sources/App/Feather/Controllers/DeleteController.swift:46-52 | succeeds exactly when the row exists, then shows it with a POST form labelled "Delete" holding one hidden field; it cannot change the store |
| `DeleteController.DeleteOutcome` | Sources/App/Feather/Controllers/DeleteController.swift:54-73 | without access: forbidden, store unchanged, whatever the token; with access but an invalid token: bad request, store unchanged; when both pass but the lookup fails, its failure; success exactly when both pass and the row exists, and then the row alone is removed and the target is the submitted redirect or else the request path |
| `DeleteController.Delete` | Sources/App/Feather/Controllers/DeleteController.swift:54-73 | the imperative action: the new store and the answer are those of `DeleteOutcome` with `deleteAccess` as the access flag |
| `DeleteController.DeleteApiOutcome` | Sources/App/Feather/Controllers/DeleteController.swift:75-83 | without access: forbidden, store unchanged; with access but a failed lookup, its failure; success exactly when the row exists, then it alone is removed and the answer is no content |
| `DeleteController.DeleteApi` | Sources/App/Feather/Controllers/DeleteController.swift:75-83 | the imperative action: the new store and the answer are those of `DeleteApiOutcome` |
| `DeleteController.FormAndApiAgree` | Sources/App/Feather/Controllers/DeleteController.swift:54-83 | with a valid token, the form delete and the API delete leave the same rows and succeed together |
| `DeleteController.DeleteRemovesAtMostOne` | Sources/App/Feather/Controllers/DeleteController.swift:54-73 | a delete never adds rows and removes at most the row it names |

## Left out

- The hook registry (`register`, `invokeAll*`) and the form engine (`load`, `validate`, field processing, applying writes), including `FormFieldValidator.required`'s message. Their code is not part of this model. Their results enter as inputs: the `install` handlers' outcome, the pages collected from all modules, the next install step, the engine's load outcome and the token's validity.
- Nonce generation in `deleteView` and nonce checking in `delete` are not modelled; the check enters as a flag.
- `req.checkAccess(for:)` is modelled as membership in the user's granted permissions. `Model.permission(.delete)` is assumed to name the model's module, the model and the action `delete`.
- `identifier(req)` enters as a result that may already have failed. `findBy` is assumed to throw not found for a missing row. The forced cast `as!` in `deleteApi` is taken to succeed.
- Database failures are not modelled: `create(on:)` and `delete(on:)` always succeed, and the store is a set of ids (a list of pages for the install hook).
- A failed `install` run is not rolled back: handlers that finished before the failure keep their effects (for example the page `installHook` stores), and a retry runs them again. The model tracks only the configuration.
- Concurrency: requests are served one at a time, so two concurrent "perform step" requests racing on the configuration are not modelled.
- Rendering: templates become records (`InstallPage`, `DeletePage`), redirects become their target, and `safePath()` and `fs.resolve(key:)` are inputs.
- The DTO and model property types are not shown in the source. Which properties are optional is assumed property by property: `icon`, `permission`, `notes`, `excerpt`, `color` and `imageKey` are optional; `label`, `url`, `priority`, `isBlank`, `menuId` and `title` are plain; every property of the patch object is optional.
- `FeatherInstallStep.start` and `.finish` are assumed to have the keys `"start"` and `"finish"`; their declaration is not part of this model.
- `DeleteForm.CreateFields`: the argument of `HiddenField(redirect ?? "")` is taken to be the field's key, like the argument of `InputField("title")`; the field type's declaration is not part of this model.
- `Form.Check`: `FormFieldValidator.required` is assumed to reject exactly the empty input, like the explicit `!$0.input.isEmpty` validators; its code is not part of this model. `BlogCategoryEditor.TitleRequired` and `WebMetadataEditor.TitleRequired` rest on this.
- `SystemMenuItemEditForm.EditForm.constructor`: the breadcrumb is assumed to start empty; `FeatherFormContext.init` is not part of this model.
- `Int` is taken to be Swift's 64-bit `Int`.
- The model's `WebMetadataModel` keeps only `title` and `slug`. Its other properties are not part of this model. The write's frame names `title` alone, so it cannot touch any of them.
- `MultiSelectionField`'s `GenericInput` keeps only its key; its initial value is not part of this model.
- The rest of `WebModule` is left out: `boot`, `responseHook` (a database query plus a render), `webMiddlewaresHook` and `adminWidgetsHook`. So are the query-builder helpers, `MultifileField` (its behaviour is the parent's `process`), the label template, the router, `main.swift`, `Package.swift` and the plain data carriers.
- The response hook does not order steps by priority and does not consult `isCompleted`. The next step is an input, and completion is only recorded.
