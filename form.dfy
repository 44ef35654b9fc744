/** The parts of a form field that the editors and forms below configure: a key,
    the kind of widget, an ordered validator list, the view state the `config`,
    `load` and `read` callbacks fill in, and, for image fields, the key of the
    stored file. The engine that drives these (loading, validating, writing) is
    not part of this model. */
module Form {
  import opened Common

  /** A value shown by a field: text for text-like fields, a flag for toggles. */
  datatype Value = Text(text: string) | Flag(on: bool)

  /** A field's view state: whether it is marked required, the value it shows and,
      for image fields, the URL of the preview. */
  datatype Output = Output(required: bool, value: Option<Value>, previewUrl: Option<string>)

  /** The view state of a freshly built field. */
  const BlankOutput := Output(false, None, None)

  /** The widget types the modelled forms use; an image field carries its storage path. */
  datatype FieldKind =
    | TextField
    | TextareaField
    | ToggleField
    | InputField
    | ImageField(path: string)
    | HiddenField

  /** `FormFieldValidator(field, message) { !$0.input.isEmpty }` is `NonEmpty(message)`;
      `FormFieldValidator.required(field)` is `Required`, whose message the engine
      supplies. `NonEmpty` rejects exactly the empty input; `Required`, whose code is
      not part of this model, is taken to do the same. */
  datatype Validator = NonEmpty(message: string) | Required

  /** A validator's verdict: a failure carries the validator's own message, if it has one. */
  datatype Verdict = Valid | Invalid(message: Option<string>)

  function Check(v: Validator, input: string): (r: Verdict)
    ensures r.Valid? <==> input != ""
    ensures r.Invalid? && v.NonEmpty? ==> r.message == Some(v.message)
    ensures r.Invalid? && v.Required? ==> r.message == None
  {
    if input != "" then Valid
    else if v.NonEmpty? then Invalid(Some(v.message))
    else Invalid(None)
  }

  /** A field as built by a form: key, widget, validators, view state, and the
      `currentKey` an image field keeps for the stored file. */
  datatype Field = Field(
    key: string,
    kind: FieldKind,
    validators: seq<Validator>,
    output: Output,
    currentKey: Option<string>)

  /** A freshly built field with the given key, widget and validators. */
  function Build(key: string, kind: FieldKind, validators: seq<Validator>): (f: Field)
    ensures f.key == key && f.kind == kind && f.validators == validators
    ensures f.output == BlankOutput && f.currentKey == None
  {
    Field(key, kind, validators, BlankOutput, None)
  }

  /** Submitted input: a string for text-like fields, a flag for toggles. */
  datatype Input = TextInput(text: string) | ToggleInput(on: bool)

  /** An optional string property as the value a field shows: nothing for nil. */
  function Shown(s: Option<string>): (r: Option<Value>)
    ensures r.Some? <==> s.Some?
    ensures s.Some? ==> r.value == Text(s.value)
  {
    if s.Some? then Some(Text(s.value)) else None
  }

  function Keys(fields: seq<Field>): (keys: seq<string>)
    ensures |keys| == |fields|
    ensures forall i :: 0 <= i < |fields| ==> keys[i] == fields[i].key
  {
    seq(|fields|, i requires 0 <= i < |fields| => fields[i].key)
  }

  /** The form invariant: no two fields share a key. */
  predicate DistinctKeys(fields: seq<Field>) {
    forall i, j :: 0 <= i < |fields| && 0 <= j < |fields| && i != j ==> fields[i].key != fields[j].key
  }
}
