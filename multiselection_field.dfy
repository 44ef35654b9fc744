/** `MultiSelectionField`: a field whose input is a list of selected options. */
module MultiSelectionField {

  /** `GenericInput<[String]>`: where the field's submitted values are read from. */
  datatype GenericInput = GenericInput(key: string)

  /** `ContentValidator<[String]>.required(key:)`. */
  datatype ContentValidator = Required(key: string)

  /** `MultiSelectionFieldView`. */
  datatype MultiSelectionFieldView = MultiSelectionFieldView(key: string, required: bool)

  class MultiSelectionField {
    const key: string
    var input: GenericInput
    var validators: seq<ContentValidator>
    var output: MultiSelectionFieldView

    /** `init(key:required:)`: everything is keyed by `key`; a required field gets one
        required validator, an optional one none. */
    constructor (key: string, required: bool := false)
      ensures this.key == key && input.key == key && output.key == key
      ensures output.required == required
      ensures required ==> validators == [Required(key)]
      ensures !required ==> validators == []
    {
      this.key := key;
      input := GenericInput(key);
      validators := [];
      if required {
        validators := validators + [Required(key)];
      }
      output := MultiSelectionFieldView(key, required);
    }
  }

  /** Leaving out `required` builds an optional field. */
  method DefaultIsOptional(key: string) returns (field: MultiSelectionField)
    ensures fresh(field) && field.key == key && !field.output.required && field.validators == []
  {
    field := new MultiSelectionField(key);
  }
}
