/** `WebMetadataEditor`: the single required `title` field of the metadata editor. */
module WebMetadataEditor {
  import opened Common
  import opened Form

  /** `WebMetadataModel`: its `title`, and `slug` standing for the properties the
      editor does not touch (the others are not part of this model). */
  class WebMetadataModel {
    var title: string
    var slug: string

    constructor (title: string, slug: string)
      ensures this.title == title && this.slug == slug
    {
      this.title := title;
      this.slug := slug;
    }
  }

  /** `formFields`: one input field, `title`, that must not be empty. */
  function FormFields(): (fields: seq<Field>)
    ensures |fields| == 1
    ensures fields[0] == Build("title", InputField, [Required])
  {
    [Build("title", InputField, [Required])]
  }

  class Editor {
    const model: WebMetadataModel

    constructor (model: WebMetadataModel)
      ensures this.model == model
    {
      this.model := model;
    }

    /** The `read` callback: the field shows the model's title. */
    function Read(f: Field): (g: Field)
      reads model
      ensures g == f.(output := f.output.(value := Some(Text(model.title))))
    {
      f.(output := f.output.(value := Some(Text(model.title))))
    }

    /** The `write` callback: the title becomes the input; nothing else may change. */
    method Write(input: string)
      modifies model`title
      ensures model.title == input
      ensures forall f: Field :: Read(f).output.value == Some(Text(input))
    {
      model.title := input;
    }
  }

  /** Only empty titles are rejected. */
  lemma TitleRequired(input: string)
    ensures Check(FormFields()[0].validators[0], input).Invalid? <==> input == ""
  {
  }
}
