/** `BlogCategoryEditor`: the five fields of the blog category editor and their
    `load`, `config`, `read` and `write` callbacks over a `BlogCategoryModel`. */
module BlogCategoryEditor {
  import opened Common
  import opened SwiftInt
  import opened Form

  /** The properties the editor edits, as one value. */
  datatype CategoryValues = CategoryValues(
    imageKey: Option<string>,
    title: string,
    excerpt: Option<string>,
    color: Option<string>,
    priority: Int)

  /** `BlogCategoryModel`. */
  class BlogCategoryModel {
    var imageKey: Option<string>
    var title: string
    var excerpt: Option<string>
    var color: Option<string>
    var priority: Int

    constructor (v: CategoryValues)
      ensures Values() == v
    {
      imageKey, title, excerpt, color, priority := v.imageKey, v.title, v.excerpt, v.color, v.priority;
    }

    function Values(): CategoryValues
      reads this
    {
      CategoryValues(imageKey, title, excerpt, color, priority)
    }
  }

  const FieldKeys: seq<string> := ["image", "title", "excerpt", "color", "priority"]

  /** Where category images are stored. */
  const ImagePath: string := "blog/category/"

  /** `formFields`. */
  function FormFields(): (fields: seq<Field>)
    ensures Keys(fields) == FieldKeys
    ensures DistinctKeys(fields)
    ensures forall i :: 0 <= i < |fields| ==> fields[i].output == BlankOutput && fields[i].currentKey == None
    ensures fields[1].validators == [Required]
    ensures forall i :: 0 <= i < |fields| && i != 1 ==> fields[i].validators == []
    ensures fields[0].kind == ImageField(ImagePath) && fields[2].kind == TextareaField
    ensures fields[1].kind == InputField && fields[3].kind == InputField && fields[4].kind == InputField
  {
    [
      Build("image", ImageField(ImagePath), []),
      Build("title", InputField, [Required]),
      Build("excerpt", TextareaField, []),
      Build("color", InputField, []),
      Build("priority", InputField, [])
    ]
  }

  /** The `load` callbacks: the image field shows the preview URL the file storage
      resolves for the stored key, when there is one; otherwise nothing changes. */
  function Load(f: Field, v: CategoryValues, resolve: string -> string): (g: Field)
    ensures f.key == "image" && v.imageKey.Some? ==>
      g == f.(output := f.output.(previewUrl := Some(resolve(v.imageKey.value))))
    ensures f.key != "image" || v.imageKey.None? ==> g == f
  {
    if f.key == "image" && v.imageKey.Some? then
      f.(output := f.output.(previewUrl := Some(resolve(v.imageKey.value))))
    else f
  }

  /** The `config` callbacks: only `priority` has one, showing `String(100)`. */
  function Config(f: Field): (g: Field)
    ensures f.key == "priority" ==> g == f.(output := f.output.(value := Some(Text("100"))))
    ensures f.key != "priority" ==> g == f
  {
    if f.key == "priority" then
      HundredRendering();
      f.(output := f.output.(value := Some(Text(IntToString(100)))))
    else f
  }

  /** The `read` callbacks: the image field takes the stored key as its current key,
      the others show the model's property. */
  function Read(f: Field, v: CategoryValues): (g: Field)
    ensures f.key == "image" ==> g == f.(currentKey := v.imageKey)
    ensures f.key == "title" ==> g == f.(output := f.output.(value := Some(Text(v.title))))
    ensures f.key == "excerpt" ==> g == f.(output := f.output.(value := Shown(v.excerpt)))
    ensures f.key == "color" ==> g == f.(output := f.output.(value := Shown(v.color)))
    ensures f.key == "priority" ==> g == f.(output := f.output.(value := Some(Text(IntToString(v.priority)))))
    ensures f.key !in FieldKeys ==> g == f
  {
    match f.key
    case "image" => f.(currentKey := v.imageKey)
    case "title" => f.(output := f.output.(value := Some(Text(v.title))))
    case "excerpt" => f.(output := f.output.(value := Shown(v.excerpt)))
    case "color" => f.(output := f.output.(value := Shown(v.color)))
    case "priority" => f.(output := f.output.(value := Some(Text(IntToString(v.priority)))))
    case _ => f
  }

  /** The model values after the `write` callback of field `f` with submitted `input`
      (the image field writes its current key and ignores the text input). */
  function Written(f: Field, v: CategoryValues, input: string): (r: CategoryValues)
    // what is written reads back as written
    ensures f.key == "image" ==> Read(f, r).currentKey == f.currentKey
    ensures f.key == "title" || f.key == "excerpt" || f.key == "color" ==>
      Read(f, r).output.value == Some(Text(input))
    ensures f.key == "priority" ==> r.priority == ParseInt(input).GetOr(100)
    // and each write touches its own property only
    ensures f.key != "image" ==> r.imageKey == v.imageKey
    ensures f.key != "title" ==> r.title == v.title
    ensures f.key != "excerpt" ==> r.excerpt == v.excerpt
    ensures f.key != "color" ==> r.color == v.color
    ensures f.key != "priority" ==> r.priority == v.priority
  {
    match f.key
    case "image" => v.(imageKey := f.currentKey)
    case "title" => v.(title := input)
    case "excerpt" => v.(excerpt := Some(input))
    case "color" => v.(color := Some(input))
    case "priority" => v.(priority := ParseInt(input).GetOr(100))
    case _ => v
  }

  /** The editor, bound to the model it edits. */
  class Editor {
    const model: BlogCategoryModel

    constructor (model: BlogCategoryModel)
      ensures this.model == model
    {
      this.model := model;
    }

    /** Run the `write` callback of field `f` with submitted `input`. */
    method Write(f: Field, input: string)
      modifies model
      ensures model.Values() == Written(f, old(model.Values()), input)
    {
      match f.key
      case "image" => model.imageKey := f.currentKey;
      case "title" => model.title := input;
      case "excerpt" => model.excerpt := Some(input);
      case "color" => model.color := Some(input);
      case "priority" => model.priority := ParseInt(input).GetOr(100);
      case _ =>
    }
  }

  // ---------------------------------------------------------------------------
  // Properties

  /** Reading the image field and writing it back restores the stored key, whatever
      the model held in between. */
  lemma ImageRoundTrip(f: Field, v: CategoryValues, w: CategoryValues, input: string)
    requires f.key == "image"
    ensures Written(Read(f, v), w, input).imageKey == v.imageKey
  {
  }

  /** Writing the priority the read showed, `String(p)`, restores `p`. */
  lemma {:induction false} PriorityRoundTrip(f: Field, v: CategoryValues, w: CategoryValues)
    requires f.key == "priority"
    ensures Written(f, w, IntToString(v.priority)).priority == v.priority
    ensures Read(f, Written(f, w, IntToString(v.priority))) == Read(f, v)
  {
    ParseIntRoundTrip(v.priority);
  }

  /** The title validator rejects exactly the empty title. */
  lemma TitleRequired(input: string)
    ensures Check(FormFields()[1].validators[0], input).Invalid? <==> input == ""
  {
  }
}
