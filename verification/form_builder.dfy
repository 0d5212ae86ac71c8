/** The form editor's working copy (`FormBuilder`): a title, a description
    and a list of field objects, seeded from the schema being edited, changed
    by the editor's inputs and buttons, and merged back over the schema on
    save. The field list is react-hook-form's field array, whose `append`
    and `remove` are a sequence append and a removal at an index. */
module FormBuilder {
  import opened Wrappers
  import opened Json

  const NewQuestionLabel := "New Question"
  const NewQuestionType := "text"
  const IdPrefix := "field_"
  /** The options of the field-type select. */
  const TypeChoices: set<string> :=
    {"text", "textarea", "email", "number", "select", "radio", "checkbox", "date"}

  /** A field array react-hook-form can edit: a JSON array of objects. */
  predicate IsFieldArray(v: Json) {
    v.Arr? && forall i | 0 <= i < |v.items| :: v.items[i].Obj?
  }

  /** The field objects of a field array. */
  function FieldMaps(v: Json): (fields: seq<map<string, Json>>)
    requires IsFieldArray(v)
    ensures |fields| == |v.items|
    ensures forall i | 0 <= i < |fields| :: v.items[i] == Obj(fields[i])
  {
    seq(|v.items|, i requires 0 <= i < |v.items| => v.items[i].members)
  }

  /** The JSON array of the field objects. */
  function FieldsJson(fields: seq<map<string, Json>>): (v: Json)
    ensures IsFieldArray(v) && FieldMaps(v) == fields
  {
    Arr(seq(|fields|, i requires 0 <= i < |fields| => Obj(fields[i])))
  }

  /** The field "Add Question" appends when the clock reads `now`: an id
      "field_" followed by the decimal clock reading, a label that passes the
      `required` rule, the first type of the select, and not required. */
  function NewQuestion(now: nat): (q: map<string, Json>)
    ensures q.Keys == {"id", "label", "type", "required"}
    ensures q["id"].Str? && |IdPrefix| <= |q["id"].s| && q["id"].s[..|IdPrefix|] == IdPrefix
    ensures q["id"].Str? && NumeralValue(q["id"].s[|IdPrefix|..]) == now
    ensures q["id"] == Str(IdPrefix + DecimalDigits(now)) && Canonical(DecimalDigits(now))
    ensures Filled(Some(q["label"]))
    ensures q["type"] == Str(NewQuestionType) && NewQuestionType in TypeChoices
    ensures q["required"] == Bool(false)
  {
    map["id" := Str(IdPrefix + DecimalDigits(now)),
        "label" := Str(NewQuestionLabel),
        "type" := Str(NewQuestionType),
        "required" := Bool(false)]
  }

  /** Questions added at different clock readings get different ids. */
  lemma NewQuestionIdsDiffer(a: nat, b: nat)
    requires a != b
    ensures NewQuestion(a)["id"] != NewQuestion(b)["id"]
  {
  }

  /** `s` without its element at `index`. */
  function RemoveAt<T>(s: seq<T>, index: nat): (r: seq<T>)
    requires index < |s|
    ensures |r| == |s| - 1
    ensures forall j | 0 <= j < index :: r[j] == s[j]
    ensures forall j | index <= j < |r| :: r[j] == s[j + 1]
  {
    s[..index] + s[index + 1..]
  }

  /** Removing what was just appended restores the list. */
  lemma RemoveAppended<T>(s: seq<T>, x: T)
    ensures RemoveAt(s + [x], |s|) == s
  {
  }

  /** A value passes react-hook-form's `required` rule: it is present and
      neither `null`, `""`, `false` nor an empty array. */
  function Filled(v: Option<Json>): (b: bool)
    ensures b ==> v.Some? && v.value != Null
    ensures v.Some? && v.value.Str? ==> (b <==> v.value.s != "")
    ensures v.Some? && v.value.Bool? ==> (b <==> v.value.b)
    ensures v.Some? && v.value.Arr? ==> (b <==> v.value.items != [])
    ensures v.Some? && (v.value.Num? || v.value.Obj?) ==> b
  {
    v.Some? && v.value != Null && v.value != Str("") && v.value != Bool(false) && v.value != Arr([])
  }

  /** Every field's label input passes its `required` rule. */
  predicate LabelsFilled(fields: seq<map<string, Json>>) {
    forall i | 0 <= i < |fields| :: Filled(Get(fields[i], "label"))
  }

  /** `{...schema, ...data}`: every key of either, the value of `data`
      winning on the keys they share. */
  function Merge(schema: map<string, Json>, data: map<string, Json>): (r: map<string, Json>)
    ensures r.Keys == schema.Keys + data.Keys
    ensures forall k | k in data :: r[k] == data[k]
    ensures forall k | k in schema && k !in data :: r[k] == schema[k]
  {
    schema + data
  }

  /** The values react-hook-form submits: the title, the description (left
      out when it is `undefined`) and the field array. */
  function FormData(title: Json, description: Option<Json>, fields: seq<map<string, Json>>): (data: map<string, Json>)
    ensures data.Keys == {"title", "fields"} + (if description.Some? then {"description"} else {})
    ensures data["title"] == title && data["fields"] == FieldsJson(fields)
    ensures description.Some? ==> data["description"] == description.value
  {
    var data := map["title" := title, "fields" := FieldsJson(fields)];
    if description.Some? then data["description" := description.value] else data
  }

  /** Saving an unedited working copy gives back the schema it came from,
      when every registered input has a value to start from: the description
      and each field's label, type and required flag (an input without one
      is read back from the page, which is not part of this model). */
  lemma UneditedSaveRoundTrip(schema: map<string, Json>)
    requires "title" in schema && "description" in schema
    requires "fields" in schema && IsFieldArray(schema["fields"])
    requires forall i | 0 <= i < |schema["fields"].items| ::
      && "label" in schema["fields"].items[i].members
      && "type" in schema["fields"].items[i].members
      && "required" in schema["fields"].items[i].members
    ensures Merge(schema, FormData(schema["title"], Get(schema, "description"),
                                   FieldMaps(schema["fields"]))) == schema
  {
    var v := schema["fields"];
    var back := FieldsJson(FieldMaps(v));
    assert back.items == v.items;
  }

  class Builder {
    /** The schema being edited, as passed in. */
    const schema: map<string, Json>
    var title: Option<Json>
    var description: Option<Json>
    var fields: seq<map<string, Json>>

    /** The working copy starts as the schema's own title, description and
        fields; an absent field list is an empty one. */
    constructor (schema: map<string, Json>)
      requires "fields" in schema ==> IsFieldArray(schema["fields"])
      ensures this.schema == schema
      ensures title == Get(schema, "title") && description == Get(schema, "description")
      ensures FieldsJson(fields) == GetOr(schema, "fields", Arr([]))
    {
      this.schema := schema;
      title := Get(schema, "title");
      description := Get(schema, "description");
      var initial := if "fields" in schema then FieldMaps(schema["fields"]) else [];
      assert "fields" in schema ==> FieldsJson(initial).items == schema["fields"].items;
      fields := initial;
    }

    /** The title and every label pass their `required` rule. */
    function CanSubmit(): (b: bool)
      reads this
      ensures b ==> title.Some? && title.value != Null
      ensures b ==> forall i | 0 <= i < |fields| :: "label" in fields[i] && fields[i]["label"] != Null
      ensures title == Some(Str("")) ==> !b
      ensures fields == [] ==> (b <==> Filled(title))
    {
      Filled(title) && LabelsFilled(fields)
    }

    /** "Add Question" at clock reading `now`: one new field at the end. */
    method AddQuestion(now: nat)
      modifies this
      ensures fields == old(fields) + [NewQuestion(now)]
      ensures title == old(title) && description == old(description)
      ensures old(CanSubmit()) ==> CanSubmit()
    {
      fields := fields + [NewQuestion(now)];
    }

    /** The delete button of the field at `index`. */
    method RemoveQuestion(index: nat)
      requires index < |fields|
      modifies this
      ensures fields == RemoveAt(old(fields), index)
      ensures title == old(title) && description == old(description)
      ensures old(CanSubmit()) ==> CanSubmit()
    {
      fields := fields[..index] + fields[index + 1..];
    }

    /** Typing `text` into the title input. */
    method EditTitle(text: string)
      modifies this
      ensures title == Some(Str(text))
      ensures description == old(description) && fields == old(fields)
      ensures CanSubmit() <==> text != "" && LabelsFilled(fields)
    {
      title := Some(Str(text));
    }

    /** Typing `text` into the description textarea. */
    method EditDescription(text: string)
      modifies this
      ensures description == Some(Str(text))
      ensures title == old(title) && fields == old(fields)
    {
      description := Some(Str(text));
    }

    /** Setting key `key` of the field at `index` to `value`, leaving the
        other fields and the field's other keys as they were. */
    method SetFieldKey(index: nat, key: string, value: Json)
      requires index < |fields|
      modifies this
      ensures |fields| == |old(fields)|
      ensures fields[index] == old(fields)[index][key := value]
      ensures forall j | 0 <= j < |fields| && j != index :: fields[j] == old(fields)[j]
      ensures title == old(title) && description == old(description)
    {
      fields := fields[index := fields[index][key := value]];
    }

    /** Typing `text` into the label input of the field at `index`. */
    method EditLabel(index: nat, text: string)
      requires index < |fields|
      modifies this
      ensures fields == old(fields)[index := old(fields)[index]["label" := Str(text)]]
      ensures title == old(title) && description == old(description)
    {
      SetFieldKey(index, "label", Str(text));
    }

    /** Choosing `choice` in the type select of the field at `index`. */
    method EditType(index: nat, choice: string)
      requires index < |fields| && choice in TypeChoices
      modifies this
      ensures fields == old(fields)[index := old(fields)[index]["type" := Str(choice)]]
      ensures title == old(title) && description == old(description)
      ensures old(CanSubmit()) ==> CanSubmit()
    {
      SetFieldKey(index, "type", Str(choice));
    }

    /** Ticking or clearing the "Required" box of the field at `index`. */
    method EditRequired(index: nat, checked: bool)
      requires index < |fields|
      modifies this
      ensures fields == old(fields)[index := old(fields)[index]["required" := Bool(checked)]]
      ensures title == old(title) && description == old(description)
      ensures old(CanSubmit()) ==> CanSubmit()
    {
      SetFieldKey(index, "required", Bool(checked));
    }

    /** "Save Changes": the schema handed to `onUpdate`, or `None` when a
        `required` rule fails and `onUpdate` is not called. The handed schema
        has the edited title, description and fields, and every other key of
        the input schema with its value unchanged. */
    method Submit() returns (update: Option<map<string, Json>>)
      ensures update.Some? <==> CanSubmit()
      ensures update.Some? ==>
        var u := update.value;
        && u.Keys == schema.Keys + {"title", "fields"} + (if description.Some? then {"description"} else {})
        && u["title"] == title.value
        && u["fields"] == FieldsJson(fields)
        && (description.Some? ==> u["description"] == description.value)
        && forall k | k in schema && k !in {"title", "description", "fields"} :: u[k] == schema[k]
    {
      if !CanSubmit() {
        return None;
      }
      update := Some(Merge(schema, FormData(title.value, description, fields)));
    }
  }
}
