/** The schema-to-request translator of the Google Forms service
    (`GoogleFormsService.create_form` and `_create_item_request`).

    The schema arrives as a decoded JSON object whose keys may be missing.
    `create_form` first issues a `forms.create` call carrying only the title,
    then collects one `updateFormInfo` request (when the schema has a
    "description" key) and one `createItem` request per field, and hands the
    list to a single `forms.batchUpdate` call when it is not empty. The two
    API calls themselves are foreign; the model produces the values handed
    to them. Python exceptions raised on malformed input are `PyError`s,
    beside one case the model leaves open (`UnorderedKeys`). */
module GoogleForms {
  import opened Wrappers
  import opened Json

  const UntitledForm := "Untitled Form"
  const UntitledQuestion := "Untitled Question"
  const DefaultType := "text"
  const DescriptionMask := "description"

  /** The ways the translation stops short of a request list: the two
      exceptions Python raises on a malformed schema, and `UnorderedKeys`,
      which is not a Python exception but the one input the model leaves
      unmodelled: Python iterates a non-empty dict given as "options" over
      its keys in insertion order, and a map records no order. */
  datatype PyError =
    | TypeError       // iterating `None`, a bool or a number
    | AttributeError  // calling `.get` on a field that is not a dict
    | UnorderedKeys   // not modelled: a non-empty dict iterated as options

  /** The body of `forms.create`: `{"info": {"title": t, "documentTitle": d}}`. */
  datatype FormInfo = FormInfo(title: Json, documentTitle: Json)

  datatype ChoiceType = Radio | Checkbox

  /** One `{"value": opt}` entry of a choice question. */
  datatype ChoiceOption = ChoiceOption(value: Json)

  /** The type-specific key a question carries beside `textQuestion`. */
  datatype Extra =
    | NoExtra
    | ChoiceQuestion(choiceType: ChoiceType, options: seq<ChoiceOption>)
    | DateQuestion
    | TimeQuestion

  /** `{"required": r, "textQuestion": {} or {"paragraph": true}, <extra>}`. */
  datatype Question = Question(required: Json, paragraph: bool, extra: Extra)

  /** One entry of the `batchUpdate` request list. */
  datatype Request =
    | UpdateFormInfo(description: Json, updateMask: string)
    | CreateItem(title: Json, question: Question, index: nat)

  /** Python's `for x in v` over a decoded JSON value. A string yields its
      characters; an empty dict yields nothing; a non-empty dict yields its
      keys in insertion order, which a map does not record, so that case is
      `UnorderedKeys`. */
  function PyIterate(v: Json): (r: Result<seq<Json>, PyError>)
    ensures v.Arr? ==> r == Success(v.items)
    ensures v.Str? ==> r.Success? && |r.value| == |v.s|
    ensures v.Str? ==> forall i | 0 <= i < |v.s| :: r.value[i] == Str([v.s[i]])
    ensures v == Obj(map[]) ==> r == Success([])
    ensures v.Obj? && v.members != map[] ==> r == Failure(UnorderedKeys)
    ensures v.Null? || v.Bool? || v.Num? ==> r == Failure(TypeError)
  {
    match v
    case Arr(items) => Success(items)
    case Str(s) => Success(seq(|s|, i requires 0 <= i < |s| => Str([s[i]])))
    case Obj(members) => if members == map[] then Success([]) else Failure(UnorderedKeys)
    case _ => Failure(TypeError)
  }

  /** The loop over `schema.get("fields", [])`. Iterating a non-empty dict
      yields string keys, and the first of them fails `.get` whatever the
      order, so that case is an `AttributeError`. */
  function FieldList(v: Json): (r: Result<seq<Json>, PyError>)
    ensures v.Arr? ==> r == Success(v.items)
    ensures v.Str? ==> r.Success? && |r.value| == |v.s|
    ensures v.Str? ==> forall i | 0 <= i < |v.s| :: r.value[i] == Str([v.s[i]])
    ensures v == Obj(map[]) ==> r == Success([])
    ensures v.Obj? && v.members != map[] ==> r == Failure(AttributeError)
    ensures v.Null? || v.Bool? || v.Num? ==> r == Failure(TypeError)
    ensures r.Failure? ==> r.error != UnorderedKeys
  {
    if v.Obj? && v.members != map[] then Failure(AttributeError) else PyIterate(v)
  }

  /** The field's "type", "text" when the key is absent. */
  function TypeTag(m: map<string, Json>): Json {
    GetOr(m, "type", Str(DefaultType))
  }

  predicate IsChoiceTag(t: Json) {
    t == Str("select") || t == Str("radio") || t == Str("checkbox")
  }

  /** The tags with their own branch in the type dispatch. */
  predicate IsKnownTag(t: Json) {
    IsChoiceTag(t) || t == Str("textarea") || t == Str("date") || t == Str("time")
  }

  /** `[{"value": opt} for opt in field.get("options", [])]`. */
  function ChoiceOptions(m: map<string, Json>): (r: Result<seq<ChoiceOption>, PyError>)
    ensures r.Success? <==> PyIterate(GetOr(m, "options", Arr([]))).Success?
    ensures r.Success? ==>
      var values := PyIterate(GetOr(m, "options", Arr([]))).value;
      |r.value| == |values| &&
      forall i | 0 <= i < |r.value| :: r.value[i] == ChoiceOption(values[i])
    ensures "options" !in m ==> r == Success([])
  {
    var values :- PyIterate(GetOr(m, "options", Arr([])));
    Success(seq(|values|, i requires 0 <= i < |values| => ChoiceOption(values[i])))
  }

  /** `_create_item_request(field, index)`: the `createItem` request for one
      field, placed at `index`. */
  function ItemRequest(field: Json, index: nat): (r: Result<Request, PyError>)
    // the error cases: a field that is not a dict, a choice field whose options are not iterable
    ensures r.Failure? <==>
      !field.Obj? || (IsChoiceTag(TypeTag(field.members)) && ChoiceOptions(field.members).Failure?)
    ensures r.Failure? ==> r.error == if field.Obj? then ChoiceOptions(field.members).error else AttributeError
    ensures r.Success? ==> field.Obj? && r.value.CreateItem?
    ensures r.Success? ==>
      var m, q := field.members, r.value.question;
      && r.value.index == index
      // title and required, with their defaults
      && r.value.title == (if "label" in m then m["label"] else Str(UntitledQuestion))
      && q.required == (if "required" in m then m["required"] else Bool(false))
      // the type dispatch
      && (q.paragraph <==> TypeTag(m) == Str("textarea"))
      && (q.extra.ChoiceQuestion? <==> IsChoiceTag(TypeTag(m)))
      && (q.extra.ChoiceQuestion? ==>
            && (q.extra.choiceType == Checkbox <==> TypeTag(m) == Str("checkbox"))
            && Success(q.extra.options) == ChoiceOptions(m))
      && (q.extra == DateQuestion <==> TypeTag(m) == Str("date"))
      && (q.extra == TimeQuestion <==> TypeTag(m) == Str("time"))
      && (!IsKnownTag(TypeTag(m)) ==> !q.paragraph && q.extra == NoExtra)
  {
    if !field.Obj? then Failure(AttributeError)
    else
      var m := field.members;
      var itemTitle := GetOr(m, "label", Str(UntitledQuestion));
      var fieldType := TypeTag(m);
      var required := GetOr(m, "required", Bool(false));
      var question :-
        if fieldType == Str("textarea") then
          Success(Question(required, true, NoExtra))
        else if fieldType == Str("select") || fieldType == Str("radio") then
          var options :- ChoiceOptions(m);
          Success(Question(required, false, ChoiceQuestion(Radio, options)))
        else if fieldType == Str("checkbox") then
          var options :- ChoiceOptions(m);
          Success(Question(required, false, ChoiceQuestion(Checkbox, options)))
        else if fieldType == Str("date") then
          Success(Question(required, false, DateQuestion))
        else if fieldType == Str("time") then
          Success(Question(required, false, TimeQuestion))
        else
          Success(Question(required, false, NoExtra));
      Success(CreateItem(itemTitle, question, index))
  }

  /** The JSON text of a question. */
  function RenderQuestion(q: Question): Json {
    var text := if q.paragraph then Obj(map["paragraph" := Bool(true)]) else Obj(map[]);
    var base := map["required" := q.required, "textQuestion" := text];
    Obj(match q.extra
        case NoExtra => base
        case ChoiceQuestion(t, options) =>
          base["choiceQuestion" := Obj(map[
            "type" := Str(if t == Radio then "RADIO" else "CHECKBOX"),
            "options" := Arr(seq(|options|, i requires 0 <= i < |options| =>
                                   Obj(map["value" := options[i].value])))])]
        case DateQuestion => base["dateQuestion" := Obj(map[])]
        case TimeQuestion => base["timeQuestion" := Obj(map[])])
  }

  /** The JSON text of a request. Every request is a non-empty dict, so it is
      truthy to Python. */
  function Render(r: Request): (j: Json)
    ensures PyTruthy(j)
  {
    match r
    case UpdateFormInfo(description, mask) =>
      var body := map["updateFormInfo" := Obj(map[
        "info" := Obj(map["description" := description]),
        "updateMask" := Str(mask)])];
      assert "updateFormInfo" in body;
      Obj(body)
    case CreateItem(title, question, index) =>
      var body := map["createItem" := Obj(map[
        "item" := Obj(map["title" := title, "questionItem" := Obj(map["question" := RenderQuestion(question)])]),
        "location" := Obj(map["index" := Num(index)])])];
      assert "createItem" in body;
      Obj(body)
  }

  /** The `createItem` requests for `fields`, the k-th at index k; the first
      failing field decides the error. */
  function ItemRequests(fields: seq<Json>): Result<seq<Request>, PyError>
    decreases |fields|
  {
    if fields == [] then Success([])
    else
      var n := |fields| - 1;
      var done :- ItemRequests(fields[..n]);
      var last :- ItemRequest(fields[n], n);
      Success(done + [last])
  }

  /** The optional `updateFormInfo` request. */
  function DescriptionRequests(schema: map<string, Json>): seq<Request> {
    if "description" in schema then [UpdateFormInfo(schema["description"], DescriptionMask)] else []
  }

  /** The request list `create_form` builds for `schema`: the optional
      description request, then the item requests; a fields value that
      cannot be listed stops it before any item is built. */
  function FormRequests(schema: map<string, Json>): (r: Result<seq<Request>, PyError>)
    ensures r.Success? ==>
      |DescriptionRequests(schema)| <= |r.value| &&
      r.value[..|DescriptionRequests(schema)|] == DescriptionRequests(schema)
    ensures FieldList(GetOr(schema, "fields", Arr([]))).Failure? ==>
      r == Failure(FieldList(GetOr(schema, "fields", Arr([]))).error)
  {
    var fields :- FieldList(GetOr(schema, "fields", Arr([])));
    var items :- ItemRequests(fields);
    Success(DescriptionRequests(schema) + items)
  }

  /** `create_form(schema)`: the body of the `forms.create` call, and then
      either the exception raised while building the requests, or the body of
      the `forms.batchUpdate` call (`None` when there is nothing to send, in
      which case the call is skipped). */
  method CreateForm(schema: map<string, Json>) returns (create: FormInfo, batch: Result<Option<seq<Request>>, PyError>)
    ensures create.title == create.documentTitle
    ensures create.title == if "title" in schema then schema["title"] else Str(UntitledForm)
    ensures batch.Failure? <==> FormRequests(schema).Failure?
    ensures batch.Failure? ==> batch.error == FormRequests(schema).error
    ensures batch.Success? ==>
      && (batch.value.None? <==> FormRequests(schema).value == [])
      && (batch.value.Some? ==> batch.value.value == FormRequests(schema).value)
  {
    var formTitle := GetOr(schema, "title", Str(UntitledForm));
    create := FormInfo(formTitle, formTitle);

    var requests: seq<Request> := [];
    if "description" in schema {
      requests := requests + [UpdateFormInfo(schema["description"], DescriptionMask)];
    }
    var listed := FieldList(GetOr(schema, "fields", Arr([])));
    if listed.Failure? {
      batch := Failure(listed.error);
      return;
    }
    var built := AppendItems(listed.value, requests);
    if built.Failure? {
      batch := Failure(built.error);
      return;
    }
    batch := Success(if built.value == [] then None else Some(built.value));
  }

  /** The loop of `create_form`: one `createItem` request per field appended
      to `requests`, each at the index counting the requests appended so far,
      or the exception raised on the first field that fails. */
  method AppendItems(fields: seq<Json>, requests: seq<Request>) returns (r: Result<seq<Request>, PyError>)
    ensures ItemRequests(fields).Success? ==> r == Success(requests + ItemRequests(fields).value)
    ensures ItemRequests(fields).Failure? ==> r == Failure(ItemRequests(fields).error)
  {
    var appended := requests;
    var index: nat := 0;
    for i := 0 to |fields|
      invariant index == i
      invariant ItemRequests(fields[..i]).Success?
      invariant appended == requests + ItemRequests(fields[..i]).value
    {
      var item := ItemRequest(fields[i], index);
      assert fields[..i + 1][..i] == fields[..i];
      if item.Failure? {
        ItemRequestsPrefixFailure(fields, i + 1);
        return Failure(item.error);
      }
      if PyTruthy(Render(item.value)) {
        appended := appended + [item.value];
        index := index + 1;
      }
    }
    assert fields[..|fields|] == fields;
    return Success(appended);
  }

  /** Once a prefix of the fields fails, the whole list fails with the same
      error. */
  lemma {:induction false} ItemRequestsPrefixFailure(fields: seq<Json>, j: nat)
    requires j <= |fields|
    requires ItemRequests(fields[..j]).Failure?
    ensures ItemRequests(fields) == ItemRequests(fields[..j])
    decreases |fields| - j
  {
    if j < |fields| {
      var n := |fields[..j + 1]| - 1;
      assert fields[..j + 1][..n] == fields[..j];
      ItemRequestsPrefixFailure(fields, j + 1);
    } else {
      assert fields[..j] == fields;
    }
  }

  /** The item requests succeed exactly when every field does; then there is
      one request per field, in field order, the k-th built at index k. */
  lemma {:induction false} ItemRequestsInOrder(fields: seq<Json>)
    ensures ItemRequests(fields).Success? <==>
      forall k | 0 <= k < |fields| :: ItemRequest(fields[k], k).Success?
    ensures ItemRequests(fields).Success? ==>
      var rs := ItemRequests(fields).value;
      && |rs| == |fields|
      && forall k | 0 <= k < |fields| :: rs[k] == ItemRequest(fields[k], k).value
    decreases |fields|
  {
    if fields != [] {
      var n := |fields| - 1;
      var init := fields[..n];
      ItemRequestsInOrder(init);
      assert forall k | 0 <= k < n :: init[k] == fields[k];
    }
  }

  /** On failure, the error is that of the first field that fails. */
  lemma {:induction false} ItemRequestsFirstError(fields: seq<Json>)
    requires ItemRequests(fields).Failure?
    ensures exists k | 0 <= k < |fields| ::
      && ItemRequest(fields[k], k).Failure?
      && ItemRequest(fields[k], k).error == ItemRequests(fields).error
      && forall j | 0 <= j < k :: ItemRequest(fields[j], j).Success?
    decreases |fields|
  {
    var n := |fields| - 1;
    var init := fields[..n];
    assert forall k | 0 <= k < n :: init[k] == fields[k];
    if ItemRequests(init).Failure? {
      ItemRequestsFirstError(init);
      var k :| 0 <= k < |init| && ItemRequest(init[k], k).Failure?
        && ItemRequest(init[k], k).error == ItemRequests(init).error
        && forall j | 0 <= j < k :: ItemRequest(init[j], j).Success?;
      assert ItemRequest(fields[k], k).Failure?;
    } else {
      ItemRequestsInOrder(init);
      assert ItemRequest(fields[n], n).Failure?;
    }
  }

  /** The layout of a successful request list: the `updateFormInfo` request
      first and only if the schema has a "description" key, whatever its
      value; then one `createItem` per field, in schema order, the k-th field
      at location index k. */
  lemma FormRequestsLayout(schema: map<string, Json>)
    requires FormRequests(schema).Success?
    ensures
      var rs := FormRequests(schema).value;
      var fields := FieldList(GetOr(schema, "fields", Arr([]))).value;
      var offset := if "description" in schema then 1 else 0;
      && |rs| == |fields| + offset
      && ((|rs| > 0 && rs[0].UpdateFormInfo?) <==> "description" in schema)
      && ("description" in schema ==> rs[0] == UpdateFormInfo(schema["description"], "description"))
      && (forall j | offset <= j < |rs| ::
            && rs[j].CreateItem?
            && rs[j].index == j - offset
            && Success(rs[j]) == ItemRequest(fields[j - offset], j - offset))
  {
    var fields := FieldList(GetOr(schema, "fields", Arr([]))).value;
    ItemRequestsInOrder(fields);
  }

  /** `create_form` raises exactly when the fields are not a list, or one of
      them is not a dict, or a choice field's options cannot be listed. */
  lemma FormRequestsFailure(schema: map<string, Json>)
    ensures FormRequests(schema).Failure? <==>
      var listed := FieldList(GetOr(schema, "fields", Arr([])));
      || listed.Failure?
      || exists k | 0 <= k < |listed.value| :: ItemRequest(listed.value[k], k).Failure?
  {
    var listed := FieldList(GetOr(schema, "fields", Arr([])));
    if listed.Success? {
      ItemRequestsInOrder(listed.value);
    }
  }

  /** `batchUpdate` is skipped exactly when the schema has no "description"
      key and no fields. */
  lemma NoBatchUpdate(schema: map<string, Json>)
    ensures FormRequests(schema) == Success([]) <==>
      "description" !in schema && FieldList(GetOr(schema, "fields", Arr([]))) == Success([])
  {
    var listed := FieldList(GetOr(schema, "fields", Arr([])));
    if listed.Success? {
      ItemRequestsInOrder(listed.value);
      if ItemRequests(listed.value).Success? {
        assert |FormRequests(schema).value| ==
          |DescriptionRequests(schema)| + |listed.value|;
      }
    }
  }
}
