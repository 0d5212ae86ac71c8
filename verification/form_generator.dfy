/** The generator hook of the web client (`useFormGenerator`): the state it
    keeps and its two actions, `generateForm` and `saveForm`.

    Each action awaits one HTTP round trip. Here the outcome of that round
    trip is a parameter (`Response`): either the fetch or the JSON decoding
    rejected with an error message, or the server answered with a status
    flag and a decoded body. Each action returns the request it would send
    (`None` when it returns before sending). JavaScript's `null` and
    `undefined` are both `Null` in the state: the hook only tests them for
    truthiness and reads properties of them. */
module FormGenerator {
  import opened Wrappers
  import opened Json

  const GeneratePath := "/api/v1/generate"
  const GoogleGeneratePath := "/api/v1/generate/google"
  const SavePath := "/api/v1/forms/"
  const GenerationFailed := "Generation failed"
  const UntitledForm := "Untitled Form"
  const ViewPath := "/viewform"
  const EditPath := "/edit"
  /** The message of the TypeError thrown by a property read on `null`. */
  const NullReadMessage := "Cannot read properties of null"
  /** The message of the TypeError thrown by calling a method a value lacks. */
  const NotAFunctionMessage := "is not a function"

  /** What a fetch followed by `res.json()` yields. */
  datatype Response =
    | Threw(message: string)
    | Responded(ok: bool, body: Json)

  /** A JSON POST to a backend path. */
  datatype Post = Post(path: string, body: Json)

  /** ECMAScript WhiteSpace and LineTerminator code points, the characters
      `String.prototype.trim` strips. */
  predicate IsJsWhitespace(c: char) {
    || c == '\t' || c == '\n' || c == '\U{000B}' || c == '\U{000C}' || c == '\r'
    || c == ' ' || c == '\U{00A0}' || c == '\U{1680}'
    || ('\U{2000}' <= c <= '\U{200A}')
    || c == '\U{2028}' || c == '\U{2029}' || c == '\U{202F}' || c == '\U{205F}'
    || c == '\U{3000}' || c == '\U{FEFF}'
  }

  /** Every character is whitespace. */
  predicate Blank(s: string) {
    forall i | 0 <= i < |s| :: IsJsWhitespace(s[i])
  }

  function TrimStart(s: string): (r: string)
    ensures |r| <= |s| && r == s[|s| - |r|..]
    ensures r == [] || !IsJsWhitespace(r[0])
    ensures Blank(s[..|s| - |r|])
    decreases |s|
  {
    if s != [] && IsJsWhitespace(s[0]) then
      var r := TrimStart(s[1..]);
      assert s[1..][..|s| - 1 - |r|] == s[1..|s| - |r|];
      r
    else s
  }

  function TrimEnd(s: string): (r: string)
    ensures |r| <= |s| && r == s[..|r|]
    ensures r == [] || !IsJsWhitespace(r[|r| - 1])
    ensures Blank(s[|r|..])
    decreases |s|
  {
    if s != [] && IsJsWhitespace(s[|s| - 1]) then
      var r := TrimEnd(s[..|s| - 1]);
      assert s[..|s| - 1][|r|..] + [s[|s| - 1]] == s[|r|..];
      r
    else s
  }

  /** `s.trim()`: `TrimEnd` after `TrimStart`, so what it removes is exactly
      the leading and then the trailing whitespace; neither end of the
      result is whitespace. */
  function Trim(s: string): (r: string)
    ensures |r| <= |s|
    ensures r == [] || (!IsJsWhitespace(r[0]) && !IsJsWhitespace(r[|r| - 1]))
  {
    var t := TrimStart(s);
    var r := TrimEnd(t);
    assert r != [] ==> r[0] == t[0];
    r
  }

  /** `!prompt.trim()` holds exactly for blank prompts. */
  lemma TrimEmptyIffBlank(s: string)
    ensures Trim(s) == "" <==> Blank(s)
  {
  }

  /** The substring `pat` starts at position `j` of `s`. */
  predicate OccursAt(s: string, pat: string, j: nat) {
    j + |pat| <= |s| && s[j..j + |pat|] == pat
  }

  /** The position of the first occurrence of `pat` in `s`. */
  function IndexOf(s: string, pat: string): (r: Option<nat>)
    ensures r.Some? ==> OccursAt(s, pat, r.value)
    ensures r.Some? ==> forall j: nat | j < r.value :: !OccursAt(s, pat, j)
    ensures r.None? ==> forall j: nat :: !OccursAt(s, pat, j)
    decreases |s|
  {
    if |pat| > |s| then None
    else if s[..|pat|] == pat then Some(0)
    else
      var rest := IndexOf(s[1..], pat);
      OccursAtShift(s, pat);
      assert !OccursAt(s, pat, 0);
      match rest
      case None => None
      case Some(k) => Some(k + 1)
  }

  /** Occurrences in the tail of `s` are the later occurrences in `s`. */
  lemma OccursAtShift(s: string, pat: string)
    requires s != []
    ensures forall j: nat | 1 <= j :: OccursAt(s, pat, j) <==> OccursAt(s[1..], pat, j - 1)
  {
  }

  /** `s.includes(pat)`. */
  predicate Includes(s: string, pat: string) {
    IndexOf(s, pat).Some?
  }

  /** `s.replace(pat, rep)` with a string pattern: only the first occurrence
      is replaced. A replacement holding `$` patterns (`$&`, `$1`, ...) would
      be expanded by JavaScript; this copies `rep` literally, which is what
      JavaScript does for a replacement without `$`, such as "/edit". */
  function ReplaceFirst(s: string, pat: string, rep: string): (r: string)
    ensures !Includes(s, pat) ==> r == s
    ensures Includes(s, pat) ==>
      var i := IndexOf(s, pat).value;
      && |r| == |s| - |pat| + |rep|
      && r[..i] == s[..i]
      && OccursAt(r, rep, i)
      && r[i + |rep|..] == s[i + |pat|..]
  {
    match IndexOf(s, pat)
    case None => s
    case Some(i) => s[..i] + rep + s[i + |pat|..]
  }

  /** The form shown after a failed generation; `error` is truthy, which is
      what the preview tests to show the failure. */
  function ErrorForm(message: string): (f: Json)
    ensures f.Obj? && f.members.Keys == {"title", "fields", "error", "details"}
    ensures Member(f, "error") == Some(Str("Failed")) && TruthyMember(Member(f, "error"))
    ensures Member(f, "details") == Some(Str(message))
    ensures Member(f, "title") == Some(Str("Error")) && Member(f, "fields") == Some(Arr([]))
  {
    Obj(map["title" := Str("Error"), "fields" := Arr([]), "error" := Str("Failed"), "details" := Str(message)])
  }

  /** The message of the error thrown for a non-OK generation response:
      `new Error(data.detail || "Generation failed")`, where the read of
      `detail` itself throws on a `null` body, and the constructor's
      conversion of `detail` to a string throws where `String` does. */
  function FailureMessage(data: Json): (r: string)
    ensures data == Null ==> r == NullReadMessage
    ensures data != Null && !TruthyMember(Member(data, "detail")) ==> r == GenerationFailed
    ensures TruthyMember(Member(data, "detail")) && Convertible(Member(data, "detail").value) ==>
      Success(r) == JsString(Member(data, "detail").value)
    ensures TruthyMember(Member(data, "detail")) && !Convertible(Member(data, "detail").value) ==>
      r == ToPrimitiveMessage
    ensures forall m | m != "" :: Member(data, "detail") == Some(Str(m)) ==> r == m
    ensures forall n: int | n != 0 :: Member(data, "detail") == Some(Num(n)) ==>
      r == if n > 0 then DecimalDigits(n) else "-" + DecimalDigits(-n)
    ensures Member(data, "detail") == Some(Bool(true)) ==> r == "true"
  {
    if data == Null then NullReadMessage
    else
      var detail := Member(data, "detail");
      if !TruthyMember(detail) then GenerationFailed
      else
        match JsString(detail.value)
        case Success(message) => message
        case Failure(thrown) => thrown
  }

  /** `data.schema`, with `undefined` read as `Null`. */
  function SchemaOf(data: Json): (r: Json)
    ensures data.Obj? && "schema" in data.members ==> r == data.members["schema"]
    ensures !(data.Obj? && "schema" in data.members) ==> r == Null
  {
    match Member(data, "schema")
    case Some(v) => v
    case None => Null
  }

  /** The edit URL that a Google generation sets, or the message of the
      TypeError thrown while deriving it. An `editUrl` in the response wins.
      Otherwise a falsy `formUrl` short-circuits to none, a string `formUrl`
      containing "/viewform" gives the URL with the first "/viewform"
      replaced by "/edit", and any other string gives none. A truthy
      `formUrl` that is not a string has no `replace` method, so it throws
      when `includes` succeeds or, lacking `includes` too, at once. */
  function EditUrlFor(formUrl: Json, editUrl: Option<Json>): (r: Result<Json, string>)
    ensures TruthyMember(editUrl) ==> r == Success(editUrl.value)
    ensures !TruthyMember(editUrl) && formUrl.Str? ==>
      r.Success? && (r.value != Null <==> Includes(formUrl.s, ViewPath))
    ensures !TruthyMember(editUrl) && formUrl.Str? && Includes(formUrl.s, ViewPath) ==>
      r == Success(Str(ReplaceFirst(formUrl.s, ViewPath, EditPath)))
    ensures !TruthyMember(editUrl) && !Truthy(formUrl) ==> r == Success(Null)
    ensures !TruthyMember(editUrl) && Truthy(formUrl) && !formUrl.Str? ==>
      (r.Failure? <==> !formUrl.Arr? || Str(ViewPath) in formUrl.items)
    ensures !TruthyMember(editUrl) && formUrl.Arr? && Str(ViewPath) !in formUrl.items ==>
      r == Success(Null)
    ensures r.Failure? ==> r.error == NotAFunctionMessage
  {
    if TruthyMember(editUrl) then Success(editUrl.value)
    else if !Truthy(formUrl) then Success(Null)
    else
      match formUrl
      case Str(s) =>
        if Includes(s, ViewPath) then Success(Str(ReplaceFirst(s, ViewPath, EditPath))) else Success(Null)
      case Arr(items) =>
        // `includes` exists on arrays but `replace` does not
        if Str(ViewPath) in items then Failure(NotAFunctionMessage) else Success(Null)
      case _ => Failure(NotAFunctionMessage)
  }

  /** The request body `saveForm` posts. `JSON.stringify` omits the
      "description" key when the form has none. */
  function SaveBody(form: Json): (body: Json)
    ensures body.Obj? && "title" in body.members && "schema_body" in body.members
    ensures body.members.Keys ==
      {"title", "schema_body"} + if Member(form, "description").Some? then {"description"} else {}
    ensures body.members["schema_body"] == form
    ensures TruthyMember(Member(form, "title")) ==> body.members["title"] == Member(form, "title").value
    ensures !TruthyMember(Member(form, "title")) ==> body.members["title"] == Str(UntitledForm)
    ensures Member(body, "description") == Member(form, "description")
  {
    var title := Member(form, "title");
    var base := map["title" := if TruthyMember(title) then title.value else Str(UntitledForm),
                    "schema_body" := form];
    match Member(form, "description")
    case Some(d) => Obj(base["description" := d])
    case None => Obj(base)
  }

  /** A save response from which a share URL is built: a fetch that
      resolved OK with a body that is not `null`. */
  predicate SaveSucceeded(response: Response) {
    response.Responded? && response.ok && response.body != Null
  }

  /** `${origin}/public/${data.id}`, or the message of the TypeError the
      substitution throws. */
  function ShareUrl(origin: string, data: Json): (r: Result<string, string>)
    ensures r.Success? <==> Member(data, "id").None? || Convertible(Member(data, "id").value)
    ensures r.Success? ==>
      |origin + "/public/"| <= |r.value| && r.value[..|origin + "/public/"|] == origin + "/public/"
    ensures r.Failure? ==> r.error == ToPrimitiveMessage
    ensures forall id :: Member(data, "id") == Some(Str(id)) ==> r == Success(origin + "/public/" + id)
    ensures Member(data, "id").None? ==> r == Success(origin + "/public/" + "undefined")
    ensures Member(data, "id").Some? && Convertible(Member(data, "id").value) ==>
      r == Success(origin + "/public/" + JsString(Member(data, "id").value).value)
    ensures forall n: int :: Member(data, "id") == Some(Num(n)) ==>
      r == Success(origin + "/public/" + if n >= 0 then DecimalDigits(n) else "-" + DecimalDigits(-n))
  {
    var id :- TemplateString(Member(data, "id"));
    Success(origin + "/public/" + id)
  }

  /** What the preview shows after a generation: the form and the two
      Google URLs. */
  datatype Shown = Shown(form: Json, formUrl: Json, editUrl: Json)

  /** What a generation answered by `response` shows, the Google toggle being
      `google`: the error form with no URLs when the try block throws before
      a URL is set; the whole body with no URLs for a plain schema; and for a
      published Google form its URL, the derived edit URL and `data.schema`,
      or the error form if deriving the edit URL throws. */
  function Generated(google: bool, response: Response): (r: Shown)
    ensures response.Threw? ==> r == Shown(ErrorForm(response.message), Null, Null)
    ensures response.Responded? && !response.ok ==>
      r == Shown(ErrorForm(FailureMessage(response.body)), Null, Null)
    ensures !google && response.Responded? && response.ok ==> r == Shown(response.body, Null, Null)
    // the Google toggle on and an OK response
    ensures google && response == Responded(true, Null) ==> r == Shown(ErrorForm(NullReadMessage), Null, Null)
    ensures google && response.Responded? && response.ok && response.body != Null &&
            !TruthyMember(Member(response.body, "formUrl")) ==>
      r == Shown(response.body, Null, Null)
    ensures google && response.Responded? && response.ok && TruthyMember(Member(response.body, "formUrl")) ==>
      var formUrl := Member(response.body, "formUrl").value;
      var edit := EditUrlFor(formUrl, Member(response.body, "editUrl"));
      && (edit.Success? ==> r == Shown(SchemaOf(response.body), formUrl, edit.value))
      && (edit.Failure? ==> r == Shown(ErrorForm(edit.error), formUrl, Null))
    // the Google URLs are only ever set by a successful Google generation
    ensures r.formUrl != Null ==>
      google && response.Responded? && response.ok && Member(response.body, "formUrl") == Some(r.formUrl)
    ensures r.editUrl != Null ==> r.formUrl != Null
    // a failure always leaves an error form behind
    ensures response.Threw? || !response.ok ==> TruthyMember(Member(r.form, "error"))
  {
    match response
    case Threw(message) => Shown(ErrorForm(message), Null, Null)
    case Responded(ok, data) =>
      if !ok then Shown(ErrorForm(FailureMessage(data)), Null, Null)
      else if google && data == Null then Shown(ErrorForm(NullReadMessage), Null, Null)
      else if google && TruthyMember(Member(data, "formUrl")) then
        var formUrl := Member(data, "formUrl").value;
        match EditUrlFor(formUrl, Member(data, "editUrl"))
        case Success(editUrl) => Shown(SchemaOf(data), formUrl, editUrl)
        case Failure(message) => Shown(ErrorForm(message), formUrl, Null)
      else Shown(data, Null, Null)
  }

  class Generator {
    var prompt: string
    var isGoogleChecked: bool
    var isGenerating: bool
    var generatedForm: Json
    var googleFormUrl: Json
    var googleEditUrl: Json
    var isSaving: bool
    var shareUrl: Option<string>

    /** The initial state of the hook. */
    constructor ()
      ensures prompt == "" && !isGoogleChecked && !isGenerating && !isSaving
      ensures generatedForm == Null && googleFormUrl == Null && googleEditUrl == Null
      ensures shareUrl == None
    {
      prompt := "";
      isGoogleChecked := false;
      isGenerating := false;
      generatedForm := Null;
      googleFormUrl := Null;
      googleEditUrl := Null;
      isSaving := false;
      shareUrl := None;
    }

    /** The preview shows `shown`. */
    predicate Shows(shown: Shown)
      reads this
    {
      generatedForm == shown.form && googleFormUrl == shown.formUrl && googleEditUrl == shown.editUrl
    }

    /** `generateForm()`, the server having answered `response`. */
    method GenerateForm(response: Response) returns (request: Option<Post>)
      modifies this
      ensures prompt == old(prompt) && isGoogleChecked == old(isGoogleChecked)
      ensures isSaving == old(isSaving) && shareUrl == old(shareUrl)
      // a blank prompt: nothing is sent and nothing changes
      ensures Blank(prompt) ==> request.None? && unchanged(this)
      // otherwise one request, and the loading flag is cleared whatever happens
      ensures !Blank(prompt) ==>
        && request == Some(Post(if isGoogleChecked then GoogleGeneratePath else GeneratePath,
                                Obj(map["description" := Str(prompt)])))
        && !isGenerating
        && Shows(Generated(isGoogleChecked, response))
    {
      // `!prompt.trim()`, which holds exactly for blank prompts (`TrimEmptyIffBlank`)
      if Blank(prompt) {
        return None;
      }

      isGenerating := true;
      googleFormUrl := Null;
      googleEditUrl := Null;
      generatedForm := Null;

      var endpoint := if isGoogleChecked then GoogleGeneratePath else GeneratePath;
      request := Some(Post(endpoint, Obj(map["description" := Str(prompt)])));
      Receive(response);
    }

    /** The try, catch and finally blocks of `generateForm`, entered with the
        loading flag set and the form and URLs cleared. */
    method Receive(response: Response)
      requires Shows(Shown(Null, Null, Null))
      modifies this`generatedForm, this`googleFormUrl, this`googleEditUrl, this`isGenerating
      ensures !isGenerating
      ensures Shows(Generated(isGoogleChecked, response))
    {
      // `thrown` is the message of the error the try block throws
      var thrown: Option<string> := None;
      match response {
        case Threw(message) =>
          thrown := Some(message);
        case Responded(ok, data) =>
          if !ok {
            thrown := Some(FailureMessage(data));
          } else if isGoogleChecked && data == Null {
            thrown := Some(NullReadMessage);
          } else if isGoogleChecked && TruthyMember(Member(data, "formUrl")) {
            var formUrl := Member(data, "formUrl").value;
            googleFormUrl := formUrl;
            var edit := EditUrlFor(formUrl, Member(data, "editUrl"));
            if edit.Failure? {
              thrown := Some(edit.error);
            } else {
              googleEditUrl := edit.value;
              generatedForm := SchemaOf(data);
            }
          } else {
            generatedForm := data;
          }
      }
      // the catch block
      if thrown.Some? {
        generatedForm := ErrorForm(thrown.value);
      }
      // the finally block
      isGenerating := false;
    }

    /** `saveForm()`, the page being served from `origin` and the server
        having answered `response`. */
    method SaveForm(origin: string, response: Response) returns (request: Option<Post>)
      modifies this
      ensures prompt == old(prompt) && isGoogleChecked == old(isGoogleChecked)
      ensures isGenerating == old(isGenerating)
      ensures Shows(Shown(old(generatedForm), old(googleFormUrl), old(googleEditUrl)))
      // no form: nothing is sent and nothing changes
      ensures !Truthy(generatedForm) ==> request.None? && unchanged(this)
      ensures Truthy(generatedForm) ==>
        && request == Some(Post(SavePath, SaveBody(generatedForm)))
        && !isSaving
        && shareUrl == if SaveSucceeded(response) && ShareUrl(origin, response.body).Success?
                       then Some(ShareUrl(origin, response.body).value)
                       else old(shareUrl)
    {
      if !Truthy(generatedForm) {
        return None;
      }
      isSaving := true;
      request := Some(Post(SavePath, SaveBody(generatedForm)));
      // a failed fetch, a non-OK status and a read of `id` on a null body
      // all throw before `shareUrl` is set, and so does an `id` that
      // cannot be converted to a string
      if response.Responded? && response.ok && response.body != Null {
        var url := ShareUrl(origin, response.body);
        if url.Success? {
          shareUrl := Some(url.value);
        }
      }
      isSaving := false;
    }
  }
}
