# FormSync AI — verified model of the form translator, generator hook and editor

FormSync AI turns a natural-language description into a form schema
(a title, an optional description and a list of fields), lets the user edit
it, optionally publishes it to Google Forms, and saves it. This project
models, in Dafny, the three pieces of that application that hold sequential
logic, and proves what they promise:

- `google_forms.dfy` (module `GoogleForms`): the service that translates a
  loosely-typed schema into the request list of the Google Forms API
  `forms.batchUpdate` call. It covers the default title, the optional
  `updateFormInfo` request, one `createItem` per field in schema order with
  its location index, the type dispatch table, choice options, and the
  Python exceptions raised on malformed schemas. One input is left open:
  a non-empty dict given as "options", whose key order a map does not keep,
  ends the model's translation with `UnorderedKeys`, which stands for "not
  modelled" rather than for anything Python raises.
- `form_generator.dfy` (module `FormGenerator`): the web client's generator
  hook as a class whose fields are the hook's state. `GenerateForm` and
  `SaveForm` take the HTTP outcome as a parameter and return the request they
  send. It also covers the `/viewform` → `/edit` edit-URL rule, with a
  first-occurrence search proved against its definition.
- `form_builder.dfy` (module `FormBuilder`): the editor's working copy as a
  class. It covers add and remove of questions, edits of the registered
  inputs, the `required` validation, and the save that merges the edits
  over the original schema and keeps every other key.
- `json.dfy` (module `Json`): JSON values, Python and JavaScript truthiness,
  and JavaScript string conversion. `wrappers.dfy` (module `Wrappers`) holds
  `Option` and `Result`.

Schemas are JSON objects modelled as `map<string, Json>`, so "the key is
present" (`"description" in schema`) and "the key has a value"
(`schema.get(key, default)`) are separate. Nothing foreign is called. Three
things come in as parameters instead: the HTTP round trip (a `Response`),
the clock reading (`now`) and the page origin (`origin`). The Google API
calls are represented by the request values built for them.

The code's field types are `text`, `textarea`, `email`, `number`,
`select`, `radio`, `checkbox`, `date` and, in the translator, `time`; no
enumeration is enforced. A new question's id is `field_` followed by the
clock reading. Ids from different readings are proved distinct, but
uniqueness against ids already in the schema is not guaranteed, so the model
does not claim it.

## Model

| member | source | states |
|---|---|---|
| `GoogleForms.CreateForm` | apps/api/services/google_forms.py:8-49 | The `forms.create` body carries the same value as title and documentTitle: `schema["title"]` when the key is present, else "Untitled Form". The method then either raises the translator's exception, or yields the `batchUpdate` request list, which is `None` (the call is skipped) exactly when the list is empty. Both outcomes agree with `FormRequests`, whose layout and failures the lemmas below state. |
| `GoogleForms.AppendItems` | apps/api/services/google_forms.py:39-46 | The loop over the fields appends exactly the item requests of `ItemRequests(fields)` to the requests built so far, or stops with the error of the first field that fails. Its invariants show that after i fields the appended part is the requests of the first i fields and the index equals i. |
| `GoogleForms.ItemRequest` | apps/api/services/google_forms.py:56-103 | A field yields a `createItem` at the given index. Its title is the label or "Untitled Question"; `required` is the field's value or False. The type, which defaults to "text", maps as follows: paragraph iff "textarea"; a choice question iff select/radio/checkbox, CHECKBOX iff "checkbox"; a date question iff "date"; a time question iff "time"; any other type gives only the default text question. It fails exactly when the field is not a dict (AttributeError), or is a choice field whose options Python cannot iterate (TypeError) or whose options are a non-empty dict (the unmodelled `UnorderedKeys` case). |
| `GoogleForms.ChoiceOptions` | apps/api/services/google_forms.py:76-86 | Options map one-to-one and in order to `{"value": opt}`. An absent "options" key gives the empty list. It fails exactly when the options value is not iterable (TypeError) or is a non-empty dict (the unmodelled `UnorderedKeys` case). |
| `GoogleForms.PyIterate` | apps/api/services/google_forms.py:42 | Python iteration over a JSON value: a list yields its items; a string yields its characters in order, each as a one-character string; the empty dict yields nothing. `None`, booleans and numbers raise TypeError. A non-empty dict (iterated over its keys in insertion order) is the unmodelled `UnorderedKeys` case. |
| `GoogleForms.FieldList` | apps/api/services/google_forms.py:41-43 | `for field in fields` followed by `field.get`: a list yields its items, a string one one-character string per character (on which `.get` then raises AttributeError), and an empty dict nothing; `None`, booleans and numbers raise TypeError; a non-empty dict yields its string keys, and `.get` on the first raises AttributeError. No outcome is left unmodelled. |
| `GoogleForms.Render` | apps/api/services/google_forms.py:44-46 | Every request's JSON is a truthy (non-empty) dict, so `if item_request` always holds and the index advances on every field. |
| `GoogleForms.ItemRequestsPrefixFailure` | apps/api/services/google_forms.py:42-46 | An exception raised on a field ends the loop: the whole list fails with that field's error. |
| `GoogleForms.ItemRequestsInOrder` | apps/api/services/google_forms.py:41-46 | The items succeed iff every field does. Then there is exactly one request per field, in field order, the k-th built at index k. |
| `GoogleForms.ItemRequestsFirstError` | apps/api/services/google_forms.py:41-46 | A failure carries the error of the first failing field; every earlier field succeeds. |
| `GoogleForms.FormRequestsLayout` | apps/api/services/google_forms.py:26-46 | The request count is the number of fields plus one if "description" is present. The first request is `updateFormInfo` (mask "description", carrying the value) iff the key is present, whatever its value. Every later request is the `createItem` of field k at location index k. |
| `GoogleForms.FormRequests` | apps/api/services/google_forms.py:26-46 | The request list starts with the description requests. A fields value that cannot be listed stops it with that error before any item is built. |
| `GoogleForms.FormRequestsFailure` | apps/api/services/google_forms.py:41-46 | The translation stops short of a request list iff the fields value cannot be listed or some field's item request fails; the error is Python's exception, or `UnorderedKeys` for the unmodelled dict-of-options input. |
| `GoogleForms.NoBatchUpdate` | apps/api/services/google_forms.py:48-49 | The request list is empty, so `batchUpdate` is not called, iff there is no "description" key and no field. |
| `FormGenerator.TrimStart` | apps/web/src/hooks/useFormGenerator.ts:74 | Removes exactly the leading whitespace: the result is a suffix that does not start with whitespace, and what was dropped is all whitespace. |
| `FormGenerator.TrimEnd` | apps/web/src/hooks/useFormGenerator.ts:74 | Removes exactly the trailing whitespace: the result is a prefix that does not end with whitespace, and what was dropped is all whitespace. |
| `FormGenerator.Trim` | apps/web/src/hooks/useFormGenerator.ts:74 | `trim()` never leaves whitespace at either end, and is never longer than its input. What it removes is stated by `TrimStart` and `TrimEnd`, of which it is the composition. |
| `FormGenerator.TrimEmptyIffBlank` | apps/web/src/hooks/useFormGenerator.ts:74-77 | `prompt.trim()` is empty iff every character of the prompt is whitespace. |
| `FormGenerator.IndexOf` | apps/web/src/hooks/useFormGenerator.ts:103 | Finds the first occurrence: the pattern occurs at the result and at no earlier position. None means it occurs nowhere. |
| `FormGenerator.ReplaceFirst` | apps/web/src/hooks/useFormGenerator.ts:105 | `replace` with a string pattern changes only the first occurrence. Everything before it is kept, the replacement stands at that position, and everything after the pattern follows unchanged. Without an occurrence the string is returned unchanged. The replacement is copied literally, as JavaScript does for a replacement without `$` patterns (the only one used here is "/edit"). |
| `FormGenerator.EditUrlFor` | apps/web/src/hooks/useFormGenerator.ts:101-106 | A truthy `editUrl` wins. Otherwise a falsy `formUrl` short-circuits `data.formUrl && …` and gives no edit URL. A string `formUrl` gives an edit URL iff it contains "/viewform", namely the URL with its first "/viewform" replaced by "/edit". A truthy non-string `formUrl` throws a TypeError, unless it is an array that lacks "/viewform", which leaves the edit URL null. |
| `FormGenerator.ErrorForm` | apps/web/src/hooks/useFormGenerator.ts:116 | The failure form has exactly the keys title, fields, error and details: title "Error", empty fields, `error` "Failed" (truthy), and the thrown message as `details`. |
| `FormGenerator.FailureMessage` | apps/web/src/hooks/useFormGenerator.ts:94 | The error thrown for a non-OK response carries `String(detail)` for every truthy `detail` that converts, and the conversion's TypeError message for one that does not (an object holding a "toString" key): a non-empty string as it is, a non-zero number as its decimal numeral (with "-" when negative), `true` as "true". "Generation failed" is used when `detail` is absent or falsy. A `null` body throws the null-read TypeError instead. |
| `FormGenerator.SchemaOf` | apps/web/src/hooks/useFormGenerator.ts:108 | `data.schema` is the body's "schema" value when present, else null. |
| `FormGenerator.SaveBody` | apps/web/src/hooks/useFormGenerator.ts:130-134 | The save payload has exactly the keys title, `schema_body` and, when the form has one, description. Its title is the form's title when truthy, else "Untitled Form". `schema_body` is the whole form. |
| `FormGenerator.ShareUrl` | apps/web/src/hooks/useFormGenerator.ts:138 | The share URL is origin + "/public/" followed by `String(id)`: a string id verbatim, a number id as its canonical decimal numeral (with "-" when negative), and "undefined" when the id is absent. It throws the conversion's TypeError exactly when the id is an object holding a "toString" key, or an array containing one. |
| `FormGenerator.Generator.constructor` | apps/web/src/hooks/useFormGenerator.ts:20-30 | The hook starts with an empty prompt, the toggle and flags off, and no form or URLs. |
| `FormGenerator.Generator.GenerateForm` | apps/web/src/hooks/useFormGenerator.ts:73-121 | A blank prompt sends nothing and changes nothing. Otherwise it posts `{description: prompt}` to "/api/v1/generate/google" when the Google toggle is on, else "/api/v1/generate". The prompt counts as blank exactly when `trim()` empties it (`TrimEmptyIffBlank`). It ends with `isGenerating` false, showing exactly `Generated(toggle, response)`. |
| `FormGenerator.Generated` | apps/web/src/hooks/useFormGenerator.ts:84-120 | What a generation shows, case by case. A thrown fetch or non-OK response shows the error form, whose `error` is truthy, with no URLs. With the toggle off, or on with a non-null body whose `formUrl` is falsy, the whole body is the form with no URLs. With the toggle on, a `null` body shows the null-read error form. With a truthy `formUrl`, that URL is shown; the form is `data.schema` and the edit URL is `EditUrlFor`'s, or, when `EditUrlFor` throws, the error form with no edit URL. The Google form URL is only ever set by a successful Google generation, and an edit URL only ever appears together with a form URL. |
| `FormGenerator.Generator.Receive` | apps/web/src/hooks/useFormGenerator.ts:84-120 | The state ends showing exactly `Generated(toggle, response)`. On a thrown fetch or non-OK response the form is the error form (message `data.detail` or "Generation failed") and both URLs stay null. With the toggle off or a falsy `formUrl`, the whole body becomes the form and the URLs stay null. On a Google success, `googleFormUrl` is `formUrl`, the edit URL follows `EditUrlFor`, and the form is `data.schema`. `isGenerating` ends false. |
| `FormGenerator.Generator.SaveForm` | apps/web/src/hooks/useFormGenerator.ts:123-146 | A falsy form sends nothing and changes nothing. Otherwise it posts `SaveBody(form)` to "/api/v1/forms/". After success `shareUrl` is `ShareUrl(origin, data)`; on a failed fetch, a non-OK status, a `null` body or an `id` whose conversion throws it is unchanged. `isSaving` ends false. |
| `Json.DecimalDigits` | apps/web/src/components/FormBuilder.tsx:113 | The numeral of a number is canonical (decimal digits, no leading zero unless it is "0") and denotes the number; it has two or more digits iff the number is at least 10. |
| `Json.CanonicalNumeralUnique` | apps/web/src/components/FormBuilder.tsx:113 | Every canonical numeral that denotes n is `DecimalDigits(n)`, so the numeral JavaScript writes for a number is fixed by the contract above. |
| `Json.JsString` | apps/web/src/hooks/useFormGenerator.ts:94 | JavaScript's `String(v)`: a string is itself; null and booleans give "null" and "true"/"false"; a number gives its decimal numeral, with a leading "-" when negative; an empty array gives ""; an object gives "[object Object]". It throws a TypeError exactly when the value is, or an array holds at any depth, an object with its own "toString" key, whose JSON value is not callable. |
| `Json.JsStringArray` | apps/web/src/hooks/useFormGenerator.ts:94 | `String` on a non-empty array: one element is written alone, and a longer array as its first element, ",", and the rest written the same way; `null` elements are written as "". It throws iff the first element's or the rest's conversion throws. |
| `Json.TemplateString` | apps/web/src/hooks/useFormGenerator.ts:138 | A template substitution gives "undefined" for a missing value and `String(v)` for a present one: a string as itself, a number as its canonical numeral (with "-" when negative), `null` as "null", an object as "[object Object]"; it throws exactly where `String` throws. |
| `Json.DecimalDigitsInjective` | apps/web/src/components/FormBuilder.tsx:113 | Different numbers have different numerals, since each numeral reads back as its number. |
| `FormBuilder.NewQuestion` | apps/web/src/components/FormBuilder.tsx:113 | The appended question has exactly the keys id, label, type and required. The id is "field_" followed by the canonical decimal numeral of the clock reading; the label passes `required`; the type is "text", an option of the type select; `required` is false. |
| `FormBuilder.Filled` | apps/web/src/components/FormBuilder.tsx:36-64 | react-hook-form's `required` rule: an absent value or null fails; a string passes iff it is non-empty; a boolean passes iff it is true; an array passes iff it is non-empty; numbers and objects pass. |
| `FormBuilder.NewQuestionIdsDiffer` | apps/web/src/components/FormBuilder.tsx:113 | Questions added at different clock readings get different `field_<now>` ids. |
| `FormBuilder.FieldMaps` | apps/web/src/components/FormBuilder.tsx:11 | The working field list has one object per element of the schema's field array, in order. |
| `FormBuilder.FieldsJson` | apps/web/src/components/FormBuilder.tsx:15-18 | The field array submitted is a JSON array of the working field objects, and reading it back gives the same list. |
| `FormBuilder.RemoveAt` | apps/web/src/components/FormBuilder.tsx:101 | Removing at an index drops exactly that element. Earlier elements stay in place, and later ones shift down by one, keeping their order. |
| `FormBuilder.RemoveAppended` | apps/web/src/components/FormBuilder.tsx:101-113 | Deleting the question just added restores the previous field list. |
| `FormBuilder.Merge` | apps/web/src/components/FormBuilder.tsx:21-24 | `{...schema, ...data}` has every key of either. The edited values win on shared keys; every other key of the schema keeps its value. |
| `FormBuilder.FormData` | apps/web/src/components/FormBuilder.tsx:7-13 | The submitted values are the title, the fields, and the description when it is defined. |
| `FormBuilder.UneditedSaveRoundTrip` | apps/web/src/components/FormBuilder.tsx:7-26 | Saving a working copy nobody edited gives back exactly the schema it came from, when the description and every field's label, type and required flag are present in it (the inputs then start from the schema's own values). |
| `FormBuilder.Builder.constructor` | apps/web/src/components/FormBuilder.tsx:7-18 | The working copy starts as exactly the schema's title, description and field array; an absent field array is empty. |
| `FormBuilder.Builder.CanSubmit` | apps/web/src/components/FormBuilder.tsx:29-64 | `handleSubmit` lets a submission through only with a present, non-null title and a non-null label on every field. An empty title always blocks it, and with no fields the title alone decides. |
| `FormBuilder.Builder.AddQuestion` | apps/web/src/components/FormBuilder.tsx:113 | Appends one field `{id: "field_" + now, label: "New Question", type: "text", required: false}` at the end. Earlier fields, title and description are unchanged, and a submittable copy stays submittable. |
| `FormBuilder.Builder.RemoveQuestion` | apps/web/src/components/FormBuilder.tsx:101 | Removes exactly the field at its index; the others keep their relative order. A submittable copy stays submittable. |
| `FormBuilder.Builder.EditTitle` | apps/web/src/components/FormBuilder.tsx:36 | The title becomes the typed text. Nothing else changes, and the copy is submittable iff the text is non-empty and every label is filled. |
| `FormBuilder.Builder.EditDescription` | apps/web/src/components/FormBuilder.tsx:44 | The description becomes the typed text; nothing else changes. |
| `FormBuilder.Builder.SetFieldKey` | apps/web/src/components/FormBuilder.tsx:64-91 | A registered field input sets one key of one field. The other fields and the field's other keys are unchanged. |
| `FormBuilder.Builder.EditLabel` | apps/web/src/components/FormBuilder.tsx:64 | The label of the field at the index becomes the typed text. |
| `FormBuilder.Builder.EditType` | apps/web/src/components/FormBuilder.tsx:71-83 | The type of the field at the index becomes one of the eight select options. Validity is kept. |
| `FormBuilder.Builder.EditRequired` | apps/web/src/components/FormBuilder.tsx:89-93 | The field's `required` becomes the checkbox state. Validity is kept. |
| `FormBuilder.Builder.Submit` | apps/web/src/components/FormBuilder.tsx:20-29 | `onUpdate` is called (once) iff the title and every label pass `required`. It receives the input schema with title, description and fields overridden by the edited values, and every other key (such as `error` or `details`) preserved. |

## Left out

- The Google API calls themselves (`forms().create`, `forms().batchUpdate`, `get_service`). `create_form` returns `responderUri`, which is read from the `create` response; the model builds the request values only.
- `GoogleForms.PyIterate`: a non-empty dict given as `options` is iterated by Python over its keys in insertion order, which a map does not keep. The model does not produce those options; it ends with `UnorderedKeys`, an outcome of the model, not an exception of the source.
- JSON numbers are integers in the model. Fractions, exponents and their string forms are not modelled.
- The schema handed to `create_form` is modelled as a dict (`map`). No caller of `create_form` is part of this model, so what else callers might pass is not modelled.
- `FormGenerator.NullReadMessage`, `FormGenerator.NotAFunctionMessage` and `Json.ToPrimitiveMessage` stand for the engine's TypeError texts, which the model does not reproduce word for word.
- JavaScript's `null` and `undefined` are one value, `Null`, in the generator state. The hook only tests them for truthiness and reads properties of them, where they behave alike, so an undefined `data.schema` is shown as `Null`.
- The loading flags read true while a request is awaited. The model covers a whole action as one step, so only their final values are stated.
- Overlapping `generateForm` calls racing each other are not modelled.
- Toasts, console logging, `window.location`, and the health-check, Google-status and Google-login fetches (`checkSystemStatus`, `checkGoogleAuth`, `connectGoogle`), together with their state (`apiStatus`, `apiData`, `isGoogleAuth`), are not modelled.
- The prompt and the Google toggle are plain fields the caller assigns; their setters are not separate operations.
- `FormGenerator.Trim`: its own contract states only that neither end of the result is whitespace and that it is no longer than its input. Exactly what is stripped, a blank prefix and then a blank suffix, is stated on `TrimStart` and `TrimEnd`, which `Trim` composes. The two statements combined on `Trim` exceed the solver's resource limit.
- `FormBuilder.Builder.constructor`: requires the schema's "fields", when present, to be an array of objects, which react-hook-form's field array expects. Its handling of other values is not visible here.
- `FormBuilder.Filled`: it states react-hook-form's `required` rule as present and not `null`, `""`, `false` or `[]`. For a registered input whose key is absent from the schema (the title, the description, and each field's label, type and required flag), react-hook-form reads a value back from the page: "" for a text input, the first option "text" for the type select, false for the checkbox. That read-back is not modelled; the model keeps the key absent, and `FormBuilder.UneditedSaveRoundTrip` is stated only for schemas that have those keys.
- The reorder operation (`move`) is obtained but never called, and the drag handle has no handler, so no reorder is modelled.
- Rendering, the public fill-in page, the dashboard, the session context, OAuth, the routers and the configuration are not part of this model.
