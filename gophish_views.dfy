/** PhishLearn's JSON views over the GoPhish API: `TemplateView`,
    `UserView` and `GroupView`, each with GET (one resource or the list),
    POST (create), PUT (update) and DELETE. The views keep no state; the
    GoPhish helpers they call are parameters, each of which returns a value
    (None included) or raises. */
module GophishViews {
  import opened Python

  /** What a call into a GoPhish helper does: return a value, or raise an
      exception given by its `str()`. */
  datatype Outcome = Returned(v: Value) | Raised(error: string)

  /** The resources the three views proxy. */
  datatype Kind = Templates | Users | Groups

  /** The helpers of one kind, as the views see them: `get_templates()`,
      `get_template_with_id(id)`, `create_template(...)` and (as `update`)
      `modify_template(...)` applied to the keyword arguments once they bind,
      and `delete_template(id)`; likewise for users and groups. */
  datatype Api = Api(
    list: Outcome,
    withId: int -> Outcome,
    create: map<string, Value> -> Outcome,
    update: map<string, Value> -> Outcome,
    delete: int -> Outcome)

  /** `json.loads`: the decoded value, or the `str()` of the error it raises. */
  type Loads = string -> Result<Value>

  /** What a view answers. `Crash` is an exception that leaves the view,
      which Django turns into a 500 page. */
  datatype Response =
    | Json(status: int, body: map<string, Value>)
    | Redirect(route: string, id: Value)
    | ErrorPage(template: string, error: string)
    | Crash(error: string)

  /** `JsonResponse({"error": message}, status=status)`. */
  function JsonError(status: int, message: string): Response
  {
    Json(status, map["error" := PyStr(message)])
  }

  /** `JsonResponse({"message": message})`, whose status is 200. */
  function JsonMessage(message: string): Response
  {
    Json(200, map["message" := PyStr(message)])
  }

  // ---------------------------------------------------------------------------
  // The names each view uses

  /** The capitalised noun of the messages. */
  function Noun(kind: Kind): string
  {
    match kind
    case Templates => "Template"
    case Users => "User"
    case Groups => "Group"
  }

  /** The lower-case noun, as in the helper names and "Failed to ..." messages. */
  function Lower(kind: Kind): string
  {
    match kind
    case Templates => "template"
    case Users => "user"
    case Groups => "group"
  }

  /** The key of the list GET's answer. */
  function Plural(kind: Kind): string
  {
    Lower(kind) + "s"
  }

  /** The keys each element of the list GET keeps. */
  function ListFields(kind: Kind): seq<string>
  {
    match kind
    case Templates => ["id", "name", "subject"]
    case Users => ["id", "role", "username"]
    case Groups => ["id", "name", "targets"]
  }

  /** The fields PUT merges from the request body over the existing resource. */
  function MergedFields(kind: Kind): seq<string>
  {
    match kind
    case Templates => ["name", "subject", "text", "html", "attachments"]
    case Users => ["role", "password", "username"]
    case Groups => ["name", "targets"]
  }

  /** The keywords of the PUT handler's call to the modify helper, in order. */
  function ModifyKeywords(kind: Kind): seq<string>
  {
    match kind
    case Templates => ["id", "name", "subject", "text", "html", "modified_date", "attachments"]
    case Users => ["id", "role", "password", "username", "modified_date"]
    case Groups => ["id", "name", "targets", "modified_date"]
  }

  /** The keywords of the POST handler's call to the create helper, in order. */
  function CreateKeywords(kind: Kind): seq<string>
  {
    match kind
    case Templates => ["id", "name", "subject", "text", "html", "modified_date", "attachments"]
    case Users => ["id", "role", "password", "username", "modified_date"]
    case Groups => ["id", "name", "targets", "modified_date"]
  }

  /** The keywords the modify call would pass if it named exactly the helper's
      parameters: `modified_date` only for groups. */
  function IntendedModifyKeywords(kind: Kind): seq<string>
  {
    match kind
    case Templates => ["id", "name", "subject", "text", "html", "attachments"]
    case Users => ["id", "role", "password", "username"]
    case Groups => ["id", "name", "targets", "modified_date"]
  }

  /** The keywords the create call would pass if it named exactly the helper's
      parameters: `id` and `modified_date` only for groups. */
  function IntendedCreateKeywords(kind: Kind): seq<string>
  {
    match kind
    case Templates => ["name", "subject", "text", "html", "attachments"]
    case Users => ["role", "password", "username"]
    case Groups => ["id", "name", "targets", "modified_date"]
  }

  /** The parameters of `modify_template`, `modify_user` and `modify_group`. */
  function ModifyParams(kind: Kind): set<string>
  {
    match kind
    case Templates => {"id", "name", "subject", "text", "html", "attachments"}
    case Users => {"id", "role", "password", "username"}
    case Groups => {"id", "name", "modified_date", "targets"}
  }

  /** The parameters of `create_template`, `create_user` and `create_group`. */
  function CreateParams(kind: Kind): set<string>
  {
    match kind
    case Templates => {"name", "subject", "text", "html", "attachments"}
    case Users => {"role", "password", "username"}
    case Groups => {"id", "name", "modified_date", "targets"}
  }

  // ---------------------------------------------------------------------------
  // Calling a helper by keyword

  /** The position of the first keyword that names no parameter. */
  function FirstUnexpected(params: set<string>, keywords: seq<string>): (r: Option<nat>)
    ensures r.None? <==> forall j :: 0 <= j < |keywords| ==> keywords[j] in params
    ensures r.Some? ==> r.value < |keywords| && keywords[r.value] !in params
    ensures r.Some? ==> forall j :: 0 <= j < r.value ==> keywords[j] in params
    decreases |keywords|
  {
    if keywords == [] then None
    else if keywords[0] !in params then Some(0)
    else match FirstUnexpected(params, keywords[1..])
      case None => None
      case Some(i) => Some(i + 1)
  }

  /** The message of the TypeError for a keyword argument `k` that the function `name` has no parameter for. */
  function UnexpectedKeyword(name: string, k: string): string
  {
    name + "() got an unexpected keyword argument '" + k + "'"
  }

  /** Calling the helper `name(params...)` as `name(k1=v1, k2=v2, ...)`, the
      keywords in order and `values` their values: Python raises TypeError
      at the first keyword that is not a parameter, and otherwise runs the
      helper. Every call in these views passes every parameter. */
  function Call(name: string, params: set<string>, keywords: seq<string>, values: map<string, Value>, helper: map<string, Value> -> Outcome): (r: Outcome)
    requires forall p :: p in params ==> p in keywords
    requires forall k :: k in keywords <==> k in values
    ensures (forall k :: k in keywords ==> k in params) ==> r == helper(values)
    ensures (exists k :: k in keywords && k !in params) ==>
      exists i :: 0 <= i < |keywords| && keywords[i] !in params && (forall j :: 0 <= j < i ==> keywords[j] in params) &&
                  r == Raised(UnexpectedKeyword(name, keywords[i]))
  {
    match FirstUnexpected(params, keywords)
    case None => helper(values)
    case Some(i) => Raised(UnexpectedKeyword(name, keywords[i]))
  }

  // ---------------------------------------------------------------------------
  // GET

  /** `{k: d.get(k) for k in fields}`. */
  function Pick(d: map<string, Value>, fields: seq<string>): (r: map<string, Value>)
    ensures forall k :: k in r <==> k in fields
    ensures forall k :: k in fields ==> r[k] == DictGet(d, k, PyNone)
    decreases |fields|
  {
    if fields == [] then map[]
    else Pick(d, fields[1..])[fields[0] := DictGet(d, fields[0], PyNone)]
  }

  /** The list comprehension of the list GET over a list: each element
      projected to `fields`, or an AttributeError at the first element that is
      not a dict. */
  function ProjectEach(items: seq<Value>, fields: seq<string>): (r: Result<seq<Value>>)
    ensures r.Ok? <==> forall i :: 0 <= i < |items| ==> items[i].PyDict?
    ensures r.Ok? ==> |r.value| == |items|
    ensures r.Ok? ==> forall i :: 0 <= i < |items| ==> r.value[i] == PyDict(Pick(items[i].entries, fields))
    ensures r.Err? ==> exists i :: 0 <= i < |items| && !items[i].PyDict? && r.error == NoGetAttribute(items[i]) &&
                                   forall j :: 0 <= j < i ==> items[j].PyDict?
    decreases |items|
  {
    if items == [] then Ok([])
    else if !items[0].PyDict? then Err(NoGetAttribute(items[0]))
    else match ProjectEach(items[1..], fields)
      case Err(e) => assert forall j :: 0 <= j < |items| - 1 ==> items[1..][j] == items[j + 1]; Err(e)
      case Ok(rest) => Ok([PyDict(Pick(items[0].entries, fields))] + rest)
  }

  /** The comprehension over whatever the list helper returned: a list is
      projected element by element; iterating a dict or a string yields
      strings, which have no `get`; other values are not iterable. */
  function Project(v: Value, fields: seq<string>): (r: Result<seq<Value>>)
    ensures v.PyList? ==> r == ProjectEach(v.items, fields)
    ensures (v.PyInt? || v.PyBool? || v.PyNone?) ==> r == Err("'" + TypeName(v) + "' object is not iterable")
    ensures v.PyDict? ==> (r.Ok? <==> v.entries == map[])
    ensures v.PyStr? ==> (r.Ok? <==> v.s == "")
    ensures (v.PyDict? || v.PyStr?) && r.Err? ==> r.error == "'str' object has no attribute 'get'"
    ensures r.Ok? && !v.PyList? ==> r.value == []
  {
    match v
    case PyList(items) => ProjectEach(items, fields)
    case PyDict(entries) => if entries == map[] then Ok([]) else Err(NoGetAttribute(PyStr("")))
    case PyStr(s) => if s == "" then Ok([]) else Err(NoGetAttribute(PyStr("")))
    case _ => Err("'" + TypeName(v) + "' object is not iterable")
  }

  /** The message of the TypeError `JsonResponse` raises for data that is not a dict. */
  const NonDictError := "In order to allow non-dict objects to be serialized set the safe parameter to False."

  /** `get(request, id)`: with a truthy id the resource itself, without one
      the list projected to three keys. Nothing here is inside a `try`, so a
      helper that raises crashes the view. */
  function Get(kind: Kind, api: Api, id: Option<int>): Response
  {
    if id.Some? && id.value != 0 then
      match api.withId(id.value)
      case Raised(e) => Crash(e)
      case Returned(v) =>
        if !Truthy(v) then JsonError(404, Noun(kind) + " with ID " + IntToString(id.value) + " not found")
        else if v.PyDict? then Json(200, v.entries)
        else Crash(NonDictError)
    else
      match api.list
      case Raised(e) => Crash(e)
      case Returned(v) =>
        if v.PyNone? then JsonError(500, "Failed to retrieve " + Plural(kind))
        else match Project(v, ListFields(kind))
          case Err(e) => Crash(e)
          case Ok(rows) => Json(200, map[Plural(kind) := PyList(rows)])
  }

  // ---------------------------------------------------------------------------
  // PUT

  /** `data.get(k, existing.get(k))`: the body's value when the body has the
      key, null included, and otherwise the existing resource's. */
  function MergedValue(data: map<string, Value>, existing: map<string, Value>, k: string): (r: Value)
    ensures k in data ==> r == data[k]
    ensures k !in data ==> r == DictGet(existing, k, PyNone)
  {
    DictGet(data, k, DictGet(existing, k, PyNone))
  }

  /** The keyword arguments of the PUT handler's modify call, one per keyword:
      the id, None for `modified_date`, and the merged value of every other field. */
  function PutArguments(keywords: seq<string>, id: int, data: map<string, Value>, existing: map<string, Value>): map<string, Value>
  {
    map k | k in keywords :: if k == "id" then PyInt(id) else if k == "modified_date" then PyNone else MergedValue(data, existing, k)
  }

  /** The modify helper's name. */
  function ModifyName(kind: Kind): string
  {
    "modify_" + Lower(kind)
  }

  /** What PUT answers once the modify call has an outcome. */
  function AfterModify(kind: Kind, result: Outcome): Response
  {
    match result
    case Raised(e) => JsonError(400, e)
    case Returned(v) =>
      if !Truthy(v) then JsonError(500, "Failed to update " + Lower(kind))
      else JsonMessage(Noun(kind) + " updated successfully")
  }

  /** The PUT handler with its modify call passing `keywords`: decode the
      body, fetch the resource (404 when the helper's answer is falsy), merge
      the body's fields over it and call the modify helper; any exception
      gives 400 with its message. */
  function PutCalling(kind: Kind, keywords: seq<string>, api: Api, loads: Loads, id: int, body: string): Response
    requires forall p :: p in ModifyParams(kind) ==> p in keywords
  {
    match loads(body)
    case Err(e) => JsonError(400, e)
    case Ok(data) =>
      match api.withId(id)
      case Raised(e) => JsonError(400, e)
      case Returned(existing) =>
        if !Truthy(existing) then JsonError(404, Noun(kind) + " with ID " + IntToString(id) + " not found")
        else if !data.PyDict? then JsonError(400, NoGetAttribute(data))
        else if !existing.PyDict? then JsonError(400, NoGetAttribute(existing))
        else AfterModify(kind, Call(ModifyName(kind), ModifyParams(kind), keywords,
                                    PutArguments(keywords, id, data.entries, existing.entries), api.update))
  }

  /** `put(request, id)`, as written. */
  function Put(kind: Kind, api: Api, loads: Loads, id: int, body: string): Response
  {
    PutCalling(kind, ModifyKeywords(kind), api, loads, id, body)
  }

  /** `put(request, id)` as evidently intended: the modify call names exactly
      the helper's parameters. */
  function PutIntended(kind: Kind, api: Api, loads: Loads, id: int, body: string): Response
  {
    PutCalling(kind, IntendedModifyKeywords(kind), api, loads, id, body)
  }

  // ---------------------------------------------------------------------------
  // DELETE

  /** `delete(request, id)`. */
  function Delete(kind: Kind, api: Api, id: int): Response
  {
    match api.delete(id)
    case Raised(e) => JsonError(400, e)
    case Returned(v) =>
      if !Truthy(v) then JsonError(500, "Failed to delete " + Lower(kind) + " with ID " + IntToString(id))
      else JsonMessage(Noun(kind) + " deleted successfully")
  }

  // ---------------------------------------------------------------------------
  // POST

  /** The message of the TypeError `json.loads(None)` raises. */
  const LoadsNoneError := "the JSON object must be str, bytes or bytearray, not NoneType"

  /** `request.POST.get(k)` as a Python value. */
  function FormValue(form: map<string, string>, k: string): Value
  {
    if k in form then PyStr(form[k]) else PyNone
  }

  /** `json.loads(request.POST.get(k, default))`, with no default as None. */
  function LoadsField(loads: Loads, form: map<string, string>, k: string, default: Option<string>): Result<Value>
  {
    if k in form then loads(form[k])
    else if default.Some? then loads(default.value)
    else Err(LoadsNoneError)
  }

  /** The form field the POST handler decodes as JSON, and its default. */
  function DecodedField(kind: Kind): (string, Option<string>)
  {
    match kind
    case Templates => ("attachments", Some("{}"))
    case Users => ("role", None)
    case Groups => ("targets", None)
  }

  /** The keyword arguments of the POST handler's create call, one per
      keyword: None for `id` and `modified_date`, the decoded field, and the
      other form fields as given (None when absent). */
  function CreateArguments(kind: Kind, keywords: seq<string>, form: map<string, string>, decoded: Value): map<string, Value>
  {
    map k | k in keywords ::
      if k == "id" || k == "modified_date" then PyNone else if k == DecodedField(kind).0 then decoded else FormValue(form, k)
  }

  /** The create helper's name. */
  function CreateName(kind: Kind): string
  {
    "create_" + Lower(kind)
  }

  /** The creation form each view renders with the error. */
  function CreatePage(kind: Kind): string
  {
    "gophish/create_" + Lower(kind) + ".html"
  }

  /** What POST answers once the create call has an outcome. */
  function AfterCreate(kind: Kind, result: Outcome): Response
  {
    match result
    case Raised(e) => ErrorPage(CreatePage(kind), e)
    case Returned(v) =>
      if !Truthy(v) then ErrorPage(CreatePage(kind), "Failed to create " + Lower(kind) + " via API")
      else if !v.PyDict? then ErrorPage(CreatePage(kind), NoGetAttribute(v))
      else Redirect(Lower(kind) + "_detail", DictGet(v.entries, "id", PyNone))
  }

  /** The POST handler with its create call passing `keywords`: decode the
      JSON form field, call the create helper and redirect to the new
      resource; any exception renders the creation form with its message. */
  function PostCalling(kind: Kind, keywords: seq<string>, api: Api, loads: Loads, form: map<string, string>): Response
    requires forall p :: p in CreateParams(kind) ==> p in keywords
  {
    match LoadsField(loads, form, DecodedField(kind).0, DecodedField(kind).1)
    case Err(e) => ErrorPage(CreatePage(kind), e)
    case Ok(decoded) =>
      AfterCreate(kind, Call(CreateName(kind), CreateParams(kind), keywords, CreateArguments(kind, keywords, form, decoded), api.create))
  }

  /** `post(request)`, as written. */
  function Post(kind: Kind, api: Api, loads: Loads, form: map<string, string>): Response
  {
    PostCalling(kind, CreateKeywords(kind), api, loads, form)
  }

  /** `post(request)` as evidently intended: the create call names exactly
      the helper's parameters. */
  function PostIntended(kind: Kind, api: Api, loads: Loads, form: map<string, string>): Response
  {
    PostCalling(kind, IntendedCreateKeywords(kind), api, loads, form)
  }

  // ---------------------------------------------------------------------------
  // Properties

  /** PUT always answers JSON with 200, 400, 404 or 500, and 404 is exactly
      the case of a decodable body and a falsy answer from the lookup. A body
      that does not decode, or a lookup that raises, answers 400 with the
      exception's message. */
  lemma PutStatuses(kind: Kind, api: Api, loads: Loads, id: int, body: string)
    ensures var r := Put(kind, api, loads, id, body);
      && r.Json? && r.status in {200, 400, 404, 500}
      && (r.status == 404 <==> loads(body).Ok? && api.withId(id).Returned? && !Truthy(api.withId(id).v))
      && (r.status == 404 ==> r == JsonError(404, Noun(kind) + " with ID " + IntToString(id) + " not found"))
    ensures loads(body).Err? ==> Put(kind, api, loads, id, body) == JsonError(400, loads(body).error)
    ensures loads(body).Ok? && api.withId(id).Raised? ==> Put(kind, api, loads, id, body) == JsonError(400, api.withId(id).error)
  {
  }

  /** A PUT on a resource the lookup does not return answers 404 whatever
      the modify helper would do: it is never called. */
  lemma PutNotFoundIgnoresUpdate(kind: Kind, api: Api, loads: Loads, id: int, body: string, other: map<string, Value> -> Outcome)
    requires loads(body).Ok? && api.withId(id).Returned? && !Truthy(api.withId(id).v)
    ensures Put(kind, api, loads, id, body) == JsonError(404, Noun(kind) + " with ID " + IntToString(id) + " not found")
    ensures Put(kind, api.(update := other), loads, id, body) == Put(kind, api, loads, id, body)
  {
  }

  /** The template and user PUT handlers pass `modified_date`, which
      `modify_template` and `modify_user` have no parameter for: every such
      PUT answers 400 or 404, never reaches the helper, and once the resource
      is found and both sides are dicts the 400 carries that TypeError. */
  lemma PutTemplateOrUserNeverUpdates(kind: Kind, api: Api, loads: Loads, id: int, body: string, other: map<string, Value> -> Outcome)
    requires kind != Groups
    ensures var r := Put(kind, api, loads, id, body);
      && r.Json? && (r.status == 400 || r.status == 404)
      && Put(kind, api.(update := other), loads, id, body) == r
    ensures loads(body).Ok? && loads(body).value.PyDict? && api.withId(id).Returned? && api.withId(id).v.PyDict? && Truthy(api.withId(id).v) ==>
      Put(kind, api, loads, id, body) == JsonError(400, UnexpectedKeyword(ModifyName(kind), "modified_date"))
  {
    if loads(body).Ok? && loads(body).value.PyDict? && api.withId(id).Returned? && api.withId(id).v.PyDict? && Truthy(api.withId(id).v) {
      var args := PutArguments(ModifyKeywords(kind), id, loads(body).value.entries, api.withId(id).v.entries);
      ModifyCallRejected(kind, args, api.update);
      ModifyCallRejected(kind, args, other);
    }
  }

  /** `modify_template` and `modify_user` reject the `modified_date`
      keyword, whatever the values and whatever the helper would do. */
  lemma ModifyCallRejected(kind: Kind, values: map<string, Value>, helper: map<string, Value> -> Outcome)
    requires kind != Groups && forall k :: k in ModifyKeywords(kind) <==> k in values
    ensures Call(ModifyName(kind), ModifyParams(kind), ModifyKeywords(kind), values, helper) == Raised(UnexpectedKeyword(ModifyName(kind), "modified_date"))
  {
    if kind == Templates {
      assert FirstUnexpected(ModifyParams(Templates), ModifyKeywords(Templates)) == Some(5);
    } else {
      assert FirstUnexpected(ModifyParams(Users), ModifyKeywords(Users)) == Some(4);
    }
  }

  /** The intended modify keywords are exactly the helper's parameters, in
      the handler's order: the id, then the merged fields, then (for groups)
      `modified_date`. */
  lemma IntendedModifyKeywordsBind(kind: Kind)
    ensures forall k :: k in IntendedModifyKeywords(kind) <==> k in ModifyParams(kind)
    ensures FirstUnexpected(ModifyParams(kind), IntendedModifyKeywords(kind)) == None
    ensures "id" in IntendedModifyKeywords(kind)
    ensures forall k :: k in MergedFields(kind) ==> k in IntendedModifyKeywords(kind) && k != "id" && k != "modified_date"
  {
    match kind
    case Templates =>
      assert FirstUnexpected(ModifyParams(Templates), IntendedModifyKeywords(Templates)) == None;
    case Users =>
      assert FirstUnexpected(ModifyParams(Users), IntendedModifyKeywords(Users)) == None;
    case Groups =>
      assert FirstUnexpected(ModifyParams(Groups), IntendedModifyKeywords(Groups)) == None;
  }

  /** The arguments of the intended modify call are exactly the helper's
      parameters: the id, None for `modified_date`, and for every merged
      field the body's value when the body has the key (null included), else
      the existing resource's. */
  lemma IntendedPutArguments(kind: Kind, id: int, data: map<string, Value>, existing: map<string, Value>)
    ensures var args := PutArguments(IntendedModifyKeywords(kind), id, data, existing);
      && args.Keys == ModifyParams(kind)
      && "id" in args && args["id"] == PyInt(id)
      && ("modified_date" in args ==> args["modified_date"] == PyNone)
      && forall k :: k in MergedFields(kind) ==> k in args && args[k] == MergedValue(data, existing, k)
  {
    IntendedModifyKeywordsBind(kind);
  }

  /** The intended PUT reaches the modify helper for every kind once the body
      is a dict and the resource a truthy dict, and answers with what the
      helper returns for the arguments of `IntendedPutArguments`. For groups
      the handler as written is the intended one. */
  lemma IntendedPutCallsUpdate(kind: Kind, api: Api, loads: Loads, id: int, body: string, data: map<string, Value>, existing: map<string, Value>)
    requires loads(body) == Ok(PyDict(data)) && api.withId(id) == Returned(PyDict(existing)) && existing != map[]
    ensures PutIntended(kind, api, loads, id, body) == AfterModify(kind, api.update(PutArguments(IntendedModifyKeywords(kind), id, data, existing)))
    ensures kind == Groups ==> Put(kind, api, loads, id, body) == PutIntended(kind, api, loads, id, body)
  {
    match kind
    case Templates =>
      assert FirstUnexpected(ModifyParams(Templates), IntendedModifyKeywords(Templates)) == None;
    case Users =>
      assert FirstUnexpected(ModifyParams(Users), IntendedModifyKeywords(Users)) == None;
    case Groups =>
      assert FirstUnexpected(ModifyParams(Groups), IntendedModifyKeywords(Groups)) == None;
    var args := PutArguments(IntendedModifyKeywords(kind), id, data, existing);
    assert Call(ModifyName(kind), ModifyParams(kind), IntendedModifyKeywords(kind), args, api.update) == api.update(args);
  }

  /** What the modify helper's outcome becomes: an exception is 400 with its
      message, a falsy result 500, a truthy one a 200 success message. */
  lemma AfterModifyStatuses(kind: Kind, result: Outcome)
    ensures var r := AfterModify(kind, result);
      && r.Json?
      && (r.status == 400 <==> result.Raised?) && (result.Raised? ==> r == JsonError(400, result.error))
      && (r.status == 500 <==> result.Returned? && !Truthy(result.v))
      && (r.status == 200 <==> result.Returned? && Truthy(result.v))
      && (r.status == 200 ==> r == JsonMessage(Noun(kind) + " updated successfully"))
  {
  }

  /** GET with an id: 404 when the helper's answer is falsy, the helper's
      dict itself with status 200 when it is a truthy dict. */
  lemma GetOne(kind: Kind, api: Api, id: int)
    requires id != 0
    ensures var r := Get(kind, api, Some(id));
      && (api.withId(id).Returned? && !Truthy(api.withId(id).v) ==> r == JsonError(404, Noun(kind) + " with ID " + IntToString(id) + " not found"))
      && (api.withId(id).Returned? && Truthy(api.withId(id).v) && api.withId(id).v.PyDict? ==> r == Json(200, api.withId(id).v.entries))
      && (api.withId(id).Raised? ==> r == Crash(api.withId(id).error))
      && (r.Json? ==> r.status == 200 || r.status == 404)
  {
  }

  /** GET without an id (or with id 0): 500 when the list helper returns
      None; for a list of dicts, 200 with a list of the same length and
      order, each element holding exactly the kind's three keys. */
  lemma GetList(kind: Kind, api: Api, id: Option<int>, items: seq<Value>)
    requires id.None? || id == Some(0)
    ensures api.list == Returned(PyNone) ==> Get(kind, api, id) == JsonError(500, "Failed to retrieve " + Plural(kind))
    ensures api.list == Returned(PyList(items)) && (forall i :: 0 <= i < |items| ==> items[i].PyDict?) ==>
      && Get(kind, api, id).Json? && Get(kind, api, id).status == 200
      && Get(kind, api, id).body.Keys == {Plural(kind)}
      && var rows := Get(kind, api, id).body[Plural(kind)];
      && rows.PyList? && |rows.items| == |items|
      && forall i :: 0 <= i < |items| ==>
           (&& rows.items[i].PyDict?
            && (forall k :: k in rows.items[i].entries <==> k in ListFields(kind))
            && (forall k :: k in ListFields(kind) ==> rows.items[i].entries[k] == DictGet(items[i].entries, k, PyNone)))
  {
  }

  /** DELETE: 400 with the message when the helper raises, 500 naming the id
      when its result is falsy, 200 when it is truthy. */
  lemma DeleteStatuses(kind: Kind, api: Api, id: int)
    ensures var r := Delete(kind, api, id);
      && r.Json?
      && (r.status == 400 <==> api.delete(id).Raised?)
      && (r.status == 500 <==> api.delete(id).Returned? && !Truthy(api.delete(id).v))
      && (r.status == 200 <==> api.delete(id).Returned? && Truthy(api.delete(id).v))
      && (r.status == 500 ==> r == JsonError(500, "Failed to delete " + Lower(kind) + " with ID " + IntToString(id)))
  {
  }

  /** The template and user POST handlers pass `id`, which `create_template`
      and `create_user` have no parameter for: every such POST renders the
      creation form with an error and never reaches the helper. */
  lemma PostTemplateOrUserNeverCreates(kind: Kind, api: Api, loads: Loads, form: map<string, string>, other: map<string, Value> -> Outcome)
    requires kind != Groups
    ensures var r := Post(kind, api, loads, form);
      && r.ErrorPage? && r.template == CreatePage(kind)
      && Post(kind, api.(create := other), loads, form) == r
    ensures LoadsField(loads, form, DecodedField(kind).0, DecodedField(kind).1).Ok? ==>
      Post(kind, api, loads, form).error == UnexpectedKeyword(CreateName(kind), "id")
  {
    var decoded := LoadsField(loads, form, DecodedField(kind).0, DecodedField(kind).1);
    if decoded.Ok? {
      assert FirstUnexpected(CreateParams(kind), CreateKeywords(kind)) == Some(0);
    }
  }

  /** The intended create keywords are exactly the helper's parameters, and
      include the field the handler decodes as JSON. */
  lemma IntendedCreateKeywordsBind(kind: Kind)
    ensures forall k :: k in IntendedCreateKeywords(kind) <==> k in CreateParams(kind)
    ensures FirstUnexpected(CreateParams(kind), IntendedCreateKeywords(kind)) == None
    ensures DecodedField(kind).0 in IntendedCreateKeywords(kind)
    ensures DecodedField(kind).0 != "id" && DecodedField(kind).0 != "modified_date"
  {
    match kind
    case Templates =>
      assert FirstUnexpected(CreateParams(Templates), IntendedCreateKeywords(Templates)) == None;
    case Users =>
      assert FirstUnexpected(CreateParams(Users), IntendedCreateKeywords(Users)) == None;
    case Groups =>
      assert FirstUnexpected(CreateParams(Groups), IntendedCreateKeywords(Groups)) == None;
  }

  /** The intended POST reaches the create helper for every kind once the
      JSON field decodes. The arguments are exactly the helper's parameters:
      None for `id` and `modified_date` where the helper has them, the
      decoded field, and every other form field as given. It redirects
      exactly when the helper returns a truthy dict. For groups the handler
      as written is the intended one. */
  lemma IntendedPostCreates(kind: Kind, api: Api, loads: Loads, form: map<string, string>, decoded: Value)
    requires LoadsField(loads, form, DecodedField(kind).0, DecodedField(kind).1) == Ok(decoded)
    ensures var args := CreateArguments(kind, IntendedCreateKeywords(kind), form, decoded);
      && PostIntended(kind, api, loads, form) == AfterCreate(kind, api.create(args))
      && args.Keys == CreateParams(kind)
      && DecodedField(kind).0 in args && args[DecodedField(kind).0] == decoded
      && ("id" in args ==> args["id"] == PyNone)
      && ("modified_date" in args ==> args["modified_date"] == PyNone)
      && forall k :: k in args && k != DecodedField(kind).0 && k != "id" && k != "modified_date" ==> args[k] == FormValue(form, k)
    ensures var result := api.create(CreateArguments(kind, IntendedCreateKeywords(kind), form, decoded));
      PostIntended(kind, api, loads, form).Redirect? <==> result.Returned? && result.v.PyDict? && Truthy(result.v)
    ensures kind == Groups ==> Post(kind, api, loads, form) == PostIntended(kind, api, loads, form)
  {
    IntendedCreateKeywordsBind(kind);
    var args := CreateArguments(kind, IntendedCreateKeywords(kind), form, decoded);
    assert Call(CreateName(kind), CreateParams(kind), IntendedCreateKeywords(kind), args, api.create) == api.create(args);
    assert args.Keys == CreateParams(kind);
  }
}
