/**
 * The directory-API client: it builds the request body for a list of site ids, posts it, and
 * reads the `employeeId` of every employee in the reply. A failed call, a reply that is not
 * 200, a body that is not JSON and an employee without an id all come back as the empty list.
 * The HTTP transport is a parameter: a function from the request body to the reply.
 */
module Api {
  import opened Wrappers
  import opened Json

  /** The fixed `processId` of every request. */
  const ProcessId := "3fa85f64-5717-4562-b3fc-2c963f66afa6"

  /** The handler's two settings, read from the environment when it is built. */
  datatype ApiHandler = ApiHandler(apiUrl: string, employerId: string)

  /** What `requests.post` gives back: a transport failure (`RequestException`), or a status code and the body as `response.json()` reads it. */
  datatype Reply = TransportFailed | Response(statusCode: int, body: Document)

  /** The constructor: both settings must be present and non-empty, otherwise `ValueError`. */
  function NewApiHandler(apiUrl: Option<string>, employerId: Option<string>): (r: Result<ApiHandler, Exception>)
    ensures r.Success? <==> apiUrl.Some? && apiUrl.value != "" && employerId.Some? && employerId.value != ""
    ensures r.Success? ==> r.value.apiUrl == apiUrl.value && r.value.employerId == employerId.value
    ensures r.Failure? ==> r.error == ValueError
  {
    match (apiUrl, employerId)
    case (Some(url), Some(employer)) =>
      if url == "" || employer == "" then Failure(ValueError) else Success(ApiHandler(url, employer))
    case _ => Failure(ValueError)
  }

  function SiteEntry(employer: Value, siteId: int): Value
  {
    Obj(map["employerId" := employer, "siteId" := Num(siteId)])
  }

  /** `employersSitesList`: one `{employerId, siteId}` object per site id, in the order given. */
  function EmployerSiteList(employer: Value, siteIds: seq<int>): (r: seq<Value>)
    ensures |r| == |siteIds|
    ensures forall i :: 0 <= i < |r| ==>
      r[i].Obj? && r[i].fields.Keys == {"employerId", "siteId"}
      && r[i].fields["employerId"] == employer && r[i].fields["siteId"] == Num(siteIds[i])
  {
    seq(|siteIds|, i requires 0 <= i < |siteIds| => SiteEntry(employer, siteIds[i]))
  }

  /** The site ids of a list of `{employerId, siteId}` objects, if every entry carries a number. */
  function SiteIdsOf(entries: seq<Value>): Option<seq<int>>
  {
    if entries == [] then Some([])
    else if entries[0].Obj? && "siteId" in entries[0].fields && entries[0].fields["siteId"].Num? then
      match SiteIdsOf(entries[1..])
      case None => None
      case Some(rest) => Some([entries[0].fields["siteId"].n] + rest)
    else None
  }

  /** The site ids a request body asks about, read back from its `employersSitesList`. */
  function RequestedSites(request: Value): Option<seq<int>>
  {
    if request.Obj? && "employersSitesList" in request.fields && request.fields["employersSitesList"].Arr?
    then SiteIdsOf(request.fields["employersSitesList"].items)
    else None
  }

  /** Reading the site ids back out of a built site list gives the site ids it was built from. */
  lemma {:induction false} SiteListRoundTrip(employer: Value, siteIds: seq<int>)
    ensures SiteIdsOf(EmployerSiteList(employer, siteIds)) == Some(siteIds)
    decreases |siteIds|
  {
    if siteIds != [] {
      SiteListRoundTrip(employer, siteIds[1..]);
      assert EmployerSiteList(employer, siteIds)[1..] == EmployerSiteList(employer, siteIds[1..]);
      assert siteIds == [siteIds[0]] + siteIds[1..];
    }
  }

  /** The request body shared by the handler and the earlier script; only the look-back window and the employer differ. */
  function RequestBody(employer: Value, siteIds: seq<int>, lookBack: int): (r: Value)
    ensures r.Obj?
    ensures r.fields.Keys == {"employersSitesList", "lookBackWindowsInMinutes", "managerIdList", "processId"}
    ensures RequestedSites(r) == Some(siteIds)
    ensures r.fields["lookBackWindowsInMinutes"] == Num(lookBack)
    ensures r.fields["managerIdList"] == Arr([Obj(map["employeeId" := Num(0)])])
    ensures r.fields["processId"] == Str(ProcessId)
  {
    SiteListRoundTrip(employer, siteIds);
    Obj(map[
      "employersSitesList" := Arr(EmployerSiteList(employer, siteIds)),
      "lookBackWindowsInMinutes" := Num(lookBack),
      "managerIdList" := Arr([Obj(map["employeeId" := Num(0)])]),
      "processId" := Str(ProcessId)])
  }

  /** `_prepare_request_object`: the handler's employer id as a string, and no look-back limit (-1). */
  function PrepareRequestObject(h: ApiHandler, siteIds: seq<int>): (r: Value)
    ensures r.Obj? && "lookBackWindowsInMinutes" in r.fields && r.fields["lookBackWindowsInMinutes"] == Num(-1)
    ensures RequestedSites(r) == Some(siteIds)
    ensures "employersSitesList" in r.fields
      && r.fields["employersSitesList"] == Arr(EmployerSiteList(Str(h.employerId), siteIds))
  {
    RequestBody(Str(h.employerId), siteIds, -1)
  }

  /** An entry of `employeeList` from which `employee["employeeId"]` can be read. */
  predicate HasEmployeeId(e: Value)
  {
    e.Obj? && "employeeId" in e.fields
  }

  /** The exception `employee["employeeId"]` raises: a missing key in a dict, a bad subscript on anything else. */
  function EntryError(e: Value): Exception
  {
    if e.Obj? then KeyError else TypeError
  }

  /** `[employee["employeeId"] for employee in items]`: stops at the first entry without an id. */
  function EmployeeIds(items: seq<Value>): (r: Result<seq<Value>, Exception>)
    ensures r.Success? <==> forall i :: 0 <= i < |items| ==> HasEmployeeId(items[i])
    ensures r.Success? ==> |r.value| == |items|
    ensures r.Success? ==> forall i :: 0 <= i < |items| ==>
      HasEmployeeId(items[i]) && r.value[i] == items[i].fields["employeeId"]
    ensures r.Failure? ==> r.error == KeyError || r.error == TypeError
    decreases |items|
  {
    if items == [] then Success([])
    else if !HasEmployeeId(items[0]) then Failure(EntryError(items[0]))
    else
      match EmployeeIds(items[1..])
      case Failure(e) => Failure(e)
      case Success(rest) => Success([items[0].fields["employeeId"]] + rest)
  }

  /** The first entry without an id decides the exception. */
  lemma {:induction false} FirstEntryWithoutIdDecides(items: seq<Value>, k: nat)
    requires k < |items| && !HasEmployeeId(items[k])
    requires forall j :: 0 <= j < k ==> HasEmployeeId(items[j])
    ensures EmployeeIds(items) == Failure(EntryError(items[k]))
    decreases k
  {
    if k > 0 {
      FirstEntryWithoutIdDecides(items[1..], k - 1);
    }
  }

  /** The ids of `employees` when Python iterates it: a list's entries; an empty dict or string gives none; anything else is not iterable. */
  function IdsOfEmployeeList(employees: Value): (r: Result<seq<Value>, Exception>)
    ensures r.Failure? ==> r.error == KeyError || r.error == TypeError
  {
    match employees
    case Arr(items) => EmployeeIds(items)
    // iterating a dict yields its keys and iterating a string its characters, and neither can be subscripted by a string
    case Obj(m) => if m == map[] then Success([]) else Failure(TypeError)
    case Str(s) => if s == "" then Success([]) else Failure(TypeError)
    case _ => Failure(TypeError)
  }

  /**
   * `_extract_device_serial_numbers`: `data.get("data", {}).get("employeeList", [])`, then the id of
   * each employee. A body that is not JSON and a missing id are caught and give the empty list;
   * `.get` on something that is not a dict and a bad subscript escape.
   */
  function ExtractEmployeeIds(body: Document): (r: Result<seq<Value>, Exception>)
    ensures r.Failure? ==> r.error == AttributeError || r.error == TypeError
    ensures body.NotJson? ==> r == Success([])
    ensures body.Parsed? && !body.value.Obj? ==> r == Failure(AttributeError)
  {
    match body
    case NotJson => Success([])
    case Parsed(top) =>
      if !top.Obj? then Failure(AttributeError)
      else
        var data := if "data" in top.fields then top.fields["data"] else Obj(map[]);
        if !data.Obj? then Failure(AttributeError)
        else
          var employees := if "employeeList" in data.fields then data.fields["employeeList"] else Arr([]);
          match IdsOfEmployeeList(employees)
          case Failure(KeyError) => Success([])
          case other => other
  }

  /** A top-level object whose `data` is an object holding `employeeList` as a list of the given entries; any other keys may be present. */
  predicate HoldsEmployeeList(fields: map<string, Value>, items: seq<Value>)
  {
    "data" in fields && fields["data"].Obj? && "employeeList" in fields["data"].fields
    && fields["data"].fields["employeeList"] == Arr(items)
  }

  /** A body without `data`, or whose `data` has no `employeeList`, gives no ids. */
  lemma MissingEmployeeListGivesNothing(fields: map<string, Value>)
    requires "data" !in fields || (fields["data"].Obj? && "employeeList" !in fields["data"].fields)
    ensures ExtractEmployeeIds(Parsed(Obj(fields))) == Success([])
  {
  }

  /** When every employee carries an id, the result is their ids, in order, one per employee. */
  lemma IdsInOrder(fields: map<string, Value>, items: seq<Value>)
    requires HoldsEmployeeList(fields, items)
    requires forall i :: 0 <= i < |items| ==> HasEmployeeId(items[i])
    ensures var r := ExtractEmployeeIds(Parsed(Obj(fields)));
      r.Success? && |r.value| == |items| && forall i :: 0 <= i < |items| ==> r.value[i] == items[i].fields["employeeId"]
  {
  }

  /** If the first employee without an id is a dict, the `KeyError` is caught and the result is empty. */
  lemma MissingIdGivesNothing(fields: map<string, Value>, items: seq<Value>, k: nat)
    requires HoldsEmployeeList(fields, items)
    requires k < |items| && items[k].Obj? && "employeeId" !in items[k].fields
    requires forall j :: 0 <= j < k ==> HasEmployeeId(items[j])
    ensures ExtractEmployeeIds(Parsed(Obj(fields))) == Success([])
  {
    FirstEntryWithoutIdDecides(items, k);
  }

  /** If the first employee without an id is not a dict at all, the `TypeError` escapes. */
  lemma NonDictEmployeeEscapes(fields: map<string, Value>, items: seq<Value>, k: nat)
    requires HoldsEmployeeList(fields, items)
    requires k < |items| && !items[k].Obj?
    requires forall j :: 0 <= j < k ==> HasEmployeeId(items[j])
    ensures ExtractEmployeeIds(Parsed(Obj(fields))) == Failure(TypeError)
  {
    FirstEntryWithoutIdDecides(items, k);
  }

  /**
   * `fetch_device_serial_numbers`: posts the request body; a transport failure or any status but
   * 200 gives the empty list, a 200 reply is read by `ExtractEmployeeIds`.
   */
  function FetchDeviceSerialNumbers(h: ApiHandler, siteIds: seq<int>, post: Value -> Reply): (r: Result<seq<Value>, Exception>)
    ensures r.Failure? ==> r.error == AttributeError || r.error == TypeError
    ensures !post(PrepareRequestObject(h, siteIds)).Response? ==> r == Success([])
    ensures post(PrepareRequestObject(h, siteIds)).Response? && post(PrepareRequestObject(h, siteIds)).statusCode != 200
      ==> r == Success([])
    ensures post(PrepareRequestObject(h, siteIds)).Response? && post(PrepareRequestObject(h, siteIds)).statusCode == 200
      ==> r == ExtractEmployeeIds(post(PrepareRequestObject(h, siteIds)).body)
  {
    match post(PrepareRequestObject(h, siteIds))
    case TransportFailed => Success([])
    case Response(status, body) => if status == 200 then ExtractEmployeeIds(body) else Success([])
  }

  /**
   * A failed call cannot be told apart from a directory with no users: a transport failure and a
   * 200 reply with an empty `employeeList` give the same result.
   */
  lemma FailureLooksLikeNoUsers(h: ApiHandler, siteIds: seq<int>, failing: Value -> Reply, empty: Value -> Reply)
    requires failing(PrepareRequestObject(h, siteIds)) == TransportFailed
    requires empty(PrepareRequestObject(h, siteIds)) == Response(200, Parsed(Obj(map["data" := Obj(map["employeeList" := Arr([])])])))
    ensures FetchDeviceSerialNumbers(h, siteIds, failing) == FetchDeviceSerialNumbers(h, siteIds, empty) == Success([])
  {
  }
}
