/**
 * The contacts API client: the query string for a contact listing, client-side pagination of
 * whatever list the server returns, and the three single-contact calls with their
 * `result.contact || result` unwrapping.
 */
module ContactsService {
  import opened Wrappers
  import opened Json
  import opened Js
  import opened Gateway
  import opened ContactTypes
  import opened FormUrl

  const ApiPrefix: string := "/api/v1"

  /** The listing parameters; each may be absent. */
  datatype Params = Params(
    page: Option<int>,
    limit: Option<int>,
    startDate: Option<string>,
    endDate: Option<string>,
    deliveryDay: Option<string>,
    confirmed: Option<string>)

  const NoParams: Params := Params(None, None, None, None, None, None)

  /** The text a numeric parameter is appended with, when it is truthy (present and not 0). */
  function NumberParam(n: Option<int>): (r: Option<string>)
    ensures r.Some? <==> n.Some? && n.value != 0
    ensures r.Some? ==> r.value == IntToString(n.value)
  {
    if n.Some? && n.value != 0 then Some(IntToString(n.value)) else None
  }

  /** The text a string parameter is appended with, when it is truthy (present and not empty). */
  function TextParam(s: Option<string>): (r: Option<string>)
    ensures r.Some? <==> s.Some? && s.value != ""
    ensures r.Some? ==> r.value == s.value
  {
    if s.Some? && s.value != "" then s else None
  }

  /** The six listing parameters. */
  datatype Key = PageKey | LimitKey | StartDateKey | EndDateKey | DeliveryDayKey | ConfirmedKey

  /** The name each parameter is appended under. */
  function KeyName(k: Key): string
  {
    match k
    case PageKey => "page"
    case LimitKey => "limit"
    case StartDateKey => "startDate"
    case EndDateKey => "endDate"
    case DeliveryDayKey => "deliveryDay"
    case ConfirmedKey => "confirmed"
  }

  /** The parameters in the order they are appended. */
  const AppendOrder: seq<Key> := [PageKey, LimitKey, StartDateKey, EndDateKey, DeliveryDayKey, ConfirmedKey]

  function Rank(k: Key): nat
  {
    match k
    case PageKey => 0
    case LimitKey => 1
    case StartDateKey => 2
    case EndDateKey => 3
    case DeliveryDayKey => 4
    case ConfirmedKey => 5
  }

  /** The text a parameter is appended with, when it is truthy. */
  function ParamText(p: Params, k: Key): Option<string>
  {
    match k
    case PageKey => NumberParam(p.page)
    case LimitKey => NumberParam(p.limit)
    case StartDateKey => TextParam(p.startDate)
    case EndDateKey => TextParam(p.endDate)
    case DeliveryDayKey => TextParam(p.deliveryDay)
    case ConfirmedKey => TextParam(p.confirmed)
  }

  /** `if (params.x) queryParams.append('x', ...)`: the pair appended for one parameter, if any. */
  function Appended(p: Params, k: Key): seq<(string, string)>
  {
    match ParamText(p, k)
    case Some(text) => [(KeyName(k), text)]
    case None => []
  }

  /** The parameters among keys that are truthy, in the order of keys. */
  function TruthyKeys(p: Params, keys: seq<Key>): (r: seq<Key>)
    ensures forall k :: k in r <==> k in keys && ParamText(p, k).Some?
    decreases |keys|
  {
    if keys == [] then []
    else
      var last := keys[|keys| - 1];
      TruthyKeys(p, keys[..|keys| - 1]) + (if ParamText(p, last).Some? then [last] else [])
  }

  /** The pairs for a list of truthy keys: each key's name with that key's text. */
  function PairsOf(p: Params, keys: seq<Key>): (r: seq<(string, string)>)
    requires forall k :: k in keys ==> ParamText(p, k).Some?
    ensures |r| == |keys|
    ensures forall i :: 0 <= i < |keys| ==> r[i] == (KeyName(keys[i]), ParamText(p, keys[i]).value)
  {
    seq(|keys|, i requires 0 <= i < |keys| => (KeyName(keys[i]), ParamText(p, keys[i]).value))
  }

  /** The pairs appended to the URLSearchParams: every truthy parameter, in the fixed order, under its name. */
  function QueryPairs(p: Params): seq<(string, string)>
  {
    PairsOf(p, TruthyKeys(p, AppendOrder))
  }

  /** The listing endpoint: `?` and the query only when the query is not empty. */
  function ContactsUrl(p: Params): (url: string)
    ensures QueryPairs(p) == [] ==> url == ApiPrefix + "/contacts"
    ensures QueryPairs(p) != [] ==> url == ApiPrefix + "/contacts?" + QueryString(QueryPairs(p))
  {
    var q := QueryString(QueryPairs(p));
    if q != "" then ApiPrefix + "/contacts?" + q else ApiPrefix + "/contacts"
  }

  /** One more `if (params.x) append(...)` extends the pairs of the keys so far by that key's pair, if truthy. */
  lemma {:induction false} QueryStep(p: Params, keys: seq<Key>, k: Key)
    ensures TruthyKeys(p, keys + [k]) == TruthyKeys(p, keys) + (if ParamText(p, k).Some? then [k] else [])
    ensures PairsOf(p, TruthyKeys(p, keys + [k])) == PairsOf(p, TruthyKeys(p, keys)) + Appended(p, k)
  {
    assert (keys + [k])[..|keys|] == keys;
  }

  /** The query pairs are the six conditional appends, one after another in the fixed order. */
  lemma QueryPairsAreTheAppends(p: Params)
    ensures QueryPairs(p) == [] + Appended(p, PageKey) + Appended(p, LimitKey) + Appended(p, StartDateKey) +
      Appended(p, EndDateKey) + Appended(p, DeliveryDayKey) + Appended(p, ConfirmedKey)
  {
    var k1, k2, k3 := [PageKey], [PageKey, LimitKey], [PageKey, LimitKey, StartDateKey];
    var k4 := [PageKey, LimitKey, StartDateKey, EndDateKey];
    var k5 := [PageKey, LimitKey, StartDateKey, EndDateKey, DeliveryDayKey];
    QueryStep(p, [], PageKey);
    assert [] + [PageKey] == k1;
    QueryStep(p, k1, LimitKey);
    assert k1 + [LimitKey] == k2;
    QueryStep(p, k2, StartDateKey);
    assert k2 + [StartDateKey] == k3;
    QueryStep(p, k3, EndDateKey);
    assert k3 + [EndDateKey] == k4;
    QueryStep(p, k4, DeliveryDayKey);
    assert k4 + [DeliveryDayKey] == k5;
    QueryStep(p, k5, ConfirmedKey);
    assert k5 + [ConfirmedKey] == AppendOrder;
  }

  lemma {:induction false} TruthyKeysInOrder(p: Params, keys: seq<Key>)
    requires forall i, j :: 0 <= i < j < |keys| ==> Rank(keys[i]) < Rank(keys[j])
    ensures forall i, j :: 0 <= i < j < |TruthyKeys(p, keys)| ==> Rank(TruthyKeys(p, keys)[i]) < Rank(TruthyKeys(p, keys)[j])
    decreases |keys|
  {
    if keys != [] {
      var init, last := keys[..|keys| - 1], keys[|keys| - 1];
      TruthyKeysInOrder(p, init);
      var r := TruthyKeys(p, init);
      forall k | k in r
        ensures Rank(k) < Rank(last)
      {
        var j :| 0 <= j < |init| && init[j] == k;
        assert keys[j] == k;
      }
      var full := TruthyKeys(p, keys);
      assert full == r + (if ParamText(p, last).Some? then [last] else []);
      forall i, j | 0 <= i < j < |full|
        ensures Rank(full[i]) < Rank(full[j])
      {
        if j == |r| {
          assert full[i] == r[i] && r[i] in r && full[j] == last;
        } else {
          assert full[i] == r[i] && full[j] == r[j];
          assert Rank(r[i]) < Rank(r[j]);
        }
      }
    }
  }

  /**
   * The query lists exactly the truthy parameters, each once and with its text, in the fixed order
   * page, limit, startDate, endDate, deliveryDay, confirmed.
   */
  lemma QueryPairsShape(p: Params)
    ensures var keys := TruthyKeys(p, AppendOrder);
      (forall k :: k in keys <==> ParamText(p, k).Some?) &&
      (forall i, j :: 0 <= i < j < |keys| ==> Rank(keys[i]) < Rank(keys[j])) &&
      |QueryPairs(p)| == |keys| &&
      (forall i :: 0 <= i < |keys| ==> QueryPairs(p)[i] == (KeyName(keys[i]), ParamText(p, keys[i]).value))
  {
    forall k: Key
      ensures k in AppendOrder
    {
      assert AppendOrder[Rank(k)] == k;
    }
    TruthyKeysInOrder(p, AppendOrder);
  }

  /** Different parameters are appended under different names. */
  lemma KeyNameInjective(a: Key, b: Key)
    ensures KeyName(a) == KeyName(b) <==> a == b
  {
    if a != b {
      assert |KeyName(a)| != |KeyName(b)| || KeyName(a)[0] != KeyName(b)[0];
    }
  }

  /** A server reading the listing URL's query gets back exactly the appended pairs. */
  lemma ContactsUrlQueryReadsBack(p: Params)
    ensures ParseQuery(QueryString(QueryPairs(p))) == Some(PairBytes(QueryPairs(p)))
  {
    ParseQueryOfQueryString(QueryPairs(p));
  }

  // ---------------------------------------------------------------------------------------------
  // Client-side pagination

  /** A slice bound as Array.prototype.slice reads it: negative counts from the end, then clamped. */
  function SliceBound(i: int, n: nat): (r: nat)
    ensures r <= n
    ensures 0 <= i <= n ==> r == i
  {
    if i < 0 then (if n + i < 0 then 0 else n + i) else if i > n then n else i
  }

  /** Array.prototype.slice(start, end). */
  function Slice<T>(xs: seq<T>, start: int, end: int): seq<T>
  {
    var s := SliceBound(start, |xs|);
    var e := SliceBound(end, |xs|);
    if s < e then xs[s..e] else []
  }

  /** A slice is never longer than end - start. */
  lemma SliceLength<T>(xs: seq<T>, start: int, end: int)
    requires start < end
    ensures |Slice(xs, start, end)| <= end - start
  {
    var n := |xs|;
    var s, e := SliceBound(start, n), SliceBound(end, n);
    assert s == (if start < 0 then (if n + start < 0 then 0 else n + start) else if start > n then n else start);
    assert e == (if end < 0 then (if n + end < 0 then 0 else n + end) else if end > n then n else end);
    if s < e {
      assert |Slice(xs, start, end)| == e - s;
    }
  }

  /** Math.ceil(n / d) for a count n and a nonzero divisor d. */
  function CeilDiv(n: nat, d: int): (r: int)
    requires d != 0
    ensures d > 0 ==> (r - 1) * d < n <= r * d
    ensures d < 0 ==> r * d <= n < (r - 1) * d
  {
    if d > 0 then (n + d - 1) / d else -(n / -d)
  }

  /** `page || 1` */
  function PageOrDefault(page: Option<int>): (r: int)
    ensures r != 0
    ensures page.Some? && page.value != 0 ==> r == page.value
    ensures page.None? || page.value == 0 ==> r == 1
  {
    if page.Some? && page.value != 0 then page.value else 1
  }

  /** `limit || 10` */
  function LimitOrDefault(limit: Option<int>): (r: int)
    ensures r != 0
    ensures limit.Some? && limit.value != 0 ==> r == limit.value
    ensures limit.None? || limit.value == 0 ==> r == 10
  {
    if limit.Some? && limit.value != 0 then limit.value else 10
  }

  /**
   * One page of the contact list, as the listing call builds it after the server answered. With a
   * positive limit the page count is the least number of limit-sized pages that hold every contact.
   */
  function Paginate(contacts: seq<Json>, page: Option<int>, limit: Option<int>): (r: PaginatedResponse<Json>)
    ensures r.totalCount == |contacts|
    ensures r.currentPage == PageOrDefault(page)
    ensures var lim := LimitOrDefault(limit);
      lim > 0 ==> (r.totalPages - 1) * lim < |contacts| <= r.totalPages * lim
    ensures var lim := LimitOrDefault(limit);
      lim < 0 ==> r.totalPages * lim <= |contacts| < (r.totalPages - 1) * lim
  {
    var pg := PageOrDefault(page);
    var lim := LimitOrDefault(limit);
    var start := (pg - 1) * lim;
    var totalPages := CeilDiv(|contacts|, lim);
    PaginatedResponse(Slice(contacts, start, start + lim), |contacts|, pg, totalPages, pg < totalPages, pg > 1)
  }

  /** With a positive limit, whatever the page, a page never holds more contacts than the limit; 10 when the limit is falsy. */
  lemma PageSizeBound(contacts: seq<Json>, page: Option<int>, limit: Option<int>)
    requires LimitOrDefault(limit) > 0
    ensures |Paginate(contacts, page, limit).data| <= LimitOrDefault(limit)
    ensures limit.None? || limit == Some(0) ==> |Paginate(contacts, page, limit).data| <= 10
  {
    var pg, lim := PageOrDefault(page), LimitOrDefault(limit);
    var start := (pg - 1) * lim;
    SliceLength(contacts, start, start + lim);
  }

  lemma {:induction false} MulMonotone(a: int, b: int, d: int)
    requires a <= b && d > 0
    ensures a * d <= b * d
  {
    assert b * d - a * d == (b - a) * d;
  }

  /**
   * For a positive page and limit, the page is the window of contacts starting at (page-1)*limit:
   * it holds every contact of that window there is, in order.
   */
  lemma PageIsWindow(contacts: seq<Json>, page: Option<int>, limit: Option<int>)
    requires PageOrDefault(page) >= 1 && LimitOrDefault(limit) > 0
    ensures var r := Paginate(contacts, page, limit);
      var start := (r.currentPage - 1) * LimitOrDefault(limit);
      (start >= |contacts| ==> r.data == []) &&
      (start < |contacts| ==> |r.data| == if start + LimitOrDefault(limit) <= |contacts| then LimitOrDefault(limit) else |contacts| - start) &&
      (forall i :: 0 <= i < |r.data| ==> r.data[i] == contacts[start + i])
  {
    var pg, lim := PageOrDefault(page), LimitOrDefault(limit);
    MulMonotone(0, pg - 1, lim);
  }

  /**
   * With a positive page and limit, there is a next page exactly when contacts remain after this
   * one, and a previous page exactly when this one does not start at the first contact.
   */
  lemma PageFlags(contacts: seq<Json>, page: Option<int>, limit: Option<int>)
    requires PageOrDefault(page) >= 1 && LimitOrDefault(limit) > 0
    ensures var r := Paginate(contacts, page, limit);
      var lim := LimitOrDefault(limit);
      (r.hasNextPage <==> r.currentPage * lim < |contacts|) &&
      (r.hasPrevPage <==> (r.currentPage - 1) * lim > 0) &&
      r.totalPages >= 0
  {
    var r := Paginate(contacts, page, limit);
    var pg, lim, n := r.currentPage, LimitOrDefault(limit), |contacts|;
    var t := r.totalPages;
    assert (t - 1) * lim < n <= t * lim;
    if pg < t {
      MulMonotone(pg, t - 1, lim);
    } else {
      MulMonotone(t, pg, lim);
    }
    if pg > 1 {
      MulMonotone(1, pg - 1, lim);
    }
    if t < 0 {
      MulMonotone(t, -1, lim);
    }
  }

  /** With a positive limit, every contact is on exactly one page in range: page i/limit + 1, slot i%limit. */
  lemma EveryContactOnAPage(contacts: seq<Json>, limit: Option<int>, i: nat)
    requires LimitOrDefault(limit) > 0 && i < |contacts|
    ensures var lim := LimitOrDefault(limit);
      var r := Paginate(contacts, Some(i / lim + 1), limit);
      1 <= r.currentPage <= r.totalPages && i % lim < |r.data| && r.data[i % lim] == contacts[i]
  {
    var lim := LimitOrDefault(limit);
    DivMod(i, lim);
    DivisionSlot(contacts, limit, i, i / lim, i % lim);
  }

  lemma DivMod(i: nat, d: int)
    requires d > 0
    ensures i / d >= 0 && 0 <= i % d < d && i == (i / d) * d + i % d
  {
  }

  lemma {:induction false} DivisionSlot(contacts: seq<Json>, limit: Option<int>, i: nat, q: nat, m: nat)
    requires LimitOrDefault(limit) > 0 && i < |contacts|
    requires m < LimitOrDefault(limit) && i == q * LimitOrDefault(limit) + m
    ensures var r := Paginate(contacts, Some(q + 1), limit);
      1 <= r.currentPage <= r.totalPages && m < |r.data| && r.data[m] == contacts[i]
  {
    var lim := LimitOrDefault(limit);
    var r := Paginate(contacts, Some(q + 1), limit);
    PageIsWindow(contacts, Some(q + 1), limit);
    assert r.currentPage == q + 1;
    var start := q * lim;
    assert start < |contacts|;
    var t := r.totalPages;
    assert (t - 1) * lim < |contacts| <= t * lim;
    if q + 1 > t {
      MulMonotone(t, q, lim);
    }
  }

  // ---------------------------------------------------------------------------------------------
  // Reading the server's answer

  /** Thrown by `contacts.slice(...)` when the member is truthy but has no `slice`. */
  const NotAList: JsError := TypeError("contacts.slice is not a function")

  /**
   * `result.contacts || (Array.isArray(result) ? result : [])`, and the slice call's demand that
   * the chosen value be an array. Reading `contacts` of null throws, and a truthy value that is
   * neither an array nor a string has no `slice`. A non-empty text member, which JavaScript
   * would slice as a string, is not a list of contacts here and is refused with the same error.
   */
  function ContactList(result: Json): (r: Result<seq<Json>, JsError>)
    ensures result == JNull ==> r == Failure(ReadOfNull)
    ensures result != JNull && Get(result, "contacts").Val? && Get(result, "contacts").json.JArr? ==>
      r == Success(Get(result, "contacts").json.items)
    ensures var m := Get(result, "contacts");
      result != JNull && Truthy(m) && !m.json.JArr? && !m.json.JStr? ==> r == Failure(NotAList)
    ensures result != JNull && Truthy(Get(result, "contacts")) && Get(result, "contacts").json.JStr? ==>
      r == Failure(NotAList)
    ensures result != JNull && !Truthy(Get(result, "contacts")) ==>
      r == Success(if result.JArr? then result.items else [])
  {
    match Prop(Val(result), "contacts")
    case Failure(e) => Failure(e)
    case Success(member) =>
      if Truthy(member) then
        if member.json.JArr? then Success(member.json.items) else Failure(NotAList)
      else if result.JArr? then Success(result.items)
      else Success([])
  }

  /** `result.contact || result`: the member when truthy, otherwise the whole result; null throws. */
  function Unwrap(result: Json): (r: Result<Json, JsError>)
    ensures result == JNull <==> r.Failure?
    ensures r.Success? && Truthy(Get(result, "contact")) ==> r.value == Get(result, "contact").json
    ensures r.Success? && !Truthy(Get(result, "contact")) ==> r.value == result
  {
    match Prop(Val(result), "contact")
    case Failure(e) => Failure(e)
    case Success(member) => Success(Or(member, Val(result)).json)
  }

  /** The listing error, carrying the HTTP status. */
  function FetchError(status: int): JsError
  {
    Error("Error fetching contacts: " + IntToString(status))
  }

  function FetchOneError(status: int): JsError
  {
    Error("Error fetching contact: " + IntToString(status))
  }

  function UpdateError(status: int): JsError
  {
    Error("Error updating contact: " + IntToString(status))
  }

  /**
   * What the listing call returns, or throws, for one outcome of the proxy call: a thrown call is
   * rethrown, a non-ok answer throws the listing error, and an ok answer is the page of its list.
   */
  function ListingOutcome(params: Params, response: Result<ProxyResponse, JsError>): (r: Result<PaginatedResponse<Json>, JsError>)
    ensures response.Failure? ==> r == Failure(response.error)
    ensures response.Success? && !response.value.ok ==> r == Failure(FetchError(response.value.status))
    ensures r.Success? <==> response.Success? && response.value.ok && response.value.json.Success? &&
                            ContactList(response.value.json.value).Success?
    ensures r.Success? ==> r.value == Paginate(ContactList(response.value.json.value).value, params.page, params.limit)
  {
    match response
    case Failure(e) => Failure(e)
    case Success(resp) =>
      if !resp.ok then Failure(FetchError(resp.status))
      else
        match resp.json
        case Failure(e) => Failure(e)
        case Success(result) =>
          match ContactList(result)
          case Failure(e) => Failure(e)
          case Success(contacts) => Success(Paginate(contacts, params.page, params.limit))
  }

  /**
   * What a single-contact call returns, or throws, for one outcome of the proxy call: a thrown call
   * is rethrown, a non-ok answer throws the call's own error, and an ok answer is unwrapped.
   */
  function SingleOutcome(response: Result<ProxyResponse, JsError>, error: int -> JsError): (r: Result<Json, JsError>)
    ensures response.Failure? ==> r == Failure(response.error)
    ensures response.Success? && !response.value.ok ==> r == Failure(error(response.value.status))
    ensures r.Success? ==> response.Success? && response.value.ok && response.value.json.Success? &&
                           r == Unwrap(response.value.json.value)
  {
    match response
    case Failure(e) => Failure(e)
    case Success(resp) =>
      if !resp.ok then Failure(error(resp.status))
      else
        match resp.json
        case Failure(e) => Failure(e)
        case Success(result) => Unwrap(result)
  }

  function ContactPath(id: string): (path: string)
    ensures path == "/api/v1/contacts/" + id
  {
    ApiPrefix + "/contacts/" + id
  }

  /** The PATCH that sets a contact's status: body `{"confirmed": <label>}`. */
  function StatusPatch(status: ConfirmationStatus): (o: Options)
    ensures o.verb == Some("PATCH") && o.headers == map[]
    ensures o.body.Some? && ParseJson(o.body.value) == Success(JObj([Member("confirmed", JStr(Label(status)))]))
  {
    JsonOptions("PATCH", JObj([Member("confirmed", JStr(Label(status)))]))
  }

  // ---------------------------------------------------------------------------------------------
  // The four calls, over a transport and the fetch log

  function FetchContactsSpec(t: Transport, log: seq<FetchRequest>, params: Params)
    : (Result<PaginatedResponse<Json>, JsError>, seq<FetchRequest>)
  {
    var (response, log1) := Send(t, log, ContactsUrl(params), GetOptions(map[]));
    (ListingOutcome(params, response), log1)
  }

  function UpdateContactStatusSpec(t: Transport, log: seq<FetchRequest>, id: string, status: ConfirmationStatus)
    : (Result<Json, JsError>, seq<FetchRequest>)
  {
    var (response, log1) := Send(t, log, ContactPath(id), StatusPatch(status));
    (SingleOutcome(response, UpdateError), log1)
  }

  function GetContactByIdSpec(t: Transport, log: seq<FetchRequest>, id: string)
    : (Result<Json, JsError>, seq<FetchRequest>)
  {
    var (response, log1) := Send(t, log, ContactPath(id), GetOptions(map[]));
    (SingleOutcome(response, FetchOneError), log1)
  }

  function UpdateContactSpec(t: Transport, log: seq<FetchRequest>, id: string, data: Json)
    : (Result<Json, JsError>, seq<FetchRequest>)
  {
    var (response, log1) := Send(t, log, ContactPath(id), JsonOptions("PATCH", data));
    (SingleOutcome(response, UpdateError), log1)
  }

  // ---------------------------------------------------------------------------------------------
  // Properties of the calls

  /** The listing makes one GET to the listing URL, and a non-ok answer throws with its status. */
  lemma ListingRequestAndError(t: Transport, log: seq<FetchRequest>, params: Params)
    ensures var (r, log1) := FetchContactsSpec(t, log, params);
      var req := log1[|log|];
      |log1| == |log| + 1 && log1[..|log|] == log &&
      req.url == BaseUrl(t.native, t.dev) + ContactsUrl(params) && req.verb == Some("GET") &&
      (!t.native ==> req.body == NoBody)
    ensures var req := Request(t.native, t.dev, ContactsUrl(params), GetOptions(map[]));
      !t.native && t.answer(|log|, req).Delivered? && !t.answer(|log|, req).ok ==>
      FetchContactsSpec(t, log, params).0 == Failure(FetchError(t.answer(|log|, req).status))
  {
  }

  /** On a web answer whose body is `{"contacts": [...]}` or a bare array, the page is cut from that list. */
  lemma ListingPagesTheServerList(params: Params, status: int, text: string, items: seq<Json>)
    requires ParseJson(text) == Success(JObj([Member("contacts", JArr(items))])) || ParseJson(text) == Success(JArr(items))
    ensures ListingOutcome(params, Respond(false, GetOptions(map[]), Delivered(true, status, text))) ==
      Success(Paginate(items, params.page, params.limit))
  {
    if ParseJson(text) == Success(JArr(items)) {
      assert !Truthy(Get(JArr(items), "contacts")) by {
        assert IndexOf("contacts").None?;
      }
    }
  }

  /** On native builds the proxy's placeholder answer has no contact list, so every listing comes back empty. */
  lemma NativeListingIsEmpty(params: Params, ok: bool, status: int, text: string)
    ensures var r := ListingOutcome(params, Respond(true, GetOptions(map[]), Delivered(ok, status, text)));
      r.Success? && r.value.data == [] && r.value.totalCount == 0 && r.value.totalPages == 0 &&
      (r.value.hasNextPage <==> r.value.currentPage < 0)
  {
    assert Get(SuccessJson, "contacts") == Undefined;
    assert ContactList(SuccessJson) == Success([]);
    var lim := LimitOrDefault(params.limit);
    assert CeilDiv(0, lim) == 0;
  }

  /** Setting a status sends one PATCH to `/api/v1/contacts/<id>` whose body reads back as `{"confirmed": <label>}`. */
  lemma StatusUpdateRequest(t: Transport, log: seq<FetchRequest>, id: string, status: ConfirmationStatus)
    requires !t.native
    ensures var log1 := UpdateContactStatusSpec(t, log, id, status).1;
      var req := log1[|log|];
      |log1| == |log| + 1 && log1[..|log|] == log &&
      req.url == BaseUrl(false, t.dev) + ContactPath(id) && req.verb == Some("PATCH") &&
      req.body.TextBody? && ParseJson(req.body.text) == Success(JObj([Member("confirmed", JStr(Label(status)))]))
  {
    var o := StatusPatch(status);
    var req := Request(false, t.dev, ContactPath(id), o);
    assert req.body == TextBody(o.body.value);
  }

  /** An ok answer to the status PATCH is parsed and unwrapped with `result.contact || result`. */
  lemma StatusUpdateResult(t: Transport, log: seq<FetchRequest>, id: string, status: ConfirmationStatus)
    requires !t.native
    ensures var reply := t.answer(|log|, Request(false, t.dev, ContactPath(id), StatusPatch(status)));
      reply.Delivered? && reply.ok && ParseJson(reply.text).Success? ==>
      UpdateContactStatusSpec(t, log, id, status).0 == Unwrap(ParseJson(reply.text).value)
  {
  }

  /** The three single-contact calls throw with the right text and the status of a non-ok answer. */
  lemma SingleCallErrors(response: ProxyResponse)
    requires !response.ok
    ensures SingleOutcome(Success(response), UpdateError) == Failure(Error("Error updating contact: " + IntToString(response.status)))
    ensures SingleOutcome(Success(response), FetchOneError) == Failure(Error("Error fetching contact: " + IntToString(response.status)))
  {
  }

  /** The real API's `{"contact": c}` yields c; the proxy's placeholder `{"success": true}` is returned whole. */
  lemma UnwrapCases(c: Json)
    requires Truthy(Val(c))
    ensures Unwrap(JObj([Member("contact", c)])) == Success(c)
    ensures Unwrap(SuccessJson) == Success(SuccessJson)
  {
  }

  // ---------------------------------------------------------------------------------------------
  // The service over the app's proxy

  class ContactsApi {
    const proxy: ProxyService

    constructor(proxy: ProxyService)
      ensures this.proxy == proxy
    {
      this.proxy := proxy;
    }

    /** `if (params.x) queryParams.append('x', text)` for one parameter. */
    static method AppendParam(pairs: seq<(string, string)>, params: Params, k: Key) returns (after: seq<(string, string)>)
      ensures after == pairs + Appended(params, k)
    {
      after := pairs;
      var text := ParamText(params, k);
      if text.Some? {
        after := after + [(KeyName(k), text.value)];
      }
    }

    /** The URLSearchParams appends, one per parameter, in the source's order. */
    static method BuildQuery(params: Params) returns (pairs: seq<(string, string)>)
      ensures pairs == QueryPairs(params)
    {
      pairs := [];
      pairs := AppendParam(pairs, params, PageKey);
      pairs := AppendParam(pairs, params, LimitKey);
      pairs := AppendParam(pairs, params, StartDateKey);
      pairs := AppendParam(pairs, params, EndDateKey);
      pairs := AppendParam(pairs, params, DeliveryDayKey);
      pairs := AppendParam(pairs, params, ConfirmedKey);
      QueryPairsAreTheAppends(params);
    }

    /** The listing call: append the truthy parameters, GET, check, pick the list and cut the page. */
    method FetchContacts(params: Params) returns (r: Result<PaginatedResponse<Json>, JsError>)
      modifies proxy.net
      ensures (r, proxy.net.log) == FetchContactsSpec(proxy.Channel(), old(proxy.net.log), params)
    {
      var pairs := BuildQuery(params);
      var query := QueryString(pairs);
      var url := if query != "" then ApiPrefix + "/contacts?" + query else ApiPrefix + "/contacts";
      var response := proxy.Get(url, map[]);
      r := ListingOutcome(params, response);
    }

    method UpdateContactStatus(id: string, status: ConfirmationStatus) returns (r: Result<Json, JsError>)
      modifies proxy.net
      ensures (r, proxy.net.log) == UpdateContactStatusSpec(proxy.Channel(), old(proxy.net.log), id, status)
    {
      var response := proxy.SendRequest(ContactPath(id), StatusPatch(status));
      r := SingleOutcome(response, UpdateError);
    }

    method GetContactById(id: string) returns (r: Result<Json, JsError>)
      modifies proxy.net
      ensures (r, proxy.net.log) == GetContactByIdSpec(proxy.Channel(), old(proxy.net.log), id)
    {
      var response := proxy.Get(ContactPath(id), map[]);
      r := SingleOutcome(response, FetchOneError);
    }

    method UpdateContact(id: string, data: Json) returns (r: Result<Json, JsError>)
      modifies proxy.net
      ensures (r, proxy.net.log) == UpdateContactSpec(proxy.Channel(), old(proxy.net.log), id, data)
    {
      var response := proxy.SendRequest(ContactPath(id), JsonOptions("PATCH", data));
      r := SingleOutcome(response, UpdateError);
    }
  }
}
