/**
 * The contacts hook: the list state a page renders, the filters and page size it fetches with, and
 * the operations that fetch a page, merge new filters and set a contact's status.
 */
module UseContacts {
  import opened Wrappers
  import opened Json
  import opened Js
  import opened Gateway
  import opened ContactTypes
  import opened ContactsService

  // ---------------------------------------------------------------------------------------------
  // State

  /** The pagination part of the state, copied field by field from each listing answer. */
  datatype Pagination = Pagination(
    currentPage: int,
    totalPages: int,
    totalCount: int,
    hasNextPage: bool,
    hasPrevPage: bool)

  /** What the hook renders from. */
  datatype ContactsState = ContactsState(
    contacts: seq<Json>,
    loading: bool,
    error: Option<string>,
    pagination: Pagination)

  /** The state before any fetch: no contacts, not loading, no error, page 1 of 0. */
  const InitialState: ContactsState := ContactsState([], false, None, Pagination(1, 0, 0, false, false))

  /** The four filter fields. */
  datatype FilterKey = StartDateFilter | EndDateFilter | DeliveryDayFilter | ConfirmedFilter

  /**
   * A filter object. A key that is present may still hold undefined (None): such a key overrides
   * an earlier value when objects are merged, though it sends nothing.
   */
  type Filters = map<FilterKey, Option<string>>

  const NoFilters: Filters := map[]

  /** `filters.k`: undefined when the key is absent. */
  function FilterValue(f: Filters, k: FilterKey): (v: Option<string>)
    ensures k !in f ==> v == None
    ensures k in f ==> v == f[k]
  {
    if k in f then f[k] else None
  }

  /** `{ page, limit, ...filters }`: the filters come last but share no key with page and limit. */
  function ParamsFor(page: int, limit: int, f: Filters): (p: Params)
    ensures p.page == Some(page) && p.limit == Some(limit)
    ensures p.startDate == FilterValue(f, StartDateFilter) && p.endDate == FilterValue(f, EndDateFilter)
    ensures p.deliveryDay == FilterValue(f, DeliveryDayFilter) && p.confirmed == FilterValue(f, ConfirmedFilter)
  {
    Params(Some(page), Some(limit), FilterValue(f, StartDateFilter), FilterValue(f, EndDateFilter),
           FilterValue(f, DeliveryDayFilter), FilterValue(f, ConfirmedFilter))
  }

  /** `{ ...prev, ...next }`: every key of `next` wins, the other keys of `prev` stay. */
  function Merge(prev: Filters, next: Filters): (m: Filters)
    ensures m.Keys == prev.Keys + next.Keys
    ensures forall k :: k in next ==> m[k] == next[k]
    ensures forall k :: k in prev && k !in next ==> m[k] == prev[k]
  {
    prev + next
  }

  // ---------------------------------------------------------------------------------------------
  // The state transitions of one fetch

  /** `{ ...prev, loading: true, error: null }`. */
  function Started(s: ContactsState): (s1: ContactsState)
    ensures s1.loading && s1.error == None
    ensures s1.contacts == s.contacts && s1.pagination == s.pagination
  {
    s.(loading := true, error := None)
  }

  /** The state installed from a listing answer. */
  function Loaded(r: PaginatedResponse<Json>): (s: ContactsState)
    ensures s.contacts == r.data && !s.loading && s.error == None
    ensures s.pagination.currentPage == r.currentPage && s.pagination.totalPages == r.totalPages
    ensures s.pagination.totalCount == r.totalCount
    ensures s.pagination.hasNextPage == r.hasNextPage && s.pagination.hasPrevPage == r.hasPrevPage
  {
    ContactsState(r.data, false, None,
                  Pagination(r.currentPage, r.totalPages, r.totalCount, r.hasNextPage, r.hasPrevPage))
  }

  /** The message shown for a thrown error; every error the calls throw is an `Error` with a message. */
  function Message(e: JsError): string
  {
    e.message
  }

  /** `{ ...prev, loading: false, error: message }`. */
  function Failed(s: ContactsState, e: JsError): (s1: ContactsState)
    ensures !s1.loading && s1.error == Some(e.message)
    ensures s1.contacts == s.contacts && s1.pagination == s.pagination
  {
    s.(loading := false, error := Some(Message(e)))
  }

  /** The state a settled listing call leaves. */
  function Settled(s: ContactsState, r: Result<PaginatedResponse<Json>, JsError>): ContactsState
  {
    match r
    case Success(page) => Loaded(page)
    case Failure(e) => Failed(s, e)
  }

  /** The outcome of a hook operation: the final state, every state set on the way, and the fetch log. */
  datatype Run = Run(state: ContactsState, sets: seq<ContactsState>, log: seq<FetchRequest>)

  /** fetchContacts(page) over a transport and the fetch log. */
  function FetchSpec(t: Transport, log: seq<FetchRequest>, s: ContactsState, f: Filters, limit: int, page: int): (run: Run)
    ensures |run.sets| == 2 && run.sets[0].loading && run.sets[1] == run.state && !run.state.loading
    ensures log <= run.log && |run.log| == |log| + 1
  {
    var s1 := Started(s);
    var (r, log1) := FetchContactsSpec(t, log, ParamsFor(page, limit, f));
    Run(Settled(s1, r), [s1, Settled(s1, r)], log1)
  }

  /**
   * updateContactStatus(id, status): set the status; on success refetch the page that was current
   * when the call began, otherwise show the error. A failing refetch is caught by the fetch itself.
   */
  function UpdateStatusSpec(t: Transport, log: seq<FetchRequest>, s: ContactsState, f: Filters, limit: int,
                            id: string, status: ConfirmationStatus): (run: Run)
    ensures run.sets != [] && run.sets[0] == Started(s) && run.sets[|run.sets| - 1] == run.state
    ensures log < run.log
  {
    var after := AfterStatusRequest(t, Started(s), f, limit, s.pagination.currentPage, UpdateContactStatusSpec(t, log, id, status));
    Run(after.state, [Started(s)] + after.sets, after.log)
  }

  /**
   * How the update goes on from the loading state `s` once its request has settled with `call`:
   * the error is shown, or `page` is fetched.
   */
  function AfterStatusRequest(t: Transport, s: ContactsState, f: Filters, limit: int, page: int,
                              call: (Result<Json, JsError>, seq<FetchRequest>)): (run: Run)
    ensures run.sets != [] && run.sets[|run.sets| - 1] == run.state && call.1 <= run.log
  {
    match call.0
    case Failure(e) => Run(Failed(s, e), [Failed(s, e)], call.1)
    case Success(_) => FetchSpec(t, call.1, s, f, limit, page)
  }

  // ---------------------------------------------------------------------------------------------
  // Properties of the transitions

  /**
   * A fetch first shows loading with the old list and no error, then settles: not loading, and
   * either the answer's page or the old list with the error's message.
   */
  lemma FetchShowsLoadingThenSettles(t: Transport, log: seq<FetchRequest>, s: ContactsState, f: Filters, limit: int, page: int)
    ensures var run := FetchSpec(t, log, s, f, limit, page);
      var r := FetchContactsSpec(t, log, ParamsFor(page, limit, f)).0;
      |run.sets| == 2 && run.sets[1] == run.state &&
      run.sets[0].loading && run.sets[0].error == None &&
      run.sets[0].contacts == s.contacts && run.sets[0].pagination == s.pagination &&
      !run.state.loading &&
      (r.Success? ==> run.state.contacts == r.value.data && run.state.error == None &&
                      run.state.pagination.currentPage == r.value.currentPage &&
                      run.state.pagination.totalPages == r.value.totalPages &&
                      run.state.pagination.totalCount == r.value.totalCount) &&
      (r.Failure? ==> run.state.contacts == s.contacts && run.state.pagination == s.pagination &&
                      run.state.error == Some(r.error.message))
  {
  }

  /** A fetch is one GET of the listing URL built from the page, the page size and the current filters. */
  lemma FetchSendsTheFilters(t: Transport, log: seq<FetchRequest>, s: ContactsState, f: Filters, limit: int, page: int)
    ensures var run := FetchSpec(t, log, s, f, limit, page);
      run.log == log + [Request(t.native, t.dev, ContactsUrl(ParamsFor(page, limit, f)), GetOptions(map[]))]
  {
  }

  /**
   * The query of a fetch names the page and the page size whenever they are not 0, and a filter
   * exactly when its value is a non-empty text.
   */
  lemma FetchQueryNamesTheFilters(page: int, limit: int, f: Filters)
    ensures var keys := TruthyKeys(ParamsFor(page, limit, f), AppendOrder);
      (PageKey in keys <==> page != 0) && (LimitKey in keys <==> limit != 0) &&
      (StartDateKey in keys <==> StartDateFilter in f && f[StartDateFilter].Some? && f[StartDateFilter].value != "") &&
      (EndDateKey in keys <==> EndDateFilter in f && f[EndDateFilter].Some? && f[EndDateFilter].value != "") &&
      (DeliveryDayKey in keys <==> DeliveryDayFilter in f && f[DeliveryDayFilter].Some? && f[DeliveryDayFilter].value != "") &&
      (ConfirmedKey in keys <==> ConfirmedFilter in f && f[ConfirmedFilter].Some? && f[ConfirmedFilter].value != "")
  {
    QueryPairsShape(ParamsFor(page, limit, f));
  }

  /** Merging an empty object changes nothing, and merging the same object twice is merging it once. */
  lemma MergeEmptyAndTwice(prev: Filters, next: Filters)
    ensures Merge(prev, NoFilters) == prev
    ensures Merge(Merge(prev, next), next) == Merge(prev, next)
  {
  }

  /** A key given undefined in the new filters drops the old value from every later query. */
  lemma MergeUndefinedClears(prev: Filters, k: FilterKey)
    ensures FilterValue(Merge(prev, map[k := None]), k) == None
    ensures forall j :: j != k ==> FilterValue(Merge(prev, map[k := None]), j) == FilterValue(prev, j)
  {
  }

  /** A failed status update shows its error, keeps the list and makes no second request. */
  lemma UpdateStatusFailureStops(t: Transport, log: seq<FetchRequest>, s: ContactsState, f: Filters, limit: int,
                                 id: string, status: ConfirmationStatus)
    requires UpdateContactStatusSpec(t, log, id, status).0.Failure?
    ensures var run := UpdateStatusSpec(t, log, s, f, limit, id, status);
      |run.log| == |log| + 1 && !run.state.loading &&
      run.state.error == Some(UpdateContactStatusSpec(t, log, id, status).0.error.message) &&
      run.state.contacts == s.contacts && run.state.pagination == s.pagination
  {
  }

  /** A successful status update is followed by a fetch of the page that was current when it began. */
  lemma UpdateStatusRefetchesTheCurrentPage(t: Transport, log: seq<FetchRequest>, s: ContactsState, f: Filters, limit: int,
                                            id: string, status: ConfirmationStatus)
    requires UpdateContactStatusSpec(t, log, id, status).0.Success?
    ensures var log1 := UpdateContactStatusSpec(t, log, id, status).1;
      var run := UpdateStatusSpec(t, log, s, f, limit, id, status);
      run.log == log1 + [Request(t.native, t.dev, ContactsUrl(ParamsFor(s.pagination.currentPage, limit, f)), GetOptions(map[]))] &&
      |run.sets| == 3 && run.sets[0].loading && run.sets[1].loading && !run.state.loading
  {
  }

  // ---------------------------------------------------------------------------------------------
  // Views of the loaded list

  /** Array.prototype.filter: the kept elements in their order. */
  function Filter(xs: seq<Json>, keep: Json -> bool): (r: seq<Json>)
    ensures |r| <= |xs|
    ensures forall x :: x in r <==> x in xs && keep(x)
  {
    if xs == [] then [] else
    var rest := Filter(xs[..|xs| - 1], keep);
    var x := xs[|xs| - 1];
    assert forall y :: y in xs <==> y in xs[..|xs| - 1] || y == x;
    if keep(x) then rest + [x] else rest
  }

  /** Filtering a concatenation filters each part and keeps the parts in order. */
  lemma {:induction false} FilterAppend(xs: seq<Json>, ys: seq<Json>, keep: Json -> bool)
    ensures Filter(xs + ys, keep) == Filter(xs, keep) + Filter(ys, keep)
    decreases |ys|
  {
    if ys != [] {
      var init := ys[..|ys| - 1];
      assert (xs + ys)[..|xs + ys| - 1] == xs + init;
      assert (xs + ys)[|xs + ys| - 1] == ys[|ys| - 1];
      FilterAppend(xs, init, keep);
    } else {
      assert xs + ys == xs;
    }
  }

  /** Filtering keeps the multiplicity of every kept element and drops the others. */
  lemma {:induction false} FilterCount(xs: seq<Json>, keep: Json -> bool, x: Json)
    ensures multiset(Filter(xs, keep))[x] == if keep(x) then multiset(xs)[x] else 0
    decreases |xs|
  {
    if xs != [] {
      var init := xs[..|xs| - 1];
      assert xs == init + [xs[|xs| - 1]];
      FilterCount(init, keep, x);
    }
  }

  /** Two filters that never keep the same element keep, together, at most the whole list. */
  lemma {:induction false} FilterDisjointLengths(xs: seq<Json>, p: Json -> bool, q: Json -> bool)
    requires forall x :: !(p(x) && q(x))
    ensures |Filter(xs, p)| + |Filter(xs, q)| <= |xs|
    decreases |xs|
  {
    if xs != [] {
      FilterDisjointLengths(xs[..|xs| - 1], p, q);
    }
  }

  /**
   * Array.prototype.filter with a callback that can throw: the kept elements in their order, or
   * what the callback threw on the first element it threw on.
   */
  function TryFilter(xs: seq<Json>, test: Json -> Result<bool, JsError>): (r: Result<seq<Json>, JsError>)
    ensures r.Success? <==> forall x :: x in xs ==> test(x).Success?
    ensures r.Success? ==> |r.value| <= |xs| && forall x :: x in r.value <==> x in xs && test(x) == Success(true)
    ensures r.Failure? ==>
      exists i :: 0 <= i < |xs| && test(xs[i]) == Failure(r.error) && (forall j :: 0 <= j < i ==> test(xs[j]).Success?)
    decreases |xs|
  {
    if xs == [] then Success([]) else
    var init, x := xs[..|xs| - 1], xs[|xs| - 1];
    assert forall y :: y in xs <==> y in init || y == x;
    match TryFilter(init, test)
    case Failure(e) => Failure(e)
    case Success(rest) =>
      match test(x)
      case Failure(e) =>
        assert forall j :: 0 <= j < |xs| - 1 ==> test(xs[j]).Success? by {
          forall j | 0 <= j < |xs| - 1 ensures test(xs[j]).Success? {
            assert xs[j] == init[j];
          }
        }
        Failure(e)
      case Success(k) => Success(if k then rest + [x] else rest)
  }

  /** When no callback throws, the throwing filter keeps what the plain filter of its verdicts keeps. */
  lemma {:induction false} TryFilterIsFilter(xs: seq<Json>, test: Json -> Result<bool, JsError>, keep: Json -> bool)
    requires forall x :: keep(x) <==> test(x) == Success(true)
    requires TryFilter(xs, test).Success?
    ensures TryFilter(xs, test).value == Filter(xs, keep)
    decreases |xs|
  {
    if xs != [] {
      TryFilterIsFilter(xs[..|xs| - 1], test, keep);
    }
  }

  /** `contact.confirmed === status` on a contact that is not null: its status reads back as that one. */
  predicate HasStatus(c: Json, status: ConfirmationStatus): (b: bool)
    ensures b ==> c.JObj? && Get(c, "confirmed").Val? && Get(c, "confirmed").json.JStr?
    ensures b ==> FromLabel(Get(c, "confirmed").json.s) == Some(status)
  {
    FromLabelOfLabel(status);
    Get(c, "confirmed") == Str(Label(status))
  }

  /** The callback `contact => contact.confirmed === status`, which throws on null. */
  function StatusTest(c: Json, status: ConfirmationStatus): (r: Result<bool, JsError>)
    ensures r.Failure? <==> c == JNull
    ensures r.Failure? ==> r.error == ReadOfNull
    ensures r.Success? ==> (r.value <==> HasStatus(c, status))
  {
    match Prop(Val(c), "confirmed")
    case Failure(e) => Failure(e)
    case Success(v) => Success(v == Str(Label(status)))
  }

  /**
   * getContactsByStatus: the loaded contacts whose status is the given one, in list order; reading
   * the status of a null element throws.
   */
  function ContactsByStatus(contacts: seq<Json>, status: ConfirmationStatus): (r: Result<seq<Json>, JsError>)
    ensures r.Failure? <==> JNull in contacts
    ensures r.Failure? ==> r.error == ReadOfNull
    ensures r.Success? ==> r.value == Filter(contacts, c => HasStatus(c, status))
    ensures r.Success? ==> |r.value| <= |contacts| && forall c :: c in r.value <==> c in contacts && HasStatus(c, status)
  {
    var test := c => StatusTest(c, status);
    var r := TryFilter(contacts, test);
    if r.Success? then
      TryFilterIsFilter(contacts, test, c => HasStatus(c, status));
      r
    else
      r
  }

  /** One week in milliseconds: `setDate(getDate() + 7)` without a daylight-saving change. */
  const Week: int := 7 * 24 * 60 * 60 * 1000

  /**
   * `new Date(contact.partyDate)` as a time in milliseconds, or None for an invalid date. Date texts
   * are read by `parseDate`; a number is a time already, and null and the booleans convert to 0 and 1.
   */
  function PartyTime(c: Json, parseDate: string -> Option<int>): (t: Option<int>)
    ensures Get(c, "partyDate") == Undefined ==> t == None
    ensures Get(c, "partyDate").Val? && Get(c, "partyDate").json.JStr? ==> t == parseDate(Get(c, "partyDate").json.s)
    ensures Get(c, "partyDate").Val? && Get(c, "partyDate").json.JNum? ==> t == Some(Get(c, "partyDate").json.n)
  {
    match Get(c, "partyDate")
    case Undefined => None
    case Val(v) =>
      match v
      case JStr(s) => parseDate(s)
      case JNum(n) => Some(n)
      case JNull => Some(0)
      case JBool(b) => Some(if b then 1 else 0)
      case _ => None
  }

  /** The party is between now and a week from now, both ends included; an invalid date compares false. */
  predicate InComingWeek(c: Json, now: int, parseDate: string -> Option<int>)
  {
    var t := PartyTime(c, parseDate);
    t.Some? && now <= t.value <= now + Week
  }

  /** The callback of getUpcomingContacts: reading `contact.partyDate` throws on null. */
  function UpcomingTest(c: Json, now: int, parseDate: string -> Option<int>): (r: Result<bool, JsError>)
    ensures r.Failure? <==> c == JNull
    ensures r.Failure? ==> r.error == ReadOfNull
    ensures r.Success? ==> (r.value <==> InComingWeek(c, now, parseDate))
  {
    match Prop(Val(c), "partyDate")
    case Failure(e) => Failure(e)
    case Success(_) => Success(InComingWeek(c, now, parseDate))
  }

  /**
   * getUpcomingContacts: the loaded contacts whose party falls in the coming week, in list order;
   * reading the party date of a null element throws.
   */
  function UpcomingContacts(contacts: seq<Json>, now: int, parseDate: string -> Option<int>): (r: Result<seq<Json>, JsError>)
    ensures r.Failure? <==> JNull in contacts
    ensures r.Failure? ==> r.error == ReadOfNull
    ensures r.Success? ==> r.value == Filter(contacts, c => InComingWeek(c, now, parseDate))
    ensures r.Success? ==> |r.value| <= |contacts| && forall c :: c in r.value <==> c in contacts && InComingWeek(c, now, parseDate)
  {
    var test := c => UpcomingTest(c, now, parseDate);
    var r := TryFilter(contacts, test);
    if r.Success? then
      TryFilterIsFilter(contacts, test, c => InComingWeek(c, now, parseDate));
      r
    else
      r
  }

  /** Each known status selects its own contacts: a contact is in at most one status view. */
  lemma StatusViewsAreDisjoint(contacts: seq<Json>, s: ConfirmationStatus, t: ConfirmationStatus, c: Json)
    requires s != t
    ensures var a, b := ContactsByStatus(contacts, s), ContactsByStatus(contacts, t);
      a.Success? && b.Success? ==> !(c in a.value && c in b.value)
  {
    FromLabelOfLabel(s);
    FromLabelOfLabel(t);
  }

  /** A status view keeps every copy of a contact with that status. */
  lemma StatusViewCounts(contacts: seq<Json>, status: ConfirmationStatus, c: Json)
    requires HasStatus(c, status)
    ensures var r := ContactsByStatus(contacts, status);
      r.Success? ==> multiset(r.value)[c] == multiset(contacts)[c]
  {
    FilterCount(contacts, c => HasStatus(c, status), c);
  }

  // ---------------------------------------------------------------------------------------------
  // The hook

  class ContactsHook {
    /** The rendered state, the filters and the page size. */
    var state: ContactsState
    var filters: Filters
    var limit: int
    /** Every state value set so far, in order. */
    ghost var history: seq<ContactsState>
    const api: ContactsApi

    /** useContacts(initialFilters, initialLimit), before its first effect runs. */
    constructor(api: ContactsApi, initialFilters: Filters, initialLimit: int)
      ensures this.api == api && state == InitialState && filters == initialFilters && limit == initialLimit
      ensures history == []
    {
      this.api := api;
      state := InitialState;
      filters := initialFilters;
      limit := initialLimit;
      history := [];
    }

    /** fetchContacts(page), also exposed as refetch: mark loading, fetch, then install the page or the error. */
    method FetchContacts(page: int)
      modifies this, api.proxy.net
      ensures var run := FetchSpec(api.proxy.Channel(), old(api.proxy.net.log), old(state), filters, limit, page);
        state == run.state && history == old(history) + run.sets && api.proxy.net.log == run.log
      ensures filters == old(filters) && limit == old(limit)
    {
      SetState(Started(state));
      var r := api.FetchContacts(ParamsFor(page, limit, filters));
      if r.Success? {
        SetState(Loaded(r.value));
      } else {
        SetState(Failed(state, r.error));
      }
    }

    /** setState: install a new state and record it. */
    method SetState(next: ContactsState)
      modifies this
      ensures state == next && history == old(history) + [next]
      ensures filters == old(filters) && limit == old(limit)
    {
      state := next;
      history := history + [next];
    }

    /** goToPage(page). */
    method GoToPage(page: int)
      modifies this, api.proxy.net
      ensures var run := FetchSpec(api.proxy.Channel(), old(api.proxy.net.log), old(state), filters, limit, page);
        state == run.state && history == old(history) + run.sets && api.proxy.net.log == run.log
      ensures filters == old(filters) && limit == old(limit)
    {
      FetchContacts(page);
    }

    /**
     * updateFilters(next): merge the new filters over the old; the effect that depends on the
     * fetch then runs again and fetches page 1 with the merged filters.
     */
    method UpdateFilters(next: Filters)
      modifies this, api.proxy.net
      ensures filters == Merge(old(filters), next) && limit == old(limit)
      ensures var run := FetchSpec(api.proxy.Channel(), old(api.proxy.net.log), old(state), filters, limit, 1);
        state == run.state && history == old(history) + run.sets && api.proxy.net.log == run.log
    {
      filters := Merge(filters, next);
      FetchContacts(1);
    }

    /** updateContactStatus(id, status): mark loading, set the status, then refetch the current page. */
    method UpdateContactStatus(id: string, status: ConfirmationStatus)
      modifies this, api.proxy.net
      ensures var run := UpdateStatusSpec(api.proxy.Channel(), old(api.proxy.net.log), old(state), filters, limit, id, status);
        state == run.state && history == old(history) + run.sets && api.proxy.net.log == run.log
      ensures filters == old(filters) && limit == old(limit)
    {
      ghost var t, log0, s0, h0 := api.proxy.Channel(), api.proxy.net.log, state, history;
      var page := state.pagination.currentPage;
      SetState(Started(state));
      var r := api.UpdateContactStatus(id, status);
      ghost var call := (r, api.proxy.net.log);
      assert call == UpdateContactStatusSpec(t, log0, id, status);
      Settle(page, r);
      ghost var after := AfterStatusRequest(t, Started(s0), filters, limit, page, call);
      assert history == h0 + ([Started(s0)] + after.sets);
    }

    /** The rest of updateContactStatus once its request has settled: show the error, or refetch the page. */
    method Settle(page: int, r: Result<Json, JsError>)
      modifies this, api.proxy.net
      ensures var run := AfterStatusRequest(api.proxy.Channel(), old(state), filters, limit, page, (r, old(api.proxy.net.log)));
        state == run.state && history == old(history) + run.sets && api.proxy.net.log == run.log
      ensures filters == old(filters) && limit == old(limit)
    {
      if r.Success? {
        FetchContacts(page);
      } else {
        SetState(Failed(state, r.error));
      }
    }
  }
}
