/** The dashboard: a five-contact view of the list with summary counts and a one-tap confirm. */
module Dashboard {
  import opened Wrappers
  import opened Json
  import opened Js
  import opened ContactTypes
  import opened ContactsService
  import opened UseContacts

  /** The dashboard's page size. */
  const DashboardLimit: int := 5

  /** The three numbers of the summary cards. */
  datatype Summary = Summary(total: int, pending: nat, confirmed: nat)

  /**
   * The summary of the rendered state: the total is the server-side count, the other two count the
   * contacts of the page on show with status Pending and Confirmed. The two filters read the status
   * of every contact, so a null contact on the page throws.
   */
  function SummaryOf(s: ContactsState): (r: Result<Summary, JsError>)
    ensures r.Failure? <==> JNull in s.contacts
    ensures r.Failure? ==> r.error == ReadOfNull
    ensures r.Success? ==> r.value.total == s.pagination.totalCount
    ensures r.Success? ==> r.value.pending == |ContactsByStatus(s.contacts, Pending).value|
    ensures r.Success? ==> r.value.confirmed == |ContactsByStatus(s.contacts, Confirmed).value|
    ensures r.Success? ==> r.value.pending + r.value.confirmed <= |s.contacts|
  {
    match ContactsByStatus(s.contacts, Pending)
    case Failure(e) => Failure(e)
    case Success(pending) =>
      match ContactsByStatus(s.contacts, Confirmed)
      case Failure(e) => Failure(e)
      case Success(confirmed) =>
        FilterDisjointLengths(s.contacts, c => HasStatus(c, Pending), c => HasStatus(c, Confirmed));
        Success(Summary(s.pagination.totalCount, |pending|, |confirmed|))
  }

  /** The pending count counts every copy of every pending contact on the page, and no other contact. */
  lemma PendingCountIsExact(s: ContactsState)
    requires SummaryOf(s).Success?
    ensures var pending := ContactsByStatus(s.contacts, Pending).value;
      SummaryOf(s).value.pending == |multiset(pending)| &&
      (forall c :: c in pending <==> c in s.contacts && HasStatus(c, Pending)) &&
      (forall c :: HasStatus(c, Pending) ==> multiset(pending)[c] == multiset(s.contacts)[c])
  {
    forall c | HasStatus(c, Pending)
      ensures multiset(ContactsByStatus(s.contacts, Pending).value)[c] == multiset(s.contacts)[c]
    {
      StatusViewCounts(s.contacts, Pending, c);
    }
  }

  /** The confirmed count counts every copy of every confirmed contact on the page, and no other contact. */
  lemma ConfirmedCountIsExact(s: ContactsState)
    requires SummaryOf(s).Success?
    ensures var confirmed := ContactsByStatus(s.contacts, Confirmed).value;
      SummaryOf(s).value.confirmed == |multiset(confirmed)| &&
      (forall c :: c in confirmed <==> c in s.contacts && HasStatus(c, Confirmed)) &&
      (forall c :: HasStatus(c, Confirmed) ==> multiset(confirmed)[c] == multiset(s.contacts)[c])
  {
    forall c | HasStatus(c, Confirmed)
      ensures multiset(ContactsByStatus(s.contacts, Confirmed).value)[c] == multiset(s.contacts)[c]
    {
      StatusViewCounts(s.contacts, Confirmed, c);
    }
  }

  /** The Confirm button: shown only for a pending contact, and it asks for Confirmed on that contact's id. */
  function ConfirmAction(c: Json): (r: Option<(string, ConfirmationStatus)>)
    ensures r.Some? <==> HasStatus(c, Pending)
    ensures r.Some? ==> r.value == (ToStr(Get(c, "_id")), Confirmed)
  {
    if HasStatus(c, Pending) then Some((ToStr(Get(c, "_id")), Confirmed)) else None
  }

  /** A contact with the Confirm button has no other known status, so the button never re-confirms. */
  lemma ConfirmOnlyForPending(c: Json, s: ConfirmationStatus)
    requires ConfirmAction(c).Some? && HasStatus(c, s)
    ensures s == Pending
  {
    FromLabelOfLabel(s);
    FromLabelOfLabel(Pending);
  }

  /** The dashboard page over its own contacts hook. */
  class DashboardPage {
    const hook: ContactsHook

    /** useContacts({}, 5). */
    constructor(api: ContactsApi)
      ensures fresh(hook) && hook.api == api && hook.state == InitialState
      ensures hook.filters == NoFilters && hook.limit == DashboardLimit && hook.history == []
    {
      hook := new ContactsHook(api, NoFilters, DashboardLimit);
    }

    /** Pull to refresh: fetch the first page again. */
    method Refresh()
      modifies hook, hook.api.proxy.net
      ensures var run := FetchSpec(hook.api.proxy.Channel(), old(hook.api.proxy.net.log), old(hook.state), hook.filters, hook.limit, 1);
        hook.state == run.state && hook.api.proxy.net.log == run.log
      ensures hook.filters == old(hook.filters) && hook.limit == old(hook.limit)
    {
      hook.FetchContacts(1);
    }

    /** Tapping Confirm on a contact: sets Confirmed when the contact is pending, and does nothing otherwise. */
    method Confirm(c: Json)
      modifies hook, hook.api.proxy.net
      ensures ConfirmAction(c).None? ==> hook.state == old(hook.state) && hook.api.proxy.net.log == old(hook.api.proxy.net.log)
      ensures ConfirmAction(c).Some? ==>
        var run := UpdateStatusSpec(hook.api.proxy.Channel(), old(hook.api.proxy.net.log), old(hook.state),
                                    hook.filters, hook.limit, ToStr(Get(c, "_id")), Confirmed);
        hook.state == run.state && hook.api.proxy.net.log == run.log
      ensures hook.filters == old(hook.filters) && hook.limit == old(hook.limit)
    {
      var action := ConfirmAction(c);
      if action.Some? {
        hook.UpdateContactStatus(action.value.0, action.value.1);
      }
    }
  }
}
