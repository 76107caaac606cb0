/** The filter form above the contact list: two dates and a status, applied or reset as a whole. */
module ContactsFilter {
  import opened Wrappers
  import opened UseContacts

  /** The text before the first 'T', or the whole text when it has none (`split('T')[0]`). */
  function BeforeT(s: string): (r: string)
    ensures r <= s
    ensures 'T' !in r
    ensures |r| < |s| ==> s[|r|] == 'T'
  {
    if s == [] || s[0] == 'T' then [] else [s[0]] + BeforeT(s[1..])
  }

  /** formatDateForApi: the date part of an ISO date-time; the empty text stays empty. */
  function FormatDateForApi(iso: string): (r: string)
    ensures iso == "" ==> r == ""
    ensures r <= iso && 'T' !in r
    ensures |r| < |iso| ==> iso[|r|] == 'T'
  {
    if iso == "" then "" else BeforeT(iso)
  }

  /** A text without a 'T' is already a date part. */
  lemma {:induction false} BeforeTOfPlain(s: string)
    requires 'T' !in s
    ensures BeforeT(s) == s
  {
    if s != [] {
      assert s[0] in s;
      assert forall i :: 0 <= i < |s[1..]| ==> s[1..][i] == s[i + 1];
      BeforeTOfPlain(s[1..]);
    }
  }

  /** The date part is exactly the prefix ending at the first 'T' or at the end. */
  lemma FormatDateIsFirstSegment(date: string, rest: string)
    requires 'T' !in date
    ensures FormatDateForApi(date + "T" + rest) == date
    ensures FormatDateForApi(date) == date
  {
    var s := date + "T" + rest;
    BeforeTOfPlain(date);
    if date != "" {
      assert s[|date|] == 'T';
    } else {
      assert s[0] == 'T';
    }
  }

  /** Formatting a date part again changes nothing. */
  lemma FormatDateIdempotent(iso: string)
    ensures FormatDateForApi(FormatDateForApi(iso)) == FormatDateForApi(iso)
  {
    BeforeTOfPlain(FormatDateForApi(iso));
  }

  /** The value a form field sends: undefined when empty, otherwise the (formatted) text. */
  function FieldValue(text: string, format: bool): (v: Option<string>)
    ensures v == None <==> text == ""
    ensures v.Some? ==> v.value == (if format then FormatDateForApi(text) else text)
  {
    if text == "" then None else Some(if format then FormatDateForApi(text) else text)
  }

  /**
   * applyFilters: the object sent when the form is applied. It always carries the two dates and
   * the status, undefined where a field is empty, and never carries a delivery day.
   */
  function Applied(startDate: string, endDate: string, status: string): (f: Filters)
    ensures f.Keys == {StartDateFilter, EndDateFilter, ConfirmedFilter}
    ensures f[StartDateFilter] == FieldValue(startDate, true)
    ensures f[EndDateFilter] == FieldValue(endDate, true)
    ensures f[ConfirmedFilter] == FieldValue(status, false)
  {
    map[StartDateFilter := FieldValue(startDate, true),
        EndDateFilter := FieldValue(endDate, true),
        ConfirmedFilter := FieldValue(status, false)]
  }

  /** The object sent on reset. */
  const ResetObject: Filters := map[]

  /**
   * Applying the form replaces all three filters the form owns, clearing those left empty, while
   * the delivery day the hook may hold is kept.
   */
  lemma ApplyReplacesTheFormFilters(hook: Filters, startDate: string, endDate: string, status: string)
    ensures var m := Merge(hook, Applied(startDate, endDate, status));
      FilterValue(m, StartDateFilter) == FieldValue(startDate, true) &&
      FilterValue(m, EndDateFilter) == FieldValue(endDate, true) &&
      FilterValue(m, ConfirmedFilter) == FieldValue(status, false) &&
      FilterValue(m, DeliveryDayFilter) == FilterValue(hook, DeliveryDayFilter)
  {
  }

  /**
   * Resetting the form sends an empty object, which merges into the hook's filters as no change:
   * the filters applied before a reset stay in force.
   */
  lemma ResetKeepsTheHookFilters(hook: Filters)
    ensures Merge(hook, ResetObject) == hook
  {
    MergeEmptyAndTwice(hook, ResetObject);
  }

  /** Applying an empty form is what clears the filters the form owns. */
  lemma ApplyingAnEmptyFormClears(hook: Filters)
    ensures var m := Merge(hook, Applied("", "", ""));
      FilterValue(m, StartDateFilter) == None && FilterValue(m, EndDateFilter) == None &&
      FilterValue(m, ConfirmedFilter) == None
  {
  }

  /** The form's three fields and every object it has passed to `onFilterChange`. */
  class FilterForm {
    var startDate: string
    var endDate: string
    var status: string
    var emitted: seq<Filters>

    constructor()
      ensures startDate == "" && endDate == "" && status == "" && emitted == []
    {
      startDate, endDate, status := "", "", "";
      emitted := [];
    }

    /** The date pickers and the status select write their field. */
    method SetStartDate(value: string)
      modifies this
      ensures startDate == value && endDate == old(endDate) && status == old(status) && emitted == old(emitted)
    {
      startDate := value;
    }

    method SetEndDate(value: string)
      modifies this
      ensures endDate == value && startDate == old(startDate) && status == old(status) && emitted == old(emitted)
    {
      endDate := value;
    }

    method SetStatus(value: string)
      modifies this
      ensures status == value && startDate == old(startDate) && endDate == old(endDate) && emitted == old(emitted)
    {
      status := value;
    }

    /**
     * The Apply Filters button, disabled while the list loads; otherwise applyFilters emits the
     * mapped fields. The fields stay as they are either way.
     */
    method ApplyFilters(loading: bool) returns (sent: Option<Filters>)
      modifies this
      ensures loading ==> sent == None && emitted == old(emitted)
      ensures !loading ==> sent == Some(Applied(startDate, endDate, status)) && emitted == old(emitted) + [sent.value]
      ensures startDate == old(startDate) && endDate == old(endDate) && status == old(status)
    {
      if loading {
        return None;
      }
      var applied := Applied(startDate, endDate, status);
      emitted := emitted + [applied];
      sent := Some(applied);
    }

    /**
     * The Reset button, disabled while the list loads; otherwise resetFilters clears the three
     * fields, then emits `{}`.
     */
    method ResetFilters(loading: bool) returns (sent: Option<Filters>)
      modifies this
      ensures loading ==> sent == None && emitted == old(emitted)
      ensures loading ==> startDate == old(startDate) && endDate == old(endDate) && status == old(status)
      ensures !loading ==> startDate == "" && endDate == "" && status == ""
      ensures !loading ==> sent == Some(ResetObject) && emitted == old(emitted) + [ResetObject]
    {
      if loading {
        return None;
      }
      startDate := "";
      endDate := "";
      status := "";
      emitted := emitted + [ResetObject];
      sent := Some(ResetObject);
    }
  }
}
