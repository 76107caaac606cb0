/**
 * The contact list's controls: the row of page buttons below the list and the status menu that
 * opens from a contact.
 */
module ContactsList {
  import opened Wrappers
  import opened Json
  import opened Js
  import opened ContactTypes
  import opened UseContacts
  import ContactsService

  // ---------------------------------------------------------------------------------------------
  // Page buttons

  /** One entry of the page row: a page number or an ellipsis. */
  datatype PageItem = Page(n: int) | Ellipsis

  /** `Array.from({ length: n }, (_, i) => i + 1)`: the pages 1..n; none for a length below 1. */
  function AllPages(n: int): (r: seq<PageItem>)
    ensures |r| == if n > 0 then n else 0
    ensures forall i :: 0 <= i < |r| ==> r[i] == Page(i + 1)
  {
    if n <= 0 then [] else seq(n, i => Page(i + 1))
  }

  /** The page entries of renderPagination for a current page and a page count. */
  function PageList(current: int, total: int): seq<PageItem>
  {
    if total <= 7 then AllPages(total)
    else if current <= 3 then [Page(1), Page(2), Page(3), Page(4), Ellipsis, Page(total)]
    else if current >= total - 2 then [Page(1), Ellipsis, Page(total - 3), Page(total - 2), Page(total - 1), Page(total)]
    else [Page(1), Ellipsis, Page(current - 1), Page(current), Page(current + 1), Ellipsis, Page(total)]
  }

  /** The page numbers of a row, from left to right, strictly increase. */
  predicate Increasing(items: seq<PageItem>)
  {
    forall i, j :: 0 <= i < j < |items| && items[i].Page? && items[j].Page? ==> items[i].n < items[j].n
  }

  /** Every ellipsis stands between two page numbers and hides at least one page. */
  predicate EllipsesHidePages(items: seq<PageItem>)
  {
    forall i :: 0 <= i < |items| && items[i].Ellipsis? ==>
      0 < i < |items| - 1 && items[i - 1].Page? && items[i + 1].Page? && items[i - 1].n + 1 < items[i + 1].n
  }

  /** With seven pages or fewer, the row is every page from 1 to the count. */
  lemma FewPagesShowAll(current: int, total: int)
    requires 0 <= total <= 7
    ensures |PageList(current, total)| == total
    ensures forall i :: 0 <= i < total ==> PageList(current, total)[i] == Page(i + 1)
  {
  }

  /**
   * With more than seven pages, the row has at most seven entries, starts at page 1 and ends at
   * the last page, its numbers increase, and its ellipses hide pages.
   */
  lemma ManyPagesShape(current: int, total: int)
    requires total > 7
    ensures var row := PageList(current, total);
      1 <= |row| <= 7 && row[0] == Page(1) && row[|row| - 1] == Page(total) &&
      Increasing(row) && EllipsesHidePages(row)
  {
  }

  /** Any page row numbers strictly increase and lists only pages from 1 to the count. */
  lemma PageListInRange(current: int, total: int)
    ensures var row := PageList(current, total);
      Increasing(row) && forall i :: 0 <= i < |row| && row[i].Page? ==> 1 <= row[i].n <= total
  {
  }

  /** The current page, when it is in range, is always in the row. */
  lemma CurrentPageListed(current: int, total: int)
    requires 1 <= current <= total
    ensures Page(current) in PageList(current, total)
  {
    if total <= 7 {
      assert PageList(current, total)[current - 1] == Page(current);
    }
  }

  /** Each page number is in the row at most once, so one button at most is drawn solid. */
  lemma PagesListedOnce(current: int, total: int, i: int, j: int)
    requires var row := PageList(current, total); 0 <= i < |row| && 0 <= j < |row| && row[i].Page? && row[i] == row[j]
    ensures i == j
  {
    PageListInRange(current, total);
  }

  // ---------------------------------------------------------------------------------------------
  // The buttons of the pagination row

  /** A drawn button: whether it is disabled, whether it is solid, and the page its click requests. */
  datatype Button = Button(disabled: bool, solid: bool, target: Option<int>)

  /** Clicking a button: a disabled button does nothing, an enabled one requests its page, if any. */
  function Click(b: Button): (r: Option<int>)
    ensures b.disabled ==> r == None
  {
    if b.disabled then None else b.target
  }

  /** The back button: disabled without a previous page; it asks for the page before the current one. */
  function PrevButton(p: Pagination): Button
  {
    Button(!p.hasPrevPage, false, Some(p.currentPage - 1))
  }

  /** The forward button: disabled without a next page; it asks for the page after the current one. */
  function NextButton(p: Pagination): Button
  {
    Button(!p.hasNextPage, false, Some(p.currentPage + 1))
  }

  /** The button of one row entry: the current page is solid, an ellipsis is disabled and has no page. */
  function ItemButton(current: int, item: PageItem): Button
  {
    match item
    case Page(n) => Button(false, n == current, Some(n))
    case Ellipsis => Button(true, false, None)
  }

  /** The back and forward buttons move one page exactly when the flags allow it. */
  lemma PrevNextFollowTheFlags(p: Pagination)
    ensures Click(PrevButton(p)) == (if p.hasPrevPage then Some(p.currentPage - 1) else None)
    ensures Click(NextButton(p)) == (if p.hasNextPage then Some(p.currentPage + 1) else None)
  {
  }

  /** An ellipsis never changes the page; a number always requests its own page. */
  lemma ItemClicks(current: int, item: PageItem)
    ensures item.Ellipsis? ==> Click(ItemButton(current, item)) == None && ItemButton(current, item).disabled
    ensures item.Page? ==> Click(ItemButton(current, item)) == Some(item.n)
    ensures ItemButton(current, item).solid <==> item == Page(current)
  {
  }

  /** The row is drawn only once loading is over, when the page has contacts and there is more than one page. */
  predicate PaginationShown(loading: bool, contacts: seq<Json>, p: Pagination)
  {
    !loading && |contacts| > 0 && p.totalPages > 1
  }

  /**
   * Once a listing page is installed, the row is drawn exactly when that page has contacts and
   * the whole list holds more contacts than one page of the limit.
   */
  lemma PaginationShownForLongLists(contacts: seq<Json>, page: Option<int>, limit: Option<int>)
    requires ContactsService.LimitOrDefault(limit) > 0
    ensures var s := Loaded(ContactsService.Paginate(contacts, page, limit));
      PaginationShown(s.loading, s.contacts, s.pagination) <==>
      |s.contacts| > 0 && |contacts| > ContactsService.LimitOrDefault(limit)
  {
    var r := ContactsService.Paginate(contacts, page, limit);
    var lim, t := ContactsService.LimitOrDefault(limit), r.totalPages;
    if t > 1 {
      ContactsService.MulMonotone(1, t - 1, lim);
    } else {
      ContactsService.MulMonotone(t, 1, lim);
    }
  }

  /** The renderPagination row, built as the source builds it: assigned for few pages, pushed for many. */
  method RenderPages(current: int, total: int) returns (pages: seq<PageItem>)
    ensures pages == PageList(current, total)
  {
    pages := [];
    if total <= 7 {
      pages := AllPages(total);
    } else {
      pages := pages + [Page(1)];
      if current <= 3 {
        pages := pages + [Page(2), Page(3), Page(4), Ellipsis, Page(total)];
      } else if current >= total - 2 {
        pages := pages + [Ellipsis, Page(total - 3), Page(total - 2), Page(total - 1), Page(total)];
      } else {
        pages := pages + [Ellipsis, Page(current - 1), Page(current), Page(current + 1), Ellipsis, Page(total)];
      }
    }
  }

  /** The whole row of buttons: back, one per entry, forward. */
  method RenderPagination(p: Pagination) returns (buttons: seq<Button>)
    ensures var row := PageList(p.currentPage, p.totalPages);
      |buttons| == |row| + 2 && buttons[0] == PrevButton(p) && buttons[|buttons| - 1] == NextButton(p) &&
      forall i :: 0 <= i < |row| ==> buttons[i + 1] == ItemButton(p.currentPage, row[i])
  {
    var pages := RenderPages(p.currentPage, p.totalPages);
    buttons := [PrevButton(p)];
    var i := 0;
    while i < |pages|
      invariant 0 <= i <= |pages|
      invariant |buttons| == i + 1 && buttons[0] == PrevButton(p)
      invariant forall k :: 0 <= k < i ==> buttons[k + 1] == ItemButton(p.currentPage, pages[k])
    {
      buttons := buttons + [ItemButton(p.currentPage, pages[i])];
      i := i + 1;
    }
    buttons := buttons + [NextButton(p)];
  }

  // ---------------------------------------------------------------------------------------------
  // The status menu

  // The menu's entries are the five statuses of ContactTypes.AllStatuses, in that order.

  /** An entry is disabled, and marked current, when the selected contact already has that status. */
  predicate OptionDisabled(contact: Option<Json>, status: ConfirmationStatus)
  {
    contact.Some? && HasStatus(contact.value, status)
  }

  /** A contact whose status is a known one has exactly that entry disabled; otherwise none is. */
  lemma OnlyTheCurrentStatusIsDisabled(c: Json, status: ConfirmationStatus)
    ensures forall s :: OptionDisabled(Some(c), s) <==> Get(c, "confirmed") == Str(Label(s))
    ensures Get(c, "confirmed") == Str(Label(status)) ==>
      forall s :: OptionDisabled(Some(c), s) <==> s == status
    ensures forall s :: !OptionDisabled(None, s)
  {
    forall s | Get(c, "confirmed") == Str(Label(status)) && OptionDisabled(Some(c), s)
      ensures s == status
    {
      FromLabelOfLabel(s);
      FromLabelOfLabel(status);
    }
  }

  /**
   * `popoverState.contact && …`: the menu acts only for a stored contact that is truthy. An
   * element of the loaded list may be any JSON value, and 0, "" and false are falsy.
   */
  predicate HasContact(contact: Option<Json>)
  {
    contact.Some? && Truthy(Val(contact.value))
  }

  /** The menu acts on every stored JSON value except the falsy ones: null, false, 0 and "". */
  lemma HasContactExactlyForTruthy(contact: Option<Json>)
    ensures HasContact(contact) <==>
      contact.Some? && contact.value != JNull && contact.value != JBool(false) &&
      contact.value != JNum(0) && contact.value != JStr("")
  {
  }

  /** The status menu: closed, or open for one contact; choosing a status goes through the contacts hook. */
  class StatusPopover {
    var open: bool
    var contact: Option<Json>
    const hook: ContactsHook

    constructor(hook: ContactsHook)
      ensures this.hook == hook && !open && contact == None
    {
      this.hook := hook;
      open := false;
      contact := None;
    }

    /** The menu button of a contact opens the menu for that contact. */
    method OpenFor(c: Json)
      modifies this
      ensures open && contact == Some(c)
    {
      open := true;
      contact := Some(c);
    }

    /** Dismissing the menu closes it and forgets the contact. */
    method Dismiss()
      modifies this
      ensures !open && contact == None
    {
      open := false;
      contact := None;
    }

    /**
     * Clicking an entry: a disabled entry, or a menu whose contact is missing or falsy, does
     * nothing; otherwise the hook sets the status of the contact's `_id`, and the menu closes.
     */
    method Choose(status: ConfirmationStatus)
      modifies this, hook, hook.api.proxy.net
      ensures !HasContact(old(contact)) || OptionDisabled(old(contact), status) ==>
        open == old(open) && contact == old(contact) &&
        hook.state == old(hook.state) && hook.api.proxy.net.log == old(hook.api.proxy.net.log)
      ensures HasContact(old(contact)) && !OptionDisabled(old(contact), status) ==>
        !open && contact == None &&
        var run := UpdateStatusSpec(hook.api.proxy.Channel(), old(hook.api.proxy.net.log), old(hook.state),
                                    hook.filters, hook.limit, ToStr(Get(old(contact).value, "_id")), status);
        hook.state == run.state && hook.api.proxy.net.log == run.log
      ensures hook.filters == old(hook.filters) && hook.limit == old(hook.limit)
    {
      if HasContact(contact) && !OptionDisabled(contact, status) {
        var id := ToStr(Get(contact.value, "_id"));
        hook.UpdateContactStatus(id, status);
        open := false;
        contact := None;
      }
    }
  }
}
