/**
 * The contact domain types: the five confirmation statuses with their display labels, the paged
 * response shape, and the e-mail and phone patterns the contact form validates against.
 */
module ContactTypes {
  import opened Wrappers

  datatype ConfirmationStatus = Confirmed | Pending | CalledTexted | Declined | Cancelled

  /** The status as the API and the UI write it. */
  function Label(s: ConfirmationStatus): string
  {
    match s
    case Confirmed => "Confirmed"
    case Pending => "Pending"
    case CalledTexted => "Called / Texted"
    case Declined => "Declined"
    case Cancelled => "Cancelled"
  }

  /** The status a label names, if it names one. */
  function FromLabel(text: string): (r: Option<ConfirmationStatus>)
    ensures r.Some? ==> Label(r.value) == text
  {
    if text == "Confirmed" then Some(Confirmed)
    else if text == "Pending" then Some(Pending)
    else if text == "Called / Texted" then Some(CalledTexted)
    else if text == "Declined" then Some(Declined)
    else if text == "Cancelled" then Some(Cancelled)
    else None
  }

  lemma FromLabelOfLabel(s: ConfirmationStatus)
    ensures FromLabel(Label(s)) == Some(s)
  {
  }

  /** The five statuses, in the order the status menu lists them. */
  const AllStatuses: seq<ConfirmationStatus> := [Confirmed, Pending, CalledTexted, Declined, Cancelled]

  /** There are exactly five statuses, each listed once, with five different labels. */
  lemma FiveStatuses()
    ensures |AllStatuses| == 5
    ensures forall s: ConfirmationStatus :: s in AllStatuses
    ensures forall i, j :: 0 <= i < j < |AllStatuses| ==> Label(AllStatuses[i]) != Label(AllStatuses[j])
  {
    forall s: ConfirmationStatus
      ensures s in AllStatuses
    {
      match s
      case Confirmed => assert AllStatuses[0] == s;
      case Pending => assert AllStatuses[1] == s;
      case CalledTexted => assert AllStatuses[2] == s;
      case Declined => assert AllStatuses[3] == s;
      case Cancelled => assert AllStatuses[4] == s;
    }
    forall i, j | 0 <= i < j < |AllStatuses|
      ensures Label(AllStatuses[i]) != Label(AllStatuses[j])
    {
      FromLabelOfLabel(AllStatuses[i]);
      FromLabelOfLabel(AllStatuses[j]);
    }
  }

  /** One page of results and where it sits among all pages. */
  datatype PaginatedResponse<T> = PaginatedResponse(
    data: seq<T>,
    totalCount: int,
    currentPage: int,
    totalPages: int,
    hasNextPage: bool,
    hasPrevPage: bool)

  // ---------------------------------------------------------------------------------------------
  // Character classes

  /** `\w`, which in a pattern without the `u` flag is ASCII only. */
  predicate IsWordChar(c: char)
  {
    'a' <= c <= 'z' || 'A' <= c <= 'Z' || '0' <= c <= '9' || c == '_'
  }

  /**
   * `\s`: the JavaScript white space and line terminators, that is tab, line feed, vertical tab,
   * form feed, carriage return, space, no-break space, the byte order mark, and the Unicode space
   * separators and line and paragraph separators.
   */
  predicate IsSpace(c: char)
  {
    var u := c as int;
    (0x09 <= u <= 0x0D) || u == 0x20 || u == 0xA0 || u == 0x1680 || (0x2000 <= u <= 0x200A) ||
    u == 0x2028 || u == 0x2029 || u == 0x202F || u == 0x205F || u == 0x3000 || u == 0xFEFF
  }

  /** `[\w-\.]`: in a class, `\w-\.` is not a range, so this is word characters, '-' and '.'. */
  predicate IsLocalChar(c: char) { IsWordChar(c) || c == '-' || c == '.' }

  /** `[\w-]` */
  predicate IsLabelChar(c: char) { IsWordChar(c) || c == '-' }

  /** `[\d\s\-()]` */
  predicate IsPhoneChar(c: char) { '0' <= c <= '9' || IsSpace(c) || c == '-' || c == '(' || c == ')' }

  predicate AllLocal(s: string) { forall i :: 0 <= i < |s| ==> IsLocalChar(s[i]) }

  predicate AllLabel(s: string) { forall i :: 0 <= i < |s| ==> IsLabelChar(s[i]) }

  predicate AllPhone(s: string) { forall i :: 0 <= i < |s| ==> IsPhoneChar(s[i]) }

  // ---------------------------------------------------------------------------------------------
  // phoneRegex  /^(\+?[\d\s\-()]{7,16})?$/

  /** `[\d\s\-()]{7,16}` */
  predicate PhoneBody(t: string) { 7 <= |t| <= 16 && AllPhone(t) }

  /** The pattern read as a grammar: empty, or '+' then the body, or the body alone. */
  predicate MatchesPhone(s: string)
  {
    s == [] || (s[0] == '+' && PhoneBody(s[1..])) || PhoneBody(s)
  }

  /** The phone check, deciding the optional '+' by the first character alone. */
  function PhoneAccepted(s: string): (ok: bool)
  {
    if s == [] then true
    else if s[0] == '+' then PhoneBody(s[1..])
    else PhoneBody(s)
  }

  /** The check accepts exactly what the pattern matches: '+' is no phone character, so the two readings never compete. */
  lemma {:induction false} PhoneAcceptedMatches(s: string)
    ensures PhoneAccepted(s) <==> MatchesPhone(s)
  {
    if s != [] && s[0] == '+' {
      assert !IsPhoneChar(s[0]);
    }
  }

  // ---------------------------------------------------------------------------------------------
  // emailRegex  /^([\w-\.]+@([\w-]+\.)+[\w-]{2,4})?$/

  /** `([\w-]+\.)+` read as a grammar: one or more labels, each followed by a dot. */
  ghost predicate LabelGroups(x: string)
    decreases |x|
  {
    |x| >= 2 && x[|x| - 1] == '.' &&
    (AllLabel(x[..|x| - 1]) ||
     exists q :: 0 < q < |x| - 1 && x[q] == '.' && LabelGroups(x[..q + 1]) && q + 1 < |x| - 1 && AllLabel(x[q + 1..|x| - 1]))
  }

  /** s splits at a and p into a local part, '@', label groups and a 2–4 character tail. */
  ghost predicate EmailSplit(s: string, a: int, p: int)
  {
    0 < a && a + 1 < p < |s| &&
    AllLocal(s[..a]) && s[a] == '@' && LabelGroups(s[a + 1..p]) && 2 <= |s| - p <= 4 && AllLabel(s[p..])
  }

  /** The whole pattern as a grammar: empty, or some split into its four parts. */
  ghost predicate MatchesEmail(s: string)
  {
    s == [] || exists a, p :: EmailSplit(s, a, p)
  }

  /** Dot-separated non-empty labels, ending with a dot. */
  predicate DottedLabels(x: string)
  {
    |x| >= 2 && x[|x| - 1] == '.' && x[0] != '.' &&
    (forall i :: 0 <= i < |x| ==> IsLabelChar(x[i]) || x[i] == '.') &&
    (forall i :: 0 <= i < |x| - 1 ==> x[i] == '.' ==> x[i + 1] != '.')
  }

  /** The position of the last '.', if any. */
  function LastDot(s: string): (r: Option<nat>)
    ensures r.Some? ==> r.value < |s| && s[r.value] == '.' && forall i :: r.value < i < |s| ==> s[i] != '.'
    ensures r.None? ==> forall i :: 0 <= i < |s| ==> s[i] != '.'
    decreases |s|
  {
    if |s| == 0 then None
    else if s[|s| - 1] == '.' then Some(|s| - 1)
    else LastDot(s[..|s| - 1])
  }

  /** The position of the first '@', if any. */
  function FirstAt(s: string): (r: Option<nat>)
    ensures r.Some? ==> r.value < |s| && s[r.value] == '@' && forall i :: 0 <= i < r.value ==> s[i] != '@'
    ensures r.None? ==> forall i :: 0 <= i < |s| ==> s[i] != '@'
    decreases |s|
  {
    if |s| == 0 then None
    else if s[0] == '@' then Some(0)
    else
      match FirstAt(s[1..])
      case Some(i) => Some(i + 1)
      case None => None
  }

  /** The e-mail check: split at the first '@', then at the last '.' of the domain. */
  function EmailAccepted(s: string): bool
  {
    if s == [] then true
    else
      match FirstAt(s)
      case None => false
      case Some(a) =>
        var domain := s[a + 1..];
        0 < a && AllLocal(s[..a]) &&
        match LastDot(domain)
        case None => false
        case Some(d) =>
          DottedLabels(domain[..d + 1]) && 2 <= |domain| - (d + 1) <= 4 && AllLabel(domain[d + 1..])
  }

  lemma {:induction false} DottedLabelsAreGroups(x: string)
    requires DottedLabels(x)
    ensures LabelGroups(x)
    decreases |x|
  {
    var body := x[..|x| - 1];
    match LastDot(body)
    case None =>
      assert AllLabel(body);
    case Some(q) =>
      assert body[q] == x[q];
      assert q > 0;
      assert q + 1 < |x| - 1;
      var front := x[..q + 1];
      assert front[..q] == x[..q];
      DottedLabelsAreGroups(front);
      assert AllLabel(x[q + 1..|x| - 1]);
  }

  lemma {:induction false} GroupsAreDottedLabels(x: string)
    requires LabelGroups(x)
    ensures DottedLabels(x)
    decreases |x|
  {
    if !AllLabel(x[..|x| - 1]) {
      var q :| 0 < q < |x| - 1 && x[q] == '.' && LabelGroups(x[..q + 1]) && q + 1 < |x| - 1 && AllLabel(x[q + 1..|x| - 1]);
      var front := x[..q + 1];
      GroupsAreDottedLabels(front);
      forall i | 0 <= i < |x|
        ensures IsLabelChar(x[i]) || x[i] == '.'
      {
        if i <= q {
          assert x[i] == front[i];
        } else if i < |x| - 1 {
          assert x[i] == x[q + 1..|x| - 1][i - q - 1];
        }
      }
      forall i | 0 <= i < |x| - 1 && x[i] == '.'
        ensures x[i + 1] != '.'
      {
        if i < q {
          assert x[i] == front[i] && x[i + 1] == front[i + 1];
        } else {
          assert x[i + 1] == x[q + 1..|x| - 1][i - q];
        }
      }
      assert x[0] == front[0];
    } else {
      assert forall i :: 0 <= i < |x| - 1 ==> x[i] == x[..|x| - 1][i];
    }
  }

  /** The first '@' sits right after a local part, which has none. */
  lemma {:induction false} FirstAtAfterLocal(s: string, a: nat)
    requires a < |s| && AllLocal(s[..a]) && s[a] == '@'
    ensures FirstAt(s) == Some(a)
  {
  }

  /** The last '.' sits right before a tail of label characters, which has none. */
  lemma {:induction false} LastDotBeforeTail(d: string, k: nat)
    requires k < |d| && d[k] == '.' && AllLabel(d[k + 1..])
    ensures LastDot(d) == Some(k)
  {
  }

  lemma {:induction false} EmailAcceptedIsMatch(s: string)
    requires s != [] && EmailAccepted(s)
    ensures MatchesEmail(s)
  {
    var a := FirstAt(s).value;
    var domain := s[a + 1..];
    var d := LastDot(domain).value;
    var p := a + 1 + d + 1;
    assert s[a + 1..p] == domain[..d + 1];
    assert s[p..] == domain[d + 1..];
    DottedLabelsAreGroups(domain[..d + 1]);
    assert EmailSplit(s, a, p);
  }

  lemma {:induction false} EmailMatchIsAccepted(s: string)
    requires s != [] && MatchesEmail(s)
    ensures EmailAccepted(s)
  {
    var a, p :| EmailSplit(s, a, p);
    GroupsAreDottedLabels(s[a + 1..p]);
    FirstAtAfterLocal(s, a);
    var domain := s[a + 1..];
    var d := p - a - 2;
    assert domain[..d + 1] == s[a + 1..p];
    assert domain[d + 1..] == s[p..];
    LastDotBeforeTail(domain, d);
    EmailAcceptedOfParts(s, a, d);
  }

  /** The check's steps, each met: the first '@', its local part, the last dot of the domain and the parts around it. */
  lemma EmailAcceptedOfParts(s: string, a: nat, d: nat)
    requires 0 < a < |s| && FirstAt(s) == Some(a) && AllLocal(s[..a])
    requires LastDot(s[a + 1..]) == Some(d) && d < |s[a + 1..]|
    requires DottedLabels(s[a + 1..][..d + 1]) && 2 <= |s[a + 1..]| - (d + 1) <= 4 && AllLabel(s[a + 1..][d + 1..])
    ensures EmailAccepted(s)
  {
  }

  /** The check accepts exactly what the pattern matches. */
  lemma EmailAcceptedMatches(s: string)
    ensures EmailAccepted(s) <==> MatchesEmail(s)
  {
    if s != [] && EmailAccepted(s) {
      EmailAcceptedIsMatch(s);
    }
    if s != [] && MatchesEmail(s) {
      EmailMatchIsAccepted(s);
    }
  }

  /** An accepted non-empty address has exactly one '@', and after its last '.' come 2 to 4 characters. */
  lemma {:induction false} EmailShape(s: string)
    requires EmailAccepted(s) && s != []
    ensures exists a :: 0 < a < |s| && s[a] == '@' && forall i :: 0 <= i < |s| && i != a ==> s[i] != '@'
    ensures var d := LastDot(s); d.Some? && 2 <= |s| - (d.value + 1) <= 4
  {
    var a := FirstAt(s).value;
    var domain := s[a + 1..];
    var d := LastDot(domain).value;
    forall i | a < i < |s|
      ensures s[i] != '@'
    {
      assert s[i] == domain[i - a - 1];
      if i - a - 1 <= d {
        assert domain[i - a - 1] == domain[..d + 1][i - a - 1];
      } else {
        assert domain[i - a - 1] == domain[d + 1..][i - a - 1 - d - 1];
      }
    }
    assert domain[d + 1..] == s[a + 1 + d + 1..];
    LastDotBeforeTail(s, a + 1 + d);
  }
}
