/**
 * The document workflow of the CDE, after the container states of
 * ISO 19650-1 section 12 (work in progress, shared, published, archive):
 * the legal status transitions, their classification, the revision
 * renumbering applied by a promotion and the default version comment.
 * Everything here is a pure function of the request and the document.
 */
module Workflow {
  import opened Wrappers
  import opened Text
  import opened Rbac

  /** The action_type of a transition. */
  datatype ActionKind = Sharing | Publishing | Archiving | Coordinating {
    function Name(): string {
      match this
      case Sharing => "share"
      case Publishing => "publish"
      case Archiving => "archive"
      case Coordinating => "coordinate"
    }
  }

  /** valid_transitions: the statuses a document at `s` may be promoted to, in the table's order. */
  function AllowedTargets(s: Status): (r: seq<Status>)
    ensures s !in r
    ensures forall t :: t in r ==> s.Rank() < t.Rank()
    ensures s == Archived <==> r == []
  {
    match s
    case Wip => [Tender, Construction, InfoApproval]
    case Tender => [Construction, InfoApproval, Published]
    case Construction => [InfoApproval, Published]
    case InfoApproval => [Published]
    case Published => [Archived]
    case Archived => []
  }

  predicate IsLegal(s: Status, t: Status) {
    t in AllowedTargets(s)
  }

  /**
   * The transition table, stated without the table: a transition moves
   * strictly forward; S0 reaches S1 to S3, the shared states reach a later
   * shared state or S4, S4 reaches only S5, and S5 nothing.
   */
  lemma LegalTransitionsExactly(s: Status, t: Status)
    ensures IsLegal(s, t) <==>
      || (s == Wip && 1 <= t.Rank() <= 3)
      || (1 <= s.Rank() <= 3 && s.Rank() < t.Rank() <= 4)
      || (s == Published && t == Archived)
  {
  }

  /** No status may be promoted to itself, so the same-state check in promote_document never fires. */
  lemma NoSelfTransition(s: Status)
    ensures !IsLegal(s, s)
  {
  }

  /**
   * Along any chain of legal promotions the rank grows by at least one per
   * step, so a document goes through at most six statuses.
   */
  lemma {:induction false} ChainsMoveForward(path: seq<Status>)
    requires |path| >= 1
    requires forall i :: 0 <= i < |path| - 1 ==> IsLegal(path[i], path[i + 1])
    ensures path[|path| - 1].Rank() >= path[0].Rank() + |path| - 1
    ensures |path| <= 6
  {
    if |path| > 1 {
      var init := path[..|path| - 1];
      forall i | 0 <= i < |init| - 1
        ensures IsLegal(init[i], init[i + 1])
      {
        assert init[i] == path[i] && init[i + 1] == path[i + 1];
      }
      ChainsMoveForward(init);
      assert IsLegal(path[|path| - 2], path[|path| - 1]);
    }
  }

  /** The action_type chosen for a transition from `s` to `t`. */
  function Classify(s: Status, t: Status): (r: Option<ActionKind>)
    ensures IsLegal(s, t) ==> r.Some?
    ensures IsLegal(s, t) ==> (r == Some(Sharing) <==> s == Wip)
    ensures IsLegal(s, t) ==> (r == Some(Publishing) <==> t == Published)
    ensures IsLegal(s, t) ==> (r == Some(Archiving) <==> t == Archived)
    ensures IsLegal(s, t) ==> (r == Some(Coordinating) <==> s != Wip && (t == Construction || t == InfoApproval))
  {
    if s == Wip && t in [Tender, Construction, InfoApproval] then Some(Sharing)
    else if s in [Tender, Construction, InfoApproval] && t == Published then Some(Publishing)
    else if s == Published && t == Archived then Some(Archiving)
    else if s in [Tender, Construction, InfoApproval] && t in [Construction, InfoApproval] then Some(Coordinating)
    else None
  }

  /** The requested state as promote_document reads it: workflow.state.upper().strip(), then DocumentStatus(...). */
  function ParseTarget(state: string): Option<Status> {
    ParseStatus(Strip(Upper(state)))
  }

  /** Every status code is accepted as it is. */
  lemma TargetCodesParse(s: Status)
    ensures ParseTarget(s.Code()) == Some(s)
  {
    var c := s.Code();
    assert |c| == 2 && c[0] == 'S' && IsDigit(c[1]);
    UpperFixed(c);
    StripFixed(c);
  }

  /** A padded lower-case code is accepted: " s4 " requests S4. */
  lemma LowerCasePaddedTargetParses()
    ensures ParseTarget(" s4 ") == Some(Published)
  {
    var u := Upper(" s4 ");
    assert u == [' '] + "S4" + [' '] by {
      assert |u| == 4 && u[0] == ' ' && u[1] == 'S' && u[2] == '4' && u[3] == ' ';
    }
    StripPadded("S4");
  }

  /** A revision identifier read by the pattern ^([A-Za-z]+)(\d+)$. */
  datatype RevParts = RevParts(prefix: string, number: nat)

  function LeadingLetters(s: string): (k: nat)
    ensures k <= |s|
    ensures AllLetters(s[..k])
    ensures k < |s| ==> !IsLetter(s[k])
  {
    if s != [] && IsLetter(s[0]) then
      var k' := LeadingLetters(s[1..]);
      assert s[..k' + 1] == [s[0]] + s[1..][..k'];
      1 + k'
    else 0
  }

  /**
   * re.match(r'^([A-Za-z]+)(\d+)$', s): the letters, then the value of the
   * digits that make up the rest of the string.
   */
  function ParseRevision(s: string): (r: Option<RevParts>)
    ensures r.Some? ==> 0 < |r.value.prefix| < |s| && AllLetters(r.value.prefix)
    ensures r.Some? ==> s[..|r.value.prefix|] == r.value.prefix
    ensures r.Some? ==> AllDigits(s[|r.value.prefix|..]) && r.value.number == DigitsValue(s[|r.value.prefix|..])
  {
    var k := LeadingLetters(s);
    if k == 0 || k == |s| || !AllDigits(s[k..]) then None
    else Some(RevParts(s[..k], DigitsValue(s[k..])))
  }

  lemma {:induction false} LeadingLettersOfConcat(p: string, d: string)
    requires AllLetters(p)
    requires |d| > 0 && !IsLetter(d[0])
    ensures LeadingLetters(p + d) == |p|
  {
    if p != [] {
      assert (p + d)[1..] == p[1..] + d;
      LeadingLettersOfConcat(p[1..], d);
    }
  }

  /** Letters followed by digits are read back as those letters and that number. */
  lemma ParseComposed(p: string, d: string)
    requires |p| > 0 && AllLetters(p)
    requires |d| > 0 && AllDigits(d)
    ensures ParseRevision(p + d) == Some(RevParts(p, DigitsValue(d)))
  {
    var s := p + d;
    LeadingLettersOfConcat(p, d);
    assert s[..|p|] == p && s[|p|..] == d;
  }

  /**
   * A revision as promote_document writes one: it parses, and its digits
   * are f"{n:02d}" of its number (two or more, no extra leading zero).
   */
  predicate Formatted(r: string) {
    ParseRevision(r).Some? && Padded2(r[|ParseRevision(r).value.prefix|..])
  }

  /** A prefix and a number written as f"{prefix}{n:02d}" read back as that prefix and number. */
  lemma ParseFormatted(p: string, n: nat)
    requires |p| > 0 && AllLetters(p)
    ensures ParseRevision(p + Pad2(n)) == Some(RevParts(p, n))
    ensures Formatted(p + Pad2(n))
  {
    ParseComposed(p, Pad2(n));
    assert (p + Pad2(n))[|p|..] == Pad2(n);
  }

  /**
   * A formatted revision is fixed by its parts: the only formatted string
   * that parses as prefix p and number n is f"{p}{n:02d}".
   */
  lemma {:induction false} FormattedDetermined(r: string, p: string, n: nat)
    requires Formatted(r) && ParseRevision(r) == Some(RevParts(p, n))
    ensures r == p + Pad2(n)
  {
    var d := r[|p|..];
    Padded2Unique(d);
    assert r == r[..|p|] + d;
  }

  lemma UpperKeepsLetters(p: string)
    requires AllLetters(p)
    ensures AllLetters(Upper(p))
  {
  }

  /**
   * The new revision of a promotion. On publish a P or A prefix (in either
   * case) becomes C with the same number, any other prefix is upper-cased
   * and its number incremented, and an unreadable revision becomes C01.
   * Otherwise, when an increment is requested, the upper-cased prefix gets
   * the next number and an unreadable revision becomes P01; with neither
   * the revision is kept. Every rewritten revision is Formatted, so by
   * FormattedDetermined it is exactly f"{prefix}{n:02d}" of its parts.
   */
  function NewRevision(rev: string, kind: Option<ActionKind>, increment: bool): (r: string)
    ensures kind == Some(Publishing) && ParseRevision(rev).None? ==> r == "C01"
    ensures kind == Some(Publishing) && ParseRevision(rev).Some? ==>
      var parts := ParseRevision(rev).value;
      if Upper(parts.prefix) == "P" || Upper(parts.prefix) == "A"
      then ParseRevision(r) == Some(RevParts("C", parts.number))
      else ParseRevision(r) == Some(RevParts(Upper(parts.prefix), parts.number + 1))
    ensures kind != Some(Publishing) && increment && ParseRevision(rev).None? ==> r == "P01"
    ensures kind != Some(Publishing) && increment && ParseRevision(rev).Some? ==>
      var parts := ParseRevision(rev).value;
      ParseRevision(r) == Some(RevParts(Upper(parts.prefix), parts.number + 1))
    ensures kind != Some(Publishing) && !increment ==> r == rev
    ensures kind == Some(Publishing) || increment ==> Formatted(r)
  {
    if kind == Some(Publishing) then PublishedRevision(rev)
    else if increment then IncrementedRevision(rev)
    else rev
  }

  /** The publish branch of NewRevision. */
  function PublishedRevision(rev: string): (r: string)
    ensures ParseRevision(rev).None? ==> r == "C01"
    ensures ParseRevision(rev).Some? ==>
      var parts := ParseRevision(rev).value;
      if Upper(parts.prefix) == "P" || Upper(parts.prefix) == "A"
      then ParseRevision(r) == Some(RevParts("C", parts.number))
      else ParseRevision(r) == Some(RevParts(Upper(parts.prefix), parts.number + 1))
    ensures Formatted(r)
  {
    var parsed := ParseRevision(rev);
    if parsed.Some? then
      var prefix, n := parsed.value.prefix, parsed.value.number;
      UpperKeepsLetters(prefix);
      if Upper(prefix) == "P" || Upper(prefix) == "A" then
        ParseFormatted("C", n);
        "C" + Pad2(n)
      else
        ParseFormatted(Upper(prefix), n + 1);
        Upper(prefix) + Pad2(n + 1)
    else
      ParseFormatted("C", 1);
      "C01"
  }

  /** The increment branch of NewRevision. */
  function IncrementedRevision(rev: string): (r: string)
    ensures ParseRevision(rev).None? ==> r == "P01"
    ensures ParseRevision(rev).Some? ==>
      var parts := ParseRevision(rev).value;
      ParseRevision(r) == Some(RevParts(Upper(parts.prefix), parts.number + 1))
    ensures Formatted(r)
  {
    var parsed := ParseRevision(rev);
    if parsed.Some? then
      var prefix, n := parsed.value.prefix, parsed.value.number;
      UpperKeepsLetters(prefix);
      ParseFormatted(Upper(prefix), n + 1);
      Upper(prefix) + Pad2(n + 1)
    else
      ParseFormatted("P", 1);
      "P01"
  }

  /** Publishing P02 gives C02: the P series becomes the C series with the same number. */
  lemma PublishP02()
    ensures NewRevision("P02", Some(Publishing), false) == "C02"
  {
    assert "P02" == "P" + "02";
    ParseComposed("P", "02");
    assert DigitsValue("02") == 2;
    assert Upper("P") == "P";
    assert Pad2(2) == "02";
  }

  /** Publishing P03 gives C03. */
  lemma PublishP03()
    ensures NewRevision("P03", Some(Publishing), false) == "C03"
  {
    assert "P03" == "P" + "03";
    ParseComposed("P", "03");
    assert DigitsValue("03") == 3;
    assert Upper("P") == "P";
    assert Pad2(3) == "03";
  }

  /** Publishing A05 gives C05, even when an increment is also requested. */
  lemma PublishA05()
    ensures NewRevision("A05", Some(Publishing), true) == "C05"
  {
    assert "A05" == "A" + "05";
    ParseComposed("A", "05");
    assert DigitsValue("05") == 5;
    assert Upper("A") == "A";
    assert Pad2(5) == "05";
  }

  /** Publishing P007 gives C07: the number is re-padded to two digits. */
  lemma PublishP007()
    ensures NewRevision("P007", Some(Publishing), false) == "C07"
  {
    assert "P007" == "P" + "007";
    ParseComposed("P", "007");
    assert "007"[..2] == "00" && "00"[..1] == "0";
    assert DigitsValue("007") == 7;
    assert Upper("P") == "P";
    assert Pad2(7) == "07";
  }

  /** Publishing X07 gives X08: other prefixes keep their letter and count up. */
  lemma PublishX07()
    ensures NewRevision("X07", Some(Publishing), false) == "X08"
  {
    assert "X07" == "X" + "07";
    ParseComposed("X", "07");
    assert DigitsValue("07") == 7;
    assert Upper("X") == "X" && "X" != "P" && "X" != "A";
    assert PublishedRevision("X07") == "X" + Pad2(7 + 1);
    assert Pad2(8) == "08";
  }

  /** Publishing the unreadable REV-X gives C01. */
  lemma PublishUnreadable()
    ensures NewRevision("REV-X", Some(Publishing), false) == "C01"
  {
    assert "REV-X" == "REV" + "-X";
    LeadingLettersOfConcat("REV", "-X");
    assert !IsDigit("REV-X"[3]);
  }

  /** status_descriptions. */
  function Describe(s: Status): string {
    match s
    case Wip => "Work in Progress"
    case Tender => "Tender/Shared"
    case Construction => "Construction"
    case InfoApproval => "Information Approval"
    case Published => "Published"
    case Archived => "Archived"
  }

  /** The comment synthesised when the request carries none. */
  function DefaultComment(kind: Option<ActionKind>, current: Status, target: Status, newRev: string): string {
    match kind
    case Some(Sharing) => "Shared for coordination - " + Describe(target)
    case Some(Publishing) => "Published for construction - " + Describe(target) + " (Rev " + newRev + ")"
    case Some(Archiving) => "Archived - " + Describe(target)
    case Some(Coordinating) => "Coordinated - " + Describe(target)
    case None => "Status changed from " + current.Code() + " to " + target.Code()
  }

  /**
   * The comment recorded on the new version: the request's when it is a
   * non-empty string, otherwise the default for the transition's class.
   * For a legal transition the fallback "Status changed" text is never used.
   */
  function FinalComment(given: Option<string>, current: Status, target: Status, newRev: string): (r: string)
    ensures given.Some? && given.value != "" ==> r == given.value
    ensures r != ""
    ensures (given.None? || given.value == "") && IsLegal(current, target) ==>
      && (target == Published ==> r == "Published for construction - Published (Rev " + newRev + ")")
      && (current == Wip ==> r == "Shared for coordination - " + Describe(target))
      && (target == Archived ==> r == "Archived - Archived")
      && (current != Wip && target != Published && target != Archived ==> r == "Coordinated - " + Describe(target))
  {
    if given.None? || given.value == "" then DefaultComment(Classify(current, target), current, target, newRev)
    else given.value
  }
}
