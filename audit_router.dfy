/**
 * The audit endpoints: writing entries submitted by the frontend, reading
 * the day files back with filters and a limit, and tallying the last days
 * into dashboard statistics.
 *
 * A day file is a sequence of lines, each either unreadable as JSON or a
 * parsed JSON value. The days to read are given in reading order, so the
 * date arithmetic that picks them is outside the model; a file that does
 * not exist or cannot be opened is `Absent`.
 */
module AuditRouter {
  import opened Wrappers
  import opened Text
  import opened Json
  import opened Rbac
  import opened Middleware

  // ------------------------------------------------------------ writing

  /** An audit entry as the frontend submits it. */
  datatype Submitted = Submitted(
    timestamp: string,
    action: string,
    user: map<string, JsonValue>,
    resource: map<string, JsonValue>,
    outcome: map<string, JsonValue>,
    details: Option<map<string, JsonValue>>)

  /** The authenticated user as an entry's user object. */
  function UserObject(user: Principal): map<string, JsonValue> {
    map["id" := JStr(user.id), "email" := JStr(user.email), "role" := JStr(user.role)]
  }

  /**
   * The identity check of create_audit_log and batch_audit_logs: an entry
   * whose user id is not the authenticated user's has its user object
   * replaced by the authenticated user's; everything else is kept.
   */
  function WithVerifiedIdentity(e: Submitted, user: Principal): (r: Submitted)
    ensures "id" in r.user && r.user["id"] == JStr(user.id)
    ensures ("id" in e.user && e.user["id"] == JStr(user.id)) <==> r == e
    ensures r != e ==> r.user == UserObject(user)
    ensures r.timestamp == e.timestamp && r.action == e.action && r.resource == e.resource
    ensures r.outcome == e.outcome && r.details == e.details
  {
    if "id" in e.user && e.user["id"] == JStr(user.id) then e
    else e.(user := UserObject(user))
  }

  /** Checking the identity twice is checking it once. */
  lemma VerifiedIdentityIdempotent(e: Submitted, user: Principal)
    ensures WithVerifiedIdentity(WithVerifiedIdentity(e, user), user) == WithVerifiedIdentity(e, user)
  {
  }

  /** The line written for a submitted entry (model_dump keeps a missing details as null). */
  function SubmittedJson(e: Submitted): JsonValue {
    JObject(map[
      "timestamp" := JStr(e.timestamp),
      "action" := JStr(e.action),
      "user" := JObject(e.user),
      "resource" := JObject(e.resource),
      "outcome" := JObject(e.outcome),
      "details" := if e.details.Some? then JObject(e.details.value) else JNull
    ])
  }

  /** The day file the audit endpoints append to. */
  class LogFile {
    var lines: seq<JsonValue>

    constructor()
      ensures lines == []
    {
      lines := [];
    }

    /**
     * create_audit_log: when the file opens, the entry is appended with the
     * authenticated identity; when it does not, the request is a 500 and
     * the file is unchanged.
     */
    method CreateAuditLog(e: Submitted, user: Principal, fileOpens: bool) returns (r: Result<string, Failure>)
      modifies this
      ensures fileOpens ==> r == Ok("logged") && lines == old(lines) + [SubmittedJson(WithVerifiedIdentity(e, user))]
      ensures !fileOpens ==> r == Err(HttpError(500)) && lines == old(lines)
    {
      if !fileOpens {
        return Err(HttpError(500));
      }
      lines := lines + [SubmittedJson(WithVerifiedIdentity(e, user))];
      r := Ok("logged");
    }

    /**
     * batch_audit_logs: every entry is appended in order, each with the
     * authenticated identity, and the count returned is the number of
     * entries; when the file does not open, nothing is written.
     */
    method BatchAuditLogs(entries: seq<Submitted>, user: Principal, fileOpens: bool) returns (r: Result<nat, Failure>)
      modifies this
      ensures !fileOpens ==> r == Err(HttpError(500)) && lines == old(lines)
      ensures fileOpens ==> r == Ok(|entries|)
      ensures fileOpens ==> |lines| == |old(lines)| + |entries| && lines[..|old(lines)|] == old(lines)
      ensures fileOpens ==> forall k :: 0 <= k < |entries| ==>
        lines[|old(lines)| + k] == SubmittedJson(WithVerifiedIdentity(entries[k], user))
    {
      if !fileOpens {
        return Err(HttpError(500));
      }
      var i := 0;
      while i < |entries|
        invariant 0 <= i <= |entries|
        invariant |lines| == |old(lines)| + i && lines[..|old(lines)|] == old(lines)
        invariant forall k :: 0 <= k < i ==>
          lines[|old(lines)| + k] == SubmittedJson(WithVerifiedIdentity(entries[k], user))
      {
        lines := lines + [SubmittedJson(WithVerifiedIdentity(entries[i], user))];
        i := i + 1;
      }
      r := Ok(|entries|);
    }
  }

  // ------------------------------------------------------------ reading

  datatype LogLine = Malformed | Parsed(v: JsonValue)

  datatype DayFile = Absent | Present(lines: seq<LogLine>)

  /** The query filters of get_audit_logs; each applies only when it is a non-empty string. */
  datatype AuditFilters = AuditFilters(userId: Option<string>, action: Option<string>, resourceType: Option<string>)

  /**
   * What the reader does with a parsed line: keep it, skip it, or raise,
   * which abandons the rest of that day's file.
   */
  datatype Verdict = Keep | Skip | Raise

  /** `entry.get(key, {}).get(sub) != want`, with the AttributeError a non-dict raises. */
  function NestedCheck(v: JsonValue, key: string, sub: string, want: string): Verdict {
    match GetOr(v, key, JObject(map[]))
    case Raises => Raise
    case Got(inner) =>
      match GetOpt(inner, sub)
      case Raises => Raise
      case Got(found) => if found == Some(JStr(want)) then Keep else Skip
  }

  /** `entry.get("action", "").startswith(prefix)`, raising on a non-dict entry or a non-string action. */
  function ActionCheck(v: JsonValue, prefix: string): Verdict {
    match GetOr(v, "action", JStr(""))
    case Raises => Raise
    case Got(a) => if !a.JStr? then Raise else if StartsWith(a.s, prefix) then Keep else Skip
  }

  /** The three filters in the order get_audit_logs applies them; the first that does not keep decides. */
  function Examine(v: JsonValue, f: AuditFilters): Verdict {
    var byUser := if Truthy(f.userId) then NestedCheck(v, "user", "id", f.userId.value) else Keep;
    if byUser != Keep then byUser
    else
      var byAction := if Truthy(f.action) then ActionCheck(v, f.action.value) else Keep;
      if byAction != Keep then byAction
      else if Truthy(f.resourceType) then NestedCheck(v, "resource", "type", f.resourceType.value)
      else Keep
  }

  /**
   * An entry the middleware wrote never raises, and is kept exactly when
   * its user id, action prefix and resource type agree with the filters
   * that are set.
   */
  lemma WrittenEntriesFilterCleanly(e: AuditEntry, f: AuditFilters)
    ensures Examine(EntryJson(e), f) != Raise
    ensures Examine(EntryJson(e), f) == Keep <==>
      && (Truthy(f.userId) ==> e.user.id == f.userId.value)
      && (Truthy(f.action) ==> StartsWith(e.action, f.action.value))
      && (Truthy(f.resourceType) ==> e.resource.kind == f.resourceType.value)
  {
    EntryJsonShape(e);
  }

  /** An entry submitted through the audit endpoints is found again by its author's id. */
  lemma SubmittedEntriesFoundByAuthor(e: Submitted, user: Principal)
    requires user.id != ""
    ensures Examine(SubmittedJson(WithVerifiedIdentity(e, user)), AuditFilters(Some(user.id), None, None)) == Keep
  {
  }

  /** What reading one file so far has kept, and whether a raise has ended it. */
  datatype Scan = Scan(kept: seq<JsonValue>, stopped: bool)

  /** The lines of one file, read in order until one raises. */
  function ScanLines(lines: seq<LogLine>, f: AuditFilters): (r: Scan)
    ensures |r.kept| <= |lines|
  {
    if lines == [] then Scan([], false)
    else
      var before := ScanLines(lines[..|lines| - 1], f);
      var last := lines[|lines| - 1];
      if before.stopped || last.Malformed? then before
      else match Examine(last.v, f)
        case Keep => Scan(before.kept + [last.v], false)
        case Skip => before
        case Raise => Scan(before.kept, true)
  }

  function FileMatches(file: DayFile, f: AuditFilters): seq<JsonValue> {
    if file.Absent? then [] else ScanLines(file.lines, f).kept
  }

  /** Every entry the reader would keep from the files, in reading order, before any limit. */
  function Matching(files: seq<DayFile>, f: AuditFilters): seq<JsonValue> {
    if files == [] then [] else Matching(files[..|files| - 1], f) + FileMatches(files[|files| - 1], f)
  }

  predicate IsPrefix<T(==)>(a: seq<T>, b: seq<T>) {
    |a| <= |b| && b[..|a|] == a
  }

  /** What reading the first k lines keeps is where reading the whole file starts. */
  lemma {:induction false} ScanPrefix(lines: seq<LogLine>, k: nat, f: AuditFilters)
    requires k <= |lines|
    ensures IsPrefix(ScanLines(lines[..k], f).kept, ScanLines(lines, f).kept)
    ensures ScanLines(lines[..k], f).stopped ==> ScanLines(lines, f) == ScanLines(lines[..k], f)
    decreases |lines| - k
  {
    if k < |lines| {
      ScanPrefix(lines, k + 1, f);
      assert lines[..k + 1][..k] == lines[..k];
    } else {
      assert lines[..k] == lines;
    }
  }

  /** Everything kept from the first i files is where the full reading starts. */
  lemma {:induction false} MatchingPrefix(files: seq<DayFile>, i: nat, f: AuditFilters)
    requires i <= |files|
    ensures IsPrefix(Matching(files[..i], f), Matching(files, f))
    decreases |files| - i
  {
    if i < |files| {
      MatchingPrefix(files, i + 1, f);
      var init, next, whole := Matching(files[..i], f), Matching(files[..i + 1], f), Matching(files, f);
      assert files[..i + 1][..i] == files[..i];
      assert next == init + FileMatches(files[i], f);
      assert whole[..|init|] == next[..|init|];
    } else {
      assert files[..i] == files;
    }
  }

  /**
   * Python's `s[:n]`: a front part of s, the first n entries (all of s if
   * shorter) for n >= 0, and s without its last -n entries (nothing if s
   * is shorter) for a negative n.
   */
  function SlicePrefix<T>(s: seq<T>, n: int): (r: seq<T>)
    ensures |r| <= |s| && r == s[..|r|]
    ensures n >= 0 ==> |r| == if n < |s| then n else |s|
    ensures n < 0 ==> |s| - |r| == if -n < |s| then -n else |s|
  {
    if n >= 0 then s[..if n < |s| then n else |s|]
    else s[..if |s| + n > 0 then |s| + n else 0]
  }

  /** At most n entries from the front of s, none when n is not positive. */
  function Take<T>(s: seq<T>, n: int): seq<T> {
    if n <= 0 then [] else s[..if n < |s| then n else |s|]
  }

  /**
   * The inner loop of get_audit_logs over one day file: lines are kept,
   * skipped or end the file as the filters say, and reading stops as soon
   * as `limit` entries are held (`full`).
   */
  method ReadDay(lines: seq<LogLine>, f: AuditFilters, limit: int, held: seq<JsonValue>)
    returns (logs: seq<JsonValue>, full: bool)
    requires limit > 0 ==> |held| < limit
    requires limit <= 0 ==> held == []
    ensures !full ==> logs == held + ScanLines(lines, f).kept
    ensures !full ==> (limit > 0 ==> |logs| < limit) && (limit <= 0 ==> logs == [])
    ensures full ==> IsPrefix(logs, held + ScanLines(lines, f).kept)
    ensures full ==> (limit > 0 ==> |logs| == limit) && (limit <= 0 ==> |logs| == 1)
  {
    logs := held;
    full := false;
    var j := 0;
    while j < |lines|
      invariant 0 <= j <= |lines|
      invariant !ScanLines(lines[..j], f).stopped
      invariant logs == held + ScanLines(lines[..j], f).kept
      invariant limit > 0 ==> |logs| < limit
      invariant limit <= 0 ==> logs == []
    {
      assert lines[..j + 1][..j] == lines[..j];
      var line := lines[j];
      if line.Parsed? {
        var verdict := Examine(line.v, f);
        if verdict == Raise {
          ScanPrefix(lines, j + 1, f);
          return;
        }
        if verdict == Keep {
          logs := logs + [line.v];
          if |logs| >= limit {
            ScanPrefix(lines, j + 1, f);
            full := true;
            return;
          }
        }
      }
      j := j + 1;
    }
    assert lines[..j] == lines;
  }

  /**
   * get_audit_logs: Admin only (compared as the stored role string, 403
   * otherwise). The result is the first `limit` entries that pass the
   * filters, in file order, and nothing when the limit is not positive.
   */
  method GetAuditLogs(user: Principal, f: AuditFilters, limit: int, files: seq<DayFile>)
    returns (r: Result<seq<JsonValue>, Failure>)
    ensures user.role != "Admin" ==> r == Err(HttpError(403))
    ensures user.role == "Admin" ==> r == Ok(Take(Matching(files, f), limit))
  {
    if user.role != "Admin" {
      return Err(HttpError(403));
    }
    var logs: seq<JsonValue> := [];
    var i := 0;
    while i < |files|
      invariant 0 <= i <= |files|
      invariant logs == Matching(files[..i], f)
      invariant limit > 0 ==> |logs| < limit
      invariant limit <= 0 ==> logs == []
    {
      assert files[..i + 1][..i] == files[..i];
      var file := files[i];
      if file.Present? {
        var full;
        logs, full := ReadDay(file.lines, f, limit, logs);
      }
      if |logs| >= limit {
        MatchingPrefix(files, i + 1, f);
        SliceOfHeld(logs, Matching(files, f), limit);
        break;
      }
      i := i + 1;
    }
    if i == |files| {
      assert files[..i] == files;
      SliceOfHeld(logs, Matching(files, f), limit);
    }
    r := Ok(SlicePrefix(logs, limit));
  }

  /** Slicing what the reader holds gives the first `limit` matches, once it holds `limit` of them or all there are. */
  lemma SliceOfHeld<T>(held: seq<T>, all: seq<T>, limit: int)
    requires |held| <= |all| && all[..|held|] == held
    requires limit <= 0 ==> |held| <= 1
    requires limit > 0 ==> |held| == limit || (held == all && |held| < limit)
    ensures SlicePrefix(held, limit) == Take(all, limit)
  {
  }

  /** The reader never returns more than `limit` entries, and only entries that passed the filters. */
  lemma {:induction false} LogsWithinLimit(files: seq<DayFile>, f: AuditFilters, limit: int)
    ensures |Take(Matching(files, f), limit)| <= if limit > 0 then limit else 0
    ensures forall v :: v in Take(Matching(files, f), limit) ==> Examine(v, f) == Keep
  {
    forall v | v in Take(Matching(files, f), limit)
      ensures Examine(v, f) == Keep
    {
      MatchingKept(files, f, v);
    }
  }

  lemma {:induction false} ScanKept(lines: seq<LogLine>, f: AuditFilters, v: JsonValue)
    requires v in ScanLines(lines, f).kept
    ensures Examine(v, f) == Keep
    decreases |lines|
  {
    var before := ScanLines(lines[..|lines| - 1], f);
    if v in before.kept {
      ScanKept(lines[..|lines| - 1], f, v);
    }
  }

  lemma {:induction false} MatchingKept(files: seq<DayFile>, f: AuditFilters, v: JsonValue)
    requires v in Matching(files, f)
    ensures Examine(v, f) == Keep
    decreases |files|
  {
    var init, last := files[..|files| - 1], files[|files| - 1];
    if v in Matching(init, f) {
      MatchingKept(init, f, v);
    } else {
      ScanKept(last.lines, f, v);
    }
  }

  // -------------------------------------------------------------- stats

  /** The dashboard statistics; `status_breakdown` is always empty and is not represented. */
  datatype Stats = Stats(
    documentActions: map<string, nat>,
    loginSuccess: nat,
    loginFailed: nat,
    permissionDenied: nat,
    dailyActivity: map<string, nat>)

  /** The six document verbs counted. */
  const DocumentVerbs: set<string> := {"view", "download", "upload", "update", "delete", "promote"}

  function InitialStats(): (st: Stats)
    ensures st.documentActions.Keys == DocumentVerbs
    ensures forall k :: k in st.documentActions ==> st.documentActions[k] == 0
    ensures st.dailyActivity == map[]
  {
    Stats(map["view" := 0, "download" := 0, "upload" := 0, "update" := 0, "delete" := 0, "promote" := 0],
          0, 0, 0, map[])
  }

  /** `action.split(".")[1]` for an action starting with "document.". */
  function DocumentVerb(action: string): string
    requires StartsWith(action, "document.")
  {
    FirstSegment(action[9..])
  }

  function CountOf(m: map<string, nat>, k: string): nat {
    if k in m then m[k] else 0
  }

  /**
   * One entry with action `a` counted on `date`: its document verb, if it
   * names one of the six; a login success or failure; a denial for every
   * action mentioning "denied" or "failed"; and one more for the date.
   */
  function CountAction(st: Stats, date: string, a: string): (r: Stats)
    ensures r.documentActions.Keys == st.documentActions.Keys
    ensures forall k :: k in st.documentActions ==>
      r.documentActions[k] == st.documentActions[k] +
        (if StartsWith(a, "document.") && DocumentVerb(a) == k then 1 else 0)
    ensures r.loginSuccess == st.loginSuccess + (if a == "auth.login.success" then 1 else 0)
    ensures r.loginFailed == st.loginFailed + (if a == "auth.login.failed" then 1 else 0)
    ensures r.permissionDenied == st.permissionDenied + (if Contains(a, "denied") || Contains(a, "failed") then 1 else 0)
    ensures r.dailyActivity == st.dailyActivity[date := CountOf(st.dailyActivity, date) + 1]
  {
    var docs :=
      if StartsWith(a, "document.") && DocumentVerb(a) in st.documentActions
      then st.documentActions[DocumentVerb(a) := st.documentActions[DocumentVerb(a)] + 1]
      else st.documentActions;
    LoginActionsAreAuth(a);
    var auth := !StartsWith(a, "document.") && StartsWith(a, "auth.");
    Stats(docs,
          st.loginSuccess + (if auth && a == "auth.login.success" then 1 else 0),
          st.loginFailed + (if auth && a == "auth.login.failed" then 1 else 0),
          st.permissionDenied + (if Contains(a, "denied") || Contains(a, "failed") then 1 else 0),
          st.dailyActivity[date := CountOf(st.dailyActivity, date) + 1])
  }

  /** The two login actions fall in the "auth." branch, not the "document." one. */
  lemma LoginActionsAreAuth(a: string)
    ensures a == "auth.login.success" || a == "auth.login.failed" ==>
      StartsWith(a, "auth.") && !StartsWith(a, "document.")
  {
    if a == "auth.login.success" || a == "auth.login.failed" {
      assert a[..5] == "auth.";
      assert a[0] != "document."[0];
    }
  }

  /**
   * One line of a day file: unreadable JSON is skipped, an entry with a
   * string action is counted, and anything else (a non-dict entry, a
   * non-string action) raises, which abandons the rest of the file (None).
   */
  function CountLine(st: Stats, date: string, line: LogLine): Option<Stats> {
    if line.Malformed? then Some(st)
    else match GetOr(line.v, "action", JStr(""))
      case Raises => None
      case Got(a) => if a.JStr? then Some(CountAction(st, date, a.s)) else None
  }

  /** A day file counted from `st`, stopping at the first line that raises. */
  function TallyFile(st: Stats, date: string, lines: seq<LogLine>): Stats
    decreases |lines|
  {
    if lines == [] then st
    else match CountLine(st, date, lines[0])
      case None => st
      case Some(next) => TallyFile(next, date, lines[1..])
  }

  /** A day to tally: its date label and its file. */
  datatype Day = Day(date: string, file: DayFile)

  function TallyDays(st: Stats, days: seq<Day>): Stats
    decreases |days|
  {
    if days == [] then st
    else
      var afterFirst := if days[0].file.Present? then TallyFile(st, days[0].date, days[0].file.lines) else st;
      TallyDays(afterFirst, days[1..])
  }

  /**
   * get_audit_stats: Admin and Project Manager only (403 otherwise); the
   * statistics of the given days, read in order.
   */
  method GetAuditStats(user: Principal, days: seq<Day>) returns (r: Result<Stats, Failure>)
    ensures user.role != "Admin" && user.role != "Project Manager" ==> r == Err(HttpError(403))
    ensures user.role == "Admin" || user.role == "Project Manager" ==> r == Ok(TallyDays(InitialStats(), days))
  {
    if user.role != "Admin" && user.role != "Project Manager" {
      return Err(HttpError(403));
    }
    var st := InitialStats();
    var i := 0;
    while i < |days|
      invariant 0 <= i <= |days|
      invariant TallyDays(InitialStats(), days) == TallyDays(st, days[i..])
    {
      assert days[i..][1..] == days[i + 1..];
      var day := days[i];
      if day.file.Present? {
        var lines := day.file.lines;
        ghost var start := st;
        var j := 0;
        while j < |lines|
          invariant 0 <= j <= |lines|
          invariant TallyFile(start, day.date, lines) == TallyFile(st, day.date, lines[j..])
        {
          assert lines[j..][1..] == lines[j + 1..];
          var next := CountLine(st, day.date, lines[j]);
          if next.None? {
            break;
          }
          st := next.value;
          j := j + 1;
        }
      }
      i := i + 1;
    }
    r := Ok(st);
  }

  /** Counting never adds or drops a document verb: the six keys stay the six keys. */
  lemma {:induction false} TallyKeepsVerbs(st: Stats, days: seq<Day>)
    ensures TallyDays(st, days).documentActions.Keys == st.documentActions.Keys
    decreases |days|
  {
    if days != [] {
      var afterFirst := if days[0].file.Present? then TallyFile(st, days[0].date, days[0].file.lines) else st;
      if days[0].file.Present? {
        FileKeepsVerbs(st, days[0].date, days[0].file.lines);
      }
      TallyKeepsVerbs(afterFirst, days[1..]);
    }
  }

  lemma {:induction false} FileKeepsVerbs(st: Stats, date: string, lines: seq<LogLine>)
    ensures TallyFile(st, date, lines).documentActions.Keys == st.documentActions.Keys
    decreases |lines|
  {
    if lines != [] {
      var next := CountLine(st, date, lines[0]);
      if next.Some? {
        FileKeepsVerbs(next.value, date, lines[1..]);
      }
    }
  }

  /** Only the dates of the given days gain a daily_activity entry. */
  lemma {:induction false} DailyActivityDates(st: Stats, days: seq<Day>)
    ensures TallyDays(st, days).dailyActivity.Keys <= st.dailyActivity.Keys + set d | d in days :: d.date
    decreases |days|
  {
    if days != [] {
      var afterFirst := if days[0].file.Present? then TallyFile(st, days[0].date, days[0].file.lines) else st;
      if days[0].file.Present? {
        FileDates(st, days[0].date, days[0].file.lines);
      }
      DailyActivityDates(afterFirst, days[1..]);
      assert forall d :: d in days[1..] ==> d in days;
    }
  }

  lemma {:induction false} FileDates(st: Stats, date: string, lines: seq<LogLine>)
    ensures TallyFile(st, date, lines).dailyActivity.Keys <= st.dailyActivity.Keys + {date}
    decreases |lines|
  {
    if lines != [] {
      var next := CountLine(st, date, lines[0]);
      if next.Some? {
        FileDates(next.value, date, lines[1..]);
      }
    }
  }

  /** A line whose reading raises inside the per-entry try block: a non-dict entry or a non-string action. */
  predicate LineRaises(line: LogLine) {
    line.Parsed? &&
    match GetOr(line.v, "action", JStr(""))
    case Raises => true
    case Got(a) => !a.JStr?
  }

  /** The entries of a day file that are counted: the parsed ones before the first line that raises. */
  function CountedEntries(lines: seq<LogLine>): nat
    decreases |lines|
  {
    if lines == [] || LineRaises(lines[0]) then 0
    else (if lines[0].Parsed? then 1 else 0) + CountedEntries(lines[1..])
  }

  /**
   * Reading one day file raises that date's daily_activity by the number
   * of entries counted in it, and touches no other date; the date gains a
   * key exactly when something was counted.
   */
  lemma {:induction false} FileDailyCount(st: Stats, date: string, lines: seq<LogLine>)
    ensures forall d ::
      CountOf(TallyFile(st, date, lines).dailyActivity, d) ==
      CountOf(st.dailyActivity, d) + (if d == date then CountedEntries(lines) else 0)
    ensures forall d ::
      d in TallyFile(st, date, lines).dailyActivity <==>
      d in st.dailyActivity || (d == date && CountedEntries(lines) > 0)
    decreases |lines|
  {
    if lines != [] && !LineRaises(lines[0]) {
      var next := CountLine(st, date, lines[0]);
      assert next.Some?;
      FileDailyCount(next.value, date, lines[1..]);
    }
  }

  /** The entries counted over the days named `date`. */
  function DayCount(days: seq<Day>, date: string): nat
    decreases |days|
  {
    if days == [] then 0
    else (if days[0].date == date && days[0].file.Present? then CountedEntries(days[0].file.lines) else 0)
         + DayCount(days[1..], date)
  }

  /** Over several days, each date's daily_activity grows by the entries counted on that date. */
  lemma {:induction false} DaysDailyCount(st: Stats, days: seq<Day>)
    ensures forall d :: CountOf(TallyDays(st, days).dailyActivity, d) == CountOf(st.dailyActivity, d) + DayCount(days, d)
    ensures forall d :: d in TallyDays(st, days).dailyActivity <==> d in st.dailyActivity || DayCount(days, d) > 0
    decreases |days|
  {
    if days != [] {
      var afterFirst := if days[0].file.Present? then TallyFile(st, days[0].date, days[0].file.lines) else st;
      if days[0].file.Present? {
        FileDailyCount(st, days[0].date, days[0].file.lines);
      }
      DaysDailyCount(afterFirst, days[1..]);
    }
  }

  /**
   * daily_activity of the dashboard: a date appears exactly when entries
   * were counted on it, with their number; when the days read have
   * distinct dates, that is the number counted in the date's own file.
   */
  lemma {:induction false} StatsDailyActivity(days: seq<Day>)
    ensures forall d :: d in TallyDays(InitialStats(), days).dailyActivity <==> DayCount(days, d) > 0
    ensures forall d :: d in TallyDays(InitialStats(), days).dailyActivity ==>
      TallyDays(InitialStats(), days).dailyActivity[d] == DayCount(days, d)
    ensures (forall i, j :: 0 <= i < j < |days| ==> days[i].date != days[j].date) ==>
      forall i :: 0 <= i < |days| && days[i].file.Present? ==>
        CountOf(TallyDays(InitialStats(), days).dailyActivity, days[i].date) == CountedEntries(days[i].file.lines)
  {
    var r := TallyDays(InitialStats(), days);
    DaysDailyCount(InitialStats(), days);
    forall d | d in r.dailyActivity
      ensures r.dailyActivity[d] == DayCount(days, d)
    {
      assert CountOf(r.dailyActivity, d) == DayCount(days, d);
    }
    if forall i, j :: 0 <= i < j < |days| ==> days[i].date != days[j].date {
      forall i | 0 <= i < |days| && days[i].file.Present?
        ensures CountOf(r.dailyActivity, days[i].date) == CountedEntries(days[i].file.lines)
      {
        DistinctDayCount(days, i);
      }
    }
  }

  /** With distinct dates, the entries counted on a day's date are those of its own file. */
  lemma {:induction false} DistinctDayCount(days: seq<Day>, i: nat)
    requires i < |days| && days[i].file.Present?
    requires forall a, b :: 0 <= a < b < |days| ==> days[a].date != days[b].date
    ensures DayCount(days, days[i].date) == CountedEntries(days[i].file.lines)
  {
    if i == 0 {
      NoDayCount(days[1..], days[0].date);
    } else {
      DistinctDayCount(days[1..], i - 1);
    }
  }

  /** No entries are counted on a date none of the days has. */
  lemma {:induction false} NoDayCount(days: seq<Day>, date: string)
    requires forall k :: 0 <= k < |days| ==> days[k].date != date
    ensures DayCount(days, date) == 0
    decreases |days|
  {
    if days != [] {
      NoDayCount(days[1..], date);
    }
  }

  lemma {:induction false} ContainsSuffix(p: string, s: string)
    ensures Contains(p + s, s)
    decreases |p|
  {
    if p == [] {
      assert p + s == s;
      assert s[..|s|] == s;
    } else {
      assert (p + s)[1..] == p[1..] + s;
      ContainsSuffix(p[1..], s);
    }
  }

  lemma {:induction false} FirstSegmentBeforeDot(v: string, rest: string)
    requires '.' !in v
    ensures FirstSegment(v + "." + rest) == v
    decreases |v|
  {
    if v != [] {
      assert (v + "." + rest)[1..] == v[1..] + "." + rest;
      FirstSegmentBeforeDot(v[1..], rest);
    }
  }

  /** A document permission's value names no segment boundary. */
  lemma PermissionValueHasNoDot(perm: Permission)
    ensures '.' !in perm.Value()
  {
    match perm
    case View => assert perm.Value() == "view";
    case Download => assert perm.Value() == "download";
    case Upload => assert perm.Value() == "upload";
    case Update => assert perm.Value() == "update";
    case Delete => assert perm.Value() == "delete";
    case Promote => assert perm.Value() == "promote";
    case Share => assert perm.Value() == "share";
  }

  /** A denial action names its verb as the second segment and mentions "denied". */
  lemma DenialActionParts(v: string)
    requires '.' !in v
    ensures StartsWith("document." + v + ".denied", "document.")
    ensures DocumentVerb("document." + v + ".denied") == v
    ensures Contains("document." + v + ".denied", "denied")
  {
    var a := "document." + v + ".denied";
    assert a[..9] == "document.";
    assert a[9..] == v + "." + "denied";
    FirstSegmentBeforeDot(v, "denied");
    assert a == ("document." + v + ".") + "denied";
    ContainsSuffix("document." + v + ".", "denied");
  }

  /** A counted action whose verb is one of the tallied ones raises that verb's count by one. */
  lemma VerbCounted(st: Stats, date: string, a: string, v: string)
    requires StartsWith(a, "document.") && DocumentVerb(a) == v && v in st.documentActions
    ensures CountAction(st, date, a).documentActions == st.documentActions[v := st.documentActions[v] + 1]
  {
    var r := CountAction(st, date, a);
    assert forall k :: k in r.documentActions ==>
      r.documentActions[k] == st.documentActions[v := st.documentActions[v] + 1][k];
  }

  /**
   * A refusal logged by the document gate is counted twice on the
   * dashboard: under its document verb and as a permission denial.
   */
  lemma DocumentDenialCounted(st: Stats, date: string, user: Principal, perm: Permission,
                              documentId: string, doc: DocFacts, now: string)
    requires perm.Value() in st.documentActions
    ensures var a := "document." + perm.Value() + ".denied";
            CountLine(st, date, Parsed(EntryJson(DocumentDenial(user, perm, documentId, doc, now))))
              == Some(CountAction(st, date, a))
    ensures var r := CountAction(st, date, "document." + perm.Value() + ".denied");
            && r.documentActions == st.documentActions[perm.Value() := st.documentActions[perm.Value()] + 1]
            && r.permissionDenied == st.permissionDenied + 1
  {
    var v := perm.Value();
    var a := "document." + v + ".denied";
    PermissionValueHasNoDot(perm);
    DenialActionParts(v);
    VerbCounted(st, date, a, v);
    var e := DocumentDenial(user, perm, documentId, doc, now);
    assert e.action == a;
    assert GetOr(EntryJson(e), "action", JStr("")) == Got(JStr(a));
  }
}
