/** The durable run records. Every SQL statement is atomic, but most callers
    read first and write later, and any number of processes do so at once. */
module RunStore {
  import opened Options
  import Sanitizer

  datatype Status =
    | Queued | Running | Revising | WaitingApproval | Publishing | Cancelling
    | Completed | Failed | Cancelled | Blocked
    | Other(name: string)

  predicate Terminal(s: Status) { s.Completed? || s.Failed? || s.Cancelled? || s.Blocked? }

  predicate Tracked(s: Status) {
    s.Running? || s.Revising? || s.WaitingApproval? || s.Publishing? || s.Cancelling?
  }

  /** The columns an upsert fills with coalesce(new, old). */
  datatype Column =
    | StuckAt | CancelledAt | RequestedAt | RequestedBy | Reason | LastActivityAt | CurrentPhase
    | UserMessage | FailureMessage | StartedAt | CompletedAt | Duration | FailureCategory
    | ApprovalStatus | ApprovalDecision | Reviewer | ApprovalLatency | PatchHash | RiskScore | CommitStatus
    | Plain(name: string)

  /** The columns an upsert fills with max(new, old). */
  datatype Counters = Counters(revisions: int, approvalRequired: bool, input: int, output: int, total: int,
                               cancelRequested: bool)

  /** `fields` has an entry for every coalesced column that is not NULL. */
  datatype Row = Row(org: string, created: string, status: Status, currency: string, counters: Counters,
                     fields: map<Column, string>)

  type Runs = map<string, Row>

  // ---------- Statements ----------

  function Max(a: int, b: int): int { if a < b then b else a }

  function Join(a: Counters, b: Counters): Counters {
    Counters(Max(a.revisions, b.revisions), a.approvalRequired || b.approvalRequired, Max(a.input, b.input),
             Max(a.output, b.output), Max(a.total, b.total), a.cancelRequested || b.cancelRequested)
  }

  function Redacted(r: Row): Row {
    r.(fields := map c | c in r.fields ::
         if c == UserMessage || c == FailureMessage then Sanitizer.SanitizeText(r.fields[c]) else r.fields[c])
  }

  /** ON CONFLICT DO UPDATE: organization, status and currency are overwritten,
      created_at is kept, everything else is joined. */
  function Merge(old_: Row, new_: Row): Row {
    Row(new_.org, old_.created, new_.status, new_.currency, Join(old_.counters, new_.counters),
        old_.fields + new_.fields)
  }

  function Put(m: map<Column, string>, c: Column, v: Option<string>): map<Column, string> {
    if v.Some? then m[c := v.value] else m - {c}
  }

  /** The statements of the store that write to `runs`. In `Beat` an empty
      organization means that the caller gave none. */
  datatype Statement =
    | Upsert(id: string, record: Row)
    | Request(id: string, org: string, status: Status, now: string, actor: Option<string>, reason: Option<string>)
    | Finalize(id: string, org: string, now: string)
    | Flag(id: string, org: string, now: string)
    | Beat(id: string, org: string, now: string, phase: Option<string>)

  /** The WHERE clause. An upsert always writes its row. */
  predicate Affects(runs: Runs, st: Statement) {
    st.Upsert? ||
    (st.id in runs &&
     var r := runs[st.id];
     match st
     case Request(_, org, _, _, _, _) => r.org == org && !r.counters.cancelRequested && !Terminal(r.status)
     case Finalize(_, org, _) => r.org == org && !Terminal(r.status)
     case Flag(_, org, _) => r.org == org && StuckAt !in r.fields
     case Beat(_, org, _, _) => org == "" || r.org == org)
  }

  function Asked(r: Row, status: Status, now: string, actor: Option<string>, reason: Option<string>): Row {
    var fields := Put(Put(r.fields[RequestedAt := now], RequestedBy, actor), Reason, reason);
    r.(status := status, counters := r.counters.(cancelRequested := true),
       fields := if status.Cancelled? then fields[CancelledAt := now] else fields)
  }

  function Written(runs: Runs, st: Statement): Row
    requires Affects(runs, st)
  {
    match st
    case Upsert(id, record) => if id in runs then Merge(runs[id], Redacted(record)) else Redacted(record)
    case Request(id, _, status, now, actor, reason) => Asked(runs[id], status, now, actor, reason)
    case Finalize(id, _, now) =>
      var r := runs[id];
      r.(status := Cancelled, fields := r.fields[CancelledAt := now])
    case Flag(id, _, now) =>
      var r := runs[id];
      r.(fields := r.fields[StuckAt := now])
    case Beat(id, _, now, phase) =>
      var r := runs[id];
      var fields := r.fields[LastActivityAt := now];
      r.(fields := if phase.Some? then fields[CurrentPhase := phase.value] else fields)
  }

  function Execute(runs: Runs, st: Statement): Runs {
    if Affects(runs, st) then runs[st.id := Written(runs, st)] else runs
  }

  function ExecuteAll(runs: Runs, sts: seq<Statement>): Runs {
    if sts == [] then runs else Execute(ExecuteAll(runs, sts[..|sts| - 1]), sts[|sts| - 1])
  }

  // ---------- What no schedule can undo ----------

  predicate AtMost(a: Counters, b: Counters) {
    && a.revisions <= b.revisions && a.input <= b.input && a.output <= b.output && a.total <= b.total
    && (a.approvalRequired ==> b.approvalRequired) && (a.cancelRequested ==> b.cancelRequested)
  }

  /** Who asked for a cancellation and why may be blanked by the one request
      that is accepted; nothing else that was set is ever unset. */
  predicate MayBlank(a: Row, c: Column) {
    (c == RequestedBy || c == Reason) && !a.counters.cancelRequested
  }

  predicate Grows(a: Row, b: Row) {
    && a.created == b.created
    && AtMost(a.counters, b.counters)
    && forall c | c in a.fields :: c in b.fields || MayBlank(a, c)
  }

  lemma StatementGrows(runs: Runs, st: Statement, id: string)
    requires id in runs
    ensures id in Execute(runs, st) && Grows(runs[id], Execute(runs, st)[id])
  {
  }

  /** Whatever statements run, in whatever order and however stale the records
      written back are: counters and latches never go down and what was set stays set. */
  lemma {:induction false} AnyScheduleOnlyGrows(runs: Runs, sts: seq<Statement>, id: string)
    requires id in runs
    ensures id in ExecuteAll(runs, sts) && Grows(runs[id], ExecuteAll(runs, sts)[id])
  {
    if sts != [] {
      var before := ExecuteAll(runs, sts[..|sts| - 1]);
      AnyScheduleOnlyGrows(runs, sts[..|sts| - 1], id);
      StatementGrows(before, sts[|sts| - 1], id);
    }
  }

  /** The three marks nobody can take back. */
  lemma MarksAreForever(runs: Runs, sts: seq<Statement>, id: string)
    requires id in runs
    ensures id in ExecuteAll(runs, sts)
    ensures var a, b := runs[id], ExecuteAll(runs, sts)[id];
            && (a.counters.cancelRequested ==> b.counters.cancelRequested)
            && (StuckAt in a.fields ==> StuckAt in b.fields)
            && (CancelledAt in a.fields ==> CancelledAt in b.fields)
  {
    AnyScheduleOnlyGrows(runs, sts, id);
  }

  /** The columns that max and coalesce fill: which of two writes comes first
      decides which value a column has, but neither a counter, nor a latch, nor
      whether a column is set; and repeating a write changes nothing. */
  lemma WritesJoin(a: Row, b: Row, c: Row)
    ensures var first, second := Merge(Merge(a, b), c), Merge(Merge(a, c), b);
            && first.counters == second.counters && first.created == second.created == a.created
            && first.fields.Keys == second.fields.Keys == a.fields.Keys + b.fields.Keys + c.fields.Keys
    ensures AtMost(a.counters, Merge(a, b).counters) && AtMost(b.counters, Merge(a, b).counters)
    ensures Merge(Merge(a, b), b) == Merge(a, b)
  {
    assert Merge(Merge(a, b), b).fields == Merge(a, b).fields;
  }

  /** A stale write keeps what it does not know: a column it leaves empty has the
      value stored by whoever filled it. */
  lemma EmptyColumnsAreKept(runs: Runs, id: string, record: Row, c: Column)
    requires id in runs && c !in record.fields
    ensures var r := Execute(runs, Upsert(id, record))[id];
            (c in r.fields <==> c in runs[id].fields) && (c in r.fields ==> r.fields[c] == runs[id].fields[c])
  {
  }

  // ---------- Texts ----------

  predicate CleanText(r: Row, c: Column) {
    c in r.fields ==> Sanitizer.SanitizeText(r.fields[c]) == r.fields[c]
  }

  /** Redaction has nothing left to do on this row. */
  predicate CleanRow(r: Row) { CleanText(r, UserMessage) && CleanText(r, FailureMessage) }

  predicate TextsClean(runs: Runs) {
    forall id | id in runs :: CleanRow(runs[id])
  }

  lemma RedactedIsClean(r: Row)
    ensures CleanRow(Redacted(r)) && (CleanRow(r) ==> Redacted(r).fields == r.fields)
  {
    if UserMessage in r.fields { Sanitizer.SanitizeTextTwice(r.fields[UserMessage]); }
    if FailureMessage in r.fields { Sanitizer.SanitizeTextTwice(r.fields[FailureMessage]); }
  }

  lemma WrittenIsClean(runs: Runs, st: Statement)
    requires Affects(runs, st) && (st.id in runs ==> CleanRow(runs[st.id]))
    ensures CleanRow(Written(runs, st))
  {
    hide Redacted;
    if st.Upsert? { RedactedIsClean(st.record); }
  }

  lemma StatementKeepsTextsClean(runs: Runs, st: Statement)
    requires TextsClean(runs)
    ensures TextsClean(Execute(runs, st))
  {
    if Affects(runs, st) {
      hide Written, CleanRow;
      WrittenIsClean(runs, st);
    }
  }

  /** A read-modify-write cycle that edits nothing changes nothing: the text a
      collector reads back and stores again is not redacted or cut further. */
  lemma {:induction false} WritingBackIsNeutral(sts: seq<Statement>, id: string)
    ensures var runs := ExecuteAll(map[], sts);
            TextsClean(runs) && (id in runs ==> Execute(runs, Upsert(id, runs[id])) == runs)
  {
    if sts != [] {
      WritingBackIsNeutral(sts[..|sts| - 1], id);
      StatementKeepsTextsClean(ExecuteAll(map[], sts[..|sts| - 1]), sts[|sts| - 1]);
    }
    var runs := ExecuteAll(map[], sts);
    if id in runs {
      RedactedIsClean(runs[id]);
      assert runs[id].fields + runs[id].fields == runs[id].fields;
    }
  }

  predicate TextColumn(c: Column) { c == UserMessage || c == FailureMessage }

  /** Redaction covers two columns. A row is stored without a credential in any
      column if and only if the others had none to begin with; who asked for a
      cancellation and why are among them. */
  lemma StoredWithoutSecretsExactlyWhen(runs: Runs, id: string, record: Row)
    requires id !in runs
    ensures var stored := Execute(runs, Upsert(id, record))[id].fields;
            (forall c | c in stored :: Sanitizer.CleanText(stored[c]))
            <==> forall c | c in record.fields && !TextColumn(c) :: Sanitizer.CleanText(record.fields[c])
  {
    var stored := Execute(runs, Upsert(id, record))[id].fields;
    assert stored == Redacted(record).fields;
    forall c | c in record.fields && TextColumn(c) ensures Sanitizer.CleanText(stored[c]) {
      Sanitizer.SanitizedTextHasNoToken(record.fields[c]);
    }
    assert forall c | c in record.fields && !TextColumn(c) :: stored[c] == record.fields[c];
  }

  // ---------- Reads ----------

  /** `get_run` and `_get_run_row`: an empty organization means that none was given. */
  function Lookup(runs: Runs, id: string, org: string): Option<Row> {
    if id in runs && (org == "" || runs[id].org == org) then Some(runs[id]) else None
  }

  predicate CancelRequested(runs: Runs, id: string, org: string) {
    var r := Lookup(runs, id, org);
    r.Some? && (r.value.counters.cancelRequested || r.value.status.Cancelled?)
  }

  /** The organization of the last whole-record write of a run, or the one stored before. */
  function LastOrg(sts: seq<Statement>, id: string, stored: string): string {
    if sts == [] then stored
    else
      var st := sts[|sts| - 1];
      if st.Upsert? && st.id == id then st.record.org else LastOrg(sts[..|sts| - 1], id, stored)
  }

  lemma {:induction false} WritesDecideTheOrg(runs: Runs, sts: seq<Statement>, id: string)
    requires id in runs
    ensures id in ExecuteAll(runs, sts) && ExecuteAll(runs, sts)[id].org == LastOrg(sts, id, runs[id].org)
  {
    if sts != [] {
      WritesDecideTheOrg(runs, sts[..|sts| - 1], id);
    }
  }

  /** A request on record, and any statements after it: the check that a caller
      makes under `org` sees the request if and only if the caller gives no
      organization or the one that the last whole-record write left. */
  lemma RequestSeenExactlyWhen(runs: Runs, sts: seq<Statement>, id: string, org: string)
    requires id in runs && runs[id].counters.cancelRequested
    ensures CancelRequested(ExecuteAll(runs, sts), id, org) <==> org == "" || org == LastOrg(sts, id, runs[id].org)
  {
    WritesDecideTheOrg(runs, sts, id);
    MarksAreForever(runs, sts, id);
  }

  datatype Outcome = Requested | AlreadyCancelled | AlreadyTerminal | NotFound

  /** The read of `request_cancellation`: an answer, or the update to try. */
  datatype Admission = Answer(outcome: Outcome) | Attempt(update: Statement)

  function Admit(runs: Runs, id: string, org: string, now: string, actor: Option<string>,
                 reason: Option<string>): Admission
  {
    match Lookup(runs, id, org)
    case None => Answer(NotFound)
    case Some(r) =>
      if r.status.Cancelled? then Answer(AlreadyCancelled)
      else if Terminal(r.status) then Answer(AlreadyTerminal)
      else Attempt(Request(id, r.org, if r.status.WaitingApproval? then Cancelled else Cancelling, now, actor, reason))
  }

  /** The whole of `request_cancellation` when nobody comes between. */
  function Cancel(runs: Runs, id: string, org: string, now: string, actor: Option<string>, reason: Option<string>)
    : (Runs, Outcome)
  {
    match Admit(runs, id, org, now, actor, reason)
    case Answer(o) => (runs, o)
    case Attempt(st) => (Execute(runs, st), if Affects(runs, st) then Requested else AlreadyTerminal)
  }

  /** Which outcome a caller gets, and what a second caller gets afterwards:
      while the run is winding down the second one is told that it is terminal. */
  lemma SecondRequestFindsItDone(runs: Runs, id: string, org: string, now: string, actor: Option<string>,
                                 reason: Option<string>, org': string, now': string)
    ensures var (after, o) := Cancel(runs, id, org, now, actor, reason);
            && (o == Requested <==> id in runs && (org == "" || runs[id].org == org)
                                    && !Terminal(runs[id].status) && !runs[id].counters.cancelRequested)
            && (o != Requested ==> after == runs)
            && (o == Requested && (org' == "" || org' == runs[id].org) ==>
                  CancelRequested(after, id, org')
                  && Cancel(after, id, org', now', None, None)
                     == (after, if runs[id].status.WaitingApproval? then AlreadyCancelled else AlreadyTerminal))
  {
  }

  /** The whole of `mark_cancelled` when nobody comes between. */
  function Stopped(runs: Runs, id: string, org: string, now: string): Runs {
    match Lookup(runs, id, org)
    case None => runs
    case Some(r) => Execute(runs, Finalize(id, r.org, now))
  }

  // ---------- What each call leaves in the columns ----------

  function Stored(r: Row, c: Column): Option<string> {
    if c in r.fields then Some(r.fields[c]) else None
  }

  function Cell(runs: Runs, id: string, c: Column): Option<string> {
    if id in runs then Stored(runs[id], c) else None
  }

  predicate Visible(runs: Runs, id: string, org: string) { id in runs && (org == "" || runs[id].org == org) }

  /** Only this row may differ, and its organization, creation and currency do not. */
  ghost predicate OthersStay(a: Runs, b: Runs, id: string) {
    && a.Keys == b.Keys
    && (forall k | k in a && k != id :: a[k] == b[k])
    && (id in a ==> a[id].org == b[id].org && a[id].created == b[id].created && a[id].currency == b[id].currency)
  }

  lemma EndedAre(s: Status)
    ensures Terminal(s) <==> s in {Completed, Failed, Cancelled, Blocked}
    ensures Tracked(s) <==> s in {Running, Revising, WaitingApproval, Publishing, Cancelling}
    ensures !(Terminal(s) && Tracked(s))
  {
  }

  lemma PutSets(m: map<Column, string>, c: Column, v: Option<string>, d: Column)
    ensures var after := Put(m, c, v);
            if d == c then (d in after <==> v.Some?) && (d in after ==> after[d] == v.value)
            else (d in after <==> d in m) && (d in m ==> after[d] == m[d])
  {
  }

  lemma AskedWrites(r: Row, status: Status, now: string, actor: Option<string>, reason: Option<string>, c: Column)
    ensures var a := Asked(r, status, now, actor, reason);
            && a.org == r.org && a.created == r.created && a.currency == r.currency && a.status == status
            && a.counters == r.counters.(cancelRequested := true)
            && Stored(a, c) ==
               if c == RequestedAt then Some(now)
               else if c == RequestedBy then actor
               else if c == Reason then reason
               else if c == CancelledAt && status == Cancelled then Some(now)
               else Stored(r, c)
  {
    var fields := r.fields[RequestedAt := now];
    PutSets(fields, RequestedBy, actor, c);
    PutSets(Put(fields, RequestedBy, actor), Reason, reason, c);
    hide Put;
  }

  /** An accepted request sets the latch, says when, who and why, and ends a run that was
      waiting for its approval on the spot. Every other column stays. */
  lemma RequestWrites(runs: Runs, id: string, org: string, now: string, actor: Option<string>, reason: Option<string>,
                      c: Column)
    requires Cancel(runs, id, org, now, actor, reason).1 == Requested
    ensures var after, waiting := Cancel(runs, id, org, now, actor, reason).0, runs[id].status == WaitingApproval;
            && OthersStay(runs, after, id)
            && after[id].status == (if waiting then Cancelled else Cancelling)
            && after[id].counters == runs[id].counters.(cancelRequested := true)
            && Cell(after, id, c) ==
               if c == RequestedAt then Some(now)
               else if c == RequestedBy then actor
               else if c == Reason then reason
               else if c == CancelledAt && waiting then Some(now)
               else Cell(runs, id, c)
  {
    var r := runs[id];
    AskedWrites(r, if r.status.WaitingApproval? then Cancelled else Cancelling, now, actor, reason, c);
    hide Asked;
  }

  /** The run has stopped: an open run that the caller can see is closed as CANCELLED with
      the time, an ended one stays as it ended. */
  lemma MarkingCancelledWrites(runs: Runs, id: string, org: string, now: string, c: Column)
    ensures var after, open := Stopped(runs, id, org, now), Visible(runs, id, org) && !Terminal(runs[id].status);
            && OthersStay(runs, after, id)
            && (!open ==> after == runs)
            && (open ==> && after[id].status == Cancelled && after[id].counters == runs[id].counters
                         && Cell(after, id, c) == if c == CancelledAt then Some(now) else Cell(runs, id, c))
  {
  }

  /** The mark goes on a row of exactly this organization that has none. */
  lemma FlagWrites(runs: Runs, id: string, org: string, now: string, c: Column)
    ensures var after, won := Execute(runs, Flag(id, org, now)),
                              id in runs && runs[id].org == org && Cell(runs, id, StuckAt) == None;
            && OthersStay(runs, after, id)
            && (!won ==> after == runs)
            && (won ==> && after[id].status == runs[id].status && after[id].counters == runs[id].counters
                        && Cell(after, id, c) == if c == StuckAt then Some(now) else Cell(runs, id, c))
  {
  }

  /** A heartbeat writes its time and, if it names one, the phase. */
  lemma BeatWrites(runs: Runs, id: string, org: string, now: string, phase: Option<string>, c: Column)
    ensures var after, seen := Execute(runs, Beat(id, org, now, phase)), Visible(runs, id, org);
            && OthersStay(runs, after, id)
            && (!seen ==> after == runs)
            && (seen ==> && after[id].status == runs[id].status && after[id].counters == runs[id].counters
                         && Cell(after, id, c) == if c == LastActivityAt then Some(now)
                                                  else if c == CurrentPhase && phase.Some? then phase
                                                  else Cell(runs, id, c))
  {
  }

  predicate IsMax(m: int, a: int, b: int) { a <= m && b <= m && (m == a || m == b) }

  lemma JoinTakesTheLarger(a: Counters, b: Counters)
    ensures var c := Join(a, b);
            && IsMax(c.revisions, a.revisions, b.revisions) && IsMax(c.input, a.input, b.input)
            && IsMax(c.output, a.output, b.output) && IsMax(c.total, a.total, b.total)
            && (c.approvalRequired <==> a.approvalRequired || b.approvalRequired)
            && (c.cancelRequested <==> a.cancelRequested || b.cancelRequested)
  {
  }

  lemma RedactionWrites(r: Row, c: Column)
    ensures var kept := Redacted(r);
            && kept.org == r.org && kept.created == r.created && kept.status == r.status
            && kept.currency == r.currency && kept.counters == r.counters
            && Stored(kept, c) ==
               if c in r.fields && TextColumn(c) then Some(Sanitizer.SanitizeText(r.fields[c])) else Stored(r, c)
  {
  }

  /** A whole record decides organization, status and currency; the time of creation is the
      first one's, counters are the larger of both, latches hold, and a column is the
      record's, with the two texts redacted, unless the record leaves it empty. */
  lemma UpsertWrites(runs: Runs, id: string, record: Row, c: Column)
    ensures var after := Execute(runs, Upsert(id, record));
            && after.Keys == runs.Keys + {id} && (forall k | k in runs && k != id :: after[k] == runs[k])
            && var r := after[id];
               && r.org == record.org && r.status == record.status && r.currency == record.currency
               && r.created == (if id in runs then runs[id].created else record.created)
               && r.counters == (if id in runs then Join(runs[id].counters, record.counters) else record.counters)
               && Stored(r, c) ==
                  if c !in record.fields then Cell(runs, id, c)
                  else if c in {UserMessage, FailureMessage} then Some(Sanitizer.SanitizeText(record.fields[c]))
                  else Some(record.fields[c])
  {
    RedactionWrites(record, c);
    hide Redacted, Join;
    var r := Execute(runs, Upsert(id, record))[id];
    if id in runs {
      assert r == Merge(runs[id], Redacted(record));
    } else {
      assert r == Redacted(record);
    }
  }

  // ---------- The object ----------

  class TelemetryStore {
    var runs: Runs

    constructor ()
      ensures runs == map[]
    {
      runs := map[];
    }

    method CreateOrUpdateRun(id: string, record: Row)
      modifies this
      ensures runs == Execute(old(runs), Upsert(id, record))
    {
      var clean := Redacted(record);
      if id in runs {
        runs := runs[id := Merge(runs[id], clean)];
      } else {
        runs := runs[id := clean];
      }
    }

    method GetRun(id: string, org: string) returns (r: Option<Row>)
      ensures r == Lookup(runs, id, org)
    {
      if id !in runs || (org != "" && runs[id].org != org) { return None; }
      return Some(runs[id]);
    }

    method RequestCancellation(id: string, org: string, now: string, actor: Option<string>, reason: Option<string>)
      returns (outcome: Outcome)
      modifies this
      ensures (runs, outcome) == Cancel(old(runs), id, org, now, actor, reason)
    {
      var existing := GetRun(id, org);
      if existing.None? { return NotFound; }
      var r := existing.value;
      if r.status.Cancelled? { return AlreadyCancelled; }
      if Terminal(r.status) { return AlreadyTerminal; }
      var status := if r.status.WaitingApproval? then Cancelled else Cancelling;
      if r.counters.cancelRequested { return AlreadyTerminal; }
      var fields := r.fields[RequestedAt := now];
      fields := if actor.Some? then fields[RequestedBy := actor.value] else fields - {RequestedBy};
      fields := if reason.Some? then fields[Reason := reason.value] else fields - {Reason};
      if status.Cancelled? { fields := fields[CancelledAt := now]; }
      runs := runs[id := r.(status := status, counters := r.counters.(cancelRequested := true), fields := fields)];
      outcome := Requested;
    }

    /** Finalizes a run that has stopped, and never one that has ended otherwise. */
    method MarkCancelled(id: string, org: string, now: string) returns (won: bool)
      modifies this
      ensures won <==> id in old(runs) && (org == "" || old(runs)[id].org == org) && !Terminal(old(runs)[id].status)
      ensures runs == Stopped(old(runs), id, org, now)
      ensures if won then runs[id].status == Cancelled else runs == old(runs)
    {
      var existing := GetRun(id, org);
      if existing.None? { return false; }
      won := !Terminal(existing.value.status);
      if won {
        var fields := existing.value.fields[CancelledAt := now];
        runs := runs[id := existing.value.(status := Cancelled, fields := fields)];
      }
    }

    method IsCancelRequested(id: string, org: string) returns (b: bool)
      ensures b <==> CancelRequested(runs, id, org)
    {
      var r := GetRun(id, org);
      b := r.Some? && (r.value.counters.cancelRequested || r.value.status.Cancelled?);
    }

    method UpdateActivity(id: string, org: string, now: string, phase: Option<string>)
      modifies this
      ensures runs == Execute(old(runs), Beat(id, org, now, phase))
    {
      if id in runs && (org == "" || runs[id].org == org) {
        var fields := runs[id].fields[LastActivityAt := now];
        if phase.Some? { fields := fields[CurrentPhase := phase.value]; }
        runs := runs[id := runs[id].(fields := fields)];
      }
    }

    method MarkStuck(id: string, org: string, now: string) returns (won: bool)
      modifies this
      ensures won <==> id in old(runs) && old(runs)[id].org == org && StuckAt !in old(runs)[id].fields
      ensures runs == if won then old(runs)[id := Stuck(old(runs)[id], now)] else old(runs)
      ensures runs == Execute(old(runs), Flag(id, org, now))
    {
      won := id in runs && runs[id].org == org && StuckAt !in runs[id].fields;
      if won { runs := runs[id := Stuck(runs[id], now)]; }
    }

    /** The watchdog's part for one stale row of its list: another look, the mark
        and, when it got the mark and is to stop stuck runs, the request. */
    method Claim(id: string, org: string, why: Option<string>, now: string) returns (won: bool)
      modifies this
      ensures won <==> && Lookup(old(runs), id, org).Some? && old(runs)[id].org == org
                       && !Terminal(old(runs)[id].status) && StuckAt !in old(runs)[id].fields
      ensures runs == if won then old(runs)[id := Claimed(old(runs)[id], why, now)] else old(runs)
    {
      var current := GetRun(id, org);
      if current.None? || Terminal(current.value.status) || StuckAt in current.value.fields { return false; }
      won := MarkStuck(id, org, now);
      if won && why.Some? {
        var outcome := RequestCancellation(id, org, now, Some("watchdog"), why);
      }
    }

    /** One watchdog pass over the rows it listed; `stale` says whose last activity
        is too long ago. With `auto`, which words the reason, stuck runs are
        asked to stop. */
    method CheckOnce(listed: seq<string>, stale: Row -> bool, auto: Option<Row -> string>, now: string)
      returns (newlyStuck: seq<string>)
      requires forall id :: id in listed ==> id in runs
      modifies this
      ensures runs.Keys == old(runs).Keys
      ensures forall id :: id in newlyStuck <==>
                && id in listed && stale(old(runs)[id]) && StuckAt !in old(runs)[id].fields
                && Tracked(old(runs)[id].status)
      ensures forall i, j | 0 <= i < j < |newlyStuck| :: newlyStuck[i] != newlyStuck[j]
      ensures forall id :: id in runs ==>
                runs[id] == if id in newlyStuck then Claimed(old(runs)[id], Why(auto, old(runs)[id]), now)
                            else old(runs)[id]
    {
      hide Claimed, Why;
      var snapshot := runs;
      newlyStuck := [];
      for i := 0 to |listed|
        invariant snapshot == old(runs) && runs.Keys == snapshot.Keys
        invariant forall id :: id in newlyStuck <==>
                    && id in listed[..i] && stale(snapshot[id]) && StuckAt !in snapshot[id].fields
                    && Tracked(snapshot[id].status)
        invariant forall j, k | 0 <= j < k < |newlyStuck| :: newlyStuck[j] != newlyStuck[k]
        invariant forall id :: id in runs ==>
                    runs[id] == if id in newlyStuck then Claimed(snapshot[id], Why(auto, snapshot[id]), now)
                                else snapshot[id]
      {
        var id := listed[i];
        assert listed[..i + 1] == listed[..i] + [id];
        var rec := snapshot[id];
        if Tracked(rec.status) && StuckAt !in rec.fields && stale(rec) {
          ClaimedIsMarked(rec, Why(auto, rec), now);
          var won := Claim(id, rec.org, Why(auto, rec), now);
          if won { newlyStuck := newlyStuck + [id]; }
        }
      }
    }
  }

  function Why(auto: Option<Row -> string>, r: Row): Option<string> {
    if auto.Some? then Some(auto.value(r)) else None
  }

  /** What a pass leaves of a row that it marks. A request that is already on record stays as it is. */
  function Claimed(r: Row, why: Option<string>, now: string): Row {
    var s := Stuck(r, now);
    if why.None? || Terminal(s.status) || s.counters.cancelRequested then s
    else Asked(s, if s.status.WaitingApproval? then Cancelled else Cancelling, now, Some("watchdog"), why)
  }

  lemma ClaimedIsMarked(r: Row, why: Option<string>, now: string)
    ensures StuckAt in Claimed(r, why, now).fields && Claimed(r, why, now).org == r.org
  {
  }

  /** A claimed row is marked; if stuck runs are to be stopped and nobody asked before, the
      watchdog's own request is written with it. */
  lemma ClaimedWrites(r: Row, why: Option<string>, now: string, c: Column)
    ensures var a, waiting := Claimed(r, why, now), r.status == WaitingApproval;
            var asks := why.Some? && !Terminal(r.status) && !r.counters.cancelRequested;
            && a.org == r.org && a.created == r.created && a.currency == r.currency
            && a.status == (if !asks then r.status else if waiting then Cancelled else Cancelling)
            && a.counters == (if asks then r.counters.(cancelRequested := true) else r.counters)
            && Stored(a, c) ==
               if c == StuckAt || (asks && c == RequestedAt) || (asks && waiting && c == CancelledAt) then Some(now)
               else if asks && c == RequestedBy then Some("watchdog")
               else if asks && c == Reason then why
               else Stored(r, c)
  {
    var s := Stuck(r, now);
    AskedWrites(s, if s.status.WaitingApproval? then Cancelled else Cancelling, now, Some("watchdog"), why, c);
    hide Asked;
  }

  function Stuck(r: Row, now: string): Row { r.(fields := r.fields[StuckAt := now]) }
}
