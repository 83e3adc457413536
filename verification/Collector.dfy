/** The collector's part in a run's life: each `on_…` call reads the run's record,
    edits it and writes it back whole. What others may do in between is the
    business of StoreClients. */
module Collector {
  import opened Options
  import opened RunStore
  import Sanitizer
  import StoreClients

  /** Assignments to attributes of a record; None is Python's None. */
  type Edits = map<Column, Option<string>>

  function Edited(fields: map<Column, string>, e: Edits): map<Column, string> {
    map c | c in fields.Keys + e.Keys && (c in e ==> e[c].Some?) :: if c in e then e[c].value else fields[c]
  }

  /** What the final state of a run says about it. Costs and currency come from
      the price list, and only when tokens were counted. */
  datatype Report = Report(columns: Edits, revisions: Option<int>, tokens: Option<(int, int)>, currency: Option<string>)

  function Fresh(org: string, now: string, facts: map<Column, string>): Row {
    Row(org, now, Queued, "USD", Counters(0, false, 0, 0, 0, false), facts)
  }

  /** The record to edit: the stored one, or a new one. */
  function Fetched(runs: Runs, id: string, org: string, now: string): Row {
    var found := Lookup(runs, id, org);
    if found.Some? then found.value else Fresh(org, now, map[])
  }

  function Brief(message: string): string { if |message| > 500 then message[..500] else message }

  // ---------- What each call writes ----------

  function Created(runs: Runs, id: string, given: string, facts: map<Column, string>, now: string): Runs {
    Execute(runs, Upsert(id, Fresh(StoreClients.Resolve(runs, id, given), now, facts)))
  }

  /** `on_run_started` falls back on `on_run_created` for a run it does not find. */
  function Started(runs: Runs, id: string, given: string, now: string): Runs {
    var org := StoreClients.Resolve(runs, id, given);
    var found := Lookup(runs, id, org);
    var base := if found.Some? then runs else Created(runs, id, org, map[], now);
    var rec := if found.Some? then found.value else Fresh(StoreClients.Resolve(runs, id, org), now, map[]);
    Execute(base, Upsert(id, rec.(status := Running, fields := rec.fields[StartedAt := now])))
  }

  function Reported(c: Counters, r: Report): Counters {
    var d := if r.revisions.Some? then c.(revisions := r.revisions.value) else c;
    if r.tokens.Some? && (r.tokens.value.0 != 0 || r.tokens.value.1 != 0)
    then d.(input := r.tokens.value.0, output := r.tokens.value.1, total := r.tokens.value.0 + r.tokens.value.1) else d
  }

  function Finished(runs: Runs, id: string, given: string, r: Report, took: string, now: string): Runs {
    var rec := Fetched(runs, id, StoreClients.Resolve(runs, id, given), now);
    var fields := Edited(rec.fields, r.columns[CompletedAt := Some(now)][Duration := Some(took)]);
    Execute(runs, Upsert(id, rec.(status := Completed, counters := Reported(rec.counters, r), fields := fields,
                                  currency := if r.currency.Some? then r.currency.value else rec.currency)))
  }

  function FailureFields(message: string, category: string, took: string, now: string): map<Column, string> {
    map[CompletedAt := now, Duration := took, FailureCategory := category, FailureMessage := Brief(message)]
  }

  function Broken(runs: Runs, id: string, given: string, message: string, category: string, took: string,
                  now: string): Runs
  {
    var rec := Fetched(runs, id, StoreClients.Resolve(runs, id, given), now);
    Execute(runs, Upsert(id, rec.(status := Failed,
                                  fields := rec.fields + FailureFields(message, category, took, now))))
  }

  /** `on_approval_requested` writes only to a record it finds. */
  function AwaitingApproval(runs: Runs, id: string, given: string, hash: Option<string>, risk: Option<string>): Runs {
    match Lookup(runs, id, StoreClients.Resolve(runs, id, given))
    case None => runs
    case Some(rec) =>
      var fields := Put(Put(rec.fields[ApprovalStatus := "PENDING"], PatchHash, hash), RiskScore, risk);
      Execute(runs, Upsert(id, rec.(status := WaitingApproval, counters := rec.counters.(approvalRequired := true),
                                    fields := fields)))
  }

  /** The word for a decision. */
  function Word(approved: bool): string { if approved then "APPROVED" else "REJECTED" }

  function DecidedRow(rec: Row, approved: bool, reviewer: Option<string>, latency: Option<string>): Row {
    var fields := rec.fields[ApprovalStatus := Word(approved)][ApprovalDecision := Word(approved)];
    rec.(counters := rec.counters.(approvalRequired := true),
         fields := Put(Put(fields, Reviewer, reviewer), ApprovalLatency, latency))
  }

  /** `on_approval_decision` leaves the status alone, and also writes only to a record it finds. */
  function Decided(runs: Runs, id: string, given: string, approved: bool, reviewer: Option<string>,
                   latency: Option<string>): Runs
  {
    match Lookup(runs, id, StoreClients.Resolve(runs, id, given))
    case None => runs
    case Some(rec) => Execute(runs, Upsert(id, DecidedRow(rec, approved, reviewer, latency)))
  }

  // ---------- What the record says afterwards ----------

  predicate Recorded(runs: Runs, id: string, s: Status) { id in runs && runs[id].status == s }

  /** A run starts as RUNNING under its organization, and starting it forgets
      nothing that was recorded while it was queued, a cancellation least of all. */
  lemma StartingKeepsWhatWasQueued(runs: Runs, id: string, given: string, facts: map<Column, string>, now: string)
    ensures var after := Started(Created(runs, id, given, facts, now), id, given, now);
            && Recorded(after, id, Running) && after[id].org == StoreClients.Resolve(runs, id, given)
            && (id in runs ==> Grows(runs[id], after[id]))
            && (forall c | c in facts && c != UserMessage && c != FailureMessage && c != StartedAt ::
                  c in after[id].fields && after[id].fields[c] == facts[c])
  {
    var org := StoreClients.Resolve(runs, id, given);
    var create := Upsert(id, Fresh(org, now, facts));
    var created := Execute(runs, create);
    assert created == Created(runs, id, given, facts, now) && created[id].org == org;
    if id in runs { StatementGrows(runs, create, id); }
    assert Lookup(created, id, StoreClients.Resolve(created, id, given)) == Some(created[id]);
    var rec := created[id];
    StatementGrows(created, Upsert(id, rec.(status := Running, fields := rec.fields[StartedAt := now])), id);
  }

  /** A whole-record write stores every column it has, texts apart. */
  lemma WriteStores(runs: Runs, id: string, rec: Row, c: Column)
    requires c in rec.fields && c != UserMessage && c != FailureMessage
    ensures var after := Execute(runs, Upsert(id, rec));
            id in after && c in after[id].fields && after[id].fields[c] == rec.fields[c]
  {
  }

  lemma WriteKeepsTheRest(runs: Runs, id: string, rec: Row)
    requires id in runs
    ensures var after := Execute(runs, Upsert(id, rec));
            && after.Keys == runs.Keys && after[id].status == rec.status
            && forall i | i in runs && i != id :: after[i] == runs[i]
  {
  }

  /** A final report: every column it knows has its value, every other one the
      value stored before, and no counter has gone down. */
  lemma ReportOnlyAdds(runs: Runs, id: string, given: string, r: Report, took: string, now: string, c: Column)
    requires c !in {CompletedAt, Duration, UserMessage, FailureMessage}
    ensures var after := Finished(runs, id, given, r, took, now);
            && Recorded(after, id, Completed)
            && (id in runs ==> Grows(runs[id], after[id]))
            && (c in r.columns && r.columns[c].Some? ==>
                  c in after[id].fields && after[id].fields[c] == r.columns[c].value)
            && ((c !in r.columns || r.columns[c].None?) && id in runs ==>
                  (c in after[id].fields <==> c in runs[id].fields)
                  && (c in runs[id].fields ==> after[id].fields[c] == runs[id].fields[c]))
  {
    var rec := Fetched(runs, id, StoreClients.Resolve(runs, id, given), now);
    var fields := Edited(rec.fields, r.columns[CompletedAt := Some(now)][Duration := Some(took)]);
    var write := Upsert(id, rec.(status := Completed, counters := Reported(rec.counters, r), fields := fields,
                                 currency := if r.currency.Some? then r.currency.value else rec.currency));
    hide Execute, Edited, Reported;
    if id in runs { StatementGrows(runs, write, id); }
    EditedColumn(rec.fields, r.columns[CompletedAt := Some(now)][Duration := Some(took)], c);
    if c in fields { WriteStores(runs, id, write.record, c); }
    else if id in runs { EmptyColumnsAreKept(runs, id, write.record, c); }
    StatusIsWritten(runs, id, write.record);
  }

  lemma EditedColumn(fields: map<Column, string>, e: Edits, c: Column)
    ensures var r := Edited(fields, e);
            if c in e then (c in r <==> e[c].Some?) && (e[c].Some? ==> r[c] == e[c].value)
            else (c in r <==> c in fields) && (c in fields ==> r[c] == fields[c])
  {
  }

  lemma StatusIsWritten(runs: Runs, id: string, rec: Row)
    ensures Recorded(Execute(runs, Upsert(id, rec)), id, rec.status)
  {
  }

  lemma WriteRedacts(runs: Runs, id: string, rec: Row)
    requires FailureMessage in rec.fields
    ensures var after := Execute(runs, Upsert(id, rec));
            && id in after && FailureMessage in after[id].fields
            && after[id].fields[FailureMessage] == Sanitizer.SanitizeText(rec.fields[FailureMessage])
  {
    hide Sanitizer.SanitizeText;
  }

  lemma BriefIsTheStart(message: string)
    ensures Brief(message) <= message && |Brief(message)| == if |message| < 500 then |message| else 500
  {
  }

  /** A failure is on record with its category and with the redacted start of its
      message, and redaction has nothing left to find there. */
  lemma FailureIsRecorded(runs: Runs, id: string, given: string, message: string, category: string, took: string,
                          now: string)
    ensures var after := Broken(runs, id, given, message, category, took, now);
            && Recorded(after, id, Failed)
            && FailureMessage in after[id].fields
            && after[id].fields[FailureMessage] == Sanitizer.SanitizeText(Brief(message))
            && Brief(message) <= message && |Brief(message)| == (if |message| < 500 then |message| else 500)
            && CleanText(after[id], FailureMessage)
            && FailureCategory in after[id].fields && after[id].fields[FailureCategory] == category
  {
    var rec := Fetched(runs, id, StoreClients.Resolve(runs, id, given), now);
    var written := rec.(status := Failed, fields := rec.fields + FailureFields(message, category, took, now));
    Sanitizer.SanitizeTextTwice(Brief(message));
    BriefIsTheStart(message);
    hide Execute, Sanitizer.SanitizeText, Brief, Fetched;
    WriteRedacts(runs, id, written);
    WriteStores(runs, id, written, FailureCategory);
    StatusIsWritten(runs, id, written);
  }

  predicate Says(fields: map<Column, string>, c: Column, v: string) { c in fields && fields[c] == v }

  predicate SaysDecision(fields: map<Column, string>, approved: bool, reviewer: Option<string>, latency: Option<string>)
  {
    && Says(fields, ApprovalStatus, Word(approved)) && Says(fields, ApprovalDecision, Word(approved))
    && (reviewer.Some? ==> Says(fields, Reviewer, reviewer.value))
    && (latency.Some? ==> Says(fields, ApprovalLatency, latency.value))
  }

  lemma DecidedRowSays(rec: Row, approved: bool, reviewer: Option<string>, latency: Option<string>)
    ensures var r := DecidedRow(rec, approved, reviewer, latency);
            r.status == rec.status && SaysDecision(r.fields, approved, reviewer, latency)
  {
    hide Word;
  }

  lemma WriteSaysDecision(runs: Runs, id: string, rec: Row, approved: bool, reviewer: Option<string>,
                          latency: Option<string>)
    requires SaysDecision(rec.fields, approved, reviewer, latency)
    ensures id in Execute(runs, Upsert(id, rec))
    ensures SaysDecision(Execute(runs, Upsert(id, rec))[id].fields, approved, reviewer, latency)
  {
    hide Execute, Word;
    WriteStores(runs, id, rec, ApprovalStatus);
    WriteStores(runs, id, rec, ApprovalDecision);
    if reviewer.Some? { WriteStores(runs, id, rec, Reviewer); }
    if latency.Some? { WriteStores(runs, id, rec, ApprovalLatency); }
  }

  /** A decision is recorded with its reviewer if there is a record, and touches no status. */
  lemma DecisionIsRecorded(runs: Runs, id: string, given: string, approved: bool, reviewer: Option<string>,
                           latency: Option<string>)
    ensures var after := Decided(runs, id, given, approved, reviewer, latency);
            && after.Keys == runs.Keys
            && (forall i | i in runs :: after[i].status == runs[i].status)
            && (Lookup(runs, id, StoreClients.Resolve(runs, id, given)).Some? ==>
                  SaysDecision(after[id].fields, approved, reviewer, latency))
  {
    var found := Lookup(runs, id, StoreClients.Resolve(runs, id, given));
    if found.Some? {
      var rec := DecidedRow(found.value, approved, reviewer, latency);
      hide Execute, DecidedRow, SaysDecision;
      DecidedRowSays(found.value, approved, reviewer, latency);
      WriteKeepsTheRest(runs, id, rec);
      WriteSaysDecision(runs, id, rec, approved, reviewer, latency);
    }
  }

  // ---------- The same, column by column ----------

  /** A created run is QUEUED under its organization with the facts known so far. */
  lemma CreationSays(runs: Runs, id: string, given: string, facts: map<Column, string>, now: string, c: Column)
    requires !TextColumn(c)
    ensures var after := Created(runs, id, given, facts, now);
            && Recorded(after, id, Queued) && after[id].org == StoreClients.Resolve(runs, id, given)
            && after[id].created == (if id in runs then runs[id].created else now) && after[id].currency == "USD"
            && (id !in runs ==> after[id].counters == Counters(0, false, 0, 0, 0, false))
            && (id in runs ==> after[id].counters.approvalRequired == runs[id].counters.approvalRequired
                               && after[id].counters.cancelRequested == runs[id].counters.cancelRequested)
            && Cell(after, id, c) == if c in facts then Some(facts[c]) else Cell(runs, id, c)
  {
    UpsertWrites(runs, id, Fresh(StoreClients.Resolve(runs, id, given), now, facts), c);
    hide Execute;
  }

  /** A started run is RUNNING with its time, and has every other column that it had. */
  lemma StartSays(runs: Runs, id: string, given: string, now: string, c: Column)
    requires !TextColumn(c)
    ensures var after := Started(runs, id, given, now);
            && Recorded(after, id, Running) && after[id].org == StoreClients.Resolve(runs, id, given)
            && after[id].currency ==
               (if Lookup(runs, id, after[id].org).Some? then runs[id].currency else "USD")
            && Cell(after, id, c) == if c == StartedAt then Some(now) else Cell(runs, id, c)
  {
    var org := StoreClients.Resolve(runs, id, given);
    var found := Lookup(runs, id, org);
    if found.None? { CreationSays(runs, id, org, map[], now, c); }
    var base := if found.Some? then runs else Created(runs, id, org, map[], now);
    var rec := if found.Some? then found.value else Fresh(StoreClients.Resolve(runs, id, org), now, map[]);
    assert StoreClients.Resolve(runs, id, org) == org;
    UpsertWrites(base, id, rec.(status := Running, fields := rec.fields[StartedAt := now]), c);
    hide Execute, Created;
  }

  lemma ReportedCounts(a: Counters, r: Report)
    ensures var b := Reported(a, r);
            && b.revisions == (if r.revisions.Some? then r.revisions.value else a.revisions)
            && (if r.tokens.None? || r.tokens.value == (0, 0)
                then b.input == a.input && b.output == a.output && b.total == a.total
                else var (i, o) := r.tokens.value; b.input == i && b.output == o && b.total == i + o)
            && b.approvalRequired == a.approvalRequired && b.cancelRequested == a.cancelRequested
  {
  }

  /** A final report takes the larger of each counter and of what it counted, tokens only
      if there were any, and brings the currency along. */
  lemma ReportSays(runs: Runs, id: string, given: string, r: Report, took: string, now: string)
    requires Lookup(runs, id, StoreClients.Resolve(runs, id, given)).Some?
    ensures var after := Finished(runs, id, given, r, took, now);
            && after[id].currency == (if r.currency.Some? then r.currency.value else runs[id].currency)
            && var a, b := runs[id].counters, after[id].counters;
               && (r.revisions.None? ==> b.revisions == a.revisions)
               && (r.revisions.Some? ==> IsMax(b.revisions, a.revisions, r.revisions.value))
               && (if r.tokens.None? || r.tokens.value == (0, 0)
                   then b.input == a.input && b.output == a.output && b.total == a.total
                   else var (i, o) := r.tokens.value;
                        IsMax(b.input, a.input, i) && IsMax(b.output, a.output, o) && IsMax(b.total, a.total, i + o))
               && b.approvalRequired == a.approvalRequired && b.cancelRequested == a.cancelRequested
  {
    var rec := runs[id];
    var columns := r.columns[CompletedAt := Some(now)][Duration := Some(took)];
    var fields := Edited(rec.fields, columns);
    var counters := Reported(rec.counters, r);
    var written := rec.(status := Completed, counters := counters, fields := fields,
                        currency := if r.currency.Some? then r.currency.value else rec.currency);
    assert Finished(runs, id, given, r, took, now) == Execute(runs, Upsert(id, written));
    UpsertWrites(runs, id, written, CompletedAt);
    JoinTakesTheLarger(rec.counters, counters);
    ReportedCounts(rec.counters, r);
    hide Execute, Edited, Join, Reported, StoreClients.Resolve;
  }

  /** It is stamped with its time and duration, whatever columns it brings. */
  lemma ReportIsStamped(runs: Runs, id: string, given: string, r: Report, took: string, now: string)
    ensures var after := Finished(runs, id, given, r, took, now);
            Cell(after, id, CompletedAt) == Some(now) && Cell(after, id, Duration) == Some(took)
  {
    var rec := Fetched(runs, id, StoreClients.Resolve(runs, id, given), now);
    var columns := r.columns[CompletedAt := Some(now)][Duration := Some(took)];
    var fields := Edited(rec.fields, columns);
    var written := rec.(status := Completed, counters := Reported(rec.counters, r), fields := fields,
                        currency := if r.currency.Some? then r.currency.value else rec.currency);
    EditedColumn(rec.fields, columns, CompletedAt);
    EditedColumn(rec.fields, columns, Duration);
    UpsertWrites(runs, id, written, CompletedAt);
    UpsertWrites(runs, id, written, Duration);
    hide Execute, Edited, Reported, Fetched, StoreClients.Resolve;
  }

  /** A failure leaves its time and duration, and touches no column but its own four. */
  lemma FailureSays(runs: Runs, id: string, given: string, message: string, category: string, took: string, now: string,
                    c: Column)
    requires !TextColumn(c)
    ensures var after := Broken(runs, id, given, message, category, took, now);
            && Recorded(after, id, Failed)
            && Cell(after, id, c) ==
               if c == CompletedAt then Some(now)
               else if c == Duration then Some(took)
               else if c == FailureCategory then Some(category)
               else Cell(runs, id, c)
  {
    var rec := Fetched(runs, id, StoreClients.Resolve(runs, id, given), now);
    var written := rec.(status := Failed, fields := rec.fields + FailureFields(message, category, took, now));
    UpsertWrites(runs, id, written, c);
    hide Execute, Brief;
  }

  function Found(m: map<Column, string>, c: Column): Option<string> {
    if c in m then Some(m[c]) else None
  }

  lemma TwoPuts(m: map<Column, string>, a: Column, v: Option<string>, b: Column, w: Option<string>, c: Column)
    requires a != b
    ensures Found(Put(Put(m, a, v), b, w), c) == if c == a then v else if c == b then w else Found(m, c)
  {
    PutSets(m, a, v, c);
    PutSets(Put(m, a, v), b, w, c);
    hide Put;
  }

  lemma WriteSays(runs: Runs, id: string, rec: Row, c: Column)
    requires id in runs && !TextColumn(c)
    ensures var after := Execute(runs, Upsert(id, rec));
            && id in after && after[id].status == rec.status
            && (after[id].counters.approvalRequired <==>
                  runs[id].counters.approvalRequired || rec.counters.approvalRequired)
            && (after[id].counters.cancelRequested <==>
                  runs[id].counters.cancelRequested || rec.counters.cancelRequested)
            && Cell(after, id, c) == if c in rec.fields then Found(rec.fields, c) else Cell(runs, id, c)
  {
    UpsertWrites(runs, id, rec, c);
    JoinTakesTheLarger(runs[id].counters, rec.counters);
    hide Execute, Join;
  }

  /** A run that is found waits for its approval: the latch is set, and a hash and a risk
      that are given are stored. One that is not found is left out. */
  lemma PauseSays(runs: Runs, id: string, given: string, hash: Option<string>, risk: Option<string>, c: Column)
    requires !TextColumn(c)
    ensures var after, found := AwaitingApproval(runs, id, given, hash, risk),
                                Lookup(runs, id, StoreClients.Resolve(runs, id, given)).Some?;
            && (!found ==> after == runs)
            && (found ==>
                  && after[id].status == WaitingApproval && after[id].counters.approvalRequired
                  && after[id].counters.cancelRequested == runs[id].counters.cancelRequested
                  && Cell(after, id, c) ==
                     if c == ApprovalStatus then Some("PENDING")
                     else if c == PatchHash && hash.Some? then hash
                     else if c == RiskScore && risk.Some? then risk
                     else Cell(runs, id, c))
  {
    var found := Lookup(runs, id, StoreClients.Resolve(runs, id, given));
    if found.Some? {
      var rec := found.value;
      var fields := Put(Put(rec.fields[ApprovalStatus := "PENDING"], PatchHash, hash), RiskScore, risk);
      var counters := rec.counters.(approvalRequired := true);
      TwoPuts(rec.fields[ApprovalStatus := "PENDING"], PatchHash, hash, RiskScore, risk, c);
      WriteSays(runs, id, rec.(status := WaitingApproval, counters := counters, fields := fields), c);
      hide Execute, Put, Join, TextColumn, StoreClients.Resolve;
    }
  }

  /** A decision is stored in words, with its reviewer and its latency if there are any. */
  lemma DecisionSays(runs: Runs, id: string, given: string, approved: bool, reviewer: Option<string>,
                     latency: Option<string>, c: Column)
    requires !TextColumn(c)
    ensures var after, found := Decided(runs, id, given, approved, reviewer, latency),
                                Lookup(runs, id, StoreClients.Resolve(runs, id, given)).Some?;
            && (!found ==> after == runs)
            && (found ==>
                  && after[id].status == runs[id].status && after[id].counters.approvalRequired
                  && after[id].counters.cancelRequested == runs[id].counters.cancelRequested
                  && Cell(after, id, c) ==
                     if c == ApprovalStatus || c == ApprovalDecision
                     then Some(if approved then "APPROVED" else "REJECTED")
                     else if c == Reviewer && reviewer.Some? then reviewer
                     else if c == ApprovalLatency && latency.Some? then latency
                     else Cell(runs, id, c))
  {
    var found := Lookup(runs, id, StoreClients.Resolve(runs, id, given));
    if found.Some? {
      var rec := found.value;
      var fields := rec.fields[ApprovalStatus := Word(approved)][ApprovalDecision := Word(approved)];
      TwoPuts(fields, Reviewer, reviewer, ApprovalLatency, latency, c);
      var written := DecidedRow(rec, approved, reviewer, latency);
      WriteSays(runs, id, written, c);
      hide Execute, Put, Join, TextColumn, StoreClients.Resolve;
    }
  }

  // ---------- The object ----------

  class TelemetryCollector {
    const store: TelemetryStore
    /** `_infer_failure_category` */
    const infer: string -> string

    constructor (store: TelemetryStore, infer: string -> string)
      ensures this.store == store && this.infer == infer
    {
      this.store, this.infer := store, infer;
    }

    method ResolveOrg(id: string, given: string) returns (org: string)
      ensures org == StoreClients.Resolve(store.runs, id, given)
    {
      if given != "" && given != StoreClients.DEFAULT_ORG { return given; }
      var existing := store.GetRun(id, "");
      if existing.Some? { return existing.value.org; }
      return StoreClients.DEFAULT_ORG;
    }

    method OnRunCreated(id: string, given: string, facts: map<Column, string>, now: string) returns (record: Row)
      modifies store
      ensures record == Fresh(StoreClients.Resolve(old(store.runs), id, given), now, facts)
      ensures store.runs == Created(old(store.runs), id, given, facts, now)
    {
      var org := ResolveOrg(id, given);
      record := Row(org, now, Queued, "USD", Counters(0, false, 0, 0, 0, false), facts);
      store.CreateOrUpdateRun(id, record);
    }

    method OnRunStarted(id: string, given: string, now: string)
      modifies store
      ensures store.runs == Started(old(store.runs), id, given, now)
    {
      hide Execute;
      var org := ResolveOrg(id, given);
      var found := store.GetRun(id, org);
      var rec: Row;
      if found.Some? {
        rec := found.value;
      } else {
        rec := OnRunCreated(id, org, map[], now);
      }
      rec := rec.(status := Running);
      rec := rec.(fields := rec.fields[StartedAt := now]);
      store.CreateOrUpdateRun(id, rec);
    }

    method OnRunCompleted(id: string, given: string, r: Report, took: string, now: string)
      modifies store
      ensures store.runs == Finished(old(store.runs), id, given, r, took, now)
    {
      hide Execute;
      var org := ResolveOrg(id, given);
      var found := store.GetRun(id, org);
      var rec := if found.Some? then found.value else Fresh(org, now, map[]);
      var fields := Edited(rec.fields, r.columns[CompletedAt := Some(now)][Duration := Some(took)]);
      rec := rec.(status := Completed, fields := fields);
      if r.revisions.Some? { rec := rec.(counters := rec.counters.(revisions := r.revisions.value)); }
      if r.tokens.Some? {
        var (i, o) := r.tokens.value;
        if i != 0 || o != 0 { rec := rec.(counters := rec.counters.(input := i, output := o, total := i + o)); }
      }
      if r.currency.Some? { rec := rec.(currency := r.currency.value); }
      store.CreateOrUpdateRun(id, rec);
    }

    method OnRunFailed(id: string, given: string, message: string, category: Option<string>, took: string, now: string)
      modifies store
      ensures var kind := if category.Some? then category.value else infer(message);
              store.runs == Broken(old(store.runs), id, given, message, kind, took, now)
    {
      hide Execute;
      var org := ResolveOrg(id, given);
      var found := store.GetRun(id, org);
      var rec := if found.Some? then found.value else Fresh(org, now, map[]);
      var kind := if category.Some? then category.value else infer(message);
      var fields := rec.fields[CompletedAt := now][Duration := took][FailureCategory := kind];
      fields := fields[FailureMessage := if |message| > 500 then message[..500] else message];
      assert fields == rec.fields + FailureFields(message, kind, took, now);
      store.CreateOrUpdateRun(id, rec.(status := Failed, fields := fields));
    }

    method OnApprovalRequested(id: string, given: string, hash: Option<string>, risk: Option<string>)
      modifies store
      ensures store.runs == AwaitingApproval(old(store.runs), id, given, hash, risk)
    {
      hide Execute;
      var org := ResolveOrg(id, given);
      var found := store.GetRun(id, org);
      if found.Some? {
        var rec := found.value.(status := WaitingApproval);
        rec := rec.(counters := rec.counters.(approvalRequired := true));
        rec := rec.(fields := rec.fields[ApprovalStatus := "PENDING"]);
        rec := rec.(fields := Put(Put(rec.fields, PatchHash, hash), RiskScore, risk));
        store.CreateOrUpdateRun(id, rec);
      }
    }

    method OnApprovalDecision(id: string, given: string, approved: bool, reviewer: Option<string>,
                              latency: Option<string>)
      modifies store
      ensures store.runs == Decided(old(store.runs), id, given, approved, reviewer, latency)
    {
      hide Execute;
      var org := ResolveOrg(id, given);
      var found := store.GetRun(id, org);
      if found.Some? {
        var rec := found.value;
        var word := if approved then "APPROVED" else "REJECTED";
        var fields := rec.fields[ApprovalStatus := word][ApprovalDecision := word];
        rec := rec.(counters := rec.counters.(approvalRequired := true));
        rec := rec.(fields := Put(Put(fields, Reviewer, reviewer), ApprovalLatency, latency));
        store.CreateOrUpdateRun(id, rec);
      }
    }
  }
}
