/** Exactly-once reservation of an operation under an idempotency key, by any
    number of workers that insert first and look only when the insert fails. */
module Idempotency {
  import opened Options
  import opened Fingerprint

  /** The primary key of a record. */
  datatype Slot = Slot(org: string, keyHash: string, operation: string)

  datatype Record = Record(digest: string, run: string, status: string, response: Option<string>)

  datatype Call = Call(slot: Slot, digest: string, run: string)

  datatype Outcome =
    | New(call: Call)
    | Replay(call: Call, run: string, response: Option<string>)
    | Conflict(call: Call)
    | Failed(call: Call)             // the retried insert met another record

  type Records = map<Slot, Record>

  function Pending(call: Call): Record { Record(call.digest, call.run, "PENDING", None) }

  // ---------- Workers ----------

  datatype Job = Inserting(call: Call) | Looking(call: Call) | Retrying(call: Call)

  datatype Host = Host(records: Records, jobs: map<nat, Job>, outcomes: seq<Outcome>, deletions: seq<Slot>)

  const INIT := Host(map[], map[], [], [])

  datatype Step =
    | Ask(worker: nat, call: Call)
    | Continue(worker: nat)
    | Complete(slot: Slot, status: string, response: Option<string>)
    | Delete(slot: Slot)

  function Goto(h: Host, worker: nat, job: Job): Host { h.(jobs := h.jobs[worker := job]) }

  function Return(h: Host, worker: nat, o: Outcome): Host {
    h.(jobs := h.jobs - {worker}, outcomes := h.outcomes + [o])
  }

  function Judge(r: Record, call: Call): Outcome {
    if r.digest != call.digest then Conflict(call) else Replay(call, r.run, r.response)
  }

  function Work(h: Host, worker: nat, job: Job): Host {
    var slot := job.call.slot;
    match job
    case Inserting(call) =>
      if slot in h.records then Goto(h, worker, Looking(call))
      else Return(h.(records := h.records[slot := Pending(call)]), worker, New(call))
    case Looking(call) =>
      if slot in h.records then Return(h, worker, Judge(h.records[slot], call)) else Goto(h, worker, Retrying(call))
    case Retrying(call) =>
      if slot in h.records then Return(h, worker, Failed(call))
      else Return(h.(records := h.records[slot := Pending(call)]), worker, New(call))
  }

  function Apply(h: Host, step: Step): Host {
    match step
    case Ask(worker, call) => if worker in h.jobs then h else Goto(h, worker, Inserting(call))
    case Continue(worker) => if worker in h.jobs then Work(h, worker, h.jobs[worker]) else h
    case Complete(slot, status, response) =>
      if slot in h.records
      then h.(records := h.records[slot := h.records[slot].(status := status, response := response)]) else h
    case Delete(slot) =>
      if slot in h.records then h.(records := h.records - {slot}, deletions := h.deletions + [slot]) else h
  }

  function Run(steps: seq<Step>): Host {
    if steps == [] then INIT else Apply(Run(steps[..|steps| - 1]), steps[|steps| - 1])
  }

  // ---------- One NEW per record ----------

  function News(outcomes: seq<Outcome>, slot: Slot): nat {
    if outcomes == [] then 0
    else
      var o := outcomes[|outcomes| - 1];
      News(outcomes[..|outcomes| - 1], slot) + if o.New? && o.call.slot == slot then 1 else 0
  }

  lemma NewsOfMore(outcomes: seq<Outcome>, o: Outcome, slot: Slot)
    ensures News(outcomes + [o], slot) == News(outcomes, slot) + if o.New? && o.call.slot == slot then 1 else 0
  {
    assert (outcomes + [o])[..|outcomes|] == outcomes;
  }

  predicate Balanced(h: Host, slot: Slot) {
    News(h.outcomes, slot) == multiset(h.deletions)[slot] + if slot in h.records then 1 else 0
  }

  lemma InsertKeepsBalance(h: Host, worker: nat, call: Call, slot: Slot)
    requires Balanced(h, slot) && call.slot !in h.records
    ensures Balanced(Return(h.(records := h.records[call.slot := Pending(call)]), worker, New(call)), slot)
  {
    NewsOfMore(h.outcomes, New(call), slot);
    hide News;
  }

  lemma AnswerKeepsBalance(h: Host, worker: nat, o: Outcome, slot: Slot)
    requires Balanced(h, slot) && !o.New?
    ensures Balanced(Return(h, worker, o), slot)
  {
    NewsOfMore(h.outcomes, o, slot);
    hide News;
  }

  lemma WorkKeepsBalance(h: Host, worker: nat, job: Job, slot: Slot)
    requires Balanced(h, slot)
    ensures Balanced(Work(h, worker, job), slot)
  {
    var call := job.call;
    if call.slot !in h.records { InsertKeepsBalance(h, worker, call, slot); }
    else {
      AnswerKeepsBalance(h, worker, Judge(h.records[call.slot], call), slot);
      AnswerKeepsBalance(h, worker, Failed(call), slot);
    }
    hide News, Return, Judge, Pending;
  }

  lemma StepKeepsBalance(h: Host, step: Step, slot: Slot)
    requires Balanced(h, slot)
    ensures Balanced(Apply(h, step), slot)
  {
    hide News, Work;
    if step.Continue? && step.worker in h.jobs { WorkKeepsBalance(h, step.worker, h.jobs[step.worker], slot); }
  }

  /** In every interleaving, deletions included, a slot has handed out NEW exactly
      once per record it ever held. */
  lemma {:induction false} NewsMatchRecords(steps: seq<Step>, slot: Slot)
    ensures Balanced(Run(steps), slot)
  {
    if steps != [] {
      NewsMatchRecords(steps[..|steps| - 1], slot);
      StepKeepsBalance(Run(steps[..|steps| - 1]), steps[|steps| - 1], slot);
    }
  }

  // ---------- Without deletions ----------

  predicate Keeps(step: Step, slot: Slot) { step != Delete(slot) }

  /** What one call on the slot was told fits the record that holds it. */
  predicate OutcomeFits(o: Outcome, r: Record) {
    match o
    case New(call) => call.digest == r.digest && call.run == r.run
    case Replay(call, run, _) => call.digest == r.digest && run == r.run
    case Conflict(call) => call.digest != r.digest
    case Failed(_) => false
  }

  predicate JobFits(job: Job, h: Host, slot: Slot) {
    job.call.slot == slot && !job.Inserting? ==> slot in h.records && job.Looking?
  }

  ghost predicate Settled(h: Host, slot: Slot) {
    && (forall w | w in h.jobs :: JobFits(h.jobs[w], h, slot))
    && forall o | o in h.outcomes && o.call.slot == slot :: slot in h.records && OutcomeFits(o, h.records[slot])
  }

  lemma StepKeepsSettled(h: Host, step: Step, slot: Slot)
    requires Settled(h, slot) && Keeps(step, slot)
    ensures Settled(Apply(h, step), slot)
  {
    var h' := Apply(h, step);
    if step.Continue? && step.worker in h.jobs { assert JobFits(h.jobs[step.worker], h, slot); }
    forall w | w in h'.jobs ensures JobFits(h'.jobs[w], h', slot) {
      if w in h.jobs { assert JobFits(h.jobs[w], h, slot); }
    }
  }

  lemma {:induction false} RunKeepsSettled(steps: seq<Step>, slot: Slot)
    requires forall i | 0 <= i < |steps| :: Keeps(steps[i], slot)
    ensures Settled(Run(steps), slot)
  {
    if steps != [] {
      RunKeepsSettled(steps[..|steps| - 1], slot);
      StepKeepsSettled(Run(steps[..|steps| - 1]), steps[|steps| - 1], slot);
    }
  }

  /** However the workers interleave, once any call on a slot has returned exactly
      one was told NEW; every other one replays that run when its fingerprint is
      the recorded one and conflicts when it is not, and none fails. */
  lemma ExactlyOnce(steps: seq<Step>, slot: Slot)
    requires forall i | 0 <= i < |steps| :: Keeps(steps[i], slot)
    ensures var h := Run(steps);
            && News(h.outcomes, slot) == (if exists o :: o in h.outcomes && o.call.slot == slot then 1 else 0)
            && forall o | o in h.outcomes && o.call.slot == slot ::
                 slot in h.records && OutcomeFits(o, h.records[slot])
  {
    RunKeepsSettled(steps, slot);
    NewsMatchRecords(steps, slot);
    NothingDeleted(steps, slot);
    if News(Run(steps).outcomes, slot) > 0 { NewsAreOutcomes(Run(steps).outcomes, slot); }
  }

  lemma {:induction false} NothingDeleted(steps: seq<Step>, slot: Slot)
    requires forall i | 0 <= i < |steps| :: Keeps(steps[i], slot)
    ensures multiset(Run(steps).deletions)[slot] == 0
  {
    if steps != [] { NothingDeleted(steps[..|steps| - 1], slot); }
  }

  lemma {:induction false} NewsAreOutcomes(outcomes: seq<Outcome>, slot: Slot)
    requires News(outcomes, slot) > 0
    ensures exists o :: o in outcomes && o.call.slot == slot
  {
    var n := |outcomes| - 1;
    if !(outcomes[n].New? && outcomes[n].call.slot == slot) {
      NewsAreOutcomes(outcomes[..n], slot);
      var o :| o in outcomes[..n] && o.call.slot == slot;
      assert o in outcomes;
    } else {
      assert outcomes[n] in outcomes;
    }
  }

  // ---------- What one call is told ----------

  lemma OneMore(steps: seq<Step>, step: Step)
    ensures Run(steps + [step]) == Apply(Run(steps), step)
  {
    assert (steps + [step])[..|steps|] == steps;
  }

  /** Nobody comes between: the workers keep to what one undisturbed call does, which
      either reserves the slot or judges the record in it. */
  lemma UninterruptedCall(steps: seq<Step>, worker: nat, call: Call)
    requires worker !in Run(steps).jobs
    ensures var h, after := Run(steps), Run(steps + [Ask(worker, call)] + [Continue(worker)] + [Continue(worker)]);
            && after.jobs == h.jobs && after.deletions == h.deletions
            && if call.slot in h.records then
                 var r := h.records[call.slot];
                 && after.records == h.records
                 && after.outcomes ==
                    h.outcomes + [if r.digest == call.digest then Replay(call, r.run, r.response) else Conflict(call)]
               else
                 && after.records == h.records[call.slot := Record(call.digest, call.run, "PENDING", None)]
                 && after.outcomes == h.outcomes + [New(call)]
  {
    OneMore(steps, Ask(worker, call));
    OneMore(steps + [Ask(worker, call)], Continue(worker));
    OneMore(steps + [Ask(worker, call)] + [Continue(worker)], Continue(worker));
    hide Run;
    assert Run(steps).jobs[worker := Inserting(call)] - {worker} == Run(steps).jobs;
    assert Run(steps).jobs[worker := Inserting(call)][worker := Looking(call)] - {worker} == Run(steps).jobs;
  }

  /** The insert met a record that is deleted before it is looked at. */
  lemma DeletedBeforeTheLook(steps: seq<Step>, worker: nat, call: Call)
    requires worker !in Run(steps).jobs && call.slot in Run(steps).records
    ensures var h := Run(steps);
            var gone := steps + [Ask(worker, call)] + [Continue(worker)] + [Delete(call.slot)] + [Continue(worker)];
            && Run(gone).records == h.records - {call.slot} && Run(gone).outcomes == h.outcomes
            && Run(gone).jobs == h.jobs[worker := Retrying(call)]
  {
    var found := steps + [Ask(worker, call)] + [Continue(worker)];
    OneMore(steps, Ask(worker, call));
    OneMore(steps + [Ask(worker, call)], Continue(worker));
    OneMore(found, Delete(call.slot));
    OneMore(found + [Delete(call.slot)], Continue(worker));
    hide Run;
  }

  /** Then the second insert reserves the slot, unless somebody else was faster once more. */
  lemma DeletedMeanwhile(steps: seq<Step>, worker: nat, call: Call, other: nat, rival: Call)
    requires worker !in Run(steps).jobs && other !in Run(steps).jobs && worker != other
    requires call.slot == rival.slot && call.slot in Run(steps).records
    ensures var h := Run(steps);
            var gone := steps + [Ask(worker, call)] + [Continue(worker)] + [Delete(call.slot)] + [Continue(worker)];
            && Run(gone + [Continue(worker)]).outcomes == h.outcomes + [New(call)]
            && Run(gone + [Ask(other, rival)] + [Continue(other)] + [Continue(worker)]).outcomes
               == h.outcomes + [New(rival)] + [Failed(call)]
  {
    var gone := steps + [Ask(worker, call)] + [Continue(worker)] + [Delete(call.slot)] + [Continue(worker)];
    DeletedBeforeTheLook(steps, worker, call);
    OneMore(gone, Continue(worker));
    OneMore(gone, Ask(other, rival));
    OneMore(gone + [Ask(other, rival)], Continue(other));
    OneMore(gone + [Ask(other, rival)] + [Continue(other)], Continue(worker));
    hide Run;
  }

  /** Status and response that the last completion since the reservation left. */
  function Completed(steps: seq<Step>, slot: Slot): (string, Option<string>) {
    if steps == [] then ("PENDING", None)
    else
      var before, step := steps[..|steps| - 1], steps[|steps| - 1];
      if step == Delete(slot) then ("PENDING", None)
      else if step.Complete? && step.slot == slot && slot in Run(before).records then (step.status, step.response)
      else Completed(before, slot)
  }

  /** In every interleaving, deletions included, a record holds what its last completion left. */
  lemma {:induction false} RecordHoldsTheCompletion(steps: seq<Step>, slot: Slot)
    ensures var h := Run(steps);
            if slot in h.records
            then Completed(steps, slot) == (h.records[slot].status, h.records[slot].response)
            else Completed(steps, slot) == ("PENDING", None)
  {
    if steps != [] {
      var before, step := steps[..|steps| - 1], steps[|steps| - 1];
      RecordHoldsTheCompletion(before, slot);
      hide Judge;
    }
  }

  /** Whoever gets a replay, in whatever interleaving, gets the response of the last completion. */
  lemma ReplayTellsTheCompletion(steps: seq<Step>, step: Step)
    requires |Run(steps + [step]).outcomes| > |Run(steps).outcomes|
    ensures var outcomes, told := Run(steps + [step]).outcomes, Run(steps + [step]).outcomes[|Run(steps).outcomes|];
            && outcomes == Run(steps).outcomes + [told]
            && (told.Replay? ==> told.response == Completed(steps, told.call.slot).1)
  {
    OneMore(steps, step);
    var h := Run(steps);
    var job := h.jobs[step.worker];
    RecordHoldsTheCompletion(steps, job.call.slot);
    hide Run, Completed;
  }

  // ---------- Fingerprints ----------

  /** `compute_fingerprint`, for a digest of canonical values. */
  function Digest(digest: Json -> string, params: Json): string { digest(Normalize(params)) }

  /** With digests that do not collide, a repeated call replays exactly when its
      parameters mean the same as those on record. */
  lemma ReplaysExactlyWhenSameRequest(digest: Json -> string, first: Json, second: Json, run: string, call: Call)
    requires forall a, b :: digest(a) == digest(b) ==> a == b
    requires Proper(first) && Proper(second)
    requires call.digest == Digest(digest, second)
    ensures var r := Record(Digest(digest, first), run, "PENDING", None);
            Judge(r, call) == if Denote(first) == Denote(second) then Replay(call, run, None) else Conflict(call)
  {
    SameFormExactlyWhenSameMeaning(first, second);
  }

  // ---------- The object ----------

  class IdempotencyStore {
    var records: Records

    constructor ()
      ensures records == map[]
    {
      records := map[];
    }

    /** A call that nobody interrupts. */
    method CheckOrReserve(call: Call) returns (o: Outcome)
      modifies this
      ensures o == if call.slot in old(records) then Judge(old(records)[call.slot], call) else New(call)
      ensures records == if o.New? then old(records)[call.slot := Pending(call)] else old(records)
    {
      if call.slot !in records {
        records := records[call.slot := Pending(call)];
        return New(call);
      }
      var row := records[call.slot];
      if row.digest != call.digest { return Conflict(call); }
      return Replay(call, row.run, row.response);
    }

    /** Which run holds the slot and for which request never changes here. */
    method CompleteReservation(slot: Slot, status: string, response: Option<string>)
      modifies this
      ensures records.Keys == old(records).Keys
      ensures forall s | s in records ::
                records[s].digest == old(records)[s].digest && records[s].run == old(records)[s].run
      ensures forall s | s in records && s != slot :: records[s] == old(records)[s]
      ensures slot in records ==> records[slot].status == status && records[slot].response == response
    {
      if slot in records {
        records := records[slot := records[slot].(status := status, response := response)];
      }
    }

    method GetRecord(slot: Slot) returns (r: Option<Record>)
      ensures r == if slot in records then Some(records[slot]) else None
    {
      if slot in records { return Some(records[slot]); }
      return None;
    }

    method DeleteRecord(slot: Slot) returns (deleted: bool)
      modifies this
      ensures deleted <==> slot in old(records)
      ensures records == old(records) - {slot}
    {
      deleted := slot in records;
      records := records - {slot};
    }
  }
}
