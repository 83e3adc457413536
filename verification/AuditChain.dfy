/** The audit log: one list of events, and in it one hash chain per tenant. */
module AuditChain {

  /** What an event's hash is computed from. */
  datatype Payload = Payload(id: string, org: string, user: string, action: string, timestamp: string,
                             resourceType: string, resourceId: string, details: string, previousHash: string)

  datatype Event = Event(payload: Payload, hash: string)

  /** Sixty-four zeros. */
  const GENESIS := "0000000000000000000000000000000000000000000000000000000000000000"

  /** SHA-256 of the canonical payload, taken as free of collisions and of the genesis value. */
  ghost predicate Proper(hash: Payload -> string) {
    && (forall p, q :: hash(p) == hash(q) ==> p == q)
    && (forall p :: hash(p) != GENESIS)
  }

  function OrgEvents(events: seq<Event>, org: string): seq<Event> {
    if events == [] then []
    else
      var e := events[|events| - 1];
      OrgEvents(events[..|events| - 1], org) + if e.payload.org == org then [e] else []
  }

  function LastHash(chain: seq<Event>): string { if chain == [] then GENESIS else chain[|chain| - 1].hash }

  /** Event `i` is linked to the one before it and its hash is its own. */
  predicate Linked(hash: Payload -> string, chain: seq<Event>, i: nat)
    requires i < |chain|
  {
    chain[i].payload.previousHash == LastHash(chain[..i]) && chain[i].hash == hash(chain[i].payload)
  }

  predicate Verifies(hash: Payload -> string, chain: seq<Event>) {
    forall i | 0 <= i < |chain| :: Linked(hash, chain, i)
  }

  /** A chain verifies exactly when it verifies without its last event and that one is linked. */
  lemma VerifiesByItsEnd(hash: Payload -> string, chain: seq<Event>, e: Event)
    ensures Verifies(hash, chain + [e])
            <==> Verifies(hash, chain) && e.payload.previousHash == LastHash(chain) && e.hash == hash(e.payload)
  {
    var c := chain + [e];
    forall i | 0 <= i < |chain| ensures Linked(hash, c, i) <==> Linked(hash, chain, i) {
      assert c[..i] == chain[..i];
    }
    assert c[..|chain|] == chain;
    if Verifies(hash, c) {
      assert Linked(hash, c, |chain|);
      forall i | 0 <= i < |chain| ensures Linked(hash, chain, i) { assert Linked(hash, c, i); }
    }
  }

  // ---------- Tampering ----------

  /** Two verifying chains that end in the same hash are the same chain, whatever
      their lengths: nothing in a chain can be altered, added, dropped or moved
      while it still verifies and its last hash stays. */
  lemma {:induction false} SameLastHashSameChain(hash: Payload -> string, a: seq<Event>, b: seq<Event>)
    requires Proper(hash) && Verifies(hash, a) && Verifies(hash, b) && LastHash(a) == LastHash(b)
    ensures a == b
  {
    if a != [] { LastIsLinked(hash, a); }
    if b != [] { LastIsLinked(hash, b); }
    if a != [] && b != [] {
      SameLastHashSameChain(hash, a[..|a| - 1], b[..|b| - 1]);
      assert a == a[..|a| - 1] + [a[|a| - 1]] && b == b[..|b| - 1] + [b[|b| - 1]];
    }
  }

  lemma LastIsLinked(hash: Payload -> string, chain: seq<Event>)
    requires Verifies(hash, chain) && chain != []
    ensures var n := |chain| - 1;
            Verifies(hash, chain[..n]) && chain[n].payload.previousHash == LastHash(chain[..n])
            && LastHash(chain) == chain[n].hash == hash(chain[n].payload)
  {
    var n := |chain| - 1;
    assert chain == chain[..n] + [chain[n]];
    VerifiesByItsEnd(hash, chain[..n], chain[n]);
  }

  /** Cutting off the end goes unnoticed by the verification, and shows in the
      last hash alone. */
  lemma TruncationShowsInLastHashOnly(hash: Payload -> string, chain: seq<Event>, n: nat)
    requires Proper(hash) && Verifies(hash, chain) && n < |chain|
    ensures Verifies(hash, chain[..n]) && LastHash(chain[..n]) != LastHash(chain)
  {
    forall i | 0 <= i < n ensures Linked(hash, chain[..n], i) {
      assert Linked(hash, chain, i) && chain[..n][..i] == chain[..i];
    }
    if LastHash(chain[..n]) == LastHash(chain) { SameLastHashSameChain(hash, chain[..n], chain); }
  }

  // ---------- Logging ----------

  /** The arguments of one call of `log`, and what its event is made with. */
  datatype Entry = Entry(id: string, org: string, user: string, action: string, timestamp: string,
                         resourceType: string, resourceId: string, details: string)

  function MakeEvent(hash: Payload -> string, e: Entry, previous: string): Event {
    var p := Payload(e.id, e.org, e.user, e.action, e.timestamp, e.resourceType, e.resourceId, e.details, previous);
    Event(p, hash(p))
  }

  /** The logger and the threads inside `log`, which takes no lock: reading the
      last hash, appending the event and storing the new last hash are steps of their own. */
  datatype Stage = Appending | Storing

  datatype Job = Job(stage: Stage, event: Event)

  datatype Logger = Logger(events: seq<Event>, last: map<string, string>, jobs: map<nat, Job>)

  const INIT := Logger([], map[], map[])

  datatype Step = Begin(thread: nat, entry: Entry) | Continue(thread: nat)

  function LastOf(last: map<string, string>, org: string): string { if org in last then last[org] else GENESIS }

  function Apply(hash: Payload -> string, l: Logger, s: Step): Logger {
    match s
    case Begin(thread, entry) =>
      if thread in l.jobs then l
      else l.(jobs := l.jobs[thread := Job(Appending, MakeEvent(hash, entry, LastOf(l.last, entry.org)))])
    case Continue(thread) =>
      if thread !in l.jobs then l
      else
        var job := l.jobs[thread];
        if job.stage.Appending? then
          l.(events := l.events + [job.event], jobs := l.jobs[thread := job.(stage := Storing)])
        else l.(last := l.last[job.event.payload.org := job.event.hash], jobs := l.jobs - {thread})
  }

  function Run(hash: Payload -> string, steps: seq<Step>): Logger {
    if steps == [] then INIT else Apply(hash, Run(hash, steps[..|steps| - 1]), steps[|steps| - 1])
  }

  predicate Busy(l: Logger, thread: nat, org: string) { thread in l.jobs && l.jobs[thread].event.payload.org == org }

  /** No call for a tenant begins while another call for the same tenant is inside `log`. */
  ghost predicate OneAtATime(l: Logger, s: Step, org: string) {
    s.Begin? && s.entry.org == org ==> forall t :: !Busy(l, t, org)
  }

  ghost predicate OneAtATimeRun(hash: Payload -> string, steps: seq<Step>, org: string) {
    forall i | 0 <= i < |steps| :: OneAtATime(Run(hash, steps[..i]), steps[i], org)
  }

  predicate JobFits(hash: Payload -> string, l: Logger, job: Job) {
    var chain := OrgEvents(l.events, job.event.payload.org);
    && job.event.hash == hash(job.event.payload)
    && if job.stage.Appending? then job.event.payload.previousHash == LastHash(chain)
       else chain != [] && chain[|chain| - 1] == job.event
  }

  ghost predicate OneInside(l: Logger, org: string) { forall s, t :: Busy(l, s, org) && Busy(l, t, org) ==> s == t }

  ghost predicate JobsFit(hash: Payload -> string, l: Logger, org: string) {
    forall t | Busy(l, t, org) :: JobFits(hash, l, l.jobs[t])
  }

  ghost predicate IsStoring(l: Logger, org: string) { exists t :: Busy(l, t, org) && l.jobs[t].stage.Storing? }

  ghost predicate ChainSound(hash: Payload -> string, l: Logger, org: string) {
    && Verifies(hash, OrgEvents(l.events, org))
    && OneInside(l, org) && JobsFit(hash, l, org)
    && (!IsStoring(l, org) ==> LastOf(l.last, org) == LastHash(OrgEvents(l.events, org)))
  }

  lemma OrgEventsOfMore(events: seq<Event>, e: Event, org: string)
    ensures OrgEvents(events + [e], org) == OrgEvents(events, org) + if e.payload.org == org then [e] else []
  {
    assert (events + [e])[..|events|] == events;
  }

  lemma BeginKeepsChain(hash: Payload -> string, l: Logger, thread: nat, entry: Entry, org: string)
    requires ChainSound(hash, l, org) && OneAtATime(l, Begin(thread, entry), org) && thread !in l.jobs
    ensures ChainSound(hash, Apply(hash, l, Begin(thread, entry)), org)
  {
    hide Verifies, OrgEvents;
    var l' := Apply(hash, l, Begin(thread, entry));
    forall t ensures Busy(l', t, org) <==> Busy(l, t, org) || (t == thread && entry.org == org) {
    }
    forall t | Busy(l', t, org) ensures JobFits(hash, l', l'.jobs[t]) {
      if t != thread { assert Busy(l, t, org) && JobFits(hash, l, l.jobs[t]); } else { assert !IsStoring(l, org); }
    }
    if IsStoring(l, org) {
      var t :| Busy(l, t, org) && l.jobs[t].stage.Storing?;
      assert Busy(l', t, org) && l'.jobs[t].stage.Storing?;
    }
  }

  /** Nothing changes in what one tenant sees. */
  ghost predicate SameView(l: Logger, l': Logger, org: string) {
    && OrgEvents(l'.events, org) == OrgEvents(l.events, org) && LastOf(l'.last, org) == LastOf(l.last, org)
    && forall t :: (Busy(l', t, org) <==> Busy(l, t, org)) && (Busy(l, t, org) ==> l'.jobs[t] == l.jobs[t])
  }

  lemma SameViewKeepsChain(hash: Payload -> string, l: Logger, l': Logger, org: string)
    requires ChainSound(hash, l, org) && SameView(l, l', org)
    ensures ChainSound(hash, l', org)
  {
    hide Verifies, OrgEvents, LastOf;
    forall t | Busy(l', t, org) ensures JobFits(hash, l', l'.jobs[t]) {
      assert Busy(l, t, org) && JobFits(hash, l, l.jobs[t]);
    }
    if IsStoring(l, org) {
      var t :| Busy(l, t, org) && l.jobs[t].stage.Storing?;
      assert Busy(l', t, org) && l'.jobs[t].stage.Storing?;
    }
  }

  /** A call for another tenant, whichever of its two steps it takes. */
  lemma OtherTenantSeesTheSame(hash: Payload -> string, l: Logger, thread: nat, org: string)
    requires thread in l.jobs && l.jobs[thread].event.payload.org != org
    ensures SameView(l, Apply(hash, l, Continue(thread)), org)
  {
    OrgEventsOfMore(l.events, l.jobs[thread].event, org);
    hide OrgEvents;
    assert OrgEvents(l.events, org) + [] == OrgEvents(l.events, org);
  }

  lemma AppendKeepsChain(hash: Payload -> string, l: Logger, thread: nat, org: string)
    requires ChainSound(hash, l, org) && Busy(l, thread, org) && l.jobs[thread].stage.Appending?
    ensures ChainSound(hash, Apply(hash, l, Continue(thread)), org)
  {
    var l', job := Apply(hash, l, Continue(thread)), l.jobs[thread];
    assert JobFits(hash, l, job);
    OrgEventsOfMore(l.events, job.event, org);
    VerifiesByItsEnd(hash, OrgEvents(l.events, org), job.event);
    hide Verifies, OrgEvents;
    forall t | Busy(l', t, org) ensures t == thread { assert Busy(l, t, org); }
    assert Busy(l', thread, org) && l'.jobs[thread].stage.Storing?;
  }

  lemma StoreKeepsChain(hash: Payload -> string, l: Logger, thread: nat, org: string)
    requires ChainSound(hash, l, org) && Busy(l, thread, org) && l.jobs[thread].stage.Storing?
    ensures ChainSound(hash, Apply(hash, l, Continue(thread)), org)
  {
    hide Verifies, OrgEvents;
    var l', job := Apply(hash, l, Continue(thread)), l.jobs[thread];
    assert JobFits(hash, l, job);
    forall t ensures !Busy(l', t, org) {
      assert Busy(l', t, org) ==> t != thread && Busy(l, t, org);
    }
  }

  lemma StepKeepsChain(hash: Payload -> string, l: Logger, s: Step, org: string)
    requires ChainSound(hash, l, org) && OneAtATime(l, s, org)
    ensures ChainSound(hash, Apply(hash, l, s), org)
  {
    hide ChainSound;
    match s
    case Begin(thread, entry) => if thread !in l.jobs { BeginKeepsChain(hash, l, thread, entry, org); }
    case Continue(thread) =>
      if thread in l.jobs {
        if l.jobs[thread].event.payload.org != org {
          OtherTenantSeesTheSame(hash, l, thread, org);
          SameViewKeepsChain(hash, l, Apply(hash, l, s), org);
        } else if l.jobs[thread].stage.Appending? { AppendKeepsChain(hash, l, thread, org); }
        else { StoreKeepsChain(hash, l, thread, org); }
      }
  }

  /** After any interleaving of calls, of any number of tenants and threads, a
      tenant's chain verifies as long as its own calls do not overlap. */
  lemma {:induction false} ChainsVerify(hash: Payload -> string, steps: seq<Step>, org: string)
    requires OneAtATimeRun(hash, steps, org)
    ensures ChainSound(hash, Run(hash, steps), org)
  {
    if steps != [] {
      var before, s := steps[..|steps| - 1], steps[|steps| - 1];
      forall i | 0 <= i < |before| ensures OneAtATime(Run(hash, before[..i]), before[i], org) {
        assert before[..i] == steps[..i] && OneAtATime(Run(hash, steps[..i]), steps[i], org);
      }
      ChainsVerify(hash, before, org);
      assert OneAtATime(Run(hash, before), s, org);
      StepKeepsChain(hash, Run(hash, before), s, org);
    }
  }

  lemma TwoCallsOverlap(hash: Payload -> string, a: Entry, b: Entry)
    ensures Run(hash, [Begin(0, a), Begin(1, b), Continue(0), Continue(1)]).events
         == [MakeEvent(hash, a, GENESIS)] + [MakeEvent(hash, b, GENESIS)]
  {
    hide MakeEvent;
    var x, y := MakeEvent(hash, a, GENESIS), MakeEvent(hash, b, GENESIS);
    var s1, s2 := [Begin(0, a)], [Begin(0, a), Begin(1, b)];
    var s3 := [Begin(0, a), Begin(1, b), Continue(0)];
    assert [] + s1 == s1 && s1 + [Begin(1, b)] == s2 && s2 + [Continue(0)] == s3;
    OneMoreStep(hash, [], Begin(0, a));
    assert Run(hash, s1) == Logger([], map[], map[0 := Job(Appending, x)]);
    OneMoreStep(hash, s1, Begin(1, b));
    assert Run(hash, s2) == Logger([], map[], map[0 := Job(Appending, x), 1 := Job(Appending, y)]);
    OneMoreStep(hash, s2, Continue(0));
    assert Run(hash, s3) == Logger([x], map[], map[0 := Job(Storing, x), 1 := Job(Appending, y)]);
    OneMoreStep(hash, s3, Continue(1));
    assert s3 + [Continue(1)] == [Begin(0, a), Begin(1, b), Continue(0), Continue(1)];
  }

  /** Two overlapping calls for one tenant are both linked to the genesis value,
      and the chain does not verify, though nobody touched it. */
  lemma OverlappingCallsBreakTheChain(hash: Payload -> string, a: Entry, b: Entry)
    requires Proper(hash) && a.org == b.org
    ensures !Verifies(hash, OrgEvents(Run(hash, [Begin(0, a), Begin(1, b), Continue(0), Continue(1)]).events, a.org))
  {
    var x, y := MakeEvent(hash, a, GENESIS), MakeEvent(hash, b, GENESIS);
    TwoCallsOverlap(hash, a, b);
    hide Run;
    OrgEventsOfMore([], x, a.org);
    OrgEventsOfMore([x], y, a.org);
    VerifiesByItsEnd(hash, [x], y);
  }

  lemma OneMoreStep(hash: Payload -> string, steps: seq<Step>, s: Step)
    ensures Run(hash, steps + [s]) == Apply(hash, Run(hash, steps), s)
  {
    assert (steps + [s])[..|steps|] == steps;
  }

  lemma LoggedChain(hash: Payload -> string, events: seq<Event>, last: map<string, string>, entry: Entry, org: string)
    requires Verifies(hash, OrgEvents(events, org)) && LastOf(last, org) == LastHash(OrgEvents(events, org))
    ensures var e := MakeEvent(hash, entry, LastOf(last, entry.org)); var chain := OrgEvents(events + [e], org);
            Verifies(hash, chain) && LastHash(chain) == if org == entry.org then e.hash else LastOf(last, org)
  {
    var e := MakeEvent(hash, entry, LastOf(last, entry.org));
    var chain := OrgEvents(events, org);
    OrgEventsOfMore(events, e, org);
    VerifiesByItsEnd(hash, chain, e);
    assert chain + [] == chain;
  }

  /** A step that appends an event of the tenant links it to the event that is
      last at that moment: no other was appended since the call read the hash. */
  predicate AppendsCurrent(l: Logger, s: Step, org: string) {
    s.Continue? && Busy(l, s.thread, org) && l.jobs[s.thread].stage.Appending? ==>
      l.jobs[s.thread].event.payload.previousHash == LastHash(OrgEvents(l.events, org))
  }

  predicate OwnHashes(hash: Payload -> string, l: Logger) {
    forall t | t in l.jobs :: l.jobs[t].event.hash == hash(l.jobs[t].event.payload)
  }

  lemma {:induction false} EventsHaveOwnHashes(hash: Payload -> string, steps: seq<Step>)
    ensures OwnHashes(hash, Run(hash, steps))
  {
    if steps != [] { EventsHaveOwnHashes(hash, steps[..|steps| - 1]); }
  }

  predicate AllCurrent(hash: Payload -> string, steps: seq<Step>, org: string) {
    steps != [] ==>
      var before := steps[..|steps| - 1];
      AllCurrent(hash, before, org) && AppendsCurrent(Run(hash, before), steps[|before|], org)
  }

  /** With calls that overlap in any way: a tenant's chain verifies if and only
      if every event of it was appended current. */
  lemma {:induction false} VerifiesExactlyWhenAppendsAreCurrent(hash: Payload -> string, steps: seq<Step>, org: string)
    ensures Verifies(hash, OrgEvents(Run(hash, steps).events, org)) <==> AllCurrent(hash, steps, org)
  {
    if steps != [] {
      var before, s := steps[..|steps| - 1], steps[|steps| - 1];
      VerifiesExactlyWhenAppendsAreCurrent(hash, before, org);
      EventsHaveOwnHashes(hash, before);
      StepVerifiesExactlyWhen(hash, Run(hash, before), s, org);
    }
  }

  lemma StepVerifiesExactlyWhen(hash: Payload -> string, l: Logger, s: Step, org: string)
    requires OwnHashes(hash, l)
    ensures Verifies(hash, OrgEvents(Apply(hash, l, s).events, org))
            <==> Verifies(hash, OrgEvents(l.events, org)) && AppendsCurrent(l, s, org)
  {
    if s.Continue? && s.thread in l.jobs && l.jobs[s.thread].stage.Appending? {
      var e := l.jobs[s.thread].event;
      OrgEventsOfMore(l.events, e, org);
      VerifiesByItsEnd(hash, OrgEvents(l.events, org), e);
      assert OrgEvents(l.events, org) + [] == OrgEvents(l.events, org);
    }
  }

  // ---------- The object ----------

  /** The logger as its callers use it when they do not overlap. */
  class AuditLogger {
    const hash: Payload -> string
    var events: seq<Event>
    var lastHashByOrg: map<string, string>

    ghost predicate Valid()
      reads this
    {
      forall org ::
        Verifies(hash, OrgEvents(events, org)) && LastOf(lastHashByOrg, org) == LastHash(OrgEvents(events, org))
    }

    constructor (hash: Payload -> string)
      ensures Valid() && events == [] && this.hash == hash
    {
      this.hash, events, lastHashByOrg := hash, [], map[];
    }

    method Log(entry: Entry) returns (e: Event)
      requires Valid()
      modifies this
      ensures Valid() && events == old(events) + [e]
      ensures e == MakeEvent(hash, entry, LastHash(OrgEvents(old(events), entry.org)))
    {
      var previous := if entry.org in lastHashByOrg then lastHashByOrg[entry.org] else GENESIS;
      e := MakeEvent(hash, entry, previous);
      forall org
        ensures var chain := OrgEvents(events + [e], org);
                && Verifies(hash, chain)
                && LastHash(chain) == if org == entry.org then e.hash else LastOf(lastHashByOrg, org)
      {
        LoggedChain(hash, events, lastHashByOrg, entry, org);
      }
      events := events + [e];
      lastHashByOrg := lastHashByOrg[entry.org := e.hash];
    }

    /** Whether the tenant's chain verifies, and if not, at which event it breaks first. */
    method VerifyIntegrity(org: string) returns (ok: bool, broken: nat)
      ensures ok <==> Verifies(hash, OrgEvents(events, org))
      ensures !ok ==> broken < |OrgEvents(events, org)| && !Linked(hash, OrgEvents(events, org), broken)
                      && Verifies(hash, OrgEvents(events, org)[..broken])
    {
      var chain := OrgEvents(events, org);
      var expected := GENESIS;
      for i := 0 to |chain|
        invariant expected == LastHash(chain[..i])
        invariant forall j | 0 <= j < i :: Linked(hash, chain, j)
      {
        var e := chain[i];
        assert chain[..i + 1][|chain[..i + 1]| - 1] == e;
        if e.payload.previousHash != expected || e.hash != hash(e.payload) {
          assert !Linked(hash, chain, i);
          forall j | 0 <= j < i ensures Linked(hash, chain[..i], j) {
            assert Linked(hash, chain, j) && chain[..i][..j] == chain[..j];
          }
          return false, i;
        }
        expected := e.hash;
      }
      return true, 0;
    }
  }
}
