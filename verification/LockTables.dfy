/** The in-process half of the workspace lock manager: four dictionaries that
    are only ever touched inside a critical section of `_global_lock`.

    Each critical section is a function on the value `Tables`, used by the
    concurrent protocol in LockProtocol, and a method of the class
    `WorkspaceLockManager`, proved to do exactly what the function says. */
module LockTables {
  import opened Options
  import opened Texts

  type Key = string
  /** Identity of a threading.RLock object. */
  type LockId = nat

  datatype Owner = Owner(org: string, run: string, count: nat)

  datatype Tables = Tables(
    threadLocks: map<Key, LockId>,
    openFds: map<Key, nat>,
    owners: map<Key, Owner>,
    heldSince: map<Key, nat>,
    nextLock: LockId)

  const EMPTY := Tables(map[], map[], map[], map[], 0)

  predicate OwnedBy(t: Tables, key: Key, org: string, run: string) {
    key in t.owners && t.owners[key].org == org && t.owners[key].run == run
  }

  /** The three ownership dictionaries describe the same keys. */
  predicate Agree(t: Tables) {
    && t.owners.Keys == t.openFds.Keys == t.heldSince.Keys
    && forall key :: key in t.owners ==> t.owners[key].count >= 1
  }

  // ---------- Resource keys ----------

  predicate IsKeyChar(c: char) {
    IsAlphanumeric(c) || c == '_' || c == '-' || c == '.'
  }

  function Sanitize(s: string): (r: string)
    ensures |r| == |s|
    ensures forall i :: 0 <= i < |s| ==> r[i] == if IsKeyChar(s[i]) then s[i] else '_'
  {
    seq(|s|, i requires 0 <= i < |s| => if IsKeyChar(s[i]) then s[i] else '_')
  }

  function NormalizeResourceId(resource: Option<string>): (r: string) {
    var raw := Strip(if resource.Some? && resource.value != "" then resource.value else "default");
    if Sanitize(raw) == "" then "default" else Sanitize(raw)
  }

  function CleanOrganization(org: string): string {
    Sanitize(Strip(if org != "" then org else "default-org"))
  }

  function ResourceKey(org: string, resource: Option<string>): Key {
    CleanOrganization(org) + ":" + NormalizeResourceId(resource)
  }

  function FirstColon(s: string): nat {
    if s == "" || s[0] == ':' then 0 else 1 + FirstColon(s[1..])
  }

  lemma {:induction false} FirstColonIsSeparator(a: string, b: string)
    requires ':' !in a
    ensures FirstColon(a + ":" + b) == |a|
  {
    if a != "" {
      FirstColonIsSeparator(a[1..], b);
      assert (a + ":" + b)[1..] == a[1..] + ":" + b;
    }
  }

  /** Two requests contend for the same lock exactly when both halves of the
      key agree after sanitising: the separator can never come from the data. */
  lemma SameKeyExactly(o1: string, r1: Option<string>, o2: string, r2: Option<string>)
    ensures ResourceKey(o1, r1) == ResourceKey(o2, r2) <==>
            CleanOrganization(o1) == CleanOrganization(o2) && NormalizeResourceId(r1) == NormalizeResourceId(r2)
  {
    var a1, b1 := CleanOrganization(o1), NormalizeResourceId(r1);
    var a2, b2 := CleanOrganization(o2), NormalizeResourceId(r2);
    FirstColonIsSeparator(a1, b1);
    FirstColonIsSeparator(a2, b2);
    if a1 + ":" + b1 == a2 + ":" + b2 {
      assert a1 == (a1 + ":" + b1)[..|a1|] == (a2 + ":" + b2)[..|a2|] == a2;
      assert b1 == (a1 + ":" + b1)[|a1| + 1..] == (a2 + ":" + b2)[|a2| + 1..] == b2;
    }
  }

  /** Characters that a key does not tell apart. */
  predicate Blurred(c: char) {
    !('a' <= c <= 'z' || 'A' <= c <= 'Z' || '0' <= c <= '9' || c == '-' || c == '.')
  }

  /** The same text but for characters that a key does not tell apart. */
  predicate Alike(a: string, b: string) {
    |a| == |b| && forall i | 0 <= i < |a| :: a[i] == b[i] || (Blurred(a[i]) && Blurred(b[i]))
  }

  lemma SanitizedExactlyWhen(a: string, b: string)
    ensures Sanitize(a) == Sanitize(b) <==> Alike(a, b)
  {
    if Sanitize(a) == Sanitize(b) {
      assert |Sanitize(a)| == |Sanitize(b)|;
      forall i | 0 <= i < |a| ensures a[i] == b[i] || (Blurred(a[i]) && Blurred(b[i])) {
        assert Sanitize(a)[i] == Sanitize(b)[i];
      }
    }
  }

  /** The words a caller is taken to mean: what was given, without spaces around it, or
      the default for nothing; a resource of spaces is the default one too. */
  function MeantOrganization(org: string): string { if org == "" then "default-org" else Strip(org) }

  function MeantResource(resource: Option<string>): string {
    if resource.None? || Strip(resource.value) == "" then "default" else Strip(resource.value)
  }

  lemma DefaultsAreBare()
    ensures Strip("default") == "default" && Strip("default-org") == "default-org"
  {
    StripCuts("default");
    StripCuts("default-org");
  }

  lemma BlankHasNoKey()
    ensures Strip("") == ""
  {
  }

  /** Two callers contend for one lock if and only if they mean organizations and resources
      that differ in no character a key tells apart. */
  lemma SameLockExactlyWhen(o1: string, r1: Option<string>, o2: string, r2: Option<string>)
    ensures ResourceKey(o1, r1) == ResourceKey(o2, r2) <==>
            Alike(MeantOrganization(o1), MeantOrganization(o2)) && Alike(MeantResource(r1), MeantResource(r2))
  {
    DefaultsAreBare();
    BlankHasNoKey();
    SameKeyExactly(o1, r1, o2, r2);
    SanitizedExactlyWhen(MeantOrganization(o1), MeantOrganization(o2));
    SanitizedExactlyWhen(MeantResource(r1), MeantResource(r2));
    KeyOfResource(r1);
    KeyOfResource(r2);
    hide ResourceKey, Alike, Strip;
  }

  lemma KeyOfResource(resource: Option<string>)
    ensures NormalizeResourceId(resource) == Sanitize(MeantResource(resource))
  {
    DefaultsAreBare();
    BlankHasNoKey();
    assert Sanitize("default") == "default";
  }

  /** Distinct tenants are promised disjoint locks. Sanitising is not injective,
      so the promise fails for organizations that differ only in replaced characters. */
  lemma DistinctTenantsMayShareALock()
    ensures "a/b" != "a_b" && ResourceKey("a/b", None) == ResourceKey("a_b", None)
  {
    assert CleanOrganization("a/b") == "a_b" == CleanOrganization("a_b");
  }

  // ---------- Critical sections of _global_lock ----------

  /** `_get_thread_lock`: a key keeps its RLock until recovery drops the entry. */
  function GetThreadLock(t: Tables, key: Key): (r: (Tables, LockId))
    ensures key in r.0.threadLocks && r.0.threadLocks[key] == r.1
    ensures r.0 == t.(threadLocks := r.0.threadLocks, nextLock := r.0.nextLock)
    ensures key in t.threadLocks ==> r.0 == t
  {
    if key in t.threadLocks then (t, t.threadLocks[key])
    else (t.(threadLocks := t.threadLocks[key := t.nextLock], nextLock := t.nextLock + 1), t.nextLock)
  }

  /** The re-entrancy check made before, and again after, taking the thread lock. */
  function TryReenter(t: Tables, key: Key, org: string, run: string): (r: (Tables, bool))
    ensures r.1 <==> OwnedBy(t, key, org, run)
    ensures !r.1 ==> r.0 == t
  {
    if OwnedBy(t, key, org, run) then
      (t.(owners := t.owners[key := t.owners[key].(count := t.owners[key].count + 1)]), true)
    else (t, false)
  }

  function Record(t: Tables, key: Key, fd: nat, now: nat, org: string, run: string): (r: Tables)
    ensures Agree(t) ==> Agree(r)
    ensures OwnedBy(r, key, org, run)
  {
    t.(openFds := t.openFds[key := fd], heldSince := t.heldSince[key := now],
       owners := t.owners[key := Owner(org, run, 1)])
  }

  datatype Release = NotHeld | NotOwner | StillHeld | Freed(fd: Option<nat>)

  function Without<V>(m: map<Key, V>, key: Key): (r: map<Key, V>)
    ensures forall k :: k in r <==> k in m && k != key
    ensures forall k :: k in r ==> r[k] == m[k]
  {
    m - {key}
  }

  /** The critical section of `release_lock`. Nothing changes for a caller
      that does not own the key; the key disappears exactly when the count runs out. */
  function BeginRelease(t: Tables, key: Key, org: string, run: string): (r: (Tables, Release))
    ensures (r.1.NotHeld? || r.1.NotOwner?) <==> !OwnedBy(t, key, org, run)
    ensures r.1.NotHeld? || r.1.NotOwner? ==> r.0 == t
    ensures r.1.StillHeld? ==> t.owners[key].count >= 2 && OwnedBy(r.0, key, org, run)
    ensures r.1.Freed? ==> t.owners[key].count <= 1 && key !in r.0.owners
    ensures Agree(t) ==> Agree(r.0)
  {
    if key !in t.owners then (t, NotHeld)
    else if t.owners[key].org != org || t.owners[key].run != run then (t, NotOwner)
    else if t.owners[key].count >= 2 then
      (t.(owners := t.owners[key := t.owners[key].(count := t.owners[key].count - 1)]), StillHeld)
    else
      (t.(owners := Without(t.owners, key), openFds := Without(t.openFds, key), heldSince := Without(t.heldSince, key)),
       Freed(if key in t.openFds then Some(t.openFds[key]) else None))
  }

  datatype Eviction = OwnerPresent | Evicted(fd: Option<nat>)

  /** The critical section of stale recovery. */
  function EvictStale(t: Tables, key: Key): (r: (Tables, Eviction))
    ensures r.0.owners == t.owners
    ensures r.1.OwnerPresent? <==> key in t.owners
    ensures Agree(t) ==> r.0 == t.(threadLocks := r.0.threadLocks) && (r.1.Evicted? ==> r.1.fd.None?)
  {
    if key in t.owners then (t, OwnerPresent)
    else
      var r := t.(openFds := Without(t.openFds, key), heldSince := Without(t.heldSince, key),
                  threadLocks := Without(t.threadLocks, key));
      assert key !in t.openFds ==> r.openFds == t.openFds;
      assert key !in t.heldSince ==> r.heldSince == t.heldSince;
      (r, Evicted(if key in t.openFds then Some(t.openFds[key]) else None))
  }

  // ---------- Counts ----------

  /** What the tables say one run holds on one key: zero unless it is the owner. */
  function CountOf(t: Tables, key: Key, org: string, run: string): nat {
    if OwnedBy(t, key, org, run) then t.owners[key].count else 0
  }

  lemma ReenterCounts(t: Tables, k: Key, o: string, r: string, key: Key, org: string, run: string)
    ensures var (t', hit) := TryReenter(t, k, o, r);
            CountOf(t', key, org, run)
            == CountOf(t, key, org, run) + if hit && k == key && o == org && r == run then 1 else 0
  {
  }

  lemma EvictCounts(t: Tables, k: Key, key: Key, org: string, run: string)
    ensures CountOf(EvictStale(t, k).0, key, org, run) == CountOf(t, key, org, run)
    ensures CountOf(GetThreadLock(t, k).0, key, org, run) == CountOf(t, key, org, run)
  {
  }

  lemma RecordCounts(t: Tables, k: Key, fd: nat, now: nat, o: string, r: string, key: Key, org: string, run: string)
    requires k !in t.owners
    ensures CountOf(Record(t, k, fd, now, o, r), key, org, run)
         == CountOf(t, key, org, run) + if k == key && o == org && r == run then 1 else 0
  {
  }

  lemma ReleaseCounts(t: Tables, k: Key, o: string, r: string, key: Key, org: string, run: string)
    requires Agree(t)
    ensures var (t', outcome) := BeginRelease(t, k, o, r);
            CountOf(t', key, org, run) == CountOf(t, key, org, run)
              - if (outcome.StillHeld? || outcome.Freed?) && k == key && o == org && r == run then 1 else 0
  {
    assert k in t.owners ==> t.owners[k].count >= 1;
  }

  // ---------- The object ----------

  /** One round of polling: the tables as the other threads have left them when the
      wait for the RLock is over, whether it was taken, the tables when the OS
      has answered, the locked descriptor if it granted one, whether the owner it
      saw in the file is stale, and the time at the end of the round. */
  datatype Attempt = Attempt(before: Tables, threadLock: bool, after: Tables, fd: Option<nat>, ownerIsStale: bool,
                             now: nat)

  datatype Acquisition = Reentered | Fresh(fd: nat) | TimedOut

  /** The round finds that another thread has acquired for this run meanwhile. */
  predicate Rejoins(a: Attempt, key: Key, org: string, run: string) { a.threadLock && OwnedBy(a.before, key, org, run) }

  predicate Obtains(a: Attempt, key: Key, org: string, run: string) {
    a.threadLock && !OwnedBy(a.before, key, org, run) && a.fd.Some?
  }

  /** The first round that settles the call. */
  predicate Settles(rounds: seq<Attempt>, i: nat, key: Key, org: string, run: string, deadline: nat) {
    && i < |rounds|
    && (rounds[i].now >= deadline || Rejoins(rounds[i], key, org, run) || Obtains(rounds[i], key, org, run))
    && forall j | 0 <= j < i ::
         rounds[j].now < deadline && !Rejoins(rounds[j], key, org, run) && !Obtains(rounds[j], key, org, run)
  }

  /** What a round in vain leaves: at most, recovery has forgotten the key's RLock. */
  function InVain(a: Attempt, key: Key): Tables {
    if !a.threadLock then a.before else if a.ownerIsStale then EvictStale(a.after, key).0 else a.after
  }

  /** A round ends the polling at or past the deadline, or when the RLock was taken and the
      run turns out to be the owner or the OS grants its lock. */
  predicate EndsPolling(a: Attempt, key: Key, org: string, run: string, deadline: nat) {
    a.now >= deadline || (a.threadLock && (OwnedBy(a.before, key, org, run) || a.fd.Some?))
  }

  /** The deciding round is the first such one, and there is one if the last reaches the deadline. */
  lemma SettlesExactlyWhen(rounds: seq<Attempt>, key: Key, org: string, run: string, deadline: nat)
    ensures forall i: nat :: Settles(rounds, i, key, org, run, deadline) <==>
              i < |rounds| && EndsPolling(rounds[i], key, org, run, deadline)
              && forall j | 0 <= j < i :: !EndsPolling(rounds[j], key, org, run, deadline)
    ensures rounds != [] && rounds[|rounds| - 1].now >= deadline ==>
              exists i: nat :: Settles(rounds, i, key, org, run, deadline)
  {
    hide OwnedBy;
    if rounds != [] && rounds[|rounds| - 1].now >= deadline {
      var i := 0;
      while !EndsPolling(rounds[i], key, org, run, deadline)
        invariant i < |rounds| && forall j | 0 <= j < i :: !EndsPolling(rounds[j], key, org, run, deadline)
        decreases |rounds| - i
      {
        i := i + 1;
      }
      assert Settles(rounds, i, key, org, run, deadline);
    }
  }

  /** A round in vain leaves the tables as the other threads have left them, except that the
      key's RLock is forgotten when the owner was stale and is gone. */
  lemma VainRoundForgetsAtMostTheRLock(a: Attempt, key: Key)
    requires Agree(a.after)
    ensures var t := if a.threadLock then a.after else a.before;
            InVain(a, key) == if a.threadLock && a.ownerIsStale && key !in t.owners
                              then t.(threadLocks := t.threadLocks - {key}) else t
  {
    var t := EvictStale(a.after, key).0;
    if key !in a.after.owners { assert t.threadLocks == a.after.threadLocks - {key}; }
  }

  /** Recovery of a key without an owner empties every dictionary of it and of nothing else,
      whatever state they were in, and hands over the descriptor it drops. */
  lemma EvictionForgetsTheKey(t: Tables, key: Key)
    requires key !in t.owners
    ensures var (r, outcome) := EvictStale(t, key);
            && r == Tables(t.threadLocks - {key}, t.openFds - {key}, t.owners, t.heldSince - {key}, t.nextLock)
            && outcome == Evicted(if key in t.openFds then Some(t.openFds[key]) else None)
  {
    var (r, outcome) := EvictStale(t, key);
    assert r.threadLocks == t.threadLocks - {key};
    assert r.openFds == t.openFds - {key};
    assert r.heldSince == t.heldSince - {key};
  }

  class WorkspaceLockManager {
    var threadLocks: map<Key, LockId>
    var openFds: map<Key, nat>
    var owners: map<Key, Owner>
    var heldSince: map<Key, nat>
    var nextLock: LockId

    function View(): Tables
      reads this
    {
      Tables(threadLocks, openFds, owners, heldSince, nextLock)
    }

    constructor ()
      ensures View() == EMPTY
    {
      threadLocks, openFds, owners, heldSince, nextLock := map[], map[], map[], map[], 0;
    }

    method ThreadLock(key: Key) returns (lock: LockId)
      modifies this
      ensures (View(), lock) == GetThreadLock(old(View()), key)
    {
      if key !in threadLocks {
        threadLocks := threadLocks[key := nextLock];
        nextLock := nextLock + 1;
      }
      lock := threadLocks[key];
    }

    method Reenter(key: Key, org: string, run: string) returns (hit: bool)
      modifies this
      ensures (View(), hit) == TryReenter(old(View()), key, org, run)
    {
      hit := key in owners && owners[key].org == org && owners[key].run == run;
      if hit {
        owners := owners[key := owners[key].(count := owners[key].count + 1)];
      }
    }

    method RecordOwner(key: Key, fd: nat, now: nat, org: string, run: string)
      modifies this
      ensures View() == Record(old(View()), key, fd, now, org, run)
    {
      openFds := openFds[key := fd];
      heldSince := heldSince[key := now];
      owners := owners[key := Owner(org, run, 1)];
    }

    method ReleaseOwner(key: Key, org: string, run: string) returns (outcome: Release)
      modifies this
      ensures (View(), outcome) == BeginRelease(old(View()), key, org, run)
    {
      if key !in owners {
        return NotHeld;
      }
      var info := owners[key];
      if info.org != org || info.run != run {
        return NotOwner;
      }
      var remaining := info.count - 1;
      if remaining > 0 {
        owners := owners[key := info.(count := remaining)];
        return StillHeld;
      }
      outcome := Freed(if key in openFds then Some(openFds[key]) else None);
      heldSince := Without(heldSince, key);
      owners := Without(owners, key);
      openFds := Without(openFds, key);
    }

    method Evict(key: Key) returns (outcome: Eviction)
      modifies this
      ensures (View(), outcome) == EvictStale(old(View()), key)
    {
      if key in owners {
        return OwnerPresent;
      }
      outcome := Evicted(if key in openFds then Some(openFds[key]) else None);
      openFds := Without(openFds, key);
      heldSince := Without(heldSince, key);
      threadLocks := Without(threadLocks, key);
    }

    /** Whatever the other threads do to the tables. */
    method Others(t: Tables)
      modifies this
      ensures View() == t
    {
      threadLocks, openFds, owners, heldSince, nextLock := t.threadLocks, t.openFds, t.owners, t.heldSince, t.nextLock;
    }

    /** The polling loop of `acquire_lock`. However the other threads change the
        tables between its critical sections, it re-enters at once if the run is
        the owner; otherwise the first round decides that finds the run to be the
        owner, obtains both locks, or ends at or past the deadline. The call has
        then added one to the count, recorded the owner, or left every owner as
        the others had. */
    method AcquireLock(key: Key, org: string, run: string, deadline: nat, rounds: seq<Attempt>)
      returns (outcome: Acquisition)
      requires rounds != [] && rounds[|rounds| - 1].now >= deadline
      modifies this
      ensures old(OwnedBy(View(), key, org, run)) ==>
                outcome == Reentered && View() == TryReenter(GetThreadLock(old(View()), key).0, key, org, run).0
      ensures !old(OwnedBy(View(), key, org, run)) ==>
                exists i: nat :: Settles(rounds, i, key, org, run, deadline) &&
                  var a := rounds[i];
                  (View(), outcome)
                  == if Rejoins(a, key, org, run) then (TryReenter(a.before, key, org, run).0, Reentered)
                     else if Obtains(a, key, org, run) then
                       (Record(a.after, key, a.fd.value, a.now, org, run), Fresh(a.fd.value))
                     else (InVain(a, key), TimedOut)
    {
      var _ := ThreadLock(key);
      var hit := Reenter(key, org, run);
      if hit { return Reentered; }
      var i := 0;
      while true
        invariant 0 <= i < |rounds|
        invariant forall j | 0 <= j < i ::
                    rounds[j].now < deadline && !Rejoins(rounds[j], key, org, run) && !Obtains(rounds[j], key, org, run)
        decreases |rounds| - i
      {
        var a := rounds[i];
        Others(a.before);
        if a.threadLock {
          hit := Reenter(key, org, run);
          if hit {
            assert Settles(rounds, i, key, org, run, deadline);
            return Reentered;
          }
          Others(a.after);
          if a.fd.Some? {
            RecordOwner(key, a.fd.value, a.now, org, run);
            assert Settles(rounds, i, key, org, run, deadline);
            return Fresh(a.fd.value);
          }
          if a.ownerIsStale {
            var _ := Evict(key);
          }
        }
        if a.now >= deadline {
          assert Settles(rounds, i, key, org, run, deadline);
          return TimedOut;
        }
        i := i + 1;
      }
    }
  }
}
