/** The attempt log of the revision loop and its circuit-breaker flag. */
module RevisionLog {

  datatype Attempt = Attempt(number: nat, diagnosis: string)

  datatype History = History(attempts: seq<Attempt>, maxRetries: nat, exhausted: bool)

  function Start(maxRetries: nat): History { History([], maxRetries, false) }

  function Add(h: History, a: Attempt): History {
    var attempts := h.attempts + [a];
    h.(attempts := attempts, exhausted := h.exhausted || |attempts| >= h.maxRetries)
  }

  function AddAll(h: History, attempts: seq<Attempt>): History {
    if attempts == [] then h else Add(AddAll(h, attempts[..|attempts| - 1]), attempts[|attempts| - 1])
  }

  /** From an empty log the breaker trips with the last allowed attempt, not before,
      and never closes again; nothing is ever dropped from the log. */
  lemma {:induction false} BreakerTripsAtTheLimit(maxRetries: nat, attempts: seq<Attempt>)
    ensures var h := AddAll(Start(maxRetries), attempts);
            h.attempts == attempts && h.maxRetries == maxRetries
            && (h.exhausted <==> attempts != [] && |attempts| >= maxRetries)
  {
    if attempts != [] {
      BreakerTripsAtTheLimit(maxRetries, attempts[..|attempts| - 1]);
      assert attempts == attempts[..|attempts| - 1] + [attempts[|attempts| - 1]];
    }
  }

  class RevisionHistory {
    var attempts: seq<Attempt>
    const maxRetries: nat
    var isExhausted: bool

    function View(): History
      reads this
    {
      History(attempts, maxRetries, isExhausted)
    }

    constructor (maxRetries: nat)
      ensures View() == Start(maxRetries)
    {
      this.attempts, this.maxRetries, this.isExhausted := [], maxRetries, false;
    }

    method AddAttempt(a: Attempt)
      modifies this
      ensures View() == Add(old(View()), a)
    {
      attempts := attempts + [a];
      if |attempts| >= maxRetries {
        isExhausted := true;
      }
    }
  }
}
