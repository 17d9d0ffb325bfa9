/**
 * A strict sequence of operations with early exits: each step is an observable event
 * and the outcome of performing it; the sequence stops at the first step that fails.
 */
module Steps {
  import opened Results

  datatype Step<Ev, E> = Step(event: Ev, outcome: Outcome<E>)

  /** Every event of `steps`, whether or not it would be reached. */
  function EventsOf<Ev, E>(steps: seq<Step<Ev, E>>): (r: seq<Ev>)
    ensures |r| == |steps| && forall i :: 0 <= i < |steps| ==> r[i] == steps[i].event
  {
    if steps == [] then [] else [steps[0].event] + EventsOf(steps[1..])
  }

  predicate AllPass<Ev, E>(steps: seq<Step<Ev, E>>)
  {
    forall i :: 0 <= i < |steps| ==> steps[i].outcome.Pass?
  }

  /** The events that happen: every step up to and including the first that fails. */
  function Events<Ev, E>(steps: seq<Step<Ev, E>>): seq<Ev>
  {
    if steps == [] then []
    else [steps[0].event] + (if steps[0].outcome.Fail? then [] else Events(steps[1..]))
  }

  /** The outcome of the whole sequence: that of the first failing step, or `Pass`. */
  function FirstFailure<Ev, E>(steps: seq<Step<Ev, E>>): Outcome<E>
  {
    if steps == [] then Pass
    else if steps[0].outcome.Fail? then steps[0].outcome
    else FirstFailure(steps[1..])
  }

  /** The sequence passes exactly when every step passes, and then every event happens. */
  lemma {:induction false} PassRunsEverything<Ev, E>(steps: seq<Step<Ev, E>>)
    ensures FirstFailure(steps).Pass? <==> AllPass(steps)
    ensures AllPass(steps) ==> Events(steps) == EventsOf(steps)
  {
    if steps != [] {
      PassRunsEverything(steps[1..]);
      assert AllPass(steps) ==> AllPass(steps[1..]) by {
        forall i | 0 <= i < |steps| - 1 ensures AllPass(steps) ==> steps[1..][i].outcome.Pass? {
          assert steps[1..][i] == steps[i + 1];
        }
      }
    }
  }

  /** The events that happen are the leading events of the sequence. */
  lemma {:induction false} EventsArePrefix<Ev, E>(steps: seq<Step<Ev, E>>)
    ensures Events(steps) <= EventsOf(steps)
  {
    if steps != [] {
      EventsArePrefix(steps[1..]);
    }
  }

  /** An event no step carries never happens. */
  lemma {:induction false} NeverHappens<Ev, E>(steps: seq<Step<Ev, E>>, p: Ev -> bool)
    requires forall i :: 0 <= i < |steps| ==> !p(steps[i].event)
    ensures forall e :: e in Events(steps) ==> !p(e)
  {
    if steps != [] {
      assert forall i :: 0 <= i < |steps| - 1 ==> steps[1..][i] == steps[i + 1];
      NeverHappens(steps[1..], p);
    }
  }

  /** When step `k` is the first to fail, the events stop right after it and its error is the outcome. */
  lemma {:induction false} StopsAtFirstFailure<Ev, E>(steps: seq<Step<Ev, E>>, k: nat)
    requires k < |steps| && steps[k].outcome.Fail? && AllPass(steps[..k])
    ensures Events(steps) == EventsOf(steps[..k + 1])
    ensures FirstFailure(steps) == steps[k].outcome
  {
    if k > 0 {
      assert steps[..k][0] == steps[0];
      var tail := steps[1..];
      assert tail[..k - 1] == steps[1..k];
      forall i | 0 <= i < k - 1 ensures tail[i].outcome.Pass? {
        assert tail[i] == steps[..k][i + 1];
      }
      StopsAtFirstFailure(tail, k - 1);
      assert steps[1..][..k] == steps[1..k + 1];
      assert steps[..k + 1] == [steps[0]] + steps[1..k + 1];
    }
  }

  /** A step after a failing one never happens. */
  lemma {:induction false} NothingAfterFailure<Ev, E>(steps: seq<Step<Ev, E>>, k: nat)
    requires k < |steps| && steps[k].outcome.Fail?
    ensures |Events(steps)| <= k + 1
    ensures Events(steps) == EventsOf(steps)[..|Events(steps)|]
    ensures FirstFailure(steps).Fail?
  {
    if steps[0].outcome.Pass? {
      NothingAfterFailure(steps[1..], k - 1);
    }
  }

  /** Taking the step at `k`: its event happens, then the steps after it unless it fails. */
  lemma TakeStep<Ev, E>(steps: seq<Step<Ev, E>>, k: nat)
    requires k < |steps|
    ensures Events(steps[k..]) ==
      [steps[k].event] + (if steps[k].outcome.Fail? then [] else Events(steps[k + 1..]))
    ensures FirstFailure(steps[k..]) ==
      if steps[k].outcome.Fail? then steps[k].outcome else FirstFailure(steps[k + 1..])
  {
    assert steps[k..][1..] == steps[k + 1..];
  }

  /** A final step that cannot fail happens exactly when every step before it passed. */
  lemma EventsThenFinal<Ev, E>(steps: seq<Step<Ev, E>>, last: Step<Ev, E>)
    requires last.outcome.Pass?
    ensures FirstFailure(steps + [last]) == FirstFailure(steps)
    ensures Events(steps + [last]) ==
      if FirstFailure(steps).Pass? then Events(steps) + [last.event] else Events(steps)
  {
    EventsAppend(steps, [last]);
    PassRunsEverything(steps);
  }

  /** Three phases one after the other: where the run stops and what it has recorded. */
  lemma ThreePhases<Ev, E>(a: seq<Step<Ev, E>>, b: seq<Step<Ev, E>>, c: seq<Step<Ev, E>>)
    ensures FirstFailure(a).Fail? ==>
      Events(a + (b + c)) == Events(a) && FirstFailure(a + (b + c)) == FirstFailure(a)
    ensures FirstFailure(a).Pass? && FirstFailure(b).Fail? ==>
      Events(a + (b + c)) == Events(a) + Events(b) && FirstFailure(a + (b + c)) == FirstFailure(b)
    ensures FirstFailure(a).Pass? && FirstFailure(b).Pass? ==>
      Events(a + (b + c)) == Events(a) + Events(b) + Events(c) && FirstFailure(a + (b + c)) == FirstFailure(c)
  {
    EventsAppend(a, b + c);
    if FirstFailure(a).Pass? {
      PassRunsEverything(a);
      EventsAppend(b, c);
      if FirstFailure(b).Pass? {
        PassRunsEverything(b);
        AppendAssociates(Events(a), Events(b), Events(c));
      }
    }
  }

  /** Three phases and a final step that cannot fail: where the run stops and what it has recorded. */
  lemma ThreePhasesThenFinal<Ev, E>(a: seq<Step<Ev, E>>, b: seq<Step<Ev, E>>, c: seq<Step<Ev, E>>, last: Step<Ev, E>)
    requires last.outcome.Pass?
    ensures var steps := a + (b + (c + [last]));
      (FirstFailure(a).Fail? ==>
         Events(steps) == Events(a) && FirstFailure(steps) == FirstFailure(a))
      && (FirstFailure(a).Pass? && FirstFailure(b).Fail? ==>
         Events(steps) == Events(a) + Events(b) && FirstFailure(steps) == FirstFailure(b))
      && (FirstFailure(a).Pass? && FirstFailure(b).Pass? && FirstFailure(c).Fail? ==>
         Events(steps) == Events(a) + Events(b) + Events(c) && FirstFailure(steps) == FirstFailure(c))
      && (FirstFailure(a).Pass? && FirstFailure(b).Pass? && FirstFailure(c).Pass? ==>
         Events(steps) == Events(a) + Events(b) + Events(c) + [last.event] && FirstFailure(steps) == Pass)
  {
    ThreePhases(a, b, c + [last]);
    EventsThenFinal(c, last);
    if FirstFailure(a).Pass? && FirstFailure(b).Pass? && FirstFailure(c).Pass? {
      AppendAssociates(Events(a) + Events(b), Events(c), [last.event]);
    }
  }

  /** Concatenation regroups freely. */
  lemma AppendAssociates<T>(x: seq<T>, y: seq<T>, z: seq<T>)
    ensures x + (y + z) == x + y + z
  {
  }

  /** Running two sequences one after the other. */
  lemma {:induction false} EventsAppend<Ev, E>(a: seq<Step<Ev, E>>, b: seq<Step<Ev, E>>)
    ensures Events(a + b) == if FirstFailure(a).Pass? then EventsOf(a) + Events(b) else Events(a)
    ensures FirstFailure(a + b) == if FirstFailure(a).Pass? then FirstFailure(b) else FirstFailure(a)
  {
    if a == [] {
      assert a + b == b;
    } else {
      assert (a + b)[0] == a[0];
      assert (a + b)[1..] == a[1..] + b;
      EventsAppend(a[1..], b);
    }
  }
}

/**
 * The gas accounting of one invocation, reduced to its two counters. How each cost
 * is priced is not part of this model: the costs are given to the record methods.
 */
module Gas {

  class Gasometer {
    var usedGas: nat
    /** Lamports to hand back to the operator, kept apart from gas. */
    var refundedLamports: nat

    constructor (initialUsedGas: nat)
      ensures usedGas == initialUsedGas && refundedLamports == 0
    {
      usedGas := initialUsedGas;
      refundedLamports := 0;
    }

    method RecordSolanaTransactionCost(cost: nat)
      modifies this
      ensures usedGas == old(usedGas) + cost && refundedLamports == old(refundedLamports)
    {
      usedGas := usedGas + cost;
    }

    method RecordAddressLookupTable(cost: nat)
      modifies this
      ensures usedGas == old(usedGas) + cost && refundedLamports == old(refundedLamports)
    {
      usedGas := usedGas + cost;
    }

    method RecordOperatorExpenses(cost: nat)
      modifies this
      ensures usedGas == old(usedGas) + cost && refundedLamports == old(refundedLamports)
    {
      usedGas := usedGas + cost;
    }

    method RefundLamports(amount: nat)
      modifies this
      ensures usedGas == old(usedGas) && refundedLamports == old(refundedLamports) + amount
    {
      refundedLamports := refundedLamports + amount;
    }
  }
}
