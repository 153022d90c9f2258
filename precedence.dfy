/** A sequence of early-exit checks evaluated in order: the first check that
    fires decides the outcome, and when none fires the run goes on. */
module Precedence {

  datatype Gate<O> = Gate(fires: bool, outcome: O)

  /** The outcome of the first gate that fires, or `otherwise`. */
  function FirstFiring<O>(gates: seq<Gate<O>>, otherwise: O): (o: O)
  {
    if gates == [] then otherwise
    else if gates[0].fires then gates[0].outcome
    else FirstFiring(gates[1..], otherwise)
  }

  /** None of the first `k` gates fires. */
  predicate NoneFiresBefore<O>(gates: seq<Gate<O>>, k: nat)
    requires k <= |gates|
  {
    forall j :: 0 <= j < k ==> !gates[j].fires
  }

  /** The gates' outcomes are pairwise different and different from `otherwise`. */
  ghost predicate DistinctOutcomes<O>(gates: seq<Gate<O>>, otherwise: O)
  {
    && (forall i, j :: 0 <= i < j < |gates| ==> gates[i].outcome != gates[j].outcome)
    && (forall i :: 0 <= i < |gates| ==> gates[i].outcome != otherwise)
  }

  /** The index of the first gate that fires, or `|gates|` when none does. */
  function FiringIndex<O>(gates: seq<Gate<O>>): (k: nat)
    ensures k <= |gates|
    ensures NoneFiresBefore(gates, k)
    ensures k < |gates| ==> gates[k].fires
  {
    if gates == [] then 0
    else if gates[0].fires then 0
    else 1 + FiringIndex(gates[1..])
  }

  /** FirstFiring yields the outcome of the gate FiringIndex locates. */
  lemma {:induction false} FirstFiringAtIndex<O>(gates: seq<Gate<O>>, otherwise: O)
    ensures FiringIndex(gates) < |gates| ==> FirstFiring(gates, otherwise) == gates[FiringIndex(gates)].outcome
    ensures FiringIndex(gates) == |gates| ==> FirstFiring(gates, otherwise) == otherwise
  {
    if gates != [] && !gates[0].fires {
      FirstFiringAtIndex(gates[1..], otherwise);
    }
  }

  /** A gate that fires, with none firing before it, decides the outcome. */
  lemma {:induction false} FirstFiringPicksEarliest<O>(gates: seq<Gate<O>>, otherwise: O, i: nat)
    requires i < |gates| && gates[i].fires && NoneFiresBefore(gates, i)
    ensures FirstFiring(gates, otherwise) == gates[i].outcome
  {
    if i > 0 {
      assert !gates[0].fires;
      assert NoneFiresBefore(gates[1..], i - 1) by {
        forall j | 0 <= j < i - 1 ensures !gates[1..][j].fires {
          assert gates[1..][j] == gates[j + 1];
        }
      }
      FirstFiringPicksEarliest(gates[1..], otherwise, i - 1);
    }
  }

  /** When no gate fires, the run goes on. */
  lemma {:induction false} FirstFiringWhenNoneFires<O>(gates: seq<Gate<O>>, otherwise: O)
    requires NoneFiresBefore(gates, |gates|)
    ensures FirstFiring(gates, otherwise) == otherwise
  {
    if gates != [] {
      assert !gates[0].fires;
      assert NoneFiresBefore(gates[1..], |gates| - 1) by {
        forall j | 0 <= j < |gates| - 1 ensures !gates[1..][j].fires {
          assert gates[1..][j] == gates[j + 1];
        }
      }
      FirstFiringWhenNoneFires(gates[1..], otherwise);
    }
  }

  /** With distinct outcomes, gate `i` decides exactly when it fires and no
      earlier gate does. */
  lemma FirstFiringIff<O>(gates: seq<Gate<O>>, otherwise: O, i: nat)
    requires i < |gates| && DistinctOutcomes(gates, otherwise)
    ensures FirstFiring(gates, otherwise) == gates[i].outcome <==> gates[i].fires && NoneFiresBefore(gates, i)
  {
    FirstFiringAtIndex(gates, otherwise);
    var k := FiringIndex(gates);
    if gates[i].fires && NoneFiresBefore(gates, i) {
      FirstFiringPicksEarliest(gates, otherwise, i);
    } else if k < |gates| {
      assert k != i;
    }
  }

  /** With distinct outcomes, the run goes on exactly when no gate fires. */
  lemma FirstFiringOtherwiseIff<O>(gates: seq<Gate<O>>, otherwise: O)
    requires DistinctOutcomes(gates, otherwise)
    ensures FirstFiring(gates, otherwise) == otherwise <==> NoneFiresBefore(gates, |gates|)
  {
    FirstFiringAtIndex(gates, otherwise);
  }
}
