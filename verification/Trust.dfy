/** `trust_from` of `app/domain/outcomes.py` and the worst-of rule of `app/agent/trust_gate.py`. */
module Trust {
  import opened Enums

  function From(reviewRequired: bool, hasAssumptions: bool): TrustState {
    if reviewRequired then Escalate else if hasAssumptions then Conditional else Confident
  }

  function Rank(t: TrustState): nat {
    match t
    case Confident => 0
    case Conditional => 1
    case Uncertain => 2
    case Escalate => 3
  }

  /** `max` by rank: the first of the worst. */
  function Worst(states: seq<TrustState>): TrustState
    requires states != []
  {
    if |states| == 1 then states[0]
    else
      var rest := Worst(states[1..]);
      if Rank(states[0]) >= Rank(rest) then states[0] else rest
  }

  function Gate(states: seq<TrustState>, hasDocuments: bool): TrustState {
    if states != [] then Worst(states) else if hasDocuments then Conditional else Uncertain
  }

  lemma {:induction false} WorstIsWorst(states: seq<TrustState>)
    requires states != []
    ensures Worst(states) in states
    ensures forall t :: t in states ==> Rank(t) <= Rank(Worst(states))
  {
    if |states| > 1 {
      WorstIsWorst(states[1..]);
      assert states == [states[0]] + states[1..];
    }
  }

  /** The gate looks only at which states occur: neither order nor repetition matters. */
  lemma GateIgnoresOrder(xs: seq<TrustState>, ys: seq<TrustState>, hasDocuments: bool)
    requires forall t :: t in xs <==> t in ys
    ensures Gate(xs, hasDocuments) == Gate(ys, hasDocuments)
  {
    assert xs != [] ==> xs[0] in ys;
    assert ys != [] ==> ys[0] in xs;
    if xs != [] {
      WorstIsWorst(xs);
      WorstIsWorst(ys);
    }
  }

  /** CONFIDENT needs at least one calculation and no calculation less than confident; a single
      escalated calculation escalates the whole answer, and otherwise a single uncertain one
      leaves it uncertain. Without calculations, documents make it conditional. */
  lemma GateExactly(states: seq<TrustState>, hasDocuments: bool)
    ensures Gate(states, hasDocuments) == Confident <==>
              states != [] && forall t :: t in states ==> t == Confident
    ensures Gate(states, hasDocuments) == Escalate <==> Escalate in states
    ensures Gate(states, hasDocuments) == Uncertain <==>
              (Uncertain in states && Escalate !in states) || (states == [] && !hasDocuments)
    ensures Gate(states, hasDocuments) == Conditional <==>
              || (Conditional in states && Uncertain !in states && Escalate !in states)
              || (states == [] && hasDocuments)
  {
    if states != [] {
      WorstIsWorst(states);
      assert states[0] in states;
    }
  }
}
