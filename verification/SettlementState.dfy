/** The settlement life cycle of a market and its transition table. */
module SettlementState {

  datatype State = Pending | Proposed | Settling | Challenged | Settled

  function AllowedFrom(from: State): set<State> {
    match from
    case Pending => {Proposed}
    case Proposed => {Settling, Challenged}
    case Settling => {Settling, Settled}
    case Challenged => {Settled}
    case Settled => {}
  }

  predicate CanTransition(from: State, to: State) {
    to in AllowedFrom(from)
  }

  /** `path` is a walk through the table starting at `from`. */
  predicate Walk(from: State, path: seq<State>)
    decreases |path|
  {
    path == [] || (CanTransition(from, path[0]) && Walk(path[0], path[1..]))
  }

  /** The last state of a walk, `from` itself when it is empty. */
  function EndOf(from: State, path: seq<State>): State {
    if path == [] then from else path[|path| - 1]
  }

  /**
   No walk through the table returns to PENDING or PROPOSED, leaves SETTLED, or
   connects CHALLENGED and SETTLING in either direction.
   */
  lemma {:induction false} WalksOnlyGoForward(from: State, path: seq<State>)
    requires Walk(from, path) && path != []
    ensures EndOf(from, path) != Pending && from != Settled
    ensures EndOf(from, path) == Proposed ==> from == Pending
    ensures from == Challenged ==> EndOf(from, path) == Settled
    ensures from == Settling ==> EndOf(from, path) in {Settling, Settled}
    decreases |path|
  {
    if |path| > 1 {
      WalksOnlyGoForward(path[0], path[1..]);
    }
  }

  /** Some walk of at least one step leads from one state to the other. */
  ghost predicate Reaches(from: State, to: State) {
    exists path :: path != [] && Walk(from, path) && EndOf(from, path) == to
  }

  lemma ReachesByOne(a: State, b: State)
    requires CanTransition(a, b)
    ensures Reaches(a, b)
  {
    assert Walk(b, [b][1..]);
    assert [b] != [] && Walk(a, [b]) && EndOf(a, [b]) == b;
  }

  lemma ReachesByTwo(a: State, b: State, c: State)
    requires CanTransition(a, b) && CanTransition(b, c)
    ensures Reaches(a, c)
  {
    assert [b, c][1..] == [c] && [c][1..] == [];
    assert Walk(c, []) && Walk(b, [c]) && Walk(a, [b, c]) && EndOf(a, [b, c]) == c;
  }

  lemma ReachesByThree(a: State, b: State, c: State, d: State)
    requires CanTransition(a, b) && CanTransition(b, c) && CanTransition(c, d)
    ensures Reaches(a, d)
  {
    assert [b, c, d][1..] == [c, d] && [c, d][1..] == [d] && [d][1..] == [];
    assert Walk(d, []) && Walk(c, [d]) && Walk(b, [c, d]) && Walk(a, [b, c, d]) && EndOf(a, [b, c, d]) == d;
  }

  /** Exactly which states lead to which. */
  lemma ReachesIff(from: State, to: State)
    ensures
      Reaches(from, to) <==>
      match from
      case Pending => to != Pending
      case Proposed => to in {Settling, Challenged, Settled}
      case Settling => to in {Settling, Settled}
      case Challenged => to == Settled
      case Settled => false
  {
    if Reaches(from, to) {
      var path :| path != [] && Walk(from, path) && EndOf(from, path) == to;
      WalksOnlyGoForward(from, path);
    }
    ReachesByOne(Pending, Proposed);
    ReachesByOne(Proposed, Settling);
    ReachesByOne(Proposed, Challenged);
    ReachesByOne(Settling, Settling);
    ReachesByOne(Settling, Settled);
    ReachesByOne(Challenged, Settled);
    ReachesByTwo(Pending, Proposed, Settling);
    ReachesByTwo(Pending, Proposed, Challenged);
    ReachesByTwo(Proposed, Settling, Settled);
    ReachesByThree(Pending, Proposed, Settling, Settled);
  }
}
