/** The payment attempt state machine shared by Cloud and Edge. */
module PaymentDomain {
  datatype Status = Created | Initiated | Pending | Succeeded | Failed | Unknown

  function Successors(from: Status): set<Status> {
    match from
    case Created => {Initiated, Pending, Succeeded, Failed, Unknown}
    case Initiated => {Pending, Succeeded, Failed, Unknown}
    case Pending => {Succeeded, Failed, Unknown}
    case Unknown => {Pending, Succeeded, Failed}
    case Succeeded => {}
    case Failed => {}
  }

  predicate CanTransition(from: Status, to: Status) { from == to || to in Successors(from) }

  predicate IsTerminal(s: Status) { s == Succeeded || s == Failed }

  /** The states a provider can report as truth. */
  predicate IsTruth(s: Status) { s != Created && s != Initiated }

  predicate IsUnresolved(s: Status) { s == Initiated || s == Pending || s == Unknown }

  ghost predicate LegalRun(states: seq<Status>) {
    forall i :: 0 <= i < |states| - 1 ==> CanTransition(states[i], states[i + 1])
  }

  /** Terminal states are exactly those with no way out, and every other state can still end either way. */
  lemma {:induction false} TerminalIsStuck(s: Status)
    ensures IsTerminal(s) <==> forall t :: CanTransition(s, t) ==> t == s
    ensures !IsTerminal(s) <==> CanTransition(s, Succeeded) && CanTransition(s, Failed)
  {
    if !IsTerminal(s) { assert CanTransition(s, Succeeded) && CanTransition(s, Failed); }
  }

  /** Along any legal run a terminal state is final, and CREATED and INITIATED are never entered again. */
  lemma {:induction false} RunsSettle(states: seq<Status>, i: nat, j: nat)
    requires LegalRun(states) && i <= j < |states|
    ensures IsTerminal(states[i]) ==> states[j] == states[i]
    ensures states[i] != Created ==> states[j] != Created
    ensures IsTruth(states[i]) ==> IsTruth(states[j])
    decreases j - i
  {
    if i < j {
      RunsSettle(states, i, j - 1);
      assert CanTransition(states[j - 1], states[j]);
    }
  }

  /** An attempt that is not final may move on to anything but CREATED, and to INITIATED only from CREATED. */
  lemma {:induction false} MovesOnExactlyWhen(from: Status, to: Status)
    ensures CanTransition(from, to) <==>
      from == to || (from != Succeeded && from != Failed && to != Created && (to == Initiated ==> from == Created))
  {
  }
}
