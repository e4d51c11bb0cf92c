/** The one-shot action register between main and the control tick
    (rm32/src/shared_comm.rs, rm32/src/shared_state.rs). Main raises it to the
    highest pending action; the tick loads it, acts, and clears it only if it still
    holds what was loaded. */
module IsrRequests {
  import opened Words
  import opened Control

  function Rank(a: IsrAction): (r: nat)
    ensures r <= 3
  {
    match a
    case NoAction => 0
    case ResetIntervalTimer => 1
    case CommutateKick => 2
    case KillAll => 3
  }

  function FromU8(value: U8): IsrAction {
    if value == 1 then ResetIntervalTimer
    else if value == 2 then CommutateKick
    else if value == 3 then KillAll
    else NoAction
  }

  /** Decoding inverts the stored value, which orders the actions by priority. */
  lemma RankRoundTrip(a: IsrAction)
    ensures FromU8(Rank(a)) == a
  {
  }

  class ActionRegister {
    var isrAction: U8

    method Request(a: IsrAction)
      modifies this
      ensures isrAction == Max(old(isrAction), Rank(a))
    {
      isrAction := Max(isrAction, Rank(a));
    }

    method Clear(a: IsrAction)
      modifies this
      ensures isrAction == if old(isrAction) == Rank(a) then 0 else old(isrAction)
    {
      if isrAction == Rank(a) { isrAction := 0; }
    }
  }

  /** The register, and the action a tick has loaded and not yet cleared. */
  datatype State = State(register: nat, loaded: Option<IsrAction>)

  /** Request is one atomic maximum; load and clear are separate steps of a tick. */
  datatype Step = Request(a: IsrAction) | Load | Clear

  predicate Enabled(s: State, t: Step) {
    match t
    case Request(_) => true
    case Load => s.loaded.None?
    case Clear => s.loaded.Some?
  }

  function Next(s: State, t: Step): State
    requires Enabled(s, t)
  {
    match t
    case Request(a) => s.(register := Max(s.register, Rank(a)))
    case Load => s.(loaded := Some(FromU8(Min(s.register, 255))))
    case Clear => State(if s.register == Rank(s.loaded.value) then 0 else s.register, None)
  }

  ghost predicate Run(states: seq<State>, steps: seq<Step>) {
    |states| == |steps| + 1 && states[0].register <= 3 &&
    forall i :: 0 <= i < |steps| ==> Enabled(states[i], steps[i]) && states[i + 1] == Next(states[i], steps[i])
  }

  /** Step `k` clears an action of at least this rank that the tick had loaded. */
  ghost predicate Served(states: seq<State>, steps: seq<Step>, k: nat, rank: nat)
    requires k < |steps| && k < |states|
  {
    steps[k].Clear? && states[k].loaded.Some? && Rank(states[k].loaded.value) >= rank
  }

  /** No request is lost: in every interleaving of requests with ticks' loads and
      clears, the register still holds a requested rank, or more, until a tick has
      acted on an action of at least that rank. */
  lemma {:induction false} RequestStaysUntilServed(states: seq<State>, steps: seq<Step>, m: nat, n: nat)
    requires Run(states, steps) && m < n < |states| && steps[m].Request?
    ensures states[n].register >= Rank(steps[m].a) ||
      exists k: nat :: m < k < n && Served(states, steps, k, Rank(steps[m].a))
  {
    var p := n - 1;
    if p > m {
      RequestStaysUntilServed(states, steps, m, p);
      if exists k: nat :: m < k < p && Served(states, steps, k, Rank(steps[m].a)) {
        var k: nat :| m < k < p && Served(states, steps, k, Rank(steps[m].a));
        assert Served(states, steps, k, Rank(steps[m].a));
      } else if states[n].register < Rank(steps[m].a) {
        assert Served(states, steps, p, Rank(steps[m].a));
      }
    }
  }

  /** In particular a kill outranks everything: it stays pending until a tick that
      loaded the kill itself clears it. */
  lemma KillStaysUntilServed(states: seq<State>, steps: seq<Step>, m: nat, n: nat)
    requires Run(states, steps) && m < n < |states| && steps[m] == Request(KillAll)
    requires forall k :: m < k < n && steps[k].Clear? ==> states[k].loaded != Some(KillAll)
    ensures states[n].register >= 3
  {
    RequestStaysUntilServed(states, steps, m, n);
    if k: nat :| m < k < n && Served(states, steps, k, 3) {
      assert states[k].loaded == Some(KillAll);
    }
  }
}
