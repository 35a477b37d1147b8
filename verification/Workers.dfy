/** The per-bot state machine (internal/worker/worker.go). */
module Workers {
  import opened Common

  datatype WorkerState = Normal | Slow | Pause

  datatype TransitionError = InvalidTransition

  const VALID_TRANSITIONS: map<WorkerState, seq<WorkerState>> :=
    map[Normal := [Slow, Pause], Slow := [Normal, Pause], Pause := [Normal]]

  /** The edge relation of the state machine. */
  predicate ValidEdge(from: WorkerState, to: WorkerState) {
    to != from && !(from == Pause && to == Slow)
  }

  /** The edges listed by VALID_TRANSITIONS. */
  predicate Allowed(from: WorkerState, to: WorkerState) {
    from in VALID_TRANSITIONS && to in VALID_TRANSITIONS[from]
  }

  /** The listed edges are all moves to another state except from Pause to Slow. */
  lemma AllowedIffValidEdge(from: WorkerState, to: WorkerState)
    ensures Allowed(from, to) <==> ValidEdge(from, to)
  {
    assert VALID_TRANSITIONS[from] ==
      match from case Normal => [Slow, Pause] case Slow => [Normal, Pause] case Pause => [Normal];
  }

  /** Orders may be placed in any state but Pause. */
  predicate MayPlaceOrders(state: WorkerState) { state != Pause }

  class Worker {
    const botID: BotId
    var state: WorkerState

    constructor (botID: BotId)
      ensures this.botID == botID && state == Normal
    {
      this.botID := botID;
      state := Normal;
    }

    method State() returns (s: WorkerState)
      ensures s == state
    {
      s := state;
    }

    /** Moves along a valid edge, or fails and stays. */
    method Transition(next: WorkerState) returns (err: Option<TransitionError>)
      modifies this
      ensures err.None? <==> ValidEdge(old(state), next)
      ensures err.Some? <==> next == old(state) || (old(state) == Pause && next == Slow)
      ensures state == if err.None? then next else old(state)
    {
      AllowedIffValidEdge(state, next);
      var allowed := VALID_TRANSITIONS[state];
      for i := 0 to |allowed|
        invariant next !in allowed[..i]
        invariant state == old(state)
      {
        if allowed[i] == next {
          state := next;
          return None;
        }
      }
      return Some(InvalidTransition);
    }

    method CanPlaceOrders() returns (ok: bool)
      ensures ok == MayPlaceOrders(state)
      ensures ok <==> state == Normal || state == Slow
    {
      ok := state != Pause;
    }
  }
}
