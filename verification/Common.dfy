/** Vocabulary shared by every module: identifiers, message envelopes and optional values. */
module Common {

  /** A 128-bit identifier read as one number, so the order on identifiers is the order on numbers. */
  type UUID = nat

  /** The order in which a process of any kind was started; used only to tell processes apart. */
  type ProcID = nat

  datatype Option<+T> = None | Some(value: T)

  /** A command or an event on its way through the engine. */
  datatype Envelope = Envelope(messageID: UUID, data: string)

  /** A request to append events to a stream. `hint` is the lowest offset at which the events may already be. */
  datatype AppendRequest = AppendRequest(streamID: UUID, events: seq<Envelope>, hint: nat)

  /** `[begin, end)` are the offsets of the request's events. */
  datatype AppendResponse = AppendResponse(begin: nat, end: nat, byPriorAttempt: bool)

  /** What can happen to one call of a persistence operation that has a durable effect. */
  datatype Fault = Ok | FailBefore | FailAfter

  /** The state that a sequence of actions leads to. */
  function Fold<S, A>(step: (S, A) -> S, s: S, actions: seq<A>): S {
    if actions == [] then s else step(Fold(step, s, actions[..|actions| - 1]), actions[|actions| - 1])
  }

  lemma {:induction false} FoldConcat<S, A>(step: (S, A) -> S, s: S, a: seq<A>, b: seq<A>)
    ensures Fold(step, s, a + b) == Fold(step, Fold(step, s, a), b)
  {
    if b == [] {
      assert a + b == a;
    } else {
      var init := b[..|b| - 1];
      FoldConcat(step, s, a, init);
      assert (a + b)[..|a + b| - 1] == a + init;
    }
  }
}
