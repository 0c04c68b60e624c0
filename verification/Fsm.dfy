/** The driver loop that the engine's state machines run on. */
module Fsm {
  import opened Common

  type State = nat
  type Error = nat

  /** What a state asks of the machine. A failure may carry no error at all. */
  datatype Action = Stop | Fail(err: Option<Error>) | Stay | Enter(next: State)
  {
    predicate Stops() {
      Stop? || Fail?
    }
  }

  /** One call of a state: what it returned, and the error of the context when that was applied. */
  datatype Call = Call(state: State, final: bool, action: Action, ctxErr: Option<Error>)

  // ----- which state is called when -----

  /** The final state is called after every stop and at no other time; then only `Enter` revives the machine. */
  predicate Next(final: Option<State>, a: Call, b: Call) {
    if !a.final && a.action.Stops() then
      b.final && final == Some(b.state)
    else
      && !b.final
      && match a.action
         case Enter(s) => b.state == s
         case Stay => !a.final && b.state == a.state
         case _ => false
  }

  predicate Follows(initial: State, final: Option<State>, calls: seq<Call>) {
    && (calls != [] ==> calls[0].state == initial && !calls[0].final)
    && (forall i :: 0 < i < |calls| ==> Next(final, calls[i - 1], calls[i]))
  }

  /** Nothing is called after this call. */
  predicate Ends(final: Option<State>, c: Call) {
    if c.final then !c.action.Enter? else c.action.Stops() && final.None?
  }

  /** The rules in full: an entered state is called next, a state that stays is called again, a stop leads to the end. */
  lemma RulesInFull(initial: State, final: Option<State>, calls: seq<Call>, i: nat)
    requires Follows(initial, final, calls) && i < |calls|
    ensures i == 0 ==> calls[i].state == initial && !calls[i].final
    ensures 0 < i && calls[i - 1].action.Enter? ==>
              calls[i].state == calls[i - 1].action.next && !calls[i].final
    ensures 0 < i && calls[i - 1].action.Stay? ==>
              calls[i].state == calls[i - 1].state && !calls[i].final && !calls[i - 1].final
    ensures 0 < i && (calls[i - 1].action.Stop? || calls[i - 1].action.Fail?) ==>
              final == Some(calls[i].state) && calls[i].final && !calls[i - 1].final
  {
    if 0 < i {
      assert Next(final, calls[i - 1], calls[i]);
    }
  }

  // ----- what the machine returns -----

  function LastFail(calls: seq<Call>): (k: Option<nat>)
    ensures k.Some? ==> k.value < |calls| && calls[k.value].action.Fail?
    ensures forall i :: (if k.Some? then k.value + 1 else 0) <= i < |calls| ==> !calls[i].action.Fail?
  {
    if calls == [] then None
    else if calls[|calls| - 1].action.Fail? then Some(|calls| - 1)
    else LastFail(calls[..|calls| - 1])
  }

  /** The context error that the first stop from `from` on to see one saw. */
  function FirstSeen(calls: seq<Call>, from: nat): (err: Option<Error>)
    ensures err.None? <==> forall i :: from <= i < |calls| && calls[i].action.Stop? ==> calls[i].ctxErr.None?
    decreases |calls| - from
  {
    if from >= |calls| then None
    else if calls[from].action.Stop? && calls[from].ctxErr.Some? then calls[from].ctxErr
    else FirstSeen(calls, from + 1)
  }

  /** The error of the last failure if that failure has one; otherwise the first context error that a later stop saw. */
  function Outcome(calls: seq<Call>): Option<Error> {
    var k := LastFail(calls);
    if k.Some? && calls[k.value].action.err.Some? then calls[k.value].action.err
    else FirstSeen(calls, if k.Some? then k.value + 1 else 0)
  }

  /** What the machine is meant to return: the last failure's error if any state failed, else the context's. */
  function Intended(calls: seq<Call>): Option<Error> {
    var k := LastFail(calls);
    if k.Some? then calls[k.value].action.err else FirstSeen(calls, 0)
  }

  lemma {:induction false} FirstSeenSnoc(calls: seq<Call>, c: Call, from: nat)
    requires from <= |calls|
    ensures FirstSeen(calls + [c], from) ==
            if FirstSeen(calls, from).Some? then FirstSeen(calls, from)
            else if c.action.Stop? then c.ctxErr else None
    decreases |calls| - from
  {
    if from < |calls| {
      FirstSeenSnoc(calls, c, from + 1);
    } else {
      assert (calls + [c])[from] == c;
      assert FirstSeen(calls + [c], from + 1) == None;
    }
  }

  /** How one more call changes what the machine will return. */
  lemma OutcomeSnoc(calls: seq<Call>, c: Call)
    ensures Outcome(calls + [c]) ==
            match c.action
            case Fail(e) => e
            case Stop => if Outcome(calls).None? then c.ctxErr else Outcome(calls)
            case _ => Outcome(calls)
  {
    assert (calls + [c])[..|calls|] == calls;
    var k := LastFail(calls);
    FirstSeenSnoc(calls, c, if k.Some? then k.value + 1 else 0);
  }

  /**
   * The machine returns what it is meant to, except when the last failure carries no error and a later stop, such
   * as that of the final state, sees that the context is cancelled.
   */
  lemma IntendedIff(calls: seq<Call>)
    ensures Outcome(calls) == Intended(calls) <==>
            !(&& LastFail(calls).Some?
              && calls[LastFail(calls).value].action.err.None?
              && exists i :: LastFail(calls).value < i < |calls| && calls[i].action.Stop? && calls[i].ctxErr.Some?)
  {
    var k := LastFail(calls);
    if k.Some? && calls[k.value].action.err.None? {
      assert FirstSeen(calls, k.value + 1).None? <==>
             forall i :: k.value + 1 <= i < |calls| && calls[i].action.Stop? ==> calls[i].ctxErr.None?;
    }
  }

  /** A failure without an error, then a final state that stops when the context is cancelled. */
  lemma NilFailureIsMasked(e: Error) returns (calls: seq<Call>)
    ensures Follows(0, Some(1), calls) && calls != [] && Ends(Some(1), calls[|calls| - 1])
    ensures Intended(calls) == None && Outcome(calls) == Some(e)
  {
    var a, b := Call(0, false, Fail(None), Some(e)), Call(1, true, Stop, Some(e));
    calls := [a, b];
    assert calls == ([] + [a]) + [b];
    OutcomeSnoc([], a);
    OutcomeSnoc([] + [a], b);
    assert calls[..1] == [a];
  }

  /** A stop, of the final state in particular, never masks an earlier failure. */
  lemma StopMasksNoFailure(calls: seq<Call>, c: Call)
    requires c.action.Stop? && Outcome(calls).Some?
    ensures Outcome(calls + [c]) == Outcome(calls)
  {
    OutcomeSnoc(calls, c);
  }

  // ----- the machine -----

  class Machine {
    var current: Option<State>
    var final: Option<State>
    var err: Option<Error>

    constructor (initial: State, final: Option<State>)
      ensures current == Some(initial) && this.final == final && err == None
    {
      this.current, this.final, this.err := Some(initial), final, None;
    }

    /** Applies the action that a state returned. */
    method Execute(action: Action, ctxErr: Option<Error>)
      modifies this`current, this`err
      ensures current == match action
                         case Enter(next) => Some(next)
                         case Stay => old(current)
                         case _ => None
      ensures err == match action
                     case Fail(e) => e
                     case Stop => if old(err).None? then ctxErr else old(err)
                     case _ => old(err)
    {
      match action
      case Stop =>
        current := None;
        if err.None? {
          err := ctxErr;
        }
      case Fail(e) =>
        current := None;
        err := e;
      case Stay =>
      case Enter(next) =>
        current := Some(next);
    }

    /** Calls a state and applies what it returns, which is recorded in `calls`. */
    method Run(state: State, isFinal: bool, result: (Action, Option<Error>), ghost initial: State, ghost calls: seq<Call>)
      returns (ghost calls': seq<Call>)
      requires Follows(initial, final, calls) && err == Outcome(calls)
      requires if isFinal then final == Some(state) && current.None? else current == Some(state)
      requires if calls == [] then state == initial && !isFinal
               else Next(final, calls[|calls| - 1], Call(state, isFinal, Stay, None))
      modifies this`current, this`err
      ensures calls' == calls + [Call(state, isFinal, result.0, result.1)]
      ensures Follows(initial, final, calls') && err == Outcome(calls')
      ensures current == match result.0
                         case Enter(next) => Some(next)
                         case Stay => old(current)
                         case _ => None
    {
      ghost var c := Call(state, isFinal, result.0, result.1);
      OutcomeSnoc(calls, c);
      calls' := calls + [c];
      Execute(result.0, result.1);
    }

    /** The calls made so far account for where the machine is. */
    ghost predicate Explained(initial: State, results: seq<(Action, Option<Error>)>, calls: seq<Call>)
      reads this
    {
      && |calls| <= |results|
      && (forall i :: 0 <= i < |calls| ==> (calls[i].action, calls[i].ctxErr) == results[i])
      && Follows(initial, final, calls) && err == Outcome(calls)
      && if calls == [] then current == Some(initial)
         else if current.None? then Ends(final, calls[|calls| - 1])
         else Next(final, calls[|calls| - 1], Call(current.value, false, Stay, None))
    }

    /** Calls the current state, and the final state too if the machine stops. `cut` tells that no result was left. */
    method Cycle(results: seq<(Action, Option<Error>)>, n: nat, ghost initial: State, ghost calls: seq<Call>)
      returns (cut: bool, n': nat, ghost calls': seq<Call>)
      requires Explained(initial, results, calls) && current.Some? && n == |calls| < |results|
      modifies this`current, this`err
      ensures n < n' == |calls'| <= |results|
      ensures !cut ==> Explained(initial, results, calls')
      ensures cut ==>
                && n' == |results| && !Ends(final, calls'[n' - 1])
                && (forall i :: 0 <= i < n' ==> (calls'[i].action, calls'[i].ctxErr) == results[i])
                && Follows(initial, final, calls') && err == Outcome(calls')
    {
      calls' := Run(current.value, false, results[n], initial, calls);
      n' := n + 1;
      cut := current.None? && final.Some? && n' == |results|;
      if current.None? && final.Some? && !cut {
        calls' := Run(final.value, true, results[n'], initial, calls');
        n' := n' + 1;
      }
    }

    /**
     * Runs the machine. `results` are what the states return, call by call; the machine is done unless they run
     * out first. The calls made follow the rules, and the error is what they amount to.
     */
    method Start(results: seq<(Action, Option<Error>)>) returns (done: bool, ghost calls: seq<Call>)
      requires current.Some? && err.None?
      modifies this`current, this`err
      ensures |calls| <= |results|
      ensures forall i :: 0 <= i < |calls| ==> (calls[i].action, calls[i].ctxErr) == results[i]
      ensures Follows(old(current).value, final, calls)
      ensures err == Outcome(calls)
      ensures done <==> calls != [] && Ends(final, calls[|calls| - 1])
      ensures done ==>
                var last := calls[|calls| - 1];
                if last.final then !last.action.Enter? else final.None? && (last.action.Stop? || last.action.Fail?)
      ensures !done ==> |calls| == |results|
    {
      calls := [];
      var n := 0;
      while current.Some? && n < |results|
        invariant n == |calls| && Explained(old(current).value, results, calls)
        decreases |results| - n
      {
        var cut;
        cut, n, calls := Cycle(results, n, old(current).value, calls);
        if cut {
          return false, calls;
        }
      }
      done := current.None?;
    }
  }
}
