/** The event-stream supervisor, which starts one worker for each stream in use and forwards requests to it. */
module StreamSupervising {
  import opened Common
  import opened StreamLifecycle

  /** What becomes ready first when the supervisor waits, after the workers have taken some steps of their own. */
  datatype Event = ContextDone | Result(g: nat) | Request(ex: Exchange) | WorkerReady

  datatype Turn = Turn(others: seq<Action>, event: Event, ok: bool)

  /** The goroutines around the supervisor. What they do is scripted, and every script is a possible schedule. */
  class Scheduler {
    const script: nat -> Turn
    var clock: nat
    var state: State
    ghost var run: seq<Action>

    constructor (script: nat -> Turn)
      ensures Valid() && state == Initial && run == [] && this.script == script
    {
      this.script := script;
      clock, state, run := 0, Initial, [];
    }

    ghost predicate Valid()
      reads this
    {
      forall r :: r == run ==> state == After(r)
    }

    /** Steps that are not the supervisor's. */
    predicate Others(a: Action) {
      a.Cancel? || a.RequestShutdown? || a.Ready? || a.Answer? || a.TimeOut? || a.HeedShutdown? || a.HeedCancel?
    }

    /** The context is cancelled in this turn. */
    predicate CancelsAt(t: nat) {
      Cancel in script(t).others
    }

    /** From this turn on nothing is ready but the context, should it be cancelled. */
    ghost predicate NothingElseReady(t: nat) {
      forall u :: t <= u ==> script(u).event.ContextDone?
    }

    /** Whatever was cancelled in the turns that passed stays so. */
    twostate predicate Passes()
      reads this
    {
      && Valid()
      && old(run) <= run
      && old(clock) <= clock
      && (old(state.cancelled) ==> state.cancelled)
      && (forall t :: old(clock) <= t < clock && CancelsAt(t) ==> state.cancelled)
    }

    /** No worker has reported meanwhile. */
    twostate predicate NoReports()
      reads this
    {
      && |old(state.gos)| <= |state.gos|
      && forall g :: 0 <= g < |state.gos| ==>
           (state.gos[g].life.Reported? <==> g < |old(state.gos)| && old(state.gos)[g].life.Reported?)
    }

    function OfOthers(actions: seq<Action>, n: nat): seq<Action>
      requires n <= |actions|
    {
      if n == 0 then []
      else if Others(actions[n - 1]) then OfOthers(actions, n - 1) + [actions[n - 1]]
      else OfOthers(actions, n - 1)
    }

    method Act(a: Action)
      requires Valid()
      modifies this
      ensures Valid() && clock == old(clock) && run == old(run) + [a] && state == Step(old(state), a)
      ensures HasReason(old(state), a) ==> StoppedFor(run, !a.Notice?)
    {
      assert state == After(run);
      if HasReason(state, a) {
        StopsNow(run, a);
      }
      AfterSnoc(run, a);
      state := Step(state, a);
      run := run + [a];
    }

    lemma OthersEffect(s: State, a: Action)
      requires Others(a)
      ensures var s' := Step(s, a);
              && s'.pc == s.pc && s'.workers == s.workers && s'.taken == s.taken && s'.signaled == s.signaled
              && (s.cancelled || a.Cancel? ==> s'.cancelled)
              && |s'.gos| == |s.gos|
              && forall g :: 0 <= g < |s.gos| ==> (s'.gos[g].life.Reported? <==> s.gos[g].life.Reported?)
    {
    }

    /** The workers go on for a while. */
    method Elapse() returns (turn: Turn)
      requires Valid()
      modifies this
      ensures Passes() && turn == script(old(clock)) && clock == old(clock) + 1
      ensures run == old(run) + OfOthers(turn.others, |turn.others|)
      ensures state.pc == old(state.pc) && state.workers == old(state.workers) && state.taken == old(state.taken)
      ensures state.signaled == old(state.signaled)
      ensures |state.gos| == |old(state.gos)| && NoReports()
    {
      turn := script(clock);
      clock := clock + 1;
      for i := 0 to |turn.others|
        invariant Valid() && run == old(run) + OfOthers(turn.others, i) && clock == old(clock) + 1
        invariant state.pc == old(state.pc) && state.workers == old(state.workers) && state.taken == old(state.taken)
        invariant state.signaled == old(state.signaled)
        invariant old(state.cancelled) || Cancel in turn.others[..i] ==> state.cancelled
        invariant |state.gos| == |old(state.gos)| && NoReports()
      {
        if Others(turn.others[i]) {
          OthersEffect(state, turn.others[i]);
          Act(turn.others[i]);
        }
        assert turn.others[..i + 1] == turn.others[..i] + [turn.others[i]];
      }
      assert turn.others[..|turn.others|] == turn.others;
    }

    lemma Invariant()
      requires Valid()
      ensures Inv(state)
    {
      assert state == After(run);
      Always(run);
    }

    /** One worker goes on until it is finished. If it is idle then because it was told to shut down. */
    method Finish(g: nat, ok: bool)
      requires Valid() && state.pc.Draining? && g in state.signaled
      requires g < |state.gos| && !state.gos[g].life.Reported?
      modifies this
      ensures Passes() && clock == old(clock)
      ensures state == old(state).(gos := state.gos, replies := state.replies)
      ensures g < |state.gos| && state.gos[g].life.Finished?
    {
      while !state.gos[g].life.Finished?
        invariant Passes() && clock == old(clock)
        invariant state == old(state).(gos := state.gos, replies := state.replies)
        invariant g < |state.gos| && !state.gos[g].life.Reported?
        decreases Distance(state.gos[g].life)
      {
        match state.gos[g].life
        case Starting => Act(Ready(g, ok));
        case Busy(_) => Act(Answer(g, ok));
        case Waiting => Act(HeedShutdown(g));
      }
    }

    /** Waits for the result of a worker. The supervisor drains, so each of them comes to an end. */
    method AwaitResult() returns (g: nat)
      requires Valid() && state.pc.Draining? && state.workers != map[]
      modifies this
      ensures Passes()
      ensures state.pc.Draining? && state.workers == old(state.workers) && state.taken == old(state.taken)
      ensures state.signaled == old(state.signaled)
      ensures g < |state.gos| && state.gos[g].life.Finished?
    {
      var turn := Elapse();
      Invariant();
      var id :| id in state.workers;
      assert EntryOk(state.workers, state.gos, id);
      g := state.workers[id];
      Finish(g, turn.ok);
    }
  }

  /** What a state of the machine asks for. */
  datatype Next = Stay | EnterIdle | EnterForward(ex: Exchange) | Stop | Fail

  // ----- what each state does about whatever is ready, from `b` before to `a` after -----

  predicate JustReported(b: State, a: State, g: nat) {
    && g < |a.gos| && a.gos[g].life.Reported?
    && !(g < |b.gos| && b.gos[g].life.Reported?)
  }

  /** A result that is ready is received, and the supervisor fails exactly if it is an error. */
  predicate Heeds(b: State, a: State, g: nat, next: Next) {
    && (g < |a.gos| ==> !a.gos[g].life.Finished?)
    && next == if JustReported(b, a, g) && a.gos[g].life.failed then Fail else Stay
  }

  predicate IdleRule(event: Event, b: State, a: State, next: Next) {
    match event
    case ContextDone => next == if a.cancelled then Stop else Stay
    case Result(g) => Heeds(b, a, g, next)
    case Request(ex) => next == if ex in b.taken then Stay else EnterForward(ex)
    case WorkerReady => next.Stay?
  }

  predicate OfferRule(ex: Exchange, event: Event, b: State, a: State, next: Next) {
    && (match event
        case ContextDone => next == if a.cancelled then Stop else Stay
        case Result(g) => Heeds(b, a, g, next)
        case Request(_) => next.Stay?
        case WorkerReady =>
          && ex.streamID in a.workers
          && var g := a.workers[ex.streamID];
             && (next.EnterIdle? ==> g < |a.gos| && a.gos[g].life == Busy(ex))
             && (next.Stay? ==> g < |a.gos| ==> !a.gos[g].life.Waiting?)
             && (next.EnterIdle? || next.Stay?))
    && (next.Stop? || next.Fail? ==> a.replies != [] && a.replies[|a.replies| - 1] == Reply(ex, false))
  }

  /** A worker is started first if there is none; `first` and `last` are the turns that this takes. */
  predicate ForwardRule(ex: Exchange, first: Turn, last: Turn, b: State, a: State, next: Next) {
    if ex.streamID in b.workers || first.ok then
      OfferRule(ex, last.event, b, a, next)
    else
      next.Fail? && a.replies != [] && a.replies[|a.replies| - 1] == Reply(ex, false)
  }

  /** One call of a state, from turn `from` up to turn `to`. */
  datatype Visit = Visit(at: Next, from: nat, to: nat, before: State, after: State, next: Next)

  class Supervisor {
    const sched: Scheduler
    var workers: map<UUID, nat>

    constructor (sched: Scheduler)
      requires sched.Valid() && sched.state == Initial
      ensures this.sched == sched && At(Idle)
    {
      this.sched := sched;
      workers := map[];
    }

    /** The supervisor is at this point, and its map of workers is the true one. */
    ghost predicate At(pc: PC)
      reads this, sched
    {
      sched.Valid() && sched.state.pc == pc && sched.state.workers == workers
    }

    /** The supervisor has yet to forward this exchange. */
    ghost predicate ToForward(ex: Exchange)
      reads this, sched
    {
      At(Forwarding(ex)) || (ex.streamID in workers && At(Offering(ex, workers[ex.streamID])))
    }

    ghost predicate Entered(state: Next)
      reads this, sched
    {
      match state
      case EnterIdle => At(Idle)
      case EnterForward(ex) => ToForward(ex)
      case _ => At(Halting)
    }

    /** A worker reports its result and leaves the map. */
    method Receive(g: nat) returns (failed: bool)
      requires sched.Valid() && sched.state.workers == workers
      requires sched.state.pc.Idle? || sched.state.pc.Offering? || sched.state.pc.Draining?
      requires g < |sched.state.gos| && sched.state.gos[g].life.Finished?
      modifies this, sched
      ensures sched.Passes() && sched.clock == old(sched.clock)
      ensures sched.state.taken == old(sched.state.taken) && sched.state.signaled == old(sched.state.signaled)
      ensures sched.state.cancelled == old(sched.state.cancelled)
      ensures failed == old(sched.state.gos[g].life.failed)
      ensures failed && !old(sched.state.pc).Draining? ==> StoppedFor(sched.run, true)
      ensures g < |sched.state.gos| && sched.state.gos[g].life == Reported(failed)
      ensures old(sched.state.gos[g].streamID) !in workers
      ensures At(match old(sched.state.pc)
                 case Idle => if failed then Halting else Idle
                 case Offering(ex, _) => if failed then Refusing(ex) else Forwarding(ex)
                 case other => other)
      ensures |workers| < |old(workers)| && workers.Keys <= old(workers.Keys)
    {
      sched.Invariant();
      assert Registered(workers, sched.state.gos, g);
      var go := sched.state.gos[g];
      failed := go.life.failed;
      sched.Act(StreamLifecycle.Receive(g));
      workers := workers - {go.streamID};
    }

    /** Waits for a request. */
    method IdleState() returns (next: Next)
      requires At(Idle)
      modifies this, sched
      ensures sched.Passes() && sched.clock == old(sched.clock) + 1
      ensures Entered(if next.Stay? then EnterIdle else next)
      ensures next.Stop? || next.Fail? ==> StoppedFor(sched.run, next.Fail?)
      ensures IdleRule(sched.script(old(sched.clock)).event, old(sched.state), sched.state, next)
    {
      next := Stay;
      var turn := sched.Elapse();
      match turn.event
      case ContextDone =>
        if sched.state.cancelled {
          sched.Act(Notice);
          return Stop;
        }
      case Result(g) =>
        if g < |sched.state.gos| && sched.state.gos[g].life.Finished? {
          var failed := Receive(g);
          return if failed then Fail else Stay;
        }
      case Request(ex) =>
        if ex !in sched.state.taken {
          sched.Act(Take(ex));
          return EnterForward(ex);
        }
      case WorkerReady =>
    }

    /** The worker of the stream, which is started if it is not running. */
    method WorkerByStreamID(ex: Exchange) returns (ok: bool, g: nat)
      requires ToForward(ex)
      modifies this, sched
      ensures sched.Passes()
      ensures ex.streamID in old(workers) ==> ok && sched.clock == old(sched.clock)
      ensures ex.streamID !in old(workers) ==>
                sched.clock == old(sched.clock) + 1 && ok == sched.script(old(sched.clock)).ok
      ensures ex.streamID !in old(workers) && ok ==>
                && g == |old(sched.state.gos)| && |sched.state.gos| == g + 1
                && sched.state.gos[g] == Goroutine(ex.streamID, Starting)
      ensures sched.NoReports()
      ensures !ok ==> StoppedFor(sched.run, true)
      ensures if ok then ex.streamID in workers && workers[ex.streamID] == g && At(Offering(ex, g)) else At(Refusing(ex))
    {
      if ex.streamID in workers {
        g := workers[ex.streamID];
        sched.Act(FindWorker(true));
        return true, g;
      }
      var turn := sched.Elapse();
      g := |sched.state.gos|;
      sched.Act(FindWorker(turn.ok));
      ok := turn.ok;
      if ok {
        workers := workers[ex.streamID := g];
      }
    }

    /** Answers an exchange with an error. */
    method Refuse(ex: Exchange)
      requires At(Refusing(ex))
      modifies sched
      ensures sched.Passes() && sched.clock == old(sched.clock) && At(Halting)
      ensures forall error :: old(StoppedFor(sched.run, error)) ==> StoppedFor(sched.run, error)
      ensures sched.state.cancelled == old(sched.state.cancelled) && sched.state.gos == old(sched.state.gos)
      ensures sched.state.replies == old(sched.state.replies) + [Reply(ex, false)]
    {
      ghost var run := sched.run;
      sched.Act(StreamLifecycle.Refuse);
      forall error | StoppedFor(run, error)
        ensures StoppedFor(sched.run, error)
      {
        StoppedForGood(run, sched.run, error);
      }
    }

    /** Receives the result of a worker while an exchange is offered, which is refused if the result is an error. */
    method HeedWhileOffering(ex: Exchange, g: nat) returns (next: Next)
      requires sched.Valid() && sched.state.workers == workers && sched.state.pc.Offering? && sched.state.pc.ex == ex
      requires g < |sched.state.gos| && sched.state.gos[g].life.Finished?
      modifies this, sched
      ensures sched.Passes() && sched.clock == old(sched.clock)
      ensures next == if old(sched.state.gos[g].life.failed) then Fail else Stay
      ensures g < |sched.state.gos| && sched.state.gos[g].life == Reported(old(sched.state.gos[g].life.failed))
      ensures At(if next.Fail? then Halting else Forwarding(ex))
      ensures next.Fail? ==> StoppedFor(sched.run, true)
      ensures next.Fail? ==>
                sched.state.replies != [] && sched.state.replies[|sched.state.replies| - 1] == Reply(ex, false)
    {
      var failed := Receive(g);
      next := Stay;
      if failed {
        Refuse(ex);
        next := Fail;
      }
    }

    /** Offers an exchange to a worker until something becomes ready. */
    method Offer(ex: Exchange, g: nat) returns (next: Next)
      requires ex.streamID in workers && workers[ex.streamID] == g && At(Offering(ex, g))
      modifies this, sched
      ensures sched.Passes() && sched.clock == old(sched.clock) + 1
      ensures Entered(if next.Stay? then EnterForward(ex) else next)
      ensures next.Stop? || next.Fail? ==> StoppedFor(sched.run, next.Fail?)
      ensures OfferRule(ex, sched.script(old(sched.clock)).event, old(sched.state), sched.state, next)
    {
      next := Stay;
      var turn := sched.Elapse();
      match turn.event
      case ContextDone =>
        if sched.state.cancelled {
          sched.Act(Notice);
          Refuse(ex);
          return Stop;
        }
      case Result(g') =>
        if g' < |sched.state.gos| && sched.state.gos[g'].life.Finished? {
          next := HeedWhileOffering(ex, g');
        }
      case Request(_) =>
      case WorkerReady =>
        if g < |sched.state.gos| && sched.state.gos[g].life.Waiting? {
          sched.Act(HandOver);
          return EnterIdle;
        }
    }

    /** Forwards an exchange to the worker of its stream. */
    method ForwardAppendState(ex: Exchange) returns (next: Next)
      requires ToForward(ex)
      modifies this, sched
      ensures sched.Passes() && old(sched.clock) < sched.clock
      ensures Entered(if next.Stay? then EnterForward(ex) else next)
      ensures next.Stop? || next.Fail? ==> StoppedFor(sched.run, next.Fail?)
      ensures ForwardRule(ex, sched.script(old(sched.clock)), sched.script(sched.clock - 1),
                          old(sched.state), sched.state, next)
    {
      var ok, g := WorkerByStreamID(ex);
      if ok {
        next := Offer(ex, g);
      } else {
        Refuse(ex);
        next := Fail;
      }
    }

    /** Sets the shutdown latch of every worker. */
    method SignalWorkers()
      requires At(Halting)
      modifies sched
      ensures sched.Passes() && At(Halting)
      ensures forall id :: id in workers ==> workers[id] in sched.state.signaled
    {
      var left := workers.Keys;
      while left != {}
        invariant sched.Passes() && At(Halting) && left <= workers.Keys
        invariant forall id :: id in workers && id !in left ==> workers[id] in sched.state.signaled
        decreases left
      {
        var id :| id in left;
        assert workers[id] in workers.Values;
        sched.Act(Signal(workers[id]));
        left := left - {id};
      }
    }

    /** Tells all workers to shut down and waits for them to finish. */
    method ShutdownState()
      requires At(Halting)
      modifies this, sched
      ensures sched.Passes()
      ensures At(Returned) && workers == map[]
      ensures forall id :: id in old(workers) ==> old(workers)[id] in sched.state.signaled
    {
      SignalWorkers();
      assert Unsignaled(sched.state) == {};
      sched.Act(Drain);
      while |workers| > 0
        invariant sched.Passes()
        invariant At(Draining)
        invariant forall id :: id in old(workers) ==> old(workers)[id] in sched.state.signaled
        decreases |workers|
      {
        var g := sched.AwaitResult();
        var _ := Receive(g);
      }
      sched.Act(Return);
    }

    /** The call followed the rule of its state. */
    predicate VisitOk(v: Visit) {
      && v.from < v.to
      && match v.at
         case EnterIdle => v.to == v.from + 1 && IdleRule(sched.script(v.from).event, v.before, v.after, v.next)
         case EnterForward(ex) =>
           ForwardRule(ex, sched.script(v.from), sched.script(v.to - 1), v.before, v.after, v.next)
         case _ => false
    }

    /** Each call begins where the one before it ended, in the state that it asked for. */
    predicate Continues(u: Visit, v: Visit) {
      && v.from == u.to && v.before == u.after
      && !u.next.Stop? && !u.next.Fail?
      && v.at == if u.next.Stay? then u.at else u.next
    }

    ghost predicate Visits(from: nat, before: State, log: seq<Visit>) {
      && (log != [] ==> log[0].at == EnterIdle && log[0].from == from && log[0].before == before)
      && (forall i :: 0 <= i < |log| ==> VisitOk(log[i]))
      && (forall i, j :: 0 <= i && j == i + 1 < |log| ==> Continues(log[i], log[j]))
    }

    lemma OneMoreVisit(from: nat, before: State, log: seq<Visit>, v: Visit)
      requires Visits(from, before, log) && VisitOk(v)
      requires if log == [] then v.at == EnterIdle && v.from == from && v.before == before
               else Continues(log[|log| - 1], v)
      ensures Visits(from, before, log + [v])
    {
    }

    /** In this turn at the latest, a supervisor that has been running since turn `from` has nothing to do but stop. */
    ghost predicate MustStopAt(from: nat, cancelled: bool, t: nat) {
      && from <= t && sched.NothingElseReady(t)
      && (cancelled || exists k :: from <= k < t && sched.CancelsAt(k))
    }

    lemma MustStop(from: nat, cancelled: bool, t: nat)
      requires MustStopAt(from, cancelled, t) && t <= sched.clock
      requires cancelled ==> sched.state.cancelled
      requires forall k :: from <= k < sched.clock && sched.CancelsAt(k) ==> sched.state.cancelled
      ensures sched.state.cancelled && sched.NothingElseReady(sched.clock)
    {
    }

    /** Calls a state, and records the call. */
    method EnterState(current: Next) returns (next: Next, ghost visit: Visit)
      requires (current.EnterIdle? || current.EnterForward?) && Entered(current)
      modifies this, sched
      ensures sched.Passes()
      ensures visit == Visit(current, old(sched.clock), sched.clock, old(sched.state), sched.state, next) && VisitOk(visit)
      ensures Entered(if next.Stay? then current else next)
      ensures next.Stop? || next.Fail? ==> StoppedFor(sched.run, next.Fail?)
      ensures old(sched.state.cancelled) && sched.NothingElseReady(old(sched.clock)) ==> next.Stop? || next.Fail?
    {
      ghost var before, from := sched.state, sched.clock;
      if current.EnterIdle? {
        next := IdleState();
      } else {
        next := ForwardAppendState(current.ex);
      }
      visit := Visit(current, from, sched.clock, before, sched.state, next);
    }

    /**
     * Runs the supervisor for a number of states at most. When it returns for good, every exchange that it took
     * has exactly one answer, no worker is left, and the others have been answered by nobody. It does not return
     * before all those states were entered unless it is to stop; and it does return once the context is cancelled
     * and nothing else is ready. The error is that of a worker, unless it stopped for the cancelled context. `log` tells
     * which states it went through; in each of them it did what the rule of the state says about whatever was ready.
     */
    method Run(fuel: nat) returns (returned: bool, error: bool, ghost log: seq<Visit>)
      requires At(Idle)
      modifies this, sched
      ensures sched.Passes()
      ensures Visits(old(sched.clock), old(sched.state), log)
      ensures if returned then log != [] && log[|log| - 1].next == (if error then Fail else Stop) else |log| == fuel
      ensures returned ==> StoppedFor(sched.run, error)
      ensures returned ==> At(Returned) && workers == map[]
      ensures returned ==> forall ex ::
                Answers(sched.state.replies, |sched.state.replies|, ex) == if ex in sched.state.taken then 1 else 0
      ensures !returned ==> old(sched.clock) + fuel <= sched.clock && (At(Idle) || exists ex :: ToForward(ex))
      ensures forall t: nat {:trigger MustStopAt(old(sched.clock), old(sched.state.cancelled), t)} ::
                MustStopAt(old(sched.clock), old(sched.state.cancelled), t) && t < old(sched.clock) + fuel ==> returned
    {
      var current := EnterIdle;
      ghost var last := 0;
      log := [];
      for i := 0 to fuel
        invariant sched.Passes()
        invariant (current.EnterIdle? || current.EnterForward?) && Entered(current)
        invariant |log| == i && Visits(old(sched.clock), old(sched.state), log)
        invariant if log == [] then
                    current == EnterIdle && sched.clock == old(sched.clock) && sched.state == old(sched.state)
                  else
                    Continues(log[i - 1], Visit(current, sched.clock, sched.clock + 1, sched.state, sched.state, Stay))
        invariant old(sched.clock) + i <= sched.clock
        invariant 0 < i ==> old(sched.clock) + i - 1 <= last
        invariant 0 < i ==> forall t: nat {:trigger MustStopAt(old(sched.clock), old(sched.state.cancelled), t)} ::
                    MustStopAt(old(sched.clock), old(sched.state.cancelled), t) ==> last < t
      {
        last := sched.clock;
        forall t: nat | MustStopAt(old(sched.clock), old(sched.state.cancelled), t) && t <= last
          ensures sched.state.cancelled && sched.NothingElseReady(last)
        {
          MustStop(old(sched.clock), old(sched.state.cancelled), t);
        }
        var next;
        ghost var visit;
        next, visit := EnterState(current);
        OneMoreVisit(old(sched.clock), old(sched.state), log, visit);
        log := log + [visit];
        if next.Stop? || next.Fail? {
          ghost var run := sched.run;
          ShutdownState();
          AllAnswered();
          StoppedForGood(run, sched.run, next.Fail?);
          return true, next.Fail?, log;
        }
        if !next.Stay? {
          current := next;
        }
      }
      returned, error := false, false;
    }

    lemma AllAnswered()
      requires At(Returned)
      ensures forall ex ::
                Answers(sched.state.replies, |sched.state.replies|, ex) == if ex in sched.state.taken then 1 else 0
    {
      assert sched.state == After(sched.run);
      forall ex
        ensures Answers(sched.state.replies, |sched.state.replies|, ex) == if ex in sched.state.taken then 1 else 0
      {
        AllAnsweredInTheEnd(sched.run, ex);
      }
    }
  }
}
