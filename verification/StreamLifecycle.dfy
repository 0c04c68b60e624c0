/**
 * The event-stream supervisor and its workers as a state machine: which goroutines run, who holds each exchange, and
 * how it is answered. Each step is one receive, send or call of one goroutine, so a run is any interleaving.
 *
 * A step that is not enabled leaves the system as it is; hence every sequence of actions is a run.
 */
module StreamLifecycle {
  import opened Common

  /** A request together with the channel that its one response goes to. */
  datatype Exchange = Exchange(id: nat, streamID: UUID)

  /** What a worker is doing. `Finished` waits to report to the supervisor, `Reported` has done so. */
  datatype Life = Starting | Waiting | Busy(ex: Exchange) | Finished(failed: bool) | Reported(failed: bool)

  datatype Goroutine = Goroutine(streamID: UUID, life: Life)

  /**
   * Where the supervisor is: `Offering` offers an exchange to a worker, `Refusing` is about to answer it with an
   * error, `Halting` tells the workers to shut down, `Draining` waits for them, and `Returned` is the end.
   */
  datatype PC =
    | Idle
    | Forwarding(ex: Exchange)
    | Offering(ex: Exchange, g: nat)
    | Refusing(ex: Exchange)
    | Halting
    | Draining
    | Returned

  datatype Reply = Reply(ex: Exchange, ok: bool)

  datatype State = State(
    pc: PC,
    workers: map<UUID, nat>,
    gos: seq<Goroutine>,
    signaled: set<nat>,
    cancelled: bool,
    latched: bool,
    taken: set<Exchange>,
    replies: seq<Reply>)

  datatype Action =
    | Cancel                                // the context is cancelled
    | RequestShutdown                       // the shutdown latch of the supervisor is set
    | Take(ex: Exchange)                    // the supervisor dequeues an exchange
    | FindWorker(ok: bool)                  // it looks up the worker of the stream, and starts one if there is none
    | HandOver                              // the worker dequeues the exchange
    | Receive(g: nat)                       // the supervisor receives the result of a worker
    | Notice                                // it notices that the context is cancelled
    | Refuse                                // it answers with an error
    | Signal(g: nat)                        // it sets the shutdown latch of a worker
    | Drain                                 // it has told all workers, and begins to wait for them
    | Return                                // it has drained the workers
    | Ready(g: nat, ok: bool)               // a worker has read the last record of its journal
    | Answer(g: nat, ok: bool)              // a worker answers the exchange that it is busy with
    | TimeOut(g: nat)                       // a worker has been idle for too long
    | HeedShutdown(g: nat)                  // a worker notices its shutdown latch
    | HeedCancel(g: nat)                    // a worker notices that the context is cancelled

  const Initial := State(Idle, map[], [], {}, false, false, {}, [])

  function Respond(s: State, ex: Exchange, ok: bool): State {
    s.(replies := s.replies + [Reply(ex, ok)])
  }

  function SetLife(s: State, g: nat, life: Life): State
    requires g < |s.gos|
  {
    s.(gos := s.gos[g := s.gos[g].(life := life)])
  }

  function DoFindWorker(s: State, ex: Exchange, ok: bool): State {
    if ex.streamID in s.workers then s.(pc := Offering(ex, s.workers[ex.streamID]))
    else if ok then
      var g := |s.gos|;
      s.(pc := Offering(ex, g),
         gos := s.gos + [Goroutine(ex.streamID, Starting)],
         workers := s.workers[ex.streamID := g])
    else s.(pc := Refusing(ex))
  }

  function DoReceive(s: State, g: nat): State
    requires g < |s.gos| && s.gos[g].life.Finished?
  {
    var failed := s.gos[g].life.failed;
    var s' := SetLife(s, g, Reported(failed)).(workers := s.workers - {s.gos[g].streamID});
    match s.pc
    case Idle => if failed then s'.(pc := Halting) else s'
    case Offering(ex, _) => s'.(pc := if failed then Refusing(ex) else Forwarding(ex))
    case Draining => s'
    case _ => s
  }

  /** The streams whose workers are still to be told to shut down. */
  function Unsignaled(s: State): set<UUID> {
    set id | id in s.workers && s.workers[id] !in s.signaled
  }

  /** An idle worker stops. What it reports is the error of the context, if there is one. */
  function Retire(s: State, g: nat): State {
    if g < |s.gos| && s.gos[g].life.Waiting? then SetLife(s, g, Finished(s.cancelled)) else s
  }

  function Step(s: State, a: Action): State {
    match a
    case Cancel => s.(cancelled := true)
    case RequestShutdown => s.(latched := true)
    case Take(ex) =>
      if s.pc != Idle || ex in s.taken then s
      else s.(pc := Forwarding(ex), taken := s.taken + {ex})
    case FindWorker(ok) =>
      if s.pc.Forwarding? then DoFindWorker(s, s.pc.ex, ok) else s
    case HandOver =>
      if s.pc.Offering? && s.pc.g < |s.gos| && s.gos[s.pc.g].life == Waiting then
        SetLife(s, s.pc.g, Busy(s.pc.ex)).(pc := Idle)
      else s
    case Receive(g) =>
      if g < |s.gos| && s.gos[g].life.Finished? then DoReceive(s, g) else s
    case Notice =>
      if !s.cancelled then s
      else if s.pc.Idle? then s.(pc := Halting)
      else if s.pc.Offering? then s.(pc := Refusing(s.pc.ex))
      else s
    case Refuse =>
      if s.pc.Refusing? then Respond(s, s.pc.ex, false).(pc := Halting) else s
    case Signal(g) =>
      if s.pc.Halting? && g in s.workers.Values then s.(signaled := s.signaled + {g}) else s
    case Drain =>
      if s.pc.Halting? && Unsignaled(s) == {} then s.(pc := Draining) else s
    case Return =>
      if s.pc.Draining? && s.workers == map[] then s.(pc := Returned) else s
    case Ready(g, ok) =>
      if g < |s.gos| && s.gos[g].life.Starting? then SetLife(s, g, if ok then Waiting else Finished(true)) else s
    case Answer(g, ok) =>
      if g < |s.gos| && s.gos[g].life.Busy? then
        Respond(SetLife(s, g, if ok then Waiting else Finished(true)), s.gos[g].life.ex, ok)
      else s
    case TimeOut(g) => Retire(s, g)
    case HeedShutdown(g) => if g in s.signaled then Retire(s, g) else s
    case HeedCancel(g) => if s.cancelled then Retire(s, g) else s
  }

  function After(run: seq<Action>): State {
    Fold(Step, Initial, run)
  }

  lemma AfterSnoc(run: seq<Action>, a: Action)
    ensures After(run + [a]) == Step(After(run), a)
  {
    assert (run + [a])[..|run|] == run;
  }

  // ----- the workers map -----

  /** Goroutine `g` is in the map exactly as long as it has not reported. */
  ghost predicate Registered(workers: map<UUID, nat>, gos: seq<Goroutine>, g: nat)
    requires g < |gos|
  {
    !gos[g].life.Reported? <==> gos[g].streamID in workers && workers[gos[g].streamID] == g
  }

  /** An entry of the map leads to a worker of that very stream. */
  ghost predicate EntryOk(workers: map<UUID, nat>, gos: seq<Goroutine>, id: UUID)
    requires id in workers
  {
    workers[id] < |gos| && gos[workers[id]].streamID == id && !gos[workers[id]].life.Reported?
  }

  /** The map holds exactly the workers that were started and have not reported, at most one for each stream. */
  ghost predicate MapOk(workers: map<UUID, nat>, gos: seq<Goroutine>) {
    && (forall g :: 0 <= g < |gos| ==> Registered(workers, gos, g))
    && (forall id :: id in workers ==> EntryOk(workers, gos, id))
  }

  /** Exchanges are offered to, and held by, workers of their stream only. */
  ghost predicate RoutedOk(pc: PC, gos: seq<Goroutine>) {
    && (pc.Offering? ==> pc.g < |gos| && gos[pc.g].streamID == pc.ex.streamID && !gos[pc.g].life.Reported?)
    && (forall g :: 0 <= g < |gos| && gos[g].life.Busy? ==> gos[g].life.ex.streamID == gos[g].streamID)
  }

  /** Once the supervisor drains, every worker that is left has been told to shut down; in the end none is left. */
  ghost predicate DrainOk(pc: PC, workers: map<UUID, nat>, signaled: set<nat>) {
    && (pc.Draining? ==> forall id :: id in workers ==> workers[id] in signaled)
    && (pc.Returned? ==> workers == map[])
  }

  ghost predicate Structure(s: State) {
    MapOk(s.workers, s.gos) && RoutedOk(s.pc, s.gos) && DrainOk(s.pc, s.workers, s.signaled)
  }

  // ----- who holds an exchange -----

  function HeldBySupervisor(s: State, ex: Exchange): nat {
    if (s.pc.Forwarding? || s.pc.Offering? || s.pc.Refusing?) && s.pc.ex == ex then 1 else 0
  }

  /** How many of the first `n` goroutines are busy with the exchange. */
  function HeldByWorkers(gos: seq<Goroutine>, n: nat, ex: Exchange): nat
    requires n <= |gos|
  {
    if n == 0 then 0 else HeldByWorkers(gos, n - 1, ex) + if gos[n - 1].life == Busy(ex) then 1 else 0
  }

  function Answers(replies: seq<Reply>, n: nat, ex: Exchange): nat
    requires n <= |replies|
  {
    if n == 0 then 0 else Answers(replies, n - 1, ex) + if replies[n - 1].ex == ex then 1 else 0
  }

  /** Each exchange taken from the queue is held once or answered once, and never both. */
  ghost predicate Conserved(s: State, ex: Exchange) {
    HeldBySupervisor(s, ex) + HeldByWorkers(s.gos, |s.gos|, ex) + Answers(s.replies, |s.replies|, ex) ==
    if ex in s.taken then 1 else 0
  }

  ghost predicate Inv(s: State) {
    Structure(s) && forall ex :: Conserved(s, ex)
  }

  lemma {:induction false} HeldStable(gos: seq<Goroutine>, gos': seq<Goroutine>, n: nat, ex: Exchange)
    requires n <= |gos| && n <= |gos'| && forall g :: 0 <= g < n ==> gos[g] == gos'[g]
    ensures HeldByWorkers(gos, n, ex) == HeldByWorkers(gos', n, ex)
  {
    if n != 0 {
      HeldStable(gos, gos', n - 1, ex);
    }
  }

  /** One goroutine changes: the count changes by what it held and what it holds. */
  lemma {:induction false} HeldUpdate(gos: seq<Goroutine>, g: nat, go: Goroutine, n: nat, ex: Exchange)
    requires g < n <= |gos|
    ensures HeldByWorkers(gos[g := go], n, ex) + (if gos[g].life == Busy(ex) then 1 else 0) ==
            HeldByWorkers(gos, n, ex) + (if go.life == Busy(ex) then 1 else 0)
  {
    if g == n - 1 {
      HeldStable(gos, gos[g := go], n - 1, ex);
    } else {
      HeldUpdate(gos, g, go, n - 1, ex);
    }
  }

  lemma {:induction false} AnswersStable(rs: seq<Reply>, rs': seq<Reply>, n: nat, ex: Exchange)
    requires n <= |rs| && n <= |rs'| && forall k :: 0 <= k < n ==> rs[k] == rs'[k]
    ensures Answers(rs, n, ex) == Answers(rs', n, ex)
  {
    if n != 0 {
      AnswersStable(rs, rs', n - 1, ex);
    }
  }

  lemma AnswersSnoc(rs: seq<Reply>, r: Reply, ex: Exchange)
    ensures Answers(rs + [r], |rs| + 1, ex) == Answers(rs, |rs|, ex) + if r.ex == ex then 1 else 0
  {
    AnswersStable(rs, rs + [r], |rs|, ex);
  }

  // ----- what each step does to the structure -----

  /** A worker that goes on to something else stays registered. */
  lemma MapKeptByLife(workers: map<UUID, nat>, gos: seq<Goroutine>, g: nat, life: Life)
    requires MapOk(workers, gos) && g < |gos| && !gos[g].life.Reported? && !life.Reported?
    ensures MapOk(workers, gos[g := gos[g].(life := life)])
  {
    var gos' := gos[g := gos[g].(life := life)];
    forall k | 0 <= k < |gos'|
      ensures Registered(workers, gos', k)
    {
      assert Registered(workers, gos, k);
    }
    forall id | id in workers
      ensures EntryOk(workers, gos', id)
    {
      assert EntryOk(workers, gos, id);
    }
  }

  /** A worker is started for a stream that has none. */
  lemma MapKeptByStart(workers: map<UUID, nat>, gos: seq<Goroutine>, id: UUID)
    requires MapOk(workers, gos) && id !in workers
    ensures MapOk(workers[id := |gos|], gos + [Goroutine(id, Starting)])
  {
    var workers', gos' := workers[id := |gos|], gos + [Goroutine(id, Starting)];
    forall k | 0 <= k < |gos'|
      ensures Registered(workers', gos', k)
    {
      if k < |gos| {
        assert Registered(workers, gos, k);
      }
    }
    forall id' | id' in workers'
      ensures EntryOk(workers', gos', id')
    {
      if id' in workers {
        assert EntryOk(workers, gos, id');
      }
    }
  }

  /** A worker reports and leaves the map. */
  lemma MapKeptByReport(workers: map<UUID, nat>, gos: seq<Goroutine>, g: nat, failed: bool)
    requires MapOk(workers, gos) && g < |gos| && !gos[g].life.Reported?
    ensures MapOk(workers - {gos[g].streamID}, gos[g := gos[g].(life := Reported(failed))])
  {
    var workers', gos' := workers - {gos[g].streamID}, gos[g := gos[g].(life := Reported(failed))];
    assert Registered(workers, gos, g);
    forall k | 0 <= k < |gos'|
      ensures Registered(workers', gos', k)
    {
      assert Registered(workers, gos, k);
    }
    forall id | id in workers'
      ensures EntryOk(workers', gos', id)
    {
      assert EntryOk(workers, gos, id);
    }
  }

  lemma ReceiveKeepsStructure(s: State, g: nat)
    requires Structure(s) && g < |s.gos| && s.gos[g].life.Finished?
    ensures Structure(DoReceive(s, g))
  {
    MapKeptByReport(s.workers, s.gos, g, s.gos[g].life.failed);
  }

  lemma RetireKeepsStructure(s: State, g: nat)
    requires Structure(s)
    ensures Structure(Retire(s, g))
  {
    if g < |s.gos| && s.gos[g].life.Waiting? {
      MapKeptByLife(s.workers, s.gos, g, Finished(s.cancelled));
    }
  }

  lemma FindWorkerKeepsStructure(s: State, ex: Exchange, ok: bool)
    requires Structure(s) && s.pc == Forwarding(ex)
    ensures Structure(DoFindWorker(s, ex, ok))
  {
    if ex.streamID in s.workers {
      assert EntryOk(s.workers, s.gos, ex.streamID);
    } else if ok {
      MapKeptByStart(s.workers, s.gos, ex.streamID);
    }
  }

  lemma StructureKept(s: State, a: Action)
    requires Structure(s)
    ensures Structure(Step(s, a))
  {
    match a
    case FindWorker(ok) =>
      if s.pc.Forwarding? {
        FindWorkerKeepsStructure(s, s.pc.ex, ok);
      }
    case HandOver =>
      if s.pc.Offering? && s.gos[s.pc.g].life == Waiting {
        MapKeptByLife(s.workers, s.gos, s.pc.g, Busy(s.pc.ex));
      }
    case Receive(g) =>
      if g < |s.gos| && s.gos[g].life.Finished? {
        ReceiveKeepsStructure(s, g);
      }
    case Ready(g, ok) =>
      if g < |s.gos| && s.gos[g].life.Starting? {
        MapKeptByLife(s.workers, s.gos, g, if ok then Waiting else Finished(true));
      }
    case Answer(g, ok) =>
      if g < |s.gos| && s.gos[g].life.Busy? {
        MapKeptByLife(s.workers, s.gos, g, if ok then Waiting else Finished(true));
      }
    case Drain =>
      assert forall id :: id in s.workers && s.workers[id] !in s.signaled ==> id in Unsignaled(s);
    case TimeOut(g) => RetireKeepsStructure(s, g);
    case HeedShutdown(g) => RetireKeepsStructure(s, g);
    case HeedCancel(g) => RetireKeepsStructure(s, g);
    case _ =>
  }

  // ----- what each step does to an exchange -----

  lemma LifeCounts(s: State, g: nat, life: Life, ex: Exchange)
    requires g < |s.gos|
    ensures var s' := SetLife(s, g, life);
            HeldByWorkers(s'.gos, |s'.gos|, ex) + (if s.gos[g].life == Busy(ex) then 1 else 0) ==
            HeldByWorkers(s.gos, |s.gos|, ex) + (if life == Busy(ex) then 1 else 0)
  {
    HeldUpdate(s.gos, g, s.gos[g].(life := life), |s.gos|, ex);
  }

  lemma RespondCounts(s: State, ex': Exchange, ok: bool, ex: Exchange)
    ensures var s' := Respond(s, ex', ok);
            Answers(s'.replies, |s'.replies|, ex) == Answers(s.replies, |s.replies|, ex) + if ex' == ex then 1 else 0
  {
    AnswersSnoc(s.replies, Reply(ex', ok), ex);
  }

  lemma FindWorkerConserves(s: State, ok: bool, ex: Exchange)
    requires Conserved(s, ex) && s.pc.Forwarding?
    ensures Conserved(DoFindWorker(s, s.pc.ex, ok), ex)
  {
    HeldStable(s.gos, s.gos + [Goroutine(s.pc.ex.streamID, Starting)], |s.gos|, ex);
  }

  lemma ReceiveConserves(s: State, g: nat, ex: Exchange)
    requires Conserved(s, ex) && g < |s.gos| && s.gos[g].life.Finished?
    ensures Conserved(DoReceive(s, g), ex)
  {
    LifeCounts(s, g, Reported(s.gos[g].life.failed), ex);
  }

  lemma AnswerConserves(s: State, g: nat, ok: bool, ex: Exchange)
    requires Conserved(s, ex)
    ensures Conserved(Step(s, Answer(g, ok)), ex)
  {
    if g < |s.gos| && s.gos[g].life.Busy? {
      LifeCounts(s, g, if ok then Waiting else Finished(true), ex);
      RespondCounts(s, s.gos[g].life.ex, ok, ex);
    }
  }

  lemma RetireConserves(s: State, g: nat, ex: Exchange)
    requires Conserved(s, ex)
    ensures Conserved(Retire(s, g), ex)
  {
    if g < |s.gos| && s.gos[g].life.Waiting? {
      LifeCounts(s, g, Finished(s.cancelled), ex);
    }
  }

  lemma StepConserves(s: State, a: Action, ex: Exchange)
    requires Conserved(s, ex)
    ensures Conserved(Step(s, a), ex)
  {
    match a
    case FindWorker(ok) =>
      if s.pc.Forwarding? { FindWorkerConserves(s, ok, ex); }
    case Receive(g) =>
      if g < |s.gos| && s.gos[g].life.Finished? { ReceiveConserves(s, g, ex); }
    case HandOver =>
      if s.pc.Offering? && s.pc.g < |s.gos| { LifeCounts(s, s.pc.g, Busy(s.pc.ex), ex); }
    case Refuse =>
      if s.pc.Refusing? { RespondCounts(s, s.pc.ex, false, ex); }
    case Ready(g, ok) =>
      if g < |s.gos| { LifeCounts(s, g, if ok then Waiting else Finished(true), ex); }
    case Answer(g, ok) => AnswerConserves(s, g, ok, ex);
    case TimeOut(g) => RetireConserves(s, g, ex);
    case HeedShutdown(g) => RetireConserves(s, g, ex);
    case HeedCancel(g) => RetireConserves(s, g, ex);
    case _ =>
  }

  lemma {:induction false} Always(run: seq<Action>)
    ensures Inv(After(run))
  {
    if run != [] {
      var s, a := After(run[..|run| - 1]), run[|run| - 1];
      Always(run[..|run| - 1]);
      StructureKept(s, a);
      forall ex
        ensures Conserved(Step(s, a), ex)
      {
        StepConserves(s, a, ex);
      }
    }
  }

  // ----- what holds of every run -----

  /** The map of workers holds exactly the workers that were started and have not reported, one for each stream. */
  lemma WorkersAreTheUnreported(run: seq<Action>, id: UUID, g: nat)
    ensures var s := After(run);
            id in s.workers && s.workers[id] == g <==>
            g < |s.gos| && s.gos[g].streamID == id && !s.gos[g].life.Reported?
  {
    Always(run);
    var s := After(run);
    if id in s.workers {
      assert EntryOk(s.workers, s.gos, id);
    }
    if g < |s.gos| {
      assert Registered(s.workers, s.gos, g);
    }
  }

  lemma {:induction false} HeldSomewhere(gos: seq<Goroutine>, n: nat, ex: Exchange) returns (g: nat)
    requires n <= |gos| && HeldByWorkers(gos, n, ex) > 0
    ensures g < n && gos[g].life == Busy(ex)
  {
    if gos[n - 1].life == Busy(ex) {
      g := n - 1;
    } else {
      g := HeldSomewhere(gos, n - 1, ex);
    }
  }

  /** No exchange is ever answered twice, and none that was not taken is answered at all. */
  lemma AnsweredAtMostOnce(run: seq<Action>, ex: Exchange)
    ensures var s := After(run);
            Answers(s.replies, |s.replies|, ex) <= if ex in s.taken then 1 else 0
  {
    Always(run);
    assert Conserved(After(run), ex);
  }

  /** An exchange that was taken and is not answered yet is held by the supervisor or by a worker of its stream. */
  lemma NeverLost(run: seq<Action>, ex: Exchange)
    requires ex in After(run).taken && Answers(After(run).replies, |After(run).replies|, ex) == 0
    ensures var s := After(run);
            if (s.pc.Forwarding? || s.pc.Offering? || s.pc.Refusing?) && s.pc.ex == ex
            then HeldByWorkers(s.gos, |s.gos|, ex) == 0
            else ex.streamID in s.workers && s.workers[ex.streamID] < |s.gos|
                 && s.gos[s.workers[ex.streamID]].life == Busy(ex)
  {
    Always(run);
    var s := After(run);
    assert Conserved(s, ex);
    if HeldBySupervisor(s, ex) == 0 {
      var g := HeldSomewhere(s.gos, |s.gos|, ex);
      assert Registered(s.workers, s.gos, g);
    }
  }

  /** When the supervisor returns, no worker is left and every exchange that it took has exactly one answer. */
  lemma AllAnsweredInTheEnd(run: seq<Action>, ex: Exchange)
    requires After(run).pc.Returned?
    ensures var s := After(run);
            && s.workers == map[]
            && (forall g :: 0 <= g < |s.gos| ==> s.gos[g].life.Reported?)
            && Answers(s.replies, |s.replies|, ex) == if ex in s.taken then 1 else 0
  {
    Always(run);
    var s := After(run);
    forall g | 0 <= g < |s.gos|
      ensures s.gos[g].life.Reported?
    {
      assert Registered(s.workers, s.gos, g);
    }
    assert Conserved(s, ex);
    if HeldByWorkers(s.gos, |s.gos|, ex) > 0 {
      var g := HeldSomewhere(s.gos, |s.gos|, ex);
    }
  }

  /** What makes the supervisor stop: a cancelled context, or a worker that cannot be started or that fails. */
  predicate IsTrouble(a: Action) {
    match a
    case Cancel => true
    case FindWorker(ok) => !ok
    case Ready(_, ok) => !ok
    case Answer(_, ok) => !ok
    case _ => false
  }

  ghost predicate Untroubled(s: State) {
    && !s.cancelled && (s.pc.Idle? || s.pc.Forwarding? || s.pc.Offering?)
    && (forall g :: 0 <= g < |s.gos| && s.gos[g].life.Finished? ==> !s.gos[g].life.failed)
    && (forall k :: 0 <= k < |s.replies| ==> s.replies[k].ok)
  }

  lemma StaysUntroubled(s: State, a: Action)
    requires Untroubled(s) && !IsTrouble(a)
    ensures Untroubled(Step(s, a))
  {
  }

  /**
   * Idle timeouts alone, and workers that come and go, never make the supervisor stop or refuse an exchange, and every
   * answer given is a success.
   */
  lemma {:induction false} StopsOnlyForAReason(run: seq<Action>)
    requires forall i :: 0 <= i < |run| ==> !IsTrouble(run[i])
    ensures Untroubled(After(run))
  {
    if run != [] {
      var init, a := run[..|run| - 1], run[|run| - 1];
      StopsOnlyForAReason(init);
      StaysUntroubled(After(init), a);
    }
  }

  // ----- what exactly makes a worker end, an answer be given, and the supervisor stop -----

  /** The worker ends in this step, with an error or without. */
  predicate Ends(s: State, a: Action, g: nat, failed: bool) {
    && g < |s.gos|
    && match a
       case Ready(h, ok) => h == g && s.gos[g].life.Starting? && !ok && failed
       case Answer(h, ok) => h == g && s.gos[g].life.Busy? && !ok && failed
       case TimeOut(h) => h == g && s.gos[g].life.Waiting? && failed == s.cancelled
       case HeedShutdown(h) => h == g && s.gos[g].life.Waiting? && g in s.signaled && failed == s.cancelled
       case HeedCancel(h) => h == g && s.gos[g].life.Waiting? && s.cancelled && failed
       case _ => false
  }

  predicate Ended(s: State, g: nat, failed: bool) {
    g < |s.gos| && (s.gos[g].life == Finished(failed) || s.gos[g].life == Reported(failed))
  }

  lemma EndsStep(s: State, a: Action, g: nat, failed: bool)
    ensures Ended(Step(s, a), g, failed) <==> Ended(s, g, failed) || Ends(s, a, g, failed)
  {
  }

  ghost predicate EndsIn(run: seq<Action>, i: nat, g: nat, failed: bool) {
    i < |run| && Ends(After(run[..i]), run[i], g, failed)
  }

  /**
   * A worker has ended with an error exactly if it could not start, failed to append, or stopped when the context was
   * cancelled; and without one exactly if it stopped, for a timeout or as told, when the context was not.
   */
  lemma {:induction false} WorkerEndsIff(run: seq<Action>, g: nat, failed: bool)
    ensures Ended(After(run), g, failed) <==> exists i: nat :: EndsIn(run, i, g, failed)
  {
    if run != [] {
      var n := |run| - 1;
      WorkerEndsIff(run[..n], g, failed);
      EndsStep(After(run[..n]), run[n], g, failed);
      forall i: nat | i < n
        ensures EndsIn(run[..n], i, g, failed) <==> EndsIn(run, i, g, failed)
      {
        assert run[..n][..i] == run[..i];
      }
      assert EndsIn(run, n, g, failed) <==> Ends(After(run[..n]), run[n], g, failed);
      if exists i: nat :: EndsIn(run[..n], i, g, failed) {
        var i: nat :| EndsIn(run[..n], i, g, failed);
        assert EndsIn(run, i, g, failed);
      }
    }
  }

  /** The exchange is answered in this step: by its worker, with the result, or by the supervisor, with an error. */
  predicate GivesAnswer(s: State, a: Action, ex: Exchange, ok: bool) {
    match a
    case Answer(g, result) => g < |s.gos| && s.gos[g].life == Busy(ex) && ok == result
    case Refuse => s.pc == Refusing(ex) && !ok
    case _ => false
  }

  lemma GivesAnswerStep(s: State, a: Action, ex: Exchange, ok: bool)
    ensures Reply(ex, ok) in Step(s, a).replies <==> Reply(ex, ok) in s.replies || GivesAnswer(s, a, ex, ok)
  {
  }

  ghost predicate AnswersIn(run: seq<Action>, i: nat, ex: Exchange, ok: bool) {
    i < |run| && GivesAnswer(After(run[..i]), run[i], ex, ok)
  }

  /**
   * An exchange is answered with success exactly if a worker that was busy with it succeeded, and with an error exactly
   * if a worker that was busy with it failed or the supervisor refused it.
   */
  lemma {:induction false} RepliesIff(run: seq<Action>, ex: Exchange, ok: bool)
    ensures Reply(ex, ok) in After(run).replies <==> exists i: nat :: AnswersIn(run, i, ex, ok)
  {
    if run != [] {
      var n := |run| - 1;
      RepliesIff(run[..n], ex, ok);
      GivesAnswerStep(After(run[..n]), run[n], ex, ok);
      forall i: nat | i < n
        ensures AnswersIn(run[..n], i, ex, ok) <==> AnswersIn(run, i, ex, ok)
      {
        assert run[..n][..i] == run[..i];
      }
      assert AnswersIn(run, n, ex, ok) <==> GivesAnswer(After(run[..n]), run[n], ex, ok);
      if exists i: nat :: AnswersIn(run[..n], i, ex, ok) {
        var i: nat :| AnswersIn(run[..n], i, ex, ok);
        assert AnswersIn(run, i, ex, ok);
      }
    }
  }

  /** The supervisor is on its way out. */
  predicate Stopping(s: State) {
    s.pc.Refusing? || s.pc.Halting? || s.pc.Draining? || s.pc.Returned?
  }

  /** The supervisor receives the error of a worker. */
  predicate ReceivesError(s: State, a: Action) {
    a.Receive? && a.g < |s.gos| && s.gos[a.g].life == Finished(true)
  }

  /** When an idle supervisor stops. That its shutdown was requested plays no part. */
  lemma IdleStopsIff(s: State, a: Action)
    requires s.pc.Idle?
    ensures Step(s, a).pc.Halting? <==> (a.Notice? && s.cancelled) || ReceivesError(s, a)
    ensures Stopping(Step(s, a)) <==> Step(s, a).pc.Halting?
  {
  }

  /** When a supervisor that offers an exchange stops; then it refuses this exchange first. */
  lemma OfferingStopsIff(s: State, a: Action)
    requires s.pc.Offering?
    ensures Step(s, a).pc == Refusing(s.pc.ex) <==> (a.Notice? && s.cancelled) || ReceivesError(s, a)
    ensures Stopping(Step(s, a)) <==> Step(s, a).pc == Refusing(s.pc.ex)
  {
  }

  /** When a supervisor that is to forward an exchange stops; then it refuses this exchange first. */
  lemma ForwardingStopsIff(s: State, a: Action)
    requires s.pc.Forwarding?
    ensures Step(s, a).pc == Refusing(s.pc.ex) <==> a == FindWorker(false) && s.pc.ex.streamID !in s.workers
    ensures Stopping(Step(s, a)) <==> Step(s, a).pc == Refusing(s.pc.ex)
  {
  }

  /** The supervisor, busy so far, has a reason to stop in this step. */
  predicate HasReason(s: State, a: Action) {
    || ((s.pc.Idle? || s.pc.Offering?) && ((a.Notice? && s.cancelled) || ReceivesError(s, a)))
    || (s.pc.Forwarding? && a == FindWorker(false) && s.pc.ex.streamID !in s.workers)
  }

  lemma StoppingStep(s: State, a: Action)
    ensures Stopping(Step(s, a)) <==> Stopping(s) || HasReason(s, a)
  {
    match s.pc
    case Idle => IdleStopsIff(s, a);
    case Offering(_, _) => OfferingStopsIff(s, a);
    case Forwarding(_) => ForwardingStopsIff(s, a);
    case _ =>
  }

  ghost predicate HasReasonIn(run: seq<Action>, i: nat) {
    i < |run| && HasReason(After(run[..i]), run[i])
  }

  /**
   * The supervisor stops exactly if, idle or offering an exchange, it notices the cancelled context or receives the
   * error of a worker, or if it cannot start the worker that an exchange is for.
   */
  lemma {:induction false} StopsIff(run: seq<Action>)
    ensures Stopping(After(run)) <==> exists i: nat :: HasReasonIn(run, i)
  {
    if run != [] {
      var n := |run| - 1;
      StopsIff(run[..n]);
      StoppingStep(After(run[..n]), run[n]);
      forall i: nat | i < n
        ensures HasReasonIn(run[..n], i) <==> HasReasonIn(run, i)
      {
        assert run[..n][..i] == run[..i];
      }
      assert HasReasonIn(run, n) <==> HasReason(After(run[..n]), run[n]);
      if exists i: nat :: HasReasonIn(run[..n], i) {
        var i: nat :| HasReasonIn(run[..n], i);
        assert HasReasonIn(run, i);
      }
    }
  }

  /** The run without the requests to shut down. */
  function WithoutRequests(run: seq<Action>): seq<Action> {
    if run == [] then []
    else
      var rest := WithoutRequests(run[..|run| - 1]);
      if run[|run| - 1].RequestShutdown? then rest else rest + [run[|run| - 1]]
  }

  ghost predicate IgnoresLatch(s: State, a: Action, latched: bool) {
    Step(s.(latched := latched), a) == Step(s, a).(latched := latched)
  }

  lemma FindWorkerIgnoresLatch(s: State, ok: bool, latched: bool)
    ensures IgnoresLatch(s, FindWorker(ok), latched)
  {
  }

  lemma ReceiveIgnoresLatch(s: State, g: nat, latched: bool)
    ensures IgnoresLatch(s, Receive(g), latched)
  {
    if g < |s.gos| && s.gos[g].life.Finished? {
      var life := Reported(s.gos[g].life.failed);
      assert SetLife(s.(latched := latched), g, life) == SetLife(s, g, life).(latched := latched);
    }
  }

  lemma WorkersIgnoreLatch(s: State, a: Action, latched: bool)
    requires a.Ready? || a.Answer? || a.TimeOut? || a.HeedShutdown? || a.HeedCancel?
    ensures IgnoresLatch(s, a, latched)
  {
  }

  lemma RestIgnoresLatch(s: State, a: Action, latched: bool)
    requires a.Cancel? || a.Take? || a.HandOver? || a.Notice? || a.Refuse? || a.Signal? || a.Drain? || a.Return?
    ensures IgnoresLatch(s, a, latched)
  {
  }

  lemma LatchIsNotRead(s: State, a: Action, latched: bool)
    requires !a.RequestShutdown?
    ensures IgnoresLatch(s, a, latched)
  {
    match a
    case FindWorker(ok) => FindWorkerIgnoresLatch(s, ok, latched);
    case Receive(g) => ReceiveIgnoresLatch(s, g, latched);
    case Ready(_, _) => WorkersIgnoreLatch(s, a, latched);
    case Answer(_, _) => WorkersIgnoreLatch(s, a, latched);
    case TimeOut(_) => WorkersIgnoreLatch(s, a, latched);
    case HeedShutdown(_) => WorkersIgnoreLatch(s, a, latched);
    case HeedCancel(_) => WorkersIgnoreLatch(s, a, latched);
    case _ => RestIgnoresLatch(s, a, latched);
  }

  /** Requests to shut down change nothing but the latch, whatever else happens in the run. */
  lemma {:induction false} ShutdownChangesNothing(run: seq<Action>)
    ensures After(run) == After(WithoutRequests(run)).(latched := RequestShutdown in run)
  {
    if run != [] {
      var init, a := run[..|run| - 1], run[|run| - 1];
      ShutdownChangesNothing(init);
      assert run == init + [a];
      if !a.RequestShutdown? {
        AfterSnoc(WithoutRequests(init), a);
        LatchIsNotRead(After(WithoutRequests(init)), a, RequestShutdown in init);
      }
    }
  }

  /** A supervisor that was asked to shut down serves a request, becomes idle, and goes on to the next request. */
  lemma ServesAfterShutdown(ex: Exchange, next: Exchange) returns (run: seq<Action>)
    requires ex != next
    ensures run != [] && run[0] == RequestShutdown && After(run).latched && After(run).pc == Idle
    ensures After(run).taken == {ex}
    ensures After(run + [Take(next)]).pc == Forwarding(next)
  {
    run := [RequestShutdown];
    AfterSnoc([], RequestShutdown);
    assert [] + [RequestShutdown] == run;
    var actions := [Take(ex), FindWorker(true), Ready(0, true), HandOver];
    for i := 0 to 4
      invariant run == [RequestShutdown] + actions[..i]
      invariant After(run).latched && After(run).taken == if i == 0 then {} else {ex}
      invariant i == 0 ==> After(run) == Initial.(latched := true)
      invariant i == 1 ==> After(run).pc == Forwarding(ex) && After(run).workers == map[] && After(run).gos == []
      invariant i == 2 ==> After(run).pc == Offering(ex, 0) && After(run).gos == [Goroutine(ex.streamID, Starting)]
      invariant i == 3 ==> After(run).pc == Offering(ex, 0) && After(run).gos == [Goroutine(ex.streamID, Waiting)]
      invariant i == 4 ==> After(run).pc == Idle
    {
      AfterSnoc(run, actions[i]);
      run := run + [actions[i]];
    }
    AfterSnoc(run, Take(next));
  }

  /** The supervisor has stopped: for the cancelled context, or else with an error. */
  ghost predicate StoppedFor(run: seq<Action>, error: bool) {
    exists i: nat :: HasReasonIn(run, i) && (error <==> !run[i].Notice?)
  }

  lemma StopsForGood(run: seq<Action>, i: nat, j: nat)
    requires HasReasonIn(run, i) && i < j <= |run|
    ensures Stopping(After(run[..j]))
  {
    assert run[..j][..i] == run[..i];
    assert HasReasonIn(run[..j], i);
    StopsIff(run[..j]);
  }

  /** It stops once, for one reason. */
  lemma OneReason(run: seq<Action>, i: nat, j: nat)
    requires HasReasonIn(run, i) && HasReasonIn(run, j)
    ensures i == j
  {
    if i < j {
      StopsForGood(run, i, j);
    } else if j < i {
      StopsForGood(run, j, i);
    }
  }

  lemma StopsNow(run: seq<Action>, a: Action)
    requires HasReason(After(run), a)
    ensures StoppedFor(run + [a], !a.Notice?)
  {
    assert (run + [a])[..|run|] == run;
    assert HasReasonIn(run + [a], |run|);
  }

  lemma StoppedForGood(run: seq<Action>, run': seq<Action>, error: bool)
    requires run <= run' && StoppedFor(run, error)
    ensures StoppedFor(run', error)
  {
    var i: nat :| HasReasonIn(run, i) && (error <==> !run[i].Notice?);
    assert run'[..i] == run[..i];
    assert HasReasonIn(run', i);
  }

  // ----- the supervisor can always return -----

  /** How far a worker is from having reported. */
  function Distance(life: Life): nat {
    match life
    case Busy(_) => 3
    case Starting => 3
    case Waiting => 2
    case Finished(_) => 1
    case Reported(_) => 0
  }

  function Work(gos: seq<Goroutine>, n: nat): nat
    requires n <= |gos|
  {
    if n == 0 then 0 else Work(gos, n - 1) + Distance(gos[n - 1].life)
  }

  lemma {:induction false} WorkUpdate(gos: seq<Goroutine>, g: nat, go: Goroutine, n: nat)
    requires n <= |gos| && g < |gos|
    ensures Work(gos[g := go], n) + (if g < n then Distance(gos[g].life) else 0) ==
            Work(gos, n) + (if g < n then Distance(go.life) else 0)
  {
    if n != 0 {
      WorkUpdate(gos, g, go, n - 1);
    }
  }

  lemma SetLifeShrinks(s: State, g: nat, life: Life)
    requires g < |s.gos| && Distance(life) < Distance(s.gos[g].life)
    ensures Work(SetLife(s, g, life).gos, |s.gos|) < Work(s.gos, |s.gos|)
  {
    WorkUpdate(s.gos, g, s.gos[g].(life := life), |s.gos|);
  }

  lemma RetireShrinks(s: State, g: nat)
    ensures Retire(s, g) == s || Work(Retire(s, g).gos, |s.gos|) < Work(s.gos, |s.gos|)
  {
    if g < |s.gos| && s.gos[g].life.Waiting? {
      SetLifeShrinks(s, g, Finished(s.cancelled));
    }
  }

  /** While the supervisor drains, no new work arrives: whatever changes a worker brings it closer to its report. */
  lemma DrainingOnlyShrinks(s: State, a: Action)
    requires s.pc.Draining?
    ensures var s' := Step(s, a);
            && (s'.pc.Draining? || (s'.pc.Returned? && s.workers == map[]))
            && s'.taken == s.taken && |s'.gos| == |s.gos|
            && (s'.gos == s.gos || Work(s'.gos, |s.gos|) < Work(s.gos, |s.gos|))
  {
    match a
    case Receive(g) => if g < |s.gos| && s.gos[g].life.Finished? { SetLifeShrinks(s, g, Reported(s.gos[g].life.failed)); }
    case Ready(g, ok) =>
      if g < |s.gos| && s.gos[g].life.Starting? { SetLifeShrinks(s, g, if ok then Waiting else Finished(true)); }
    case Answer(g, ok) =>
      if g < |s.gos| && s.gos[g].life.Busy? { SetLifeShrinks(s, g, if ok then Waiting else Finished(true)); }
    case TimeOut(g) => RetireShrinks(s, g);
    case HeedShutdown(g) => RetireShrinks(s, g);
    case HeedCancel(g) => RetireShrinks(s, g);
    case _ =>
  }

  /** How far the supervisor is from draining. */
  function Steps(pc: PC): nat {
    match pc
    case Forwarding(_) => 4
    case Offering(_, _) => 3
    case Idle => 2
    case Refusing(_) => 2
    case Halting => 1
    case Draining => 0
    case Returned => 0
  }

  /** How many workers are still to be told to shut down. */
  function ToSignal(s: State): nat {
    if s.pc.Halting? then |Unsignaled(s)| else 0
  }

  /** Steps for which nobody has to wait until a worker has been idle for too long, or until the context is cancelled. */
  predicate Prompt(a: Action) {
    !a.Cancel? && !a.TimeOut? && !a.HeedCancel?
  }

  /**
   * While the supervisor drains and workers are left, each of them can take a step or be received from: a worker that
   * is idle was told to shut down, and needs neither a timeout nor a cancelled context.
   */
  lemma DrainingIsNotStuck(s: State, id: UUID) returns (a: Action)
    requires Structure(s) && s.pc.Draining? && id in s.workers
    ensures Prompt(a) && Step(s, a).pc.Draining? && Step(s, a).gos != s.gos
  {
    assert EntryOk(s.workers, s.gos, id);
    var g := s.workers[id];
    match s.gos[g].life
    case Starting => a := Ready(g, true);
    case Waiting => a := HeedShutdown(g);
    case Busy(_) => a := Answer(g, true);
    case Finished(_) => a := Receive(g);
    assert Step(s, a).gos[g] != s.gos[g];
  }

  /** Telling a worker to shut down leaves one less to tell. */
  lemma SignalShrinks(s: State, id: UUID)
    requires Structure(s) && s.pc.Halting? && id in Unsignaled(s)
    ensures var s' := Step(s, Signal(s.workers[id])); s'.pc == s.pc && ToSignal(s') < ToSignal(s)
  {
    var s' := Step(s, Signal(s.workers[id]));
    forall id' | id' in s.workers && s.workers[id'] == s.workers[id]
      ensures id' == id
    {
      assert EntryOk(s.workers, s.gos, id) && EntryOk(s.workers, s.gos, id');
    }
    assert Unsignaled(s') == Unsignaled(s) - {id};
  }

  /** Once the context is cancelled, or the supervisor is stopping for another reason, it can get to where it drains. */
  lemma StoppingIsNotStuck(s: State) returns (a: Action)
    requires Structure(s) && (s.cancelled || Stopping(s)) && !s.pc.Draining? && !s.pc.Returned?
    ensures Prompt(a) && (Step(s, a).cancelled || Stopping(Step(s, a)))
    ensures Steps(Step(s, a).pc) < Steps(s.pc) || (Step(s, a).pc == s.pc && ToSignal(Step(s, a)) < ToSignal(s))
  {
    match s.pc
    case Idle => a := Notice;
    case Forwarding(_) => a := FindWorker(false);
    case Offering(_, _) => a := Notice;
    case Refusing(_) => a := Refuse;
    case Halting =>
      if Unsignaled(s) == {} {
        a := Drain;
      } else {
        var id :| id in Unsignaled(s);
        a := Signal(s.workers[id]);
        SignalShrinks(s, id);
      }
  }

  lemma FoldCons(s: State, a: Action, rest: seq<Action>)
    ensures Fold(Step, s, [a] + rest) == Fold(Step, Step(s, a), rest)
  {
    FoldConcat(Step, s, [a], rest);
    assert [a][..0] == [];
  }

  lemma {:induction false} RunToTheEnd(s: State) returns (more: seq<Action>)
    requires Structure(s) && (s.cancelled || Stopping(s))
    ensures Fold(Step, s, more).pc.Returned? && forall a :: a in more ==> Prompt(a)
    decreases Steps(s.pc), ToSignal(s), Work(s.gos, |s.gos|)
  {
    var a;
    if s.pc.Returned? {
      return [];
    } else if !s.pc.Draining? {
      a := StoppingIsNotStuck(s);
    } else if s.workers == map[] {
      FoldCons(s, Return, []);
      assert [Return] + [] == [Return];
      return [Return];
    } else {
      var id :| id in s.workers;
      a := DrainingIsNotStuck(s, id);
      DrainingOnlyShrinks(s, a);
    }
    StructureKept(s, a);
    var rest := RunToTheEnd(Step(s, a));
    FoldCons(s, a, rest);
    more := [a] + rest;
  }

  /**
   * However a run has gone so far, the supervisor can return once the context is cancelled or it is stopping for
   * another reason. The workers' shutdown latches suffice for that: no worker has to time out, nor to see the context
   * cancelled.
   */
  lemma CanAlwaysReturn(run: seq<Action>) returns (more: seq<Action>)
    requires After(run).cancelled || Stopping(After(run))
    ensures After(run + more).pc.Returned? && forall a :: a in more ==> Prompt(a)
  {
    Always(run);
    more := RunToTheEnd(After(run));
    FoldConcat(Step, Initial, run, more);
  }
}
