/**
 * The world as one integration supervisor and one event-stream worker see it: the journals, the accepted commands,
 * the handler and everybody else. What the world does is scripted, and every script is a possible world.
 */
module Environment {
  import opened Common
  import opened Protocol
  import opened ProtocolInvariant
  import opened ProtocolSteps
  import opened ProtocolTheorems
  import I = IntegrationJournal
  import S = StreamJournal

  /** Why an operation did not succeed. The handler may refuse a command even when nothing else goes wrong. */
  datatype Outcome = Done | Failed | HandlerFailed

  /**
   * What happens around one call: first the other processes act, then the call fails, has its effect, or both.
   * `events` is what the handler produces if it is called, `streamID` and `offset` are what is selected if a stream
   * is asked for, and `end` is how far a scan of a stream gets.
   */
  datatype Turn = Turn(
    others: seq<Action>,
    fails: bool,
    fault: Fault,
    events: Option<seq<Envelope>>,
    streamID: UUID,
    offset: nat,
    end: nat)

  class World {
    const p: ProcID                 // the supervisor under study
    const w: ProcID                 // its event-stream worker
    const script: nat -> Turn
    var clock: nat
    var state: System
    ghost var run: seq<Action>

    constructor (p: ProcID, w: ProcID, script: nat -> Turn)
      ensures Valid() && clock == 0 && run == [] && this.p == p && this.w == w && this.script == script
    {
      this.p, this.w, this.script := p, w, script;
      clock, state, run := 0, Initial, [];
    }

    /**
     * The state is the one that the run leads to, so whatever is proved of all runs is true of it. The equality is
     * stated for any name of the run to keep it from being unfolded where nobody asks for it.
     */
    ghost predicate Valid()
      reads this
    {
      forall r :: r == run ==> state == After(r)
    }

    function Sup(): Protocol.Sup
      reads this
    {
      state.SupOf(p)
    }

    function Worker(): Protocol.Worker
      reads this
    {
      state.WorkerOf(w)
    }

    /** From now on nobody else acts and nothing fails. */
    ghost predicate Quiet()
      reads this
    {
      forall t :: clock <= t ==> script(t).others == [] && !script(t).fails && script(t).fault.Ok?
    }

    /** If the handler is called now it succeeds, with events that nobody has produced before. */
    predicate Offers(turn: Turn, sh: Shared) {
      turn.events.Some? && (turn.events.value == [] || Fresh(sh, turn.events.value))
    }

    ghost predicate NoneShared(a: Turn, b: Turn) {
      a.events.Some? && b.events.Some? ==>
        forall x, y :: x in a.events.value && y in b.events.value ==> x.messageID != y.messageID
    }

    ghost predicate WillingFrom(t0: nat, sh: Shared) {
      && (forall t {:trigger Offers(script(t), sh)} :: t0 <= t ==> Offers(script(t), sh))
      && (forall t, u {:trigger NoneShared(script(t), script(u))} :: t0 <= t < u ==> NoneShared(script(t), script(u)))
    }

    /** From now on the handler succeeds whenever it is called, each time with new events. */
    ghost predicate Willing()
      reads this
    {
      WillingFrom(clock, state.shared)
    }

    /** The handler was called last, and did not succeed. */
    predicate HandlerRefused()
      reads this
    {
      0 < clock && !Offers(script(clock - 1), state.shared)
    }

    lemma StaysWilling(t0: nat, sh: Shared, t1: nat, sh': Shared)
      requires WillingFrom(t0, sh) && t0 <= t1 && Known(sh') <= Known(sh)
      ensures WillingFrom(t1, sh')
    {
      forall t | t1 <= t
        ensures Offers(script(t), sh')
      {
        assert Offers(script(t), sh);
      }
      forall t, u | t1 <= t < u
        ensures NoneShared(script(t), script(u))
      {
        assert t0 <= t;
      }
    }

    /** The events of one turn are not those of a later one. */
    lemma StaysWillingAfterCall(t0: nat, sh: Shared, claim: Claim)
      requires WillingFrom(t0, sh) && Offers(script(t0), sh) && script(t0).events.value != []
      ensures WillingFrom(t0 + 1, Mint(sh, script(t0).events.value, claim))
    {
      var events := script(t0).events.value;
      var sh' := Mint(sh, events, claim);
      forall t | t0 + 1 <= t
        ensures Offers(script(t), sh')
      {
        assert Offers(script(t), sh) && NoneShared(script(t0), script(t));
        assert events[0] in events;
      }
      forall t, u | t0 + 1 <= t < u
        ensures NoneShared(script(t), script(u))
      {
        assert t0 <= t;
      }
    }

    predicate Mine(a: Action) {
      match a
      case BySup(q, _) => q == p
      case ByWorker(v, _) => v == w
      case ByOther(_) => false
    }

    /** Those of the first `n` actions that are not taken by the supervisor or the worker under study. */
    function OfOthers(actions: seq<Action>, n: nat): seq<Action>
      requires n <= |actions|
    {
      if n == 0 then []
      else if Mine(actions[n - 1]) then OfOthers(actions, n - 1)
      else OfOthers(actions, n - 1) + [actions[n - 1]]
    }

    lemma Invariant()
      requires Valid()
      ensures Inv(state) && SupOk(state.shared, p, Sup()) && WorkerOk(state.shared, Worker())
    {
      assert state == After(run);
      Always(run);
    }

    /** One step of the supervisor. */
    method Act(a: SupAction)
      requires Valid()
      modifies this
      ensures Valid() && clock == old(clock) && run == old(run) + [BySup(p, a)]
      ensures (state.shared, Sup()) == SupStep(old(state.shared), p, old(Sup()), a)
      ensures Worker() == old(Worker())
      ensures old(Willing()) && !a.RunHandler? ==> Willing()
      ensures old(state.shared.history) <= state.shared.history
      ensures old(state.shared.accepted) <= state.shared.accepted
      ensures old(state.shared.responses) <= state.shared.responses
    {
      Invariant();
      OneMoreAction(run, BySup(p, a));
      if Willing() && !a.RunHandler? {
        OnlyHandlersProduce(state.shared, p, Sup(), a);
        StaysWilling(clock, state.shared, clock, SupStep(state.shared, p, Sup(), a).0);
      }
      assert state == After(run);
      AfterSnoc(run, BySup(p, a));
      state := Apply(state, BySup(p, a));
      run := run + [BySup(p, a)];
    }

    /** One step of the worker. */
    method ActAsWorker(a: WorkerAction)
      requires Valid()
      modifies this
      ensures Valid() && clock == old(clock) && run == old(run) + [ByWorker(w, a)]
      ensures (state.shared, Worker()) == WorkerStep(old(state.shared), old(Worker()), a)
      ensures Sup() == old(Sup())
      ensures old(Willing()) ==> Willing()
      ensures old(state.shared.history) <= state.shared.history
      ensures old(state.shared.accepted) <= state.shared.accepted
      ensures old(state.shared.responses) <= state.shared.responses
    {
      OneMoreAction(run, ByWorker(w, a));
      if Willing() {
        WorkersProduceNothing(state.shared, Worker(), a);
        StaysWilling(clock, state.shared, clock, WorkerStep(state.shared, Worker(), a).0);
      }
      assert state == After(run);
      AfterSnoc(run, ByWorker(w, a));
      state := Apply(state, ByWorker(w, a));
      run := run + [ByWorker(w, a)];
    }

    /** One step of somebody else. */
    method ActAsOther(a: Action)
      requires Valid() && !Mine(a)
      modifies this
      ensures Valid() && clock == old(clock) && run == old(run) + [a]
      ensures Persists(old(state.shared), state.shared)
      ensures Sup() == old(Sup()) && Worker() == old(Worker())
    {
      OthersStep(state, a);
      assert state == After(run);
      AfterSnoc(run, a);
      state := Apply(state, a);
      run := run + [a];
    }

    /** Time passes: the others take their steps. */
    method Elapse() returns (turn: Turn)
      requires Valid()
      modifies this
      ensures Valid() && clock == old(clock) + 1 && turn == script(old(clock))
      ensures run == old(run) + OfOthers(turn.others, |turn.others|)
      ensures old(run) <= run && Persists(old(state.shared), state.shared)
      ensures Sup() == old(Sup()) && Worker() == old(Worker())
      ensures old(Quiet()) ==> state == old(state) && Quiet()
      ensures old(Quiet() && Willing()) ==> Willing()
    {
      if Quiet() && Willing() {
        StaysWilling(clock, state.shared, clock + 1, state.shared);
      }
      turn := script(clock);
      clock := clock + 1;
      for i := 0 to |turn.others|
        invariant Valid() && clock == old(clock) + 1
        invariant run == old(run) + OfOthers(turn.others, i) && Persists(old(state.shared), state.shared)
        invariant Sup() == old(Sup()) && Worker() == old(Worker())
        invariant turn.others == [] ==> state == old(state)
      {
        if !Mine(turn.others[i]) {
          ghost var sh := state.shared;
          ActAsOther(turn.others[i]);
          PersistsTwice(old(state.shared), sh, state.shared);
        }
      }
    }

    lemma OthersStep(s: System, a: Action)
      requires Valid() && s == state && !Mine(a)
      ensures Persists(s.shared, Apply(s, a).shared)
      ensures Apply(s, a).SupOf(p) == s.SupOf(p) && Apply(s, a).WorkerOf(w) == s.WorkerOf(w)
    {
      assert state == After(run);
      Always(run);
      StepPersists(s, a);
    }

    /** What every operation keeps. A quiet world stays quiet, and a willing handler willing. */
    twostate predicate Later()
      reads this
    {
      && Valid()
      && old(run) <= run
      && old(clock) <= clock
      && old(state.shared.history) <= state.shared.history
      && old(state.shared.accepted) <= state.shared.accepted
      && old(state.shared.issued) <= state.shared.issued
      && old(state.shared.responses) <= state.shared.responses
      && old(state.shared.acked) <= state.shared.acked
      && (old(Quiet()) ==> Quiet())
      && (old(Quiet() && Willing()) ==> Willing())
    }

    /** An operation of the supervisor, which in a quiet world leaves the streams alone. */
    twostate predicate LaterForSup()
      reads this
    {
      && Later()
      && Worker() == old(Worker())
      && (old(Quiet()) ==> state.shared.streams == old(state.shared.streams))
    }

    /** The journal has grown by exactly these records. */
    twostate predicate Wrote(rs: seq<I.Record>)
      reads this
    {
      state.shared.history == old(state.shared.history) + rs
    }

    /** The commands whose acceptance was journaled since, by whomever. */
    twostate predicate Accepts(cs: seq<Envelope>)
      reads this
    {
      && old(state.shared.history) <= state.shared.history
      && I.Commands(state.shared.history, |old(state.shared.history)|, |state.shared.history|) == cs
    }

    // ----- the journal of the handler -----

    method Bounds() returns (err: Outcome, begin: nat, end: nat)
      requires Valid() && Sup().pc.Down?
      modifies this
      ensures LaterForSup() && (err.Done? || err.Failed?)
      ensures err.Failed? ==> Sup() == old(Sup()).(pc := Down)
      ensures err.Done? ==>
                && begin == state.shared.begin && end == |state.shared.history|
                && Sup() == old(Sup()).(pos := begin, pc := if begin == end then Resuming([], []) else Scanning)
      ensures old(Quiet()) ==> err.Done? && state.shared == old(state.shared)
    {
      var turn := Elapse();
      if turn.fails {
        Act(Fail);
        return Failed, 0, 0;
      }
      begin, end := state.shared.begin, |state.shared.history|;
      Act(ReadBounds);
      err := Done;
    }

    /** The records from a position to the end. It fails if that position was truncated. */
    method Range(from: nat) returns (err: Outcome, records: seq<I.Record>)
      requires Valid() && Sup().pc.Scanning? && from == Sup().pos
      modifies this
      ensures LaterForSup() && (err.Done? || err.Failed?)
      ensures err.Failed? ==> Sup() == old(Sup()).(pc := Down)
      ensures err.Done? ==>
                var h := state.shared.history;
                && state.shared.begin <= from <= |h| && records == h[from..]
                && Sup() == old(Sup()).(pos := |h|, pc := Resuming(I.PendingOps(h, from, |h|), I.PendingCommands(h, from, |h|)))
      ensures old(Quiet()) && old(state.shared.begin) <= from ==> err.Done? && state.shared == old(state.shared)
    {
      var turn := Elapse();
      if turn.fails || from < state.shared.begin {
        Act(Fail);
        return Failed, [];
      }
      Invariant();
      records := state.shared.history[from..];
      Act(ReadAll);
      err := Done;
    }

    /** The record that the supervisor may append where it is now. */
    predicate AppendsHere(pc: PC, rec: I.Record) {
      match pc
      case Accepting(c) => rec == I.CommandAccepted(c)
      case Recording(op, _) => rec == I.CommandHandled(op)
      case Marking(op, _) => rec == I.EventsAppendedToStream(op.commandID)
      case _ => false
    }

    function AfterAppend(pc: PC): PC {
      match pc
      case Accepting(c) => Adding(c, ToIdle)
      case Recording(op, rest) => if op.events == [] then rest.Next() else Sending(op, true, rest)
      case Marking(op, rest) => rest.Next()
      case _ => pc
    }

    function AppendAction(rec: I.Record, f: Fault): SupAction {
      match rec
      case CommandAccepted(_) => Accept(f)
      case CommandHandled(_) => RecordHandled(f)
      case EventsAppendedToStream(_) => MarkAppended(f)
    }

    lemma AppendEffect(sh: Shared, sup: Protocol.Sup, rec: I.Record, f: Fault)
      requires AppendsHere(sup.pc, rec)
      ensures var took := !f.FailBefore? && sup.pos == |sh.history|;
              var (sh', sup') := SupStep(sh, p, sup, AppendAction(rec, f));
              && sh'.history == (if took then sh.history + [rec] else sh.history)
              && sh'.begin == sh.begin && sh'.streams == sh.streams && sh'.accepted == sh.accepted
              && sh'.issued == sh.issued && sh.acked <= sh'.acked
              && (!(took && f.Ok?) ==> sup' == sup.(pc := Down))
              && (took && f.Ok? ==>
                    && sup' == sup.(pos := sup.pos + 1, pc := AfterAppend(sup.pc))
                    && (rec.CommandAccepted? ==> rec.command.messageID in sh'.acked))
    {
    }

    /** Appends at the end of the journal; at any other position it is a conflict. It may fail after taking effect. */
    method Append(pos: nat, rec: I.Record) returns (err: Outcome)
      requires Valid() && AppendsHere(Sup().pc, rec) && pos == Sup().pos
      modifies this
      ensures LaterForSup() && (err.Done? || err.Failed?)
      ensures err.Failed? ==> Sup() == old(Sup()).(pc := Down)
      ensures err.Done? ==>
                && Sup() == old(Sup()).(pos := pos + 1, pc := AfterAppend(old(Sup()).pc))
                && |state.shared.history| == pos + 1 && state.shared.history[pos] == rec
                && (rec.CommandAccepted? ==> rec.command.messageID in state.shared.acked)
      ensures old(Quiet()) ==> state.shared.accepted == old(state.shared.accepted)
      ensures old(Quiet()) && pos == |old(state.shared.history)| ==>
                && err.Done? && state.shared.history == old(state.shared.history) + [rec]
                && state.shared.begin == old(state.shared.begin)
    {
      var turn := Elapse();
      err := if turn.fault.Ok? && pos == |state.shared.history| then Done else Failed;
      AppendEffect(state.shared, Sup(), rec, turn.fault);
      Act(AppendAction(rec, turn.fault));
    }

    /** Drops the records below a position. It may fail after taking effect. */
    method Truncate(pos: nat) returns (err: Outcome)
      requires Valid() && Sup().pc.Truncating? && pos == Sup().pos
      modifies this
      ensures LaterForSup() && (err.Done? || err.Failed?)
      ensures err.Failed? ==> Sup() == old(Sup()).(pc := Down)
      ensures err.Done? ==> Sup() == old(Sup()).(pc := Idle) && pos <= state.shared.begin
      ensures old(Quiet()) ==>
                err.Done? && state.shared == old(state.shared).(begin := if pos <= old(state.shared.begin) then old(state.shared.begin) else pos)
    {
      var turn := Elapse();
      err := if turn.fault.Ok? then Done else Failed;
      Act(Protocol.Truncate(turn.fault));
    }

    // ----- the set of accepted commands -----

    method HasAccepted(c: Envelope) returns (err: Outcome, has: bool)
      requires Valid() && Sup().pc == Checking(c)
      modifies this
      ensures LaterForSup() && (err.Done? || err.Failed?)
      ensures err.Failed? ==> Sup() == old(Sup()).(pc := Down)
      ensures err.Done? ==>
                && has == (c.messageID in state.shared.accepted)
                && (has ==> c.messageID in state.shared.acked)
                && Sup() == old(Sup()).(pc := if has then Idle else Accepting(c))
      ensures old(Quiet()) ==> err.Done? && state.shared == old(state.shared).(acked := state.shared.acked)
    {
      var turn := Elapse();
      if turn.fails {
        Act(Fail);
        return Failed, false;
      }
      has := c.messageID in state.shared.accepted;
      Act(CheckAccepted);
      err := Done;
    }

    method AddAccepted(c: Envelope) returns (err: Outcome)
      requires Valid() && Sup().pc.Adding? && Sup().pc.command == c
      modifies this
      ensures LaterForSup() && (err.Done? || err.Failed?)
      ensures err.Failed? ==> Sup() == old(Sup()).(pc := Down)
      ensures err.Done? ==>
                c.messageID in state.shared.accepted && Sup() == old(Sup()).(pc := Handling(c, old(Sup()).pc.rest))
      ensures old(Quiet()) ==>
                err.Done? && state.shared == old(state.shared).(accepted := old(state.shared.accepted) + {c.messageID})
    {
      var turn := Elapse();
      err := if turn.fault.Ok? then Done else Failed;
      Act(Protocol.AddAccepted(turn.fault));
    }

    /** The supervisor turns to the next piece of pending work. */
    method Proceed()
      requires Valid() && Sup().pc.Resuming?
      modifies this
      ensures LaterForSup() && state.shared == old(state.shared)
      ensures Sup() == old(Sup()).(pc := Pick(old(Sup()).pc.handled, old(Sup()).pc.accepted))
    {
      Act(Protocol.Proceed);
    }

    // ----- commands, the handler and the choice of a stream -----

    method Receive(c: Envelope)
      requires Valid() && Sup().pc.Idle?
      modifies this
      ensures LaterForSup() && Sup() == old(Sup()).(pc := Checking(c))
      ensures old(Quiet()) ==> state.shared == old(state.shared)
    {
      var _ := Elapse();
      Act(Protocol.Receive(c));
    }

    /** The handler is called. It fails, or it succeeds with events that have identifiers of their own. */
    method Handle(c: Envelope) returns (err: Outcome, events: seq<Envelope>)
      requires Valid() && Sup().pc.Handling? && Sup().pc.command == c
      modifies this
      ensures LaterForSup() && (err.Done? || err.HandlerFailed?)
      ensures clock == old(clock) + 1
      ensures err.HandlerFailed? ==> HandlerRefused() && Sup() == old(Sup()).(pc := Down)
      ensures err.Done? ==>
                && script(old(clock)).events == Some(events)
                && (events != [] ==> Fresh(old(state.shared), events))
      ensures old(Quiet() && Willing()) ==> err.Done?
      ensures err.Done? ==>
                var id := old(Sup()).streamID;
                Sup() == old(Sup()).(pc :=
                  if events == [] then Recording(I.Handled(c.messageID, [], None, 0), old(Sup()).pc.rest)
                  else if id.None? then Selecting(c, events, old(Sup()).pc.rest)
                  else Recording(I.Handled(c.messageID, events, id, old(Sup()).hint), old(Sup()).pc.rest))
      ensures old(Quiet()) ==>
                && state.shared.history == old(state.shared.history) && state.shared.begin == old(state.shared.begin)
                && state.shared.accepted == old(state.shared.accepted)
    {
      ghost var before, t := state.shared, clock;
      var turn := Elapse();
      if !Offers(turn, state.shared) {
        Act(Fail);
        return HandlerFailed, [];
      }
      events := turn.events.value;
      if old(Quiet() && Willing()) && events != [] {
        StaysWillingAfterCall(t, before, Held(p));
      }
      Act(RunHandler(events));
      err := Done;
    }

    lemma SelectEffect(sh: Shared, sup: Protocol.Sup, id: UUID, offset: nat)
      requires sup.pc.Selecting? && offset <= S.EndOffset(sh.Stream(id))
      ensures SupStep(sh, p, sup, SelectStream(id, offset)) ==
              (sh, sup.(streamID := Some(id), hint := offset,
                        pc := Recording(I.Handled(sup.pc.command.messageID, sup.pc.events, Some(id), offset), sup.pc.rest)))
    {
    }

    /** Some stream and some offset that its end has reached. */
    method SelectEventStream() returns (err: Outcome, id: UUID, offset: nat)
      requires Valid() && Sup().pc.Selecting?
      modifies this
      ensures LaterForSup() && (err.Done? || err.Failed?)
      ensures err.Failed? ==> Sup() == old(Sup()).(pc := Down)
      ensures err.Done? ==>
                var pc := old(Sup()).pc;
                Sup() == old(Sup()).(streamID := Some(id), hint := offset,
                                     pc := Recording(I.Handled(pc.command.messageID, pc.events, Some(id), offset), pc.rest))
      ensures old(Quiet()) ==> err.Done? && state.shared == old(state.shared)
    {
      var turn := Elapse();
      if turn.fails {
        Act(Fail);
        return Failed, 0, 0;
      }
      id := turn.streamID;
      var end := S.EndOffset(state.shared.Stream(id));
      offset := if turn.offset < end then turn.offset else end;
      SelectEffect(state.shared, Sup(), id, offset);
      Act(SelectStream(id, offset));
      err := Done;
    }

    // ----- the supervisor's exchange with the stream -----

    /** The supervisor gives up what it is doing. */
    method GiveUp()
      requires Valid()
      modifies this
      ensures LaterForSup() && Sup() == old(Sup()).(pc := Down)
      ensures state.shared == old(state.shared)
    {
      Act(Fail);
    }

    method Send(op: I.Handled) returns (req: AppendRequest)
      requires Valid() && Sup().pc.Sending? && Sup().pc.op == op && op.streamID.Some?
      modifies this
      ensures LaterForSup()
      ensures req == AppendRequest(op.streamID.value, op.events, op.hint)
      ensures req == op.Request() && req in state.shared.issued
      ensures Sup() == old(Sup()).(pc := Waiting(op, old(Sup()).pc.own, old(Sup()).pc.rest))
      ensures state.shared == old(state.shared).(issued := state.shared.issued)
    {
      req := op.Request();
      Act(Protocol.Send);
    }

    method TakeResponse(op: I.Handled, res: AppendResponse)
      requires Valid() && Sup().pc.Waiting? && Sup().pc.op == op && op.streamID.Some?
      requires (op.Request(), res) in state.shared.responses
      modifies this
      ensures LaterForSup() && state.shared == old(state.shared)
      ensures Sup() == old(Sup()).(hint := if old(Sup()).pc.own then res.end else old(Sup()).hint,
                                   pc := Marking(op, old(Sup()).pc.rest))
    {
      Act(GetResponse(res));
    }

    // ----- the journal of the stream -----

    /** The position of the last record and the record itself, if there is one. */
    method LastRecord(id: UUID) returns (err: Outcome, last: Option<(nat, S.Record)>)
      requires Valid() && Worker().pc.Stopped?
      modifies this
      ensures Later() && Sup() == old(Sup()) && (err.Done? || err.Failed?)
      ensures err.Failed? ==> Worker().pc.Stopped?
      ensures err.Done? ==>
                var rs := state.shared.Stream(id);
                && last == (if rs == [] then None else Some((|rs| - 1, rs[|rs| - 1])))
                && Worker() == Protocol.Worker(Ready, id, |rs|, S.EndOffset(rs))
      ensures old(Quiet()) ==> err.Done? && state.shared == old(state.shared)
    {
      var turn := Elapse();
      if turn.fails {
        ActAsWorker(Halt);
        return Failed, None;
      }
      var rs := state.shared.Stream(id);
      last := if rs == [] then None else Some((|rs| - 1, rs[|rs| - 1]));
      ActAsWorker(Start(id));
      err := Done;
    }

    /** The worker dequeues a request to its stream. */
    method TakeRequest(req: AppendRequest)
      requires Valid() && Worker().pc.Ready? && req in state.shared.issued && req.streamID == Worker().streamID
      modifies this
      ensures Later() && Sup() == old(Sup()) && state.shared == old(state.shared)
      ensures Worker() == old(Worker()).(pc := if req.hint < Worker().off then Looking(req) else Writing(req))
    {
      ActAsWorker(Take(req));
    }

    /** The records of the stream as far as a scan gets, at least up to the worker's position. */
    method View() returns (err: Outcome, view: seq<S.Record>)
      requires Valid() && Worker().pc.Looking?
      modifies this
      ensures Later() && Sup() == old(Sup()) && (err.Done? || err.Failed?)
      ensures err.Failed? ==> Worker().pc.Stopped?
      ensures err.Done? ==>
                && Worker() == old(Worker())
                && Worker().pos <= |view| && view <= state.shared.Stream(Worker().streamID) && S.Tiled(view)
      ensures old(Quiet()) ==> err.Done? && state.shared == old(state.shared)
    {
      var turn := Elapse();
      if turn.fails {
        ActAsWorker(Halt);
        return Failed, [];
      }
      Invariant();
      var rs := state.shared.Stream(Worker().streamID);
      var end := if turn.end > |rs| then |rs| else if turn.end < Worker().pos then Worker().pos else turn.end;
      view := rs[..end];
      assert StreamOk(state.shared, Worker().streamID);
      S.TiledPrefix(rs, end);
      err := Done;
    }

    /** What a lookup does: the request is answered from the record found, or is still to be written. */
    lemma LookupEffect(sh: Shared, wk: Protocol.Worker, end: nat)
      requires wk.pc.Looking? && wk.pos <= end <= |sh.Stream(wk.streamID)| && wk.pc.req.events != []
      ensures var r, rs := wk.pc.req, sh.Stream(wk.streamID);
              var found := S.FastLookup(rs[..end], wk.pos, r.hint, r.events[0].messageID);
              var (sh', wk') := WorkerStep(sh, wk, Lookup(end));
              && sh' == sh.(responses := sh'.responses)
              && wk' == wk.(pc := if found.None? then Writing(r) else Ready)
              && (found.Some? ==>
                    (r, AppendResponse(rs[found.value].offsetBefore, rs[found.value].offsetAfter, true)) in sh'.responses)
    {
    }

    lemma LookupFindsBatch(sh: Shared, wk: Protocol.Worker, end: nat)
      requires SharedOk(sh) && WorkerOk(sh, wk) && wk.pc.Looking? && wk.pos <= end <= |sh.Stream(wk.streamID)|
      ensures var r := wk.pc.req;
              && r.events != []
              && (S.FastLookup(sh.Stream(wk.streamID)[..end], wk.pos, r.hint, r.events[0].messageID).Some? ==>
                    forall sh': Shared :: sh'.streams == sh.streams ==> Stored(sh', r))
    {
      var r, rs := wk.pc.req, sh.Stream(wk.streamID);
      assert StreamOk(sh, r.streamID);
      LookupIsExact(sh, wk, r, end);
      var found := S.FastLookup(rs[..end], wk.pos, r.hint, r.events[0].messageID);
      if found.Some? {
        forall sh': Shared | sh'.streams == sh.streams
          ensures Stored(sh', r)
        {
          assert StoredAt(sh'.Stream(r.streamID), r.events, found.value);
        }
      }
    }

    /** The outcome of a lookup that has seen the records below `end`. */
    method LookupNow(end: nat)
      requires Valid() && Worker().pc.Looking? && Worker().pos <= end <= |state.shared.Stream(Worker().streamID)|
      requires Worker().pc.req.events != []
      modifies this
      ensures Later() && clock == old(clock) && Sup() == old(Sup())
      ensures state.shared == old(state.shared).(responses := state.shared.responses)
      ensures var wk, r := old(Worker()), old(Worker()).pc.req;
              var rs := state.shared.Stream(wk.streamID);
              var found := S.FastLookup(rs[..end], wk.pos, r.hint, r.events[0].messageID);
              && Worker() == wk.(pc := if found.None? then Writing(r) else Ready)
              && (found.Some? ==>
                    && (r, AppendResponse(rs[found.value].offsetBefore, rs[found.value].offsetAfter, true))
                       in state.shared.responses
                    && Stored(state.shared, r))
    {
      Invariant();
      LookupFindsBatch(state.shared, Worker(), end);
      LookupEffect(state.shared, Worker(), end);
      ActAsWorker(Lookup(end));
    }

    /** What a write does to the records, the responses and the worker itself. */
    lemma WriteEffect(sh: Shared, wk: Protocol.Worker, f: Fault)
      requires wk.pc.Writing?
      ensures var r, took := wk.pc.req, !f.FailBefore? && wk.pos == |sh.Stream(wk.streamID)|;
              var (sh', wk') := WorkerStep(sh, wk, Write(f));
              && sh' == (if took then sh.Store(wk.streamID, S.Record(wk.off, wk.off + |r.events|, r.events)) else sh)
                        .(responses := sh'.responses)
              && (!(took && f.Ok?) ==> wk'.pc.Stopped?)
              && (took && f.Ok? ==>
                    && wk' == Protocol.Worker(Ready, wk.streamID, wk.pos + 1, wk.off + |r.events|)
                    && (r, AppendResponse(wk.off, wk.off + |r.events|, false)) in sh'.responses)
    {
    }

    /** The write itself, which takes effect only at the end of the stream's journal. */
    method WriteNow(f: Fault) returns (err: Outcome)
      requires Valid() && Worker().pc.Writing?
      modifies this
      ensures Later() && clock == old(clock) && Sup() == old(Sup())
      ensures var wk := old(Worker());
              var rec := S.Record(wk.off, wk.off + |wk.pc.req.events|, wk.pc.req.events);
              var atEnd := wk.pos == |old(state.shared).Stream(wk.streamID)|;
              && err == (if f.Ok? && atEnd then Done else Failed)
              && state.shared ==
                 (if !f.FailBefore? && atEnd then old(state.shared).Store(wk.streamID, rec) else old(state.shared))
                 .(responses := state.shared.responses)
              && (atEnd ==> !Stored(old(state.shared), wk.pc.req))
              && (err.Failed? ==> Worker().pc.Stopped?)
              && (err.Done? ==>
                    && Worker() == wk.(pc := Ready, pos := wk.pos + 1, off := rec.offsetAfter)
                    && (wk.pc.req, AppendResponse(rec.offsetBefore, rec.offsetAfter, false)) in state.shared.responses)
    {
      Invariant();
      if Worker().pos == |state.shared.Stream(Worker().streamID)| {
        NotStoredYet(state.shared, Worker(), Worker().pc.req);
      }
      WriteEffect(state.shared, Worker(), f);
      err := if f.Ok? && Worker().pos == |state.shared.Stream(Worker().streamID)| then Done else Failed;
      ActAsWorker(Write(f));
    }

    /** Appends at the end of the stream's journal; at any other position it is a conflict. */
    method AppendToStream(pos: nat, rec: S.Record) returns (err: Outcome)
      requires Valid() && Worker().pc.Writing? && pos == Worker().pos
      requires rec == S.Record(Worker().off, Worker().off + |Worker().pc.req.events|, Worker().pc.req.events)
      modifies this
      ensures Later() && Sup() == old(Sup()) && (err.Done? || err.Failed?)
      ensures err.Failed? ==> Worker().pc.Stopped?
      ensures err.Done? ==>
                var before := old(Worker());
                && Worker() == before.(pc := Ready, pos := pos + 1, off := rec.offsetAfter)
                && (before.pc.req, AppendResponse(rec.offsetBefore, rec.offsetAfter, false)) in state.shared.responses
                && |state.shared.Stream(before.streamID)| == pos + 1
      ensures old(Quiet()) ==>
                && (pos == |old(state.shared.Stream(Worker().streamID))| ==> err.Done?)
                && (err.Done? ==> !Stored(old(state.shared), old(Worker().pc.req)))
                && state.shared ==
                   (if err.Done? then old(state.shared).Store(old(Worker().streamID), rec) else old(state.shared))
                   .(responses := state.shared.responses)
    {
      var turn := Elapse();
      err := WriteNow(turn.fault);
    }
  }
}
