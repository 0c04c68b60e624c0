/** The integration supervisor, which has each command handled once and each batch of events appended once. */
module Supervising {
  import opened Common
  import opened Protocol
  import opened ProtocolInvariant
  import opened ProtocolSteps
  import opened ProtocolTheorems
  import opened Environment
  import opened StreamWorking
  import I = IntegrationJournal

  class Supervisor {
    const world: World
    const events: StreamWorker
    var journalPos: nat
    var eventStreamID: Option<UUID>
    var eventOffsetHint: nat

    /** A supervisor that takes over from whatever was there before. */
    constructor (world: World, events: StreamWorker)
      requires events.world == world && events.Resting()
      modifies world
      ensures this.world == world && this.events == events
      ensures world.Later() && At(Down)
      ensures old(world.Quiet() && events.Current()) ==>
                events.Current() && world.state.shared == old(world.state.shared)
    {
      this.world, this.events := world, events;
      journalPos, eventStreamID, eventOffsetHint := 0, None, 0;
      new;
      world.Act(Replace);
    }

    /** The supervisor is at this point of the protocol, and its fields are what the protocol says they are. */
    ghost predicate At(pc: PC)
      reads this, world, events
    {
      && events.world == world && events.Resting()
      && world.Sup().(pos := journalPos) == Sup(pc, journalPos, eventStreamID, eventOffsetHint)
      && (pc.Down? || world.Sup().pos == journalPos)
    }

    /** Nobody else acts, nothing fails, and nothing in the journal has escaped the supervisor. */
    ghost predicate Calm()
      reads this, world
    {
      world.Quiet() && journalPos == |world.state.shared.history|
    }

    /**
     * How an operation ends that begins in a calm world. It cannot fail if the worker's cache is up to date; if it
     * fails, the worker was stopped and will not fail again.
     */
    twostate predicate Settles(err: Outcome)
      reads this, world, events, events.world
    {
      old(Calm()) ==>
        && (err.Done? ==> Calm() && world.state.shared.begin == old(world.state.shared.begin))
        && (err.Failed? ==> !old(events.Current()) && events.Current())
        && (old(events.Current()) ==> events.Current())
        && (old(world.Willing()) ==> !err.HandlerFailed?)
    }

    /** If the handler is blamed then it was called, and refused. */
    twostate predicate Blames(err: Outcome)
      reads world
    {
      err.HandlerFailed? ==> world.HandlerRefused() && old(world.clock) < world.clock
    }

    lemma UnappendedOp(op: I.Handled, own: bool, rest: Rest)
      requires At(Sending(op, own, rest))
      ensures op.streamID.Some?
    {
      world.Invariant();
      UnappendedIsLast(world.state.shared, journalPos, op);
    }

    /** The request of the operation has this response. */
    ghost predicate Answered(op: I.Handled, res: AppendResponse)
      reads world
    {
      op.streamID.Some? && (op.Request(), res) in world.state.shared.responses
    }

    /** Asks for the events of an operation to be appended and waits for the answer. */
    method Ask(op: I.Handled, own: bool, ghost rest: Rest) returns (err: Outcome, ghost res: AppendResponse)
      requires At(Sending(op, own, rest))
      modifies this, world, events
      ensures world.Later() && (err.Done? || err.Failed?)
      ensures At(if err.Done? then Marking(op, rest) else Down)
      ensures Settles(err)
      ensures journalPos == old(journalPos) && eventStreamID == old(eventStreamID)
      ensures !own ==> eventOffsetHint == old(eventOffsetHint)
      ensures err.Done? ==>
                && Answered(op, res)
                && PlacedAt(world.state.shared, op.streamID.value, res.begin, op.events)
                && (own ==> eventOffsetHint == res.begin + |op.events|)
      ensures old(world.Quiet()) ==>
                world.Wrote([]) && world.state.shared.accepted == old(world.state.shared.accepted)
    {
      UnappendedOp(op, own, rest);
      var req := world.Send(op);
      var response;
      err, response := events.HandleAppend(req);
      res := response;
      if !err.Done? {
        world.GiveUp();
        return;
      }
      world.TakeResponse(op, response);
      if own {
        eventOffsetHint := response.end;
      }
    }

    /**
     * Has the events of an operation appended to their stream, then marks them appended. `own` tells that the
     * operation refers to the very stream identifier that this supervisor selected.
     */
    method AppendEvents(op: I.Handled, own: bool, ghost rest: Rest) returns (err: Outcome, ghost res: AppendResponse)
      requires At(if op.events == [] then rest.Next() else Sending(op, own, rest))
      modifies this, world, events
      ensures world.Later() && (err.Done? || err.Failed?)
      ensures At(if err.Done? then rest.Next() else Down)
      ensures Settles(err)
      ensures op.events == [] ==> err.Done? && world.state == old(world.state)
      ensures eventStreamID == old(eventStreamID)
      ensures !own || op.events == [] ==> eventOffsetHint == old(eventOffsetHint)
      ensures journalPos == old(journalPos) + if err.Done? && op.events != [] then 1 else 0
      ensures err.Done? && op.events != [] ==>
                && journalPos <= |world.state.shared.history|
                && world.state.shared.history[old(journalPos)] == I.EventsAppendedToStream(op.commandID)
                && Answered(op, res)
                && (own ==> eventOffsetHint == res.begin + |op.events|)
      ensures old(Calm()) ==>
                && world.state.shared.accepted == old(world.state.shared.accepted)
                && world.Wrote(if err.Done? && op.events != [] then [I.EventsAppendedToStream(op.commandID)] else [])
    {
      res := AppendResponse(0, 0, false);
      if op.events == [] {
        return Done, res;
      }
      err, res := Ask(op, own, rest);
      if err.Done? {
        err := world.Append(journalPos, I.EventsAppendedToStream(op.commandID));
        if err.Done? {
          journalPos := journalPos + 1;
        }
      }
    }

    /** Marks a command accepted, calls the handler, and tells what to record. */
    method CallHandler(c: Envelope, ghost rest: Rest) returns (err: Outcome, op: I.Handled)
      requires At(Adding(c, rest))
      modifies this, world
      ensures world.LaterForSup()
      ensures At(if err.Done? then Recording(op, rest) else Down)
      ensures err.Done? ==>
                && op.commandID == c.messageID
                && exists t :: old(world.clock) <= t < world.clock && world.script(t).events == Some(op.events)
      ensures journalPos == old(journalPos)
      ensures Blames(err)
      ensures old(world.Quiet()) ==>
                && (err.Done? || err.HandlerFailed?)
                && (old(world.Willing()) ==> err.Done?)
                && world.state.shared.history == old(world.state.shared.history)
                && world.state.shared.begin == old(world.state.shared.begin)
                && world.state.shared.accepted == old(world.state.shared.accepted) + {c.messageID}
      ensures err.Done? && op.events == [] ==>
                && op.streamID == None && op.hint == 0
                && eventStreamID == old(eventStreamID) && eventOffsetHint == old(eventOffsetHint)
      ensures err.Done? && op.events != [] ==>
                && op.streamID.Some? && op.streamID == eventStreamID
                && (old(eventStreamID).Some? ==> op.streamID == old(eventStreamID) && op.hint == old(eventOffsetHint))
    {
      op := I.Handled(c.messageID, [], None, 0);
      err := world.AddAccepted(c);
      if !err.Done? {
        return;
      }
      var produced;
      err, produced := world.Handle(c);
      if !err.Done? {
        return;
      }
      err, op := DescribeOutcome(c, produced, rest);
    }

    /** What handling a command has written to the journal, according to how it ended. */
    function Written(err: Outcome, c: Envelope, op: I.Handled): seq<I.Record> {
      match err
      case HandlerFailed => []
      case Failed => [I.CommandHandled(op)]
      case Done =>
        if op.events == [] then [I.CommandHandled(op)]
        else [I.CommandHandled(op), I.EventsAppendedToStream(c.messageID)]
    }

    /**
     * From `pos` on the journal records how this command was handled, up to where the supervisor is. The events are in
     * the supervisor's stream, and its hint is the offset just after them.
     */
    ghost predicate Recorded(pos: nat, c: Envelope, op: I.Handled)
      reads this, world
    {
      var h := world.state.shared.history;
      && op.commandID == c.messageID
      && pos < |h| && h[pos] == I.CommandHandled(op)
      && if op.events == [] then
           journalPos == pos + 1 && op.streamID == None && op.hint == 0
         else
           && journalPos == pos + 2 <= |h| && h[pos + 1] == I.EventsAppendedToStream(c.messageID)
           && op.streamID.Some? && op.streamID == eventStreamID
           && exists begin: nat ::
                && PlacedAt(world.state.shared, op.streamID.value, begin, op.events)
                && eventOffsetHint == begin + |op.events|
    }

    /** Has a command handled, records the outcome, and appends the events. */
    method HandleCommand(c: Envelope, ghost rest: Rest) returns (err: Outcome, ghost op: I.Handled)
      requires At(Adding(c, rest))
      modifies this, world, events
      ensures world.Later()
      ensures At(if err.Done? then rest.Next() else Down)
      ensures Settles(err) && Blames(err)
      ensures old(journalPos) <= journalPos
      ensures err.Done? ==> Recorded(old(journalPos), c, op)
      ensures err.Done? ==>
                exists t :: old(world.clock) <= t < world.clock && world.script(t).events == Some(op.events)
      ensures err.Done? && op.events == [] ==>
                eventStreamID == old(eventStreamID) && eventOffsetHint == old(eventOffsetHint)
      ensures err.Done? && op.events != [] && old(eventStreamID).Some? ==>
                op.streamID == old(eventStreamID) && op.hint == old(eventOffsetHint)
      ensures old(Calm()) ==>
                && world.state.shared.accepted == old(world.state.shared.accepted) + {c.messageID}
                && world.Wrote(Written(err, c, op))
    {
      var handled;
      err, handled := RecordOutcome(c, rest);
      op := handled;
      if err.Done? {
        err := AppendOwnEvents(handled, rest);
      }
    }

    /** Has the events of an operation of its own appended; the hint is then the offset just after them. */
    method AppendOwnEvents(op: I.Handled, ghost rest: Rest) returns (err: Outcome)
      requires At(if op.events == [] then rest.Next() else Sending(op, true, rest))
      modifies this, world, events
      ensures world.Later() && (err.Done? || err.Failed?)
      ensures At(if err.Done? then rest.Next() else Down)
      ensures Settles(err)
      ensures eventStreamID == old(eventStreamID)
      ensures op.events == [] ==> err.Done? && eventOffsetHint == old(eventOffsetHint)
      ensures journalPos == old(journalPos) + if err.Done? && op.events != [] then 1 else 0
      ensures err.Done? && op.events != [] ==>
                && op.streamID.Some? && journalPos <= |world.state.shared.history|
                && world.state.shared.history[old(journalPos)] == I.EventsAppendedToStream(op.commandID)
                && exists begin: nat ::
                     && PlacedAt(world.state.shared, op.streamID.value, begin, op.events)
                     && eventOffsetHint == begin + |op.events|
      ensures old(Calm()) ==>
                && world.state.shared.accepted == old(world.state.shared.accepted)
                && world.Wrote(if err.Done? && op.events != [] then [I.EventsAppendedToStream(op.commandID)] else [])
    {
      ghost var res;
      err, res := AppendEvents(op, true, rest);
      if err.Done? && op.events != [] {
        events.ResponseIsTrue(op.Request(), res);
      }
    }

    /** Has a command handled and records the outcome. */
    method RecordOutcome(c: Envelope, ghost rest: Rest) returns (err: Outcome, op: I.Handled)
      requires At(Adding(c, rest))
      modifies this, world
      ensures world.LaterForSup()
      ensures At(if !err.Done? then Down else if op.events == [] then rest.Next() else Sending(op, true, rest))
      ensures Blames(err)
      ensures journalPos == old(journalPos) + if err.Done? then 1 else 0
      ensures err.Done? ==>
                && op.commandID == c.messageID
                && journalPos <= |world.state.shared.history|
                && world.state.shared.history[old(journalPos)] == I.CommandHandled(op)
                && exists t :: old(world.clock) <= t < world.clock && world.script(t).events == Some(op.events)
      ensures err.Done? && op.events == [] ==>
                && op.streamID == None && op.hint == 0
                && eventStreamID == old(eventStreamID) && eventOffsetHint == old(eventOffsetHint)
      ensures err.Done? && op.events != [] ==>
                && op.streamID.Some? && op.streamID == eventStreamID
                && (old(eventStreamID).Some? ==> op.streamID == old(eventStreamID) && op.hint == old(eventOffsetHint))
      ensures old(Calm()) ==>
                && (err.Done? || err.HandlerFailed?) && (err.Done? ==> Calm())
                && (old(world.Willing()) ==> err.Done?)
                && world.state.shared.begin == old(world.state.shared.begin)
                && world.state.shared.accepted == old(world.state.shared.accepted) + {c.messageID}
                && world.Wrote(if err.Done? then [I.CommandHandled(op)] else [])
    {
      err, op := CallHandler(c, rest);
      if err.Done? {
        err := world.Append(journalPos, I.CommandHandled(op));
        if err.Done? {
          journalPos := journalPos + 1;
        }
      }
    }

    /** What to record about a handled command. A stream is selected when it is needed for the first time. */
    method DescribeOutcome(c: Envelope, produced: seq<Envelope>, ghost rest: Rest) returns (err: Outcome, op: I.Handled)
      requires At(if produced == [] then Recording(I.Handled(c.messageID, [], None, 0), rest)
                  else if eventStreamID.None? then Selecting(c, produced, rest)
                  else Recording(I.Handled(c.messageID, produced, eventStreamID, eventOffsetHint), rest))
      modifies this, world
      ensures world.LaterForSup() && (err.Done? || err.Failed?)
      ensures At(if err.Done? then Recording(op, rest) else Down)
      ensures err.Done? ==> op.commandID == c.messageID && op.events == produced
      ensures err.Done? && produced == [] ==>
                && op.streamID == None && op.hint == 0
                && eventStreamID == old(eventStreamID) && eventOffsetHint == old(eventOffsetHint)
      ensures err.Done? && produced != [] ==>
                && op.streamID.Some? && op.streamID == eventStreamID && op.hint == eventOffsetHint
                && (old(eventStreamID).Some? ==> eventStreamID == old(eventStreamID) && op.hint == old(eventOffsetHint))
      ensures journalPos == old(journalPos)
      ensures old(world.Quiet()) ==> err.Done? && world.state.shared == old(world.state.shared)
    {
      err, op := Done, I.Handled(c.messageID, [], None, 0);
      if produced != [] {
        if eventStreamID.None? {
          var id, offset;
          err, id, offset := world.SelectEventStream();
          if err.Failed? {
            return;
          }
          eventStreamID, eventOffsetHint := Some(id), offset;
        }
        op := I.Handled(c.messageID, produced, eventStreamID, eventOffsetHint);
      }
    }

    /**
     * How an attempt to accept a command ends. The sender is told that the command is accepted exactly if it was
     * accepted before or its acceptance was appended now, whatever happened to it afterwards.
     */
    twostate predicate Concludes(c: Envelope, err: Outcome, acked: bool, op: I.Handled)
      reads this, world
    {
      var pos, h := old(journalPos), world.state.shared.history;
      && pos <= journalPos
      && (pos < journalPos ==> acked && pos < |h| && h[pos] == I.CommandAccepted(c))
      && (pos < journalPos && err.Done? ==> Recorded(pos + 1, c, op))
      && (pos == journalPos ==> (acked <==> err.Done?) && (acked ==> c.messageID in world.state.shared.accepted))
      && (acked ==> c.messageID in world.state.shared.acked)
    }

    /** Undisturbed, a new command is always accepted and acknowledged, and a command accepted before changes nothing. */
    twostate predicate ConcludesCalmly(c: Envelope, err: Outcome, acked: bool, op: I.Handled)
      reads this, world
    {
      old(Calm()) ==>
        && acked
        && if c.messageID in old(world.state.shared.accepted) then
             && err.Done? && world.Wrote([])
             && world.state.shared.accepted == old(world.state.shared.accepted)
           else
             && world.Wrote([I.CommandAccepted(c)] + Written(err, c, op))
             && world.state.shared.accepted == old(world.state.shared.accepted) + {c.messageID}
    }

    /** Accepts a command unless it was accepted before. */
    method AcceptCommand(c: Envelope) returns (err: Outcome, acked: bool, ghost op: I.Handled)
      requires At(Checking(c))
      modifies this, world, events
      ensures world.Later()
      ensures At(if err.Done? then Idle else Down)
      ensures Settles(err) && Blames(err)
      ensures Concludes(c, err, acked, op) && ConcludesCalmly(c, err, acked, op)
    {
      acked, op := false, I.Handled(c.messageID, [], None, 0);
      var already;
      err, already := world.HasAccepted(c);
      if err.Done? {
        if already {
          acked := true;
        } else {
          err, acked, op := AcceptNew(c);
        }
      }
    }

    /** Accepts a command that is not in the set of accepted commands, acknowledges it, and has it handled. */
    method AcceptNew(c: Envelope) returns (err: Outcome, acked: bool, ghost op: I.Handled)
      requires At(Accepting(c))
      modifies this, world, events
      ensures world.Later()
      ensures At(if err.Done? then Idle else Down)
      ensures Settles(err) && Blames(err)
      ensures Concludes(c, err, acked, op)
      ensures err.Done? ==> old(journalPos) < journalPos
      ensures old(Calm()) ==>
                && acked && world.Wrote([I.CommandAccepted(c)] + Written(err, c, op))
                && world.state.shared.accepted == old(world.state.shared.accepted) + {c.messageID}
    {
      acked, op := false, I.Handled(c.messageID, [], None, 0);
      err := world.Append(journalPos, I.CommandAccepted(c));
      if err.Done? {
        journalPos := journalPos + 1;
        acked := true;
        err, op := HandleCommand(c, ToIdle);
      }
    }

    // ----- recovery -----

    /** The scan of the live records finds the work that is pending in the whole history. */
    lemma LiveRecords(h: seq<I.Record>, from: nat)
      requires world.Valid() && h == world.state.shared.history && from <= |h|
      ensures I.Scannable(h[from..])
      ensures var rs := h[from..];
              && I.PendingCommands(rs, 0, |rs|) == I.PendingCommands(h, from, |h|)
              && I.PendingOps(rs, 0, |rs|) == I.PendingOps(h, from, |h|)
    {
      world.Invariant();
      I.WellFormedIsScannable(h);
      I.ScannableSuffix(h, from);
      I.PendingOfSuffix(h, from, |h|);
    }

    /** Reads the live records and lists the work that is pending in them. */
    method ScanJournal() returns (err: Outcome, accepted: seq<Envelope>, handled: seq<I.Handled>)
      requires At(Scanning)
      modifies this, world
      ensures world.LaterForSup() && (err.Done? || err.Failed?)
      ensures At(if err.Done? then Resuming(handled, accepted) else Down)
      ensures old(world.Quiet()) && old(world.state.shared.begin) <= old(journalPos) ==>
                && err.Done? && world.state.shared == old(world.state.shared)
                && journalPos == |world.state.shared.history|
    {
      accepted, handled := [], [];
      var records;
      err, records := world.Range(journalPos);
      if err.Done? {
        LiveRecords(world.state.shared.history, journalPos);
        journalPos, accepted, handled := I.RecoveryScan(journalPos, records);
      }
    }

    /** Lists the pending work and moves to the end of the journal. */
    method ReadPending() returns (err: Outcome, accepted: seq<Envelope>, handled: seq<I.Handled>)
      requires At(Down)
      modifies this, world
      ensures world.LaterForSup() && (err.Done? || err.Failed?)
      ensures At(if err.Done? then Resuming(handled, accepted) else Down)
      ensures old(world.Quiet()) ==>
                && err.Done? && world.state.shared == old(world.state.shared)
                && journalPos == |world.state.shared.history|
    {
      accepted, handled := [], [];
      var begin, end;
      err, begin, end := world.Bounds();
      if err.Done? {
        journalPos := begin;
        if begin != end {
          err, accepted, handled := ScanJournal();
        }
      }
    }

    /** What the invariant says of a supervisor that resumes: it has only that to do which the journal calls for. */
    lemma Pending(handled: seq<I.Handled>, accepted: seq<Envelope>)
      requires At(Resuming(handled, accepted))
      ensures journalPos <= |world.state.shared.history|
      ensures !I.PhaseAt(world.state.shared.history, journalPos).AwaitingHandle? ==> accepted == []
      ensures handled != [] && !I.PhaseAt(world.state.shared.history, journalPos).AwaitingAppend? ==> handled[0].events == []
    {
      world.Invariant();
      if handled != [] {
        I.WithEventsCons(handled, |handled|);
      }
    }

    /** Nothing was accepted since, and the set of accepted commands has only grown by what the journal had accepted. */
    lemma NothingAccepted(h0: seq<I.Record>, h1: seq<I.Record>, rs: seq<I.Record>)
      requires h0 <= h1 && I.Commands(h1, |h0|, |h1|) == []
      requires forall k :: 0 <= k < |rs| ==> !rs[k].CommandAccepted?
      ensures h0 <= h1 + rs && I.Commands(h1 + rs, |h0|, |h1 + rs|) == []
    {
      I.NothingAcceptedSince(h1, rs);
      I.CommandsGrow(h0, h1, h1 + rs);
    }

    /** Appends the events of one operation that is pending. */
    method AppendNext(handled: seq<I.Handled>, accepted: seq<Envelope>) returns (err: Outcome)
      requires handled != [] && At(Resuming(handled, accepted))
      modifies this, world, events
      ensures world.Later() && (err.Done? || err.Failed?)
      ensures At(if err.Done? then Resuming(handled[1..], accepted) else Down)
      ensures Settles(err)
      ensures eventStreamID == old(eventStreamID) && eventOffsetHint == old(eventOffsetHint)
      ensures old(Calm()) ==>
                world.Wrote(if err.Done? && handled[0].events != []
                            then [I.EventsAppendedToStream(handled[0].commandID)] else [])
      ensures old(Calm() && !I.PhaseOf(world.state.shared.history).AwaitingAppend?) ==>
                err.Done? && world.state.shared == old(world.state.shared)
    {
      Pending(handled, accepted);
      world.Proceed();
      ghost var res;
      err, res := AppendEvents(handled[0], false, ToResume(handled[1..], accepted));
    }

    /** Appends the events of all pending operations, in journal order. */
    method AppendPending(handled: seq<I.Handled>, accepted: seq<Envelope>) returns (err: Outcome)
      requires At(Resuming(handled, accepted))
      modifies this, world, events
      ensures world.Later() && (err.Done? || err.Failed?)
      ensures At(if err.Done? then Resuming([], accepted) else Down)
      ensures Settles(err)
      ensures eventStreamID == old(eventStreamID) && eventOffsetHint == old(eventOffsetHint)
      ensures old(Calm()) ==> world.Accepts([])
      ensures old(Calm() && !I.PhaseOf(world.state.shared.history).AwaitingAppend?) ==>
                err.Done? && world.state.shared == old(world.state.shared)
    {
      ghost var h0 := world.state.shared.history;
      for i := 0 to |handled|
        invariant world.Later()
        invariant At(Resuming(handled[i..], accepted))
        invariant Settles(Done)
        invariant eventStreamID == old(eventStreamID) && eventOffsetHint == old(eventOffsetHint)
        invariant old(Calm()) ==> world.Accepts([])
        invariant old(Calm() && !I.PhaseOf(world.state.shared.history).AwaitingAppend?) ==>
                    world.state.shared == old(world.state.shared)
      {
        assert handled[i..][1..] == handled[i + 1..];
        ghost var h1 := world.state.shared.history;
        err := AppendNext(handled[i..], accepted);
        if old(Calm()) {
          NothingAccepted(h0, h1, world.state.shared.history[|h1|..]);
          assert h1 + world.state.shared.history[|h1|..] == world.state.shared.history;
        }
        if err.Failed? {
          return;
        }
      }
      assert handled[|handled|..] == [];
      err := Done;
    }

    /** Handles all commands that are pending. */
    method HandlePending(accepted: seq<Envelope>) returns (err: Outcome)
      requires At(Resuming([], accepted))
      modifies this, world, events
      ensures world.Later()
      ensures At(if err.Done? then Truncating else Down)
      ensures Settles(err) && Blames(err)
      ensures old(Calm()) ==> world.Accepts([])
      ensures accepted == [] ==> err.Done? && world.state.shared == old(world.state.shared)
    {
      ghost var h0 := world.state.shared.history;
      for i := 0 to |accepted|
        invariant world.Later()
        invariant At(Resuming([], accepted[i..]))
        invariant Settles(Done)
        invariant old(Calm()) ==> world.Accepts([])
        invariant accepted == [] ==> world.state.shared == old(world.state.shared)
      {
        assert accepted[i..][1..] == accepted[i + 1..];
        world.Proceed();
        ghost var h1 := world.state.shared.history;
        ghost var op;
        err, op := HandleCommand(accepted[i], ToResume([], accepted[i + 1..]));
        if old(Calm()) {
          NothingAccepted(h0, h1, Written(err, accepted[i], op));
        }
        if !err.Done? {
          return;
        }
      }
      assert accepted[|accepted|..] == [];
      world.Proceed();
      err := Done;
    }

    /** Completes the pending work, events to append before commands to handle. */
    method Resume(handled: seq<I.Handled>, accepted: seq<Envelope>) returns (err: Outcome)
      requires At(Resuming(handled, accepted))
      modifies this, world, events
      ensures world.Later()
      ensures At(if err.Done? then Truncating else Down)
      ensures Settles(err) && Blames(err)
      ensures old(Calm()) ==> world.Accepts([])
      ensures old(Calm()) && err.HandlerFailed? ==> I.PhaseOf(old(world.state.shared.history)).AwaitingHandle?
      ensures old(Calm() && I.PhaseOf(world.state.shared.history) == I.Settled) ==>
                err.Done? && world.state.shared == old(world.state.shared)
    {
      Pending(handled, accepted);
      ghost var h0 := world.state.shared.history;
      err := AppendPending(handled, accepted);
      if err.Done? {
        ghost var h1 := world.state.shared.history;
        err := HandlePending(accepted);
        if old(Calm()) {
          I.CommandsGrow(h0, h1, world.state.shared.history);
        }
      }
    }

    /** An idle supervisor that has read the whole journal has left nothing undone. */
    lemma NothingLeft()
      requires At(Idle) && journalPos == |world.state.shared.history|
      ensures Complete(world.state.shared)
      ensures world.state.shared.accepted == I.AcceptedIn(world.state.shared.history)
    {
      world.Invariant();
      SettledIsComplete(world.state.shared);
      CompleteMeansSet(world.state.shared);
    }

    /** Drops the records up to where the supervisor has got. */
    method DropJournal() returns (err: Outcome)
      requires At(Truncating)
      modifies this, world
      ensures world.LaterForSup() && (err.Done? || err.Failed?)
      ensures At(if err.Done? then Idle else Down)
      ensures old(Calm()) ==>
                && err.Done? && Calm() && Complete(world.state.shared)
                && world.state.shared == old(world.state.shared).(begin := |old(world.state.shared.history)|)
    {
      world.Invariant();
      err := world.Truncate(journalPos);
      if err.Done? && journalPos == |world.state.shared.history| {
        NothingLeft();
      }
    }

    /**
     * Completes whatever work the journal shows to be pending, then drops the whole journal.
     *
     * If nobody interferes and nothing fails then it succeeds, provided that the handler does whenever it is called
     * and that the worker's cache is up to date; and a success leaves an empty journal and nothing undone. If only
     * the cache is out of date then it may fail, but will not when it is tried again. The handler is called only if
     * a command awaits handling. If nothing was pending then nothing changes but where the journal begins.
     */
    method Recover() returns (err: Outcome)
      requires At(Down)
      modifies this, world, events
      ensures world.Later() && Blames(err)
      ensures At(if err.Done? then Idle else Down)
      ensures old(world.Quiet() && world.Willing() && events.Current()) ==> err.Done?
      ensures old(world.Quiet()) ==>
                && world.Accepts([])
                && (err.Done? ==>
                      && Calm() && world.state.shared.begin == |world.state.shared.history|
                      && Complete(world.state.shared))
                && (err.Failed? ==> !old(events.Current()) && events.Current())
                && (old(events.Current()) ==> events.Current())
                && (err.HandlerFailed? ==>
                      !old(world.Willing()) && I.PhaseOf(old(world.state.shared.history)).AwaitingHandle?)
      ensures old(world.Quiet() && I.PhaseOf(world.state.shared.history) == I.Settled) ==>
                err.Done? && world.state.shared == old(world.state.shared).(begin := |old(world.state.shared.history)|)
    {
      var accepted, handled;
      err, accepted, handled := ReadPending();
      if !err.Done? {
        return;
      }
      err := Resume(handled, accepted);
      if !err.Done? {
        return;
      }
      err := DropJournal();
    }

    /**
     * Recovers, and once more if that fails. Undisturbed, and with a handler that succeeds, this gets from any state
     * whatever, even with a worker whose cache is out of date, to an empty journal with nothing undone.
     */
    method RecoverTwice() returns (err: Outcome)
      requires At(Down)
      modifies this, world, events
      ensures world.Later()
      ensures At(if err.Done? then Idle else Down)
      ensures old(world.Quiet() && world.Willing()) ==>
                && err.Done? && Calm() && world.state.shared.begin == |world.state.shared.history|
                && Complete(world.state.shared)
    {
      err := Recover();
      if err.Failed? {
        err := Recover();
      }
    }

    /** Waits for a command, then accepts it. */
    method ServeNext(c: Envelope) returns (err: Outcome, acked: bool, ghost op: I.Handled)
      requires At(Idle)
      modifies this, world, events
      ensures world.Later()
      ensures At(if err.Done? then Idle else Down)
      ensures Settles(err) && Blames(err)
      ensures Concludes(c, err, acked, op) && ConcludesCalmly(c, err, acked, op)
    {
      world.Receive(c);
      err, acked, op := AcceptCommand(c);
    }

    /**
     * What the sender of a command was told, and where its acceptance was appended if it was: an acknowledgement means
     * that the command is accepted.
     */
    predicate Told(sh: Shared, pos: nat, c: Envelope, acked: bool, place: Option<nat>) {
      && (acked ==> c.messageID in sh.acked)
      && (acked && place.None? ==> c.messageID in sh.accepted)
      && (place.Some? ==>
            acked && place.value < pos && place.value < |sh.history| && sh.history[place.value] == I.CommandAccepted(c))
    }

    ghost predicate InOrder(places: seq<Option<nat>>) {
      forall i, j :: 0 <= i < j < |places| && places[i].Some? && places[j].Some? ==> places[i].value < places[j].value
    }

    ghost predicate AllTold(sh: Shared, pos: nat, inbox: seq<Envelope>, acked: seq<bool>, places: seq<Option<nat>>) {
      && |places| == |acked| <= |inbox|
      && (forall i :: 0 <= i < |acked| ==> Told(sh, pos, inbox[i], acked[i], places[i]))
      && InOrder(places)
    }

    /** What the senders were told stays true, and the next one is told something too. */
    lemma OneMoreTold(sh: Shared, pos: nat, sh': Shared, pos': nat, inbox: seq<Envelope>,
                      acked: seq<bool>, places: seq<Option<nat>>, ack: bool, place: Option<nat>)
      requires AllTold(sh, pos, inbox, acked, places) && |acked| < |inbox|
      requires sh.history <= sh'.history && sh.accepted <= sh'.accepted && sh.acked <= sh'.acked && pos <= pos'
      requires Told(sh', pos', inbox[|acked|], ack, place) && (place.Some? ==> place.value == pos)
      ensures AllTold(sh', pos', inbox, acked + [ack], places + [place])
    {
      forall i | 0 <= i < |acked|
        ensures Told(sh', pos', inbox[i], acked[i], places[i])
      {
        assert Told(sh, pos, inbox[i], acked[i], places[i]);
      }
    }

    /** What undisturbed service amounts to: since `h0`, exactly the commands not known were accepted; all are acknowledged. */
    ghost predicate ServedCalmly(h0: seq<I.Record>, known: set<UUID>, inbox: seq<Envelope>, err: Outcome, acked: seq<bool>)
      requires |acked| <= |inbox|
      reads this, world
    {
      var h := world.state.shared.history;
      && (forall i :: 0 <= i < |acked| ==> acked[i])
      && h0 <= h && I.Commands(h, |h0|, |h|) == I.Admitted(inbox, known, |acked|)
      && (err.Done? ==> Calm() && world.state.shared.accepted == known + I.IDsOf(inbox, |acked|))
    }

    /** One more step of undisturbed service. */
    lemma ServedOne(h0: seq<I.Record>, h1: seq<I.Record>, h2: seq<I.Record>, inbox: seq<Envelope>, known: set<UUID>, n: nat,
                    err: Outcome, op: I.Handled)
      requires h0 <= h1 && n < |inbox| && I.Commands(h1, |h0|, |h1|) == I.Admitted(inbox, known, n)
      requires h2 == h1 + if inbox[n].messageID in known + I.IDsOf(inbox, n) then []
                          else [I.CommandAccepted(inbox[n])] + Written(err, inbox[n], op)
      ensures h0 <= h2 && I.Commands(h2, |h0|, |h2|) == I.Admitted(inbox, known, n + 1)
      ensures I.IDsOf(inbox, n + 1) == I.IDsOf(inbox, n) + {inbox[n].messageID}
    {
      I.OneAcceptedSince(h1, inbox[n], Written(err, inbox[n], op));
      I.NothingAcceptedSince(h1, []);
      I.AdmitOne(h0, h1, h2, inbox, known, n);
    }

    /** Serves the next command of the inbox, and keeps account of it. */
    method ServeOne(inbox: seq<Envelope>, acked: seq<bool>, ghost places: seq<Option<nat>>,
                    ghost calm: bool, ghost h0: seq<I.Record>, ghost known: set<UUID>)
      returns (err: Outcome, acked': seq<bool>, ghost places': seq<Option<nat>>)
      requires At(Idle) && AllTold(world.state.shared, journalPos, inbox, acked, places) && |acked| < |inbox|
      requires calm ==> ServedCalmly(h0, known, inbox, Done, acked)
      modifies this, world, events
      ensures world.Later()
      ensures At(if err.Done? then Idle else Down)
      ensures Settles(err) && Blames(err)
      ensures |acked'| == |acked| + 1 && acked' == acked + [acked'[|acked|]] && AllTold(world.state.shared, journalPos, inbox, acked', places')
      ensures err.Done? ==> acked'[|acked|]
      ensures calm ==> ServedCalmly(h0, known, inbox, err, acked')
    {
      ghost var sh, pos := world.state.shared, journalPos;
      ghost var op;
      var ack;
      err, ack, op := ServeNext(inbox[|acked|]);
      ghost var place := if pos < journalPos then Some(pos) else None;
      OneMoreTold(sh, pos, world.state.shared, journalPos, inbox, acked, places, ack, place);
      acked', places' := acked + [ack], places + [place];
      if calm {
        ServedOne(h0, sh.history, world.state.shared.history, inbox, known, |acked|, err, op);
      }
    }

    /**
     * Serves commands in the order of the inbox until one fails or there are no more. The first `|acked|` commands
     * were taken off the queue; all of them but the last were served successfully.
     */
    method Serve(inbox: seq<Envelope>) returns (err: Outcome, acked: seq<bool>, ghost places: seq<Option<nat>>)
      requires At(Idle)
      modifies this, world, events
      ensures world.Later() && Blames(err)
      ensures At(if err.Done? then Idle else Down)
      ensures AllTold(world.state.shared, journalPos, inbox, acked, places)
      ensures forall i :: 0 <= i < |acked| - 1 ==> acked[i]
      ensures if err.Done? then |acked| == |inbox| && forall i :: 0 <= i < |acked| ==> acked[i] else 0 < |acked|
      ensures old(Calm()) ==>
                && ServedCalmly(old(world.state.shared.history), old(world.state.shared.accepted), inbox, err, acked)
                && (old(events.Current()) ==> events.Current() && !err.Failed?)
                && (old(world.Willing()) ==> !err.HandlerFailed?)
    {
      err, acked, places := Done, [], [];
      ghost var calm, h0, known := Calm(), world.state.shared.history, world.state.shared.accepted;
      while |acked| < |inbox| && err.Done?
        invariant world.Later() && Blames(err)
        invariant At(if err.Done? then Idle else Down)
        invariant AllTold(world.state.shared, journalPos, inbox, acked, places)
        invariant forall i :: 0 <= i < |acked| - 1 ==> acked[i]
        invariant if err.Done? then forall i :: 0 <= i < |acked| ==> acked[i] else 0 < |acked|
        invariant calm ==> ServedCalmly(h0, known, inbox, err, acked)
        invariant calm && old(events.Current()) ==> events.Current() && !err.Failed?
        invariant calm && old(world.Willing()) ==> !err.HandlerFailed? && (err.Done? ==> world.Willing())
        decreases |inbox| - |acked|
      {
        err, acked, places := ServeOne(inbox, acked, places, calm, h0, known);
      }
    }

    /**
     * Recovers, then serves commands in the order of the inbox until one fails or there are no more. However the run
     * ends, the sender of an acknowledged command can rely on it having been accepted durably, and acceptances were
     * appended in the order of the inbox. Undisturbed, exactly those commands were accepted that are new, each of them
     * was acknowledged even if handling it failed, and with a handler that succeeds the run succeeds: then every command
     * is handled, and all events are in their streams exactly once.
     */
    method Run(inbox: seq<Envelope>) returns (err: Outcome, acked: seq<bool>, ghost places: seq<Option<nat>>)
      requires At(Down)
      modifies this, world, events
      ensures world.Later() && Blames(err)
      ensures At(if err.Done? then Idle else Down)
      ensures AllTold(world.state.shared, journalPos, inbox, acked, places)
      ensures forall i :: 0 <= i < |acked| - 1 ==> acked[i]
      ensures err.Done? ==> |acked| == |inbox| && forall i :: 0 <= i < |acked| ==> acked[i]
      ensures forall i :: 0 <= i < |acked| && acked[i] ==>
                WasAccepted(world.state.shared.history, inbox[i].messageID)
      ensures old(world.Quiet() && world.Willing() && events.Current()) ==> err.Done?
      ensures old(world.Quiet()) ==>
                && (forall i :: 0 <= i < |acked| ==> acked[i])
                && world.Accepts(I.Admitted(inbox, I.AcceptedIn(old(world.state.shared.history)), |acked|))
                && (err.Done? ==> Complete(world.state.shared))
    {
      acked, places := [], [];
      ghost var h0 := world.state.shared.history;
      err := Recover();
      if !err.Done? {
        return;
      }
      ghost var h1 := world.state.shared.history;
      if old(world.Quiet()) {
        NothingLeft();
        I.SameAccepted(h0, h1);
      }
      err, acked, places := Serve(inbox);
      if old(world.Quiet()) {
        I.CommandsGrow(h0, h1, world.state.shared.history);
      }
      world.Invariant();
      if err.Done? && journalPos == |world.state.shared.history| {
        NothingLeft();
      }
    }
  }
}
