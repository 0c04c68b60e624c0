/** The event-stream worker, which appends each batch of events to its stream unless it is there already. */
module StreamWorking {
  import opened Common
  import opened Protocol
  import opened ProtocolInvariant
  import opened ProtocolTheorems
  import opened Environment
  import S = StreamJournal

  class StreamWorker {
    const world: World
    var streamID: UUID
    var pos: nat
    var off: nat

    /** A worker that takes over from whatever was there before. */
    constructor (world: World)
      requires world.Valid()
      modifies world
      ensures this.world == world && At(Stopped) && Current()
      ensures world.Later() && world.Sup() == old(world.Sup()) && world.state.shared == old(world.state.shared)
    {
      this.world, streamID, pos, off := world, 0, 0, 0;
      new;
      world.ActAsWorker(Halt);
    }

    /** The worker is at this point of the protocol, and its cache is what the protocol says it is. */
    ghost predicate At(pc: WorkerPC)
      reads this, world
    {
      && world.Valid()
      && world.Worker().pc == pc
      && (!pc.Stopped? ==> world.Worker() == Protocol.Worker(pc, streamID, pos, off))
    }

    /** Ready for a request, or stopped. */
    ghost predicate Resting()
      reads this, world
    {
      At(Stopped) || At(Ready)
    }

    /** No record of the stream has escaped the worker so far; nothing is cached while it is stopped. */
    ghost predicate Current()
      reads this, world
    {
      world.Worker().pc.Stopped? || pos == |world.state.shared.Stream(streamID)|
    }

    /** Starts the worker on a stream: the last record tells the next position and the next offset. */
    method Run(id: UUID) returns (err: Outcome)
      requires At(Stopped)
      modifies this, world
      ensures world.Later() && world.Sup() == old(world.Sup())
      ensures err.Done? || err.Failed?
      ensures if err.Done? then At(Ready) && streamID == id && Current() else At(Stopped)
      ensures old(world.Quiet()) ==> err.Done? && world.state.shared == old(world.state.shared)
    {
      streamID, pos, off := id, 0, 0;
      var last;
      err, last := world.LastRecord(id);
      if err.Done? && last.Some? {
        pos, off := last.value.0 + 1, last.value.1.offsetAfter;
      }
    }

    /** The events cannot be duplicates if the lowest offset they may be at is the end of the stream. */
    predicate MightBeDuplicates(req: AppendRequest)
      reads this
    {
      req.hint < off
    }

    /** Searches the records below the worker's position for the hint, then scans on from the hit. */
    method LookIn(view: seq<S.Record>, req: AppendRequest) returns (found: Option<nat>)
      requires S.Tiled(view) && pos <= |view| && req.events != []
      ensures found == S.FastLookup(view, pos, req.hint, req.events[0].messageID)
    {
      found := None;
      var hit := S.Search(view, pos, req.hint);
      if hit.Some? {
        found := S.Scan(view, hit.value, req.events[0].messageID);
      }
    }

    /** Looks for the record that holds the request's events. The response is given with the record. */
    method FindAppendRecord(req: AppendRequest) returns (err: Outcome, rec: Option<S.Record>)
      requires At(Looking(req))
      modifies world
      ensures world.Later() && world.Sup() == old(world.Sup())
      ensures err.Done? || err.Failed?
      ensures if err.Failed? then At(Stopped) && rec.None? else if rec.None? then At(Writing(req)) else At(Ready)
      ensures rec.Some? ==>
                (req, AppendResponse(rec.value.offsetBefore, rec.value.offsetAfter, true)) in world.state.shared.responses
      ensures rec.Some? ==> Stored(world.state.shared, req)
      ensures old(world.Quiet()) ==>
                err.Done? && world.state.shared == old(world.state.shared).(responses := world.state.shared.responses)
    {
      var view;
      err, view := world.View();
      if err.Failed? {
        return err, None;
      }
      RequestHasEvents(req);
      var found := LookIn(view, req);
      rec := if found.Some? then Some(view[found.value]) else None;
      assert view == world.state.shared.Stream(streamID)[..|view|];
      world.LookupNow(|view|);
    }

    /**
     * What becomes of a request that is served while nobody interferes: if its batch is stored already, the response
     * says so and nothing changes; otherwise it is stored, and nothing else.
     */
    ghost predicate Served(before: Shared, after: Shared, req: AppendRequest, res: AppendResponse) {
      if res.byPriorAttempt then
        Stored(before, req) && after.streams == before.streams
      else
        && !Stored(before, req)
        && after.streams == before.streams[req.streamID :=
             before.Stream(req.streamID) + [S.Record(res.begin, res.end, req.events)]]
    }

    lemma RequestHasEvents(req: AppendRequest)
      requires At(Looking(req))
      ensures req.events != []
    {
      world.Invariant();
      assert Claims(world.state.shared, req);
    }

    /** Writes the events unless they were written already. */
    method AppendEvents(req: AppendRequest) returns (err: Outcome, res: AppendResponse)
      requires At(if MightBeDuplicates(req) then Looking(req) else Writing(req))
      modifies this, world
      ensures world.Later() && world.Sup() == old(world.Sup())
      ensures err.Done? || err.Failed?
      ensures if err.Done? then At(Ready) && (req, res) in world.state.shared.responses else At(Stopped)
      ensures old(world.Quiet()) ==>
                && world.state.shared.history == old(world.state.shared.history)
                && world.state.shared.begin == old(world.state.shared.begin)
                && world.state.shared.accepted == old(world.state.shared.accepted)
                && (err.Done? ==> Served(old(world.state.shared), world.state.shared, req, res))
                && (old(Current()) ==> err.Done? && Current())
    {
      res := AppendResponse(0, 0, false);
      world.Invariant();
      assert req.streamID == streamID;
      if MightBeDuplicates(req) {
        var rec;
        err, rec := FindAppendRecord(req);
        if err.Failed? {
          return;
        }
        if rec.Some? {
          return Done, AppendResponse(rec.value.offsetBefore, rec.value.offsetAfter, true);
        }
      }
      var before, after := off, off + |req.events|;
      err := world.AppendToStream(pos, S.Record(before, after, req.events));
      if err.Failed? {
        return;
      }
      pos, off := pos + 1, after;
      res := AppendResponse(before, after, false);
    }

    /** A response tells the truth about the stream. */
    lemma ResponseIsTrue(req: AppendRequest, res: AppendResponse)
      requires world.Valid() && (req, res) in world.state.shared.responses
      ensures res.end == res.begin + |req.events|
      ensures PlacedAt(world.state.shared, req.streamID, res.begin, req.events)
    {
      assert world.state == After(world.run) == After(world.run + []) by {
        assert world.run + [] == world.run;
      }
      ResponsesAreTrue(world.run, [], req, res);
    }

    /** A worker for the stream is started if none is running. One that serves another stream is stopped first. */
    method EnsureRunning(id: UUID) returns (err: Outcome)
      requires Resting()
      modifies this, world
      ensures world.Later() && world.Sup() == old(world.Sup())
      ensures err.Done? || err.Failed?
      ensures if err.Done? then At(Ready) && streamID == id else At(Stopped)
      ensures old(world.Quiet()) ==>
                err.Done? && world.state.shared == old(world.state.shared) && (old(Current()) ==> Current())
    {
      if world.Worker().pc.Ready? {
        if streamID == id {
          return Done;
        }
        world.ActAsWorker(Halt);
      }
      err := Run(id);
    }

    /**
     * Takes a request from the queue and answers it: the events are then in the stream at the offsets of the response.
     * If it fails the worker is stopped, and with it a cache that was out of date is gone.
     */
    method HandleAppend(req: AppendRequest) returns (err: Outcome, res: AppendResponse)
      requires Resting() && req in world.state.shared.issued
      modifies this, world
      ensures world.Later() && world.Sup() == old(world.Sup())
      ensures err.Done? || err.Failed?
      ensures At(if err.Done? then Ready else Stopped)
      ensures err.Done? ==> (req, res) in world.state.shared.responses
      ensures err.Done? ==> res.end == res.begin + |req.events|
      ensures err.Done? ==> PlacedAt(world.state.shared, req.streamID, res.begin, req.events)
      ensures old(world.Quiet()) ==>
                && world.state.shared.history == old(world.state.shared.history)
                && world.state.shared.begin == old(world.state.shared.begin)
                && world.state.shared.accepted == old(world.state.shared.accepted)
                && (err.Done? ==> Served(old(world.state.shared), world.state.shared, req, res))
                && (old(Current()) ==> err.Done? && Current())
    {
      res := AppendResponse(0, 0, false);
      var _ := world.Elapse();
      err := EnsureRunning(req.streamID);
      if err.Done? {
        world.TakeRequest(req);
        err, res := AppendEvents(req);
        if err.Done? {
          ResponseIsTrue(req, res);
        }
      }
    }
  }
}
