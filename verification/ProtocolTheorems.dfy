/** What the protocol guarantees over every run of any number of supervisors and workers. */
module ProtocolTheorems {
  import opened Common
  import opened Protocol
  import opened ProtocolInvariant
  import opened ProtocolSteps
  import I = IntegrationJournal
  import S = StreamJournal

  // ----- the journal -----

  /** Each command is accepted at most once and handled at most once, over all history and across truncations. */
  lemma CommandsAtMostOnce(run: seq<Action>)
    ensures var h := After(run).shared.history;
            I.AcceptedOnce(h) && I.HandledOnce(h) && I.InOrder(h)
  {
    Always(run);
    I.WellFormedIsScannable(After(run).shared.history);
  }

  /** The history is whole blocks and at most one block in progress; truncation only ever drops whole blocks. */
  lemma HistoryIsBlocks(run: seq<Action>) returns (blocks: seq<I.Block>, dropped: seq<I.Block>, tail: I.Phase)
    ensures var sh := After(run).shared;
            && I.IsBlocks(sh.history, blocks, tail)
            && sh.begin <= |sh.history| && I.IsBlocks(sh.history[..sh.begin], dropped, I.Settled)
  {
    Always(run);
    var sh := After(run).shared;
    tail := I.PhaseOf(sh.history);
    blocks := I.ParseBlocks(sh.history, |sh.history|);
    assert sh.history[..|sh.history|] == sh.history;
    dropped := I.ParseBlocks(sh.history, sh.begin);
  }

  /** Whatever a supervisor finds on recovery, at most one command is unhandled and at most one batch unappended. */
  lemma RecoveryFindsAtMostOne(run: seq<Action>, p: ProcID)
    requires After(run).SupOf(p).pc.Resuming?
    ensures var pc := After(run).SupOf(p).pc;
            |pc.accepted| + |I.WithEvents(pc.handled)| <= 1
  {
    Always(run);
    var s := After(run);
    assert SupOk(s.shared, p, s.SupOf(p));
  }

  // ----- the streams only grow -----

  ghost predicate Persists(sh: Shared, sh': Shared) {
    && sh.history <= sh'.history
    && sh.begin <= sh'.begin
    && sh.accepted <= sh'.accepted
    && sh.acked <= sh'.acked
    && sh.issued <= sh'.issued
    && sh.responses <= sh'.responses
    && Known(sh) <= Known(sh')
    && (forall id :: sh.Stream(id) <= sh'.Stream(id))
  }

  lemma StepPersists(s: System, a: Action)
    requires Inv(s)
    ensures Persists(s.shared, Apply(s, a).shared)
  {
    match a
    case BySup(p, sa) => SupStepKeeps(s.shared, p, s.SupOf(p), sa);
    case ByWorker(w, wa) => WorkerStepKeeps(s.shared, s.WorkerOf(w), wa);
    case ByOther(r) => ForeignKeeps(s.shared, r);
  }

  lemma OneMoreAction(run: seq<Action>, a: Action)
    ensures Persists(After(run).shared, After(run + [a]).shared)
  {
    Always(run);
    StepPersists(After(run), a);
    AfterSnoc(run, a);
  }

  /** Whatever happens next, nothing durable is taken back. */
  lemma {:induction false} NothingIsTakenBack(run: seq<Action>, more: seq<Action>)
    ensures Persists(After(run).shared, After(run + more).shared)
    decreases |more|
  {
    if more == [] {
      assert run + more == run;
    } else {
      var init, a := more[..|more| - 1], more[|more| - 1];
      NothingIsTakenBack(run, init);
      OneMoreAction(run + init, a);
      assert run + more == run + init + [a];
      PersistsTwice(After(run).shared, After(run + init).shared, After(run + more).shared);
    }
  }

  lemma PersistsTwice(a: Shared, b: Shared, c: Shared)
    requires Persists(a, b) && Persists(b, c)
    ensures Persists(a, c)
  {
    forall id
      ensures a.Stream(id) <= c.Stream(id)
    {
      assert a.Stream(id) <= b.Stream(id) <= c.Stream(id);
    }
  }

  // ----- exactly once -----

  /** Event `e` is seen at offset `o` of a stream. */
  ghost predicate SeenAt(sh: Shared, id: UUID, o: nat, e: Envelope) {
    var flat := S.Flatten(sh.Stream(id));
    o < |flat| && flat[o].messageID == e.messageID
  }

  /** The whole batch is in the stream, in order, from offset `begin` on. */
  ghost predicate PlacedAt(sh: Shared, id: UUID, begin: nat, batch: seq<Envelope>) {
    var flat := S.Flatten(sh.Stream(id));
    begin + |batch| <= |flat| && flat[begin..begin + |batch|] == batch
  }

  lemma StoredIsPlaced(sh: Shared, id: UUID, k: nat, batch: seq<Envelope>)
    requires StreamOk(sh, id) && StoredAt(sh.Stream(id), batch, k)
    ensures PlacedAt(sh, id, sh.Stream(id)[k].offsetBefore, batch)
  {
    S.FlattenTiles(sh.Stream(id), k);
    assert S.TiledAt(sh.Stream(id), k);
  }

  lemma SeenInRecord(sh: Shared, id: UUID, o: nat, e: Envelope) returns (k: nat)
    requires StreamOk(sh, id) && SeenAt(sh, id, o, e)
    ensures k < |sh.Stream(id)| && sh.Stream(id)[k].Covers(o)
    ensures var rec := sh.Stream(id)[k];
            o - rec.offsetBefore < |rec.events| && rec.events[o - rec.offsetBefore].messageID == e.messageID
  {
    var rs := sh.Stream(id);
    S.FlattenLength(rs);
    assert rs[..|rs|] == rs;
    k := S.TilesCover(rs, |rs|, o);
    S.FlattenTiles(rs, k);
    assert S.TiledAt(rs, k);
    var flat := S.Flatten(rs);
    assert flat[rs[k].offsetBefore..rs[k].offsetAfter][o - rs[k].offsetBefore] == flat[o];
  }

  lemma SameBatch(sh: Shared, a: seq<Envelope>, b: seq<Envelope>, i: nat, j: nat)
    requires IsBatch(sh, a) && IsBatch(sh, b) && i < |a| && j < |b| && a[i].messageID == b[j].messageID
    ensures a == b && i == j
  {
    assert a[i] in a && b[j] in b;
  }

  /**
   * Every sighting of an event of a claimed request is in the request's stream, inside the one record
   * that holds the whole batch, at the event's own place in the batch.
   */
  lemma SightingIsPlaced(sh: Shared, r: AppendRequest, id: UUID, o: nat, j: nat)
    requires SharedOk(sh) && Claims(sh, r) && j < |r.events| && SeenAt(sh, id, o, r.events[j])
    ensures id == r.streamID && j <= o && PlacedAt(sh, id, o - j, r.events)
    ensures Stored(sh, r)
    ensures forall k: nat :: StoredAt(sh.Stream(id), r.events, k) ==> sh.Stream(id)[k].offsetBefore == o - j
  {
    assert StreamOk(sh, id) && ClaimOk(sh, r.events[0].messageID);
    var k := SeenInRecord(sh, id, o, r.events[j]);
    var rec := sh.Stream(id)[k];
    assert RecordOk(sh, id, k);
    assert ClaimOk(sh, rec.FirstID());
    SameBatch(sh, rec.events, r.events, o - rec.offsetBefore, j);
    assert StoredAt(sh.Stream(id), r.events, k);
    StoredIsPlaced(sh, id, k, r.events);
    forall k': nat | StoredAt(sh.Stream(id), r.events, k')
      ensures k' == k
    {
      assert OnePlace(sh.Stream(id), k', k);
    }
  }

  ghost predicate HandledAt(sh: Shared, i: nat, op: I.Handled) {
    i < |sh.history| && sh.history[i] == I.CommandHandled(op) && op.events != []
  }

  lemma HandledIsClaimed(sh: Shared, i: nat, op: I.Handled)
    requires SharedOk(sh) && HandledAt(sh, i, op)
    ensures op.streamID.Some? && Claims(sh, op.Request())
  {
    assert HandedOver(sh, i);
    assert ClaimOk(sh, op.events[0].messageID);
  }

  /** A journaled batch is in its stream as soon as anything follows its record. */
  lemma FollowedIsStored(sh: Shared, i: nat, op: I.Handled)
    requires SharedOk(sh) && HandledAt(sh, i, op) && i + 1 < |sh.history|
    ensures op.streamID.Some? && Stored(sh, op.Request())
  {
    assert AppendedIfHandled(sh, sh.history[i]);
  }

  lemma StoredIsPlacedSomewhere(sh: Shared, r: AppendRequest) returns (begin: nat)
    requires SharedOk(sh) && Stored(sh, r)
    ensures PlacedAt(sh, r.streamID, begin, r.events)
  {
    var k: nat :| StoredAt(sh.Stream(r.streamID), r.events, k);
    assert StreamOk(sh, r.streamID);
    StoredIsPlaced(sh, r.streamID, k, r.events);
    begin := sh.Stream(r.streamID)[k].offsetBefore;
  }

  /**
   * At most once, contiguously: wherever two events of one handled command are seen, in whatever streams,
   * they are in the command's stream, in one copy of the whole batch.
   */
  lemma EventsAtMostOnce(run: seq<Action>, i: nat, op: I.Handled,
                         id1: UUID, o1: nat, j1: nat, id2: UUID, o2: nat, j2: nat)
    requires HandledAt(After(run).shared, i, op) && j1 < |op.events| && j2 < |op.events|
    requires SeenAt(After(run).shared, id1, o1, op.events[j1]) && SeenAt(After(run).shared, id2, o2, op.events[j2])
    ensures op.streamID == Some(id1) == Some(id2)
    ensures j1 <= o1 && o1 - j1 == o2 - j2 && PlacedAt(After(run).shared, id1, o1 - j1, op.events)
  {
    Always(run);
    var sh := After(run).shared;
    HandledIsClaimed(sh, i, op);
    var r := op.Request();
    SightingIsPlaced(sh, r, id1, o1, j1);
    SightingIsPlaced(sh, r, id2, o2, j2);
    var k: nat :| StoredAt(sh.Stream(r.streamID), r.events, k);
  }

  /** No event of the batch is seen anywhere but at its own place in one copy that begins at `begin`. */
  ghost predicate SeenOnlyAt(sh: Shared, id: UUID, begin: nat, batch: seq<Envelope>) {
    forall id', o: nat, j: nat :: j < |batch| && SeenAt(sh, id', o, batch[j]) ==> id' == id && o == begin + j
  }

  lemma PlacedUniquely(sh: Shared, i: nat, op: I.Handled) returns (begin: nat)
    requires SharedOk(sh) && HandledAt(sh, i, op) && op.streamID.Some? && Stored(sh, op.Request())
    ensures PlacedAt(sh, op.streamID.value, begin, op.events)
    ensures SeenOnlyAt(sh, op.streamID.value, begin, op.events)
  {
    var r := op.Request();
    HandledIsClaimed(sh, i, op);
    begin := StoredIsPlacedSomewhere(sh, r);
    var flat := S.Flatten(sh.Stream(r.streamID));
    assert flat[begin..begin + |r.events|][0] == flat[begin];
    assert SeenAt(sh, r.streamID, begin, r.events[0]);
    SightingIsPlaced(sh, r, r.streamID, begin, 0);
    var k: nat :| StoredAt(sh.Stream(r.streamID), r.events, k);
    forall id, o: nat, j: nat | j < |op.events| && SeenAt(sh, id, o, op.events[j])
      ensures id == op.streamID.value && o == begin + j
    {
      SightingIsPlaced(sh, r, id, o, j);
    }
  }

  lemma SettledIsStored(sh: Shared, n: nat, i: nat, op: I.Handled)
    requires SharedOk(sh) && SettledAt(sh.history, n) && i < n && HandledAt(sh, i, op)
    ensures op.streamID.Some? && Stored(sh, op.Request())
  {
    I.AppendFollows(sh.history, i);
    FollowedIsStored(sh, i, op);
  }

  /**
   * Exactly once: when a supervisor is idle, every command handled below its position that recorded events
   * has the whole batch in its stream, and no event of it is anywhere else in any stream.
   */
  lemma ExactlyOnceWhenIdle(run: seq<Action>, p: ProcID, i: nat, op: I.Handled) returns (begin: nat)
    requires After(run).SupOf(p).pc.Idle? && i < After(run).SupOf(p).pos && HandledAt(After(run).shared, i, op)
    ensures op.streamID.Some? && PlacedAt(After(run).shared, op.streamID.value, begin, op.events)
    ensures SeenOnlyAt(After(run).shared, op.streamID.value, begin, op.events)
  {
    var s := After(run);
    assert SharedOk(s.shared) && SupOk(s.shared, p, s.SupOf(p)) by {
      Always(run);
    }
    SettledIsStored(s.shared, s.SupOf(p).pos, i, op);
    begin := PlacedUniquely(s.shared, i, op);
  }

  ghost predicate PlacedOnce(sh: Shared, op: I.Handled) {
    && op.streamID.Some?
    && exists begin ::
         PlacedAt(sh, op.streamID.value, begin, op.events) && SeenOnlyAt(sh, op.streamID.value, begin, op.events)
  }

  /** Record `i` does not accept a command that is still to be handled, nor record events still to be appended. */
  ghost predicate CompleteAt(sh: Shared, i: nat)
    requires i < |sh.history|
  {
    var h := sh.history;
    && (h[i].CommandAccepted? ==>
          && i + 1 < |h| && h[i + 1].CommandHandled? && h[i + 1].op.commandID == h[i].command.messageID
          && h[i].command.messageID in sh.accepted)
    && (h[i].CommandHandled? && h[i].op.events != [] ==> PlacedOnce(sh, h[i].op))
  }

  /** Every command ever accepted is handled, and the events of every command handled are in their stream exactly once. */
  ghost predicate Complete(sh: Shared) {
    forall i :: 0 <= i < |sh.history| ==> CompleteAt(sh, i)
  }

  lemma SettledIsComplete(sh: Shared)
    requires SharedOk(sh) && SettledAt(sh.history, |sh.history|)
    ensures Complete(sh)
  {
    var h := sh.history;
    forall i | 0 <= i < |h|
      ensures CompleteAt(sh, i)
    {
      if h[i].CommandAccepted? {
        SettledMeansAdded(sh, |h|, i);
      } else if h[i].CommandHandled? && h[i].op.events != [] {
        SettledIsStored(sh, |h|, i, h[i].op);
        var begin := PlacedUniquely(sh, i, h[i].op);
      }
    }
  }

  /** When nothing is left undone, the set of accepted commands is exactly what the history has accepted. */
  lemma CompleteMeansSet(sh: Shared)
    requires JournalOk(sh) && Complete(sh)
    ensures sh.accepted == I.AcceptedIn(sh.history)
  {
    var h := sh.history;
    forall id
      ensures id in sh.accepted <==> id in I.AcceptedIn(h)
    {
      if id in sh.accepted {
        var i :| 0 <= i < |h| && h[i].CommandAccepted? && h[i].command.messageID == id;
        I.CommandsMember(h, 0, |h|, h[i].command);
        assert h[0..|h|] == h;
      }
      if id in I.AcceptedIn(h) {
        var c :| c in I.Commands(h, 0, |h|) && c.messageID == id;
        I.CommandsMember(h, 0, |h|, c);
        var i :| 0 <= i < |h| && h[i] == I.CommandAccepted(c);
        assert CompleteAt(sh, i);
      }
    }
  }

  // ----- hints, tiling, responses -----

  /** The offset hint of a journaled operation is at or below the offset at which its batch is ever appended. */
  lemma HintsAreSound(run: seq<Action>, i: nat, op: I.Handled, k: nat)
    requires HandledAt(After(run).shared, i, op) && op.streamID.Some?
    requires StoredAt(After(run).shared.Stream(op.streamID.value), op.events, k)
    ensures op.hint <= After(run).shared.Stream(op.streamID.value)[k].offsetBefore
  {
    Always(run);
    var sh := After(run).shared;
    HandledIsClaimed(sh, i, op);
    assert ClaimOk(sh, op.events[0].messageID);
  }

  /** The records of every stream tile its offsets, and a running worker's cache is true of a prefix of them. */
  lemma OffsetsTile(run: seq<Action>, id: UUID, w: ProcID)
    ensures S.Tiled(After(run).shared.Stream(id))
    ensures var s := After(run);
            var worker := s.WorkerOf(w);
            !worker.pc.Stopped? ==>
              && worker.pos <= |s.shared.Stream(worker.streamID)|
              && worker.off == S.EndOffset(s.shared.Stream(worker.streamID)[..worker.pos])
  {
    Always(run);
    var s := After(run);
    assert StreamOk(s.shared, id) && WorkerOk(s.shared, s.WorkerOf(w));
  }

  /** No batch is ever stored twice in a stream, however stale the caches and however often it is retried. */
  lemma NeverStoredTwice(run: seq<Action>, id: UUID, j: nat, k: nat)
    requires j < k < |After(run).shared.Stream(id)|
    ensures var rs := After(run).shared.Stream(id);
            rs[j].events != [] && rs[k].events != [] && rs[j].FirstID() != rs[k].FirstID()
  {
    Always(run);
    var sh := After(run).shared;
    assert StreamOk(sh, id);
    assert RecordOk(sh, id, j) && RecordOk(sh, id, k);
    assert OnePlace(sh.Stream(id), j, k);
  }

  /** What a worker makes of a request when nobody interferes and nothing fails. */
  function Serve(sh: Shared, w: Worker, r: AppendRequest, end: nat): (Shared, Worker)
    requires r.events != []
  {
    var w1 := w.(pc := if r.hint < w.off then Looking(r) else Writing(r));
    var (sh2, w2) := if w1.pc.Looking? then DoLookup(sh, w1, r, end) else (sh, w1);
    if w2.pc == Writing(r) then DoWrite(sh2, w2, r, Ok) else (sh2, w2)
  }

  /** With each batch in one place, a lookup that misses the batch finds nothing. */
  lemma LookupFindsItOrNothing(rs: seq<S.Record>, r: AppendRequest, k: nat)
    requires S.Tiled(rs) && k < |rs| && r.events != [] && r.hint < S.EndOffset(rs)
    requires rs[k].events != [] && rs[k].FirstID() == r.events[0].messageID
    requires forall i, j :: 0 <= i < |rs| && 0 <= j < |rs| ==> OnePlace(rs, i, j)
    ensures S.FastLookup(rs, |rs|, r.hint, r.events[0].messageID) ==
            if r.hint < rs[k].offsetAfter then Some(k) else None
  {
    var id := r.events[0].messageID;
    assert rs[..|rs|] == rs;
    S.FastLookupRefinesLinearScan(rs, |rs|, r.hint, id);
    var found := S.FirstMatch(rs, 0, id);
    assert found.Some? && OnePlace(rs, found.value, k);
    var fast := S.FastLookup(rs, |rs|, r.hint, id);
    if fast.Some? {
      assert OnePlace(rs, fast.value, k);
    }
  }

  /** A request is stored unless the lookup finds its batch or the cache is stale. */
  lemma ServeStores(sh: Shared, w: Worker, r: AppendRequest, end: nat)
    requires r.events != [] && w.streamID == r.streamID && w.pos <= end <= |sh.Stream(r.streamID)|
    ensures var rs := sh.Stream(r.streamID);
            Serve(sh, w, r, end).0.Stream(r.streamID) ==
            if w.pos == |rs| && (r.hint < w.off ==> S.FastLookup(rs[..end], w.pos, r.hint, r.events[0].messageID).None?)
            then rs + [S.Record(w.off, w.off + |r.events|, r.events)] else rs
  {
  }

  /**
   * What a retry really needs of its hint. For a request with any hint at all, whose batch is in record `k`, the
   * batch is stored again exactly when the worker's cache is up to date and the hint lies beyond the record.
   */
  lemma StoredAgainIff(run: seq<Action>, w: ProcID, r: AppendRequest, end: nat, k: nat)
    requires var s := After(run);
             var worker, rs := s.WorkerOf(w), s.shared.Stream(r.streamID);
             && !worker.pc.Stopped? && worker.streamID == r.streamID && worker.pos <= end <= |rs|
             && r.events != [] && k < |rs| && rs[k].events != [] && rs[k].FirstID() == r.events[0].messageID
    ensures var s := After(run);
            var worker, rs := s.WorkerOf(w), s.shared.Stream(r.streamID);
            Serve(s.shared, worker, r, end).0.Stream(r.streamID) != rs <==>
            worker.pos == |rs| && rs[k].offsetAfter <= r.hint
  {
    var s := After(run);
    var worker, rs := s.WorkerOf(w), s.shared.Stream(r.streamID);
    OffsetsTile(run, r.streamID, w);
    ServeStores(s.shared, worker, r, end);
    if worker.pos == |rs| {
      assert rs[..|rs|] == rs;
      S.EndOffsetBounds(rs, k, |rs|);
      if r.hint < worker.off {
        OnePlaceEach(run, r.streamID);
        LookupFindsItOrNothing(rs, r, k);
      }
    }
  }

  lemma OnePlaceEach(run: seq<Action>, id: UUID)
    ensures var rs := After(run).shared.Stream(id);
            forall i, j :: 0 <= i < |rs| && 0 <= j < |rs| ==> OnePlace(rs, i, j)
  {
    Always(run);
    assert StreamOk(After(run).shared, id);
  }

  /** The offsets of a response, fresh or deduplicated, are those of the request's events, then and for ever. */
  lemma ResponsesAreTrue(run: seq<Action>, more: seq<Action>, r: AppendRequest, res: AppendResponse)
    requires (r, res) in After(run).shared.responses
    ensures res.end == res.begin + |r.events|
    ensures PlacedAt(After(run + more).shared, r.streamID, res.begin, r.events)
  {
    NothingIsTakenBack(run, more);
    Always(run + more);
    var sh := After(run + more).shared;
    var rs := sh.Stream(r.streamID);
    assert (r, res) in sh.responses && Answered(sh, r, res) && StreamOk(sh, r.streamID);
    var k: nat :| StoredAt(rs, r.events, k) && res.begin == rs[k].offsetBefore && res.end == rs[k].offsetAfter;
    StoredIsPlaced(sh, r.streamID, k, r.events);
    assert S.TiledAt(rs, k);
  }

  /**
   * The flag of a response is true: a request is answered as appended by a prior attempt exactly if its batch was in
   * the stream already when the answer was given.
   */
  lemma FlagIsTrue(run: seq<Action>, a: Action, r: AppendRequest, res: AppendResponse)
    requires (r, res) in After(run + [a]).shared.responses && (r, res) !in After(run).shared.responses
    ensures res.byPriorAttempt <==> Stored(After(run).shared, r)
  {
    AfterSnoc(run, a);
    Always(run);
    var s := After(run);
    match a
    case BySup(p, sa) => SupNeverResponds(s.shared, p, s.SupOf(p), sa);
    case ByWorker(w, wa) =>
      assert WorkerOk(s.shared, s.WorkerOf(w));
      WorkerRespondsTruly(s.shared, s.WorkerOf(w), wa, r, res);
    case ByOther(_) =>
  }

  lemma SupNeverResponds(sh: Shared, p: ProcID, sup: Sup, a: SupAction)
    ensures SupStep(sh, p, sup, a).0.responses == sh.responses
  {
  }

  lemma WorkerRespondsTruly(sh: Shared, w: Worker, a: WorkerAction, r: AppendRequest, res: AppendResponse)
    requires SharedOk(sh) && WorkerOk(sh, w)
    requires (r, res) in WorkerStep(sh, w, a).0.responses && (r, res) !in sh.responses
    ensures r.streamID == w.streamID && (res.byPriorAttempt <==> Stored(sh, r))
  {
    var rs := sh.Stream(w.streamID);
    match (a, w.pc)
    case (Lookup(end), Looking(q)) =>
      assert StreamOk(sh, q.streamID);
      LookupIsExact(sh, w, q, end);
      assert StoredAt(rs, r.events, S.FastLookup(rs[..end], w.pos, q.hint, q.events[0].messageID).value);
    case (Write(_), Writing(q)) =>
      NotStoredYet(sh, w, q);
  }

  /** A worker that is about to write at the end of the stream does not store the batch a second time. */
  lemma NotStoredYet(sh: Shared, w: Worker, r: AppendRequest)
    requires WorkerOk(sh, w) && w.pc == Writing(r) && w.pos == |sh.Stream(w.streamID)|
    ensures !Stored(sh, r)
  {
    forall k: nat
      ensures !StoredAt(sh.Stream(r.streamID), r.events, k)
    {
    }
  }

  // ----- order -----

  ghost predicate InJournalOrder(sh: Shared, i: nat, i': nat, op: I.Handled, op': I.Handled, k: nat, k': nat) {
    && i < i' && HandledAt(sh, i, op) && HandledAt(sh, i', op')
    && op.streamID.Some? && op.streamID == op'.streamID
    && StoredAt(sh.Stream(op.streamID.value), op.events, k) && StoredAt(sh.Stream(op.streamID.value), op'.events, k')
    ==> k < k'
  }

  ghost predicate Ordered(sh: Shared) {
    forall i, i', op, op', k, k' :: InJournalOrder(sh, i, i', op, op', k, k')
  }

  /** A batch whose record has just been journaled is in no stream yet. */
  lemma NotYetStored(sh: Shared, sh': Shared, holder: Option<ProcID>, op: I.Handled, id: UUID)
    requires SharedOk(sh) && SharedOk(sh') && Grows(sh, sh', holder) && sh'.streams == sh.streams
    requires HandledAt(sh', |sh.history|, op)
    ensures forall k: nat :: !StoredAt(sh'.Stream(id), op.events, k)
  {
    assert HandedOver(sh', |sh.history|);
    var first := op.events[0].messageID;
    assert first in sh.claims ==> ClaimedBy(sh, first).None?;
    UnclaimedIsNotStored(sh, op.events, id);
  }

  /** A step either appends to the journal or to a stream; neither can upset the order. */
  lemma OrderKept(sh: Shared, sh': Shared, holder: Option<ProcID>,
                  i: nat, i': nat, op: I.Handled, op': I.Handled, k: nat, k': nat)
    requires SharedOk(sh) && Ordered(sh) && SharedOk(sh') && Grows(sh, sh', holder)
    requires sh'.history == sh.history || (sh'.streams == sh.streams && |sh'.history| == |sh.history| + 1)
    ensures InJournalOrder(sh', i, i', op, op', k, k')
  {
    if i < i' && HandledAt(sh', i, op) && HandledAt(sh', i', op') && op.streamID.Some? && op.streamID == op'.streamID
       && StoredAt(sh'.Stream(op.streamID.value), op.events, k) && StoredAt(sh'.Stream(op.streamID.value), op'.events, k')
    {
      var id := op.streamID.value;
      var rs := sh.Stream(id);
      assert rs <= sh'.Stream(id);
      if i' < |sh.history| {
        assert HandledAt(sh, i, op) && HandledAt(sh, i', op');
        FollowedIsStored(sh, i, op);
        var k0: nat :| StoredAt(rs, op.events, k0);
        assert StreamOk(sh', id) && StoredAt(sh'.Stream(id), op.events, k0);
        StoredOnce(sh', id, op.events, k, k0);
        assert InJournalOrder(sh, i, i', op, op', k0, k');
      } else {
        NotYetStored(sh, sh', holder, op', id);
      }
    }
  }

  lemma StoredOnce(sh: Shared, id: UUID, b: seq<Envelope>, j: nat, k: nat)
    requires StreamOk(sh, id) && b != [] && StoredAt(sh.Stream(id), b, j) && StoredAt(sh.Stream(id), b, k)
    ensures j == k
  {
    assert OnePlace(sh.Stream(id), j, k);
  }

  lemma SupStepShape(sh: Shared, p: ProcID, sup: Sup, a: SupAction)
    ensures var sh' := SupStep(sh, p, sup, a).0;
            sh'.streams == sh.streams && (sh'.history == sh.history || |sh'.history| == |sh.history| + 1)
  {
  }

  lemma WorkerStepShape(sh: Shared, w: Worker, a: WorkerAction)
    ensures WorkerStep(sh, w, a).0.history == sh.history
  {
  }

  lemma OrderStep(sh: Shared, sh': Shared, holder: Option<ProcID>)
    requires SharedOk(sh) && Ordered(sh) && SharedOk(sh') && Grows(sh, sh', holder)
    requires sh'.history == sh.history || (sh'.streams == sh.streams && |sh'.history| == |sh.history| + 1)
    ensures Ordered(sh')
  {
    forall i, i', op, op', k, k'
      ensures InJournalOrder(sh', i, i', op, op', k, k')
    {
      OrderKept(sh, sh', holder, i, i', op, op', k, k');
    }
  }

  lemma StepKeepsOrder(s: System, a: Action)
    requires Inv(s) && Ordered(s.shared)
    ensures Ordered(Apply(s, a).shared)
  {
    match a
    case BySup(p, sa) =>
      SupStepKeeps(s.shared, p, s.SupOf(p), sa);
      SupStepShape(s.shared, p, s.SupOf(p), sa);
      OrderStep(s.shared, SupStep(s.shared, p, s.SupOf(p), sa).0, Some(p));
    case ByWorker(w, wa) =>
      WorkerStepKeeps(s.shared, s.WorkerOf(w), wa);
      WorkerStepShape(s.shared, s.WorkerOf(w), wa);
      OrderStep(s.shared, WorkerStep(s.shared, s.WorkerOf(w), wa).0, None);
    case ByOther(r) =>
      ForeignKeeps(s.shared, r);
      OrderStep(s.shared, DoForeign(s.shared, r), None);
  }

  /** Batches of one handler on one stream are stored in the order in which their commands were handled. */
  lemma {:induction false} OrderIsPreserved(run: seq<Action>)
    ensures Ordered(After(run).shared)
  {
    if run != [] {
      var init := run[..|run| - 1];
      OrderIsPreserved(init);
      Always(init);
      StepKeepsOrder(After(init), run[|run| - 1]);
    }
  }

  // ----- acknowledgements -----

  /** An acknowledged command was durably accepted, and so was every member of the set of accepted commands. */
  lemma AcksAreDurable(run: seq<Action>, id: UUID)
    requires id in After(run).shared.acked || id in After(run).shared.accepted
    ensures WasAccepted(After(run).shared.history, id)
  {
    Always(run);
  }

  /** Below the position of an idle supervisor every accepted command is handled and in the accepted set. */
  lemma IdleMeansHandled(run: seq<Action>, p: ProcID, i: nat)
    requires After(run).SupOf(p).pc.Idle? && i < After(run).SupOf(p).pos
    requires i < |After(run).shared.history| && After(run).shared.history[i].CommandAccepted?
    ensures var sh := After(run).shared;
            && i + 1 < After(run).SupOf(p).pos <= |sh.history|
            && sh.history[i + 1].CommandHandled? && sh.history[i + 1].op.commandID == sh.history[i].command.messageID
            && sh.history[i].command.messageID in sh.accepted
  {
    Always(run);
    var s := After(run);
    assert SupOk(s.shared, p, s.SupOf(p));
    SettledMeansAdded(s.shared, s.SupOf(p).pos, i);
  }

  /**
   * The handler is called with exactly the command whose acceptance is the last record that the supervisor knows of;
   * the command is in the accepted set by then, and no record below says that it was handled.
   */
  lemma HandlerIsCalledFor(run: seq<Action>, p: ProcID)
    requires After(run).SupOf(p).pc.Handling?
    ensures var sh, sup := After(run).shared, After(run).SupOf(p);
            && 0 < sup.pos <= |sh.history| && sh.history[sup.pos - 1] == I.CommandAccepted(sup.pc.command)
            && sup.pc.command.messageID in sh.accepted
            && forall i :: 0 <= i < sup.pos && sh.history[i].CommandHandled? ==>
                 sh.history[i].op.commandID != sup.pc.command.messageID
  {
    Always(run);
    var sh, sup := After(run).shared, After(run).SupOf(p);
    assert SupOk(sh, p, sup);
    I.LastRecordOf(sh.history, sup.pos);
    I.WellFormedIsScannable(sh.history);
  }

  // ----- a lone supervisor -----

  /** No other supervisor takes a step. Workers, and other sources of events, still do. */
  predicate Lone(run: seq<Action>, p: ProcID) {
    forall i :: 0 <= i < |run| && run[i].BySup? ==> run[i].p == p
  }

  ghost predicate AtEnd(s: System, p: ProcID) {
    var sup := s.SupOf(p);
    !sup.pc.Down? && !sup.pc.Scanning? ==> sup.pos == |s.shared.history|
  }

  /** A lone supervisor that has read the journal is always at its end. */
  lemma {:induction false} LoneIsAtEnd(run: seq<Action>, p: ProcID)
    requires Lone(run, p)
    ensures AtEnd(After(run), p)
  {
    if run != [] {
      var init, a := run[..|run| - 1], run[|run| - 1];
      LoneIsAtEnd(init, p);
      Always(init);
      assert SupOk(After(init).shared, p, After(init).SupOf(p));
      match a
      case BySup(_, sa) => LoneStep(After(init).shared, p, After(init).SupOf(p), sa);
      case ByWorker(w, wa) => WorkerStepShape(After(init).shared, After(init).WorkerOf(w), wa);
      case ByOther(_) =>
    }
  }

  lemma LoneStep(sh: Shared, p: ProcID, sup: Sup, a: SupAction)
    requires SupOk(sh, p, sup)
    requires !sup.pc.Down? && !sup.pc.Scanning? ==> sup.pos == |sh.history|
    ensures var (sh', sup') := SupStep(sh, p, sup, a);
            !sup'.pc.Down? && !sup'.pc.Scanning? ==> sup'.pos == |sh'.history|
  {
  }

  /**
   * Whenever a lone supervisor is idle, every command ever acknowledged is handled, and if it recorded events
   * they are in their stream exactly once.
   */
  lemma AckedIsDoneWhenIdle(run: seq<Action>, p: ProcID, id: UUID) returns (i: nat, op: I.Handled)
    requires Lone(run, p) && After(run).SupOf(p).pc.Idle? && id in After(run).shared.acked
    ensures var sh := After(run).shared;
            && i < |sh.history| && sh.history[i] == I.CommandHandled(op) && op.commandID == id
            && (op.events != [] ==> PlacedOnce(sh, op))
  {
    LoneIsAtEnd(run, p);
    AcksAreDurable(run, id);
    var h := After(run).shared.history;
    var a :| 0 <= a < |h| && h[a].CommandAccepted? && h[a].command.messageID == id;
    IdleMeansHandled(run, p, a);
    i, op := a + 1, h[a + 1].op;
    if op.events != [] {
      var begin := ExactlyOnceWhenIdle(run, p, i, op);
    }
  }
}
