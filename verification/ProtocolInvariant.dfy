/** The invariant of the protocol, and what of it is left undisturbed when the shared state grows. */
module ProtocolInvariant {
  import opened Common
  import opened Protocol
  import I = IntegrationJournal
  import S = StreamJournal

  // ----- the journal -----

  ghost predicate WasAccepted(h: seq<I.Record>, id: UUID) {
    exists i :: 0 <= i < |h| && h[i].CommandAccepted? && h[i].command.messageID == id
  }

  /** Grammar, uniqueness, a settled beginning, and what the set of accepted commands and the acks stand for. */
  ghost predicate JournalOk(sh: Shared) {
    && I.PhaseOf(sh.history) != I.Malformed
    && I.AcceptedOnce(sh.history)
    && sh.begin <= |sh.history| && I.PhaseAt(sh.history, sh.begin) == I.Settled
    && (forall id :: id in sh.accepted ==> WasAccepted(sh.history, id))
    && (forall id :: id in sh.acked ==> WasAccepted(sh.history, id))
    && (forall i :: 0 <= i < |sh.history| && sh.history[i].CommandHandled? ==>
          sh.history[i].op.commandID in sh.accepted)
  }

  // ----- batches of events and the claims on them -----

  /** A batch is produced at once: each of its identifiers leads back to the whole of it. */
  ghost predicate IsBatch(sh: Shared, b: seq<Envelope>) {
    && b != []
    && DistinctIDs(b)
    && forall e :: e in b ==> e.messageID in sh.batchOf && sh.batchOf[e.messageID] == b
  }

  /** The batch is not below the hint, nor can it come to be. */
  ghost predicate HintSound(rs: seq<S.Record>, r: AppendRequest) {
    && r.hint <= S.EndOffset(rs)
    && forall k :: 0 <= k < |rs| && rs[k].events == r.events ==> r.hint <= rs[k].offsetBefore
  }

  /** The one request that a claimed batch may be appended by. */
  ghost function ClaimedBy(sh: Shared, id: UUID): Option<AppendRequest>
    requires id in sh.claims
  {
    match sh.claims[id]
    case Held(_) => None
    case Journaled(i) =>
      if i < |sh.history| && sh.history[i].CommandHandled? && sh.history[i].op.streamID.Some?
      then Some(sh.history[i].op.Request()) else None
    case Foreign(r) => Some(r)
  }

  ghost predicate ClaimOk(sh: Shared, id: UUID)
    requires id in sh.claims
  {
    && id in sh.batchOf
    && (sh.claims[id].Held? ||
        (&& ClaimedBy(sh, id).Some?
         && var r := ClaimedBy(sh, id).value;
         && IsBatch(sh, r.events) && r.events[0].messageID == id
         && HintSound(sh.Stream(r.streamID), r)))
  }

  /** The claim on a batch leads to exactly this request. */
  ghost predicate Claims(sh: Shared, r: AppendRequest) {
    && r.events != []
    && r.events[0].messageID in sh.claims
    && ClaimedBy(sh, r.events[0].messageID) == Some(r)
  }

  /** Events that were journaled are claimed by their record. */
  ghost predicate HandedOver(sh: Shared, i: nat)
    requires i < |sh.history|
  {
    sh.history[i].CommandHandled? && sh.history[i].op.events != [] ==>
      && sh.history[i].op.streamID.Some?
      && sh.history[i].op.events[0].messageID in sh.claims
      && sh.claims[sh.history[i].op.events[0].messageID] == Journaled(i)
  }

  ghost predicate ClaimsOk(sh: Shared) {
    && (forall id {:trigger ClaimOk(sh, id)} :: id in sh.claims ==> ClaimOk(sh, id))
    && (forall i :: 0 <= i < |sh.history| ==> HandedOver(sh, i))
    && (forall r {:trigger Claims(sh, r)} :: r in sh.issued ==> Claims(sh, r))
  }

  // ----- the streams -----

  ghost predicate StoredAt(rs: seq<S.Record>, b: seq<Envelope>, k: nat) {
    k < |rs| && rs[k].events == b
  }

  ghost predicate Stored(sh: Shared, r: AppendRequest) {
    exists k: nat :: StoredAt(sh.Stream(r.streamID), r.events, k)
  }

  /** Record `k` holds the batch of a claimed request to this stream. */
  ghost predicate RecordOk(sh: Shared, id: UUID, k: nat)
    requires k < |sh.Stream(id)|
  {
    var rec := sh.Stream(id)[k];
    && rec.events != []
    && rec.FirstID() in sh.claims
    && ClaimedBy(sh, rec.FirstID()).Some?
    && ClaimedBy(sh, rec.FirstID()).value.streamID == id
    && ClaimedBy(sh, rec.FirstID()).value.events == rec.events
  }

  ghost predicate OnePlace(rs: seq<S.Record>, j: nat, k: nat)
    requires j < |rs| && k < |rs|
  {
    rs[j].events != [] && rs[k].events != [] && rs[j].FirstID() == rs[k].FirstID() ==> j == k
  }

  /** Records tile the offsets, hold what some claim leads to, and no batch is there twice. */
  ghost predicate StreamOk(sh: Shared, id: UUID) {
    var rs := sh.Stream(id);
    && S.Tiled(rs)
    && (forall k :: 0 <= k < |rs| ==> RecordOk(sh, id, k))
    && (forall j, k :: 0 <= j < |rs| && 0 <= k < |rs| ==> OnePlace(rs, j, k))
  }

  ghost predicate Answers(rs: seq<S.Record>, r: AppendRequest, res: AppendResponse) {
    exists k: nat :: StoredAt(rs, r.events, k) && res.begin == rs[k].offsetBefore && res.end == rs[k].offsetAfter
  }

  ghost predicate Answered(sh: Shared, r: AppendRequest, res: AppendResponse) {
    Answers(sh.Stream(r.streamID), r, res)
  }

  ghost predicate AppendedIfHandled(sh: Shared, r: I.Record) {
    r.CommandHandled? && r.op.events != [] ==> r.op.streamID.Some? && Stored(sh, r.op.Request())
  }

  ghost predicate StreamsOk(sh: Shared) {
    && (forall id :: StreamOk(sh, id))
    && (forall r, res {:trigger Answered(sh, r, res)} :: (r, res) in sh.responses ==> Answered(sh, r, res))
    && (forall i :: 0 <= i < |sh.history| - 1 ==> AppendedIfHandled(sh, sh.history[i]))
  }

  ghost predicate SharedOk(sh: Shared) {
    JournalOk(sh) && ClaimsOk(sh) && StreamsOk(sh)
  }

  // ----- what each supervisor knows -----

  ghost predicate SettledAt(h: seq<I.Record>, n: nat) {
    n <= |h| && I.PhaseAt(h, n) == I.Settled
  }

  ghost predicate UnhandledAt(h: seq<I.Record>, n: nat, id: UUID) {
    n <= |h| && I.PhaseAt(h, n).AwaitingHandle? && I.PhaseAt(h, n).command.messageID == id
  }

  /** This very command, its contents included, is what the journal calls to be handled. */
  ghost predicate AwaitedAt(h: seq<I.Record>, n: nat, c: Envelope) {
    n <= |h| && I.PhaseAt(h, n) == I.AwaitingHandle(c)
  }

  ghost predicate UnappendedAt(h: seq<I.Record>, n: nat, op: I.Handled) {
    n <= |h| && I.PhaseAt(h, n).AwaitingAppend? && I.PhaseAt(h, n).op == op
  }

  ghost predicate NotAcceptedBelow(h: seq<I.Record>, n: nat, id: UUID) {
    n <= |h| && forall i :: 0 <= i < n && h[i].CommandAccepted? ==> h[i].command.messageID != id
  }

  /** Whatever the supervisor returns to has nothing left to do. */
  ghost predicate RestOk(rest: Rest) {
    rest.ToResume? ==> I.WithEvents(rest.handled) == [] && rest.accepted == []
  }

  ghost predicate Holds(sh: Shared, p: ProcID, b: seq<Envelope>) {
    && IsBatch(sh, b)
    && b[0].messageID in sh.claims
    && sh.claims[b[0].messageID] == Held(p)
  }

  ghost predicate PCOk(sh: Shared, p: ProcID, sup: Sup) {
    var h := sh.history;
    match sup.pc
    case Down => true
    case Scanning => SettledAt(h, sup.pos)
    case Resuming(hs, cs) => sup.pos <= |h| && I.PendingFor(I.PhaseAt(h, sup.pos), cs, hs)
    case Truncating => SettledAt(h, sup.pos)
    case Idle => SettledAt(h, sup.pos)
    case Checking(_) => SettledAt(h, sup.pos)
    case Accepting(c) => SettledAt(h, sup.pos) && NotAcceptedBelow(h, sup.pos, c.messageID)
    case Adding(c, rest) => AwaitedAt(h, sup.pos, c) && RestOk(rest)
    case Handling(c, rest) => AwaitedAt(h, sup.pos, c) && RestOk(rest) && c.messageID in sh.accepted
    case Selecting(c, events, rest) =>
      && AwaitedAt(h, sup.pos, c) && RestOk(rest) && c.messageID in sh.accepted
      && Holds(sh, p, events)
    case Recording(op, rest) =>
      && UnhandledAt(h, sup.pos, op.commandID) && RestOk(rest) && op.commandID in sh.accepted
      && (op.events != [] ==>
            && Holds(sh, p, op.events) && op.streamID.Some? && op.streamID == sup.streamID
            && op.hint <= S.EndOffset(sh.Stream(op.streamID.value)))
    case Sending(op, own, rest) =>
      UnappendedAt(h, sup.pos, op) && RestOk(rest) && (own ==> sup.streamID == op.streamID)
    case Waiting(op, own, rest) =>
      UnappendedAt(h, sup.pos, op) && RestOk(rest) && (own ==> sup.streamID == op.streamID)
    case Marking(op, rest) =>
      UnappendedAt(h, sup.pos, op) && RestOk(rest) && op.streamID.Some? && Stored(sh, op.Request())
  }

  ghost predicate SupOk(sh: Shared, p: ProcID, sup: Sup) {
    && PCOk(sh, p, sup)
    && (sup.streamID.Some? ==> sup.hint <= S.EndOffset(sh.Stream(sup.streamID.value)))
  }

  // ----- what each worker knows -----

  ghost predicate NotStoredBelow(rs: seq<S.Record>, n: nat, r: AppendRequest) {
    && r.events != [] && n <= |rs|
    && forall k :: 0 <= k < n && rs[k].events != [] ==> rs[k].FirstID() != r.events[0].messageID
  }

  ghost predicate WorkerOk(sh: Shared, w: Worker) {
    var rs := sh.Stream(w.streamID);
    && (!w.pc.Stopped? ==> w.pos <= |rs| && w.off == S.EndOffset(rs[..w.pos]))
    && (w.pc.Looking? ==> w.pc.req in sh.issued && w.pc.req.streamID == w.streamID && w.pc.req.hint < w.off)
    && (w.pc.Writing? ==>
          && w.pc.req in sh.issued && w.pc.req.streamID == w.streamID
          && NotStoredBelow(rs, w.pos, w.pc.req))
  }

  ghost predicate Inv(s: System) {
    && SharedOk(s.shared)
    && (forall p :: SupOk(s.shared, p, s.SupOf(p)))
    && (forall w :: WorkerOk(s.shared, s.WorkerOf(w)))
  }

  // ----- the shared state only grows -----

  /** Everything durable grows, and only the holder of a batch changes the claim on it. */
  ghost predicate Grows(sh: Shared, sh': Shared, holder: Option<ProcID>) {
    && sh.history <= sh'.history
    && sh.begin <= sh'.begin
    && sh.accepted <= sh'.accepted
    && sh.acked <= sh'.acked
    && (forall id :: sh.Stream(id) <= sh'.Stream(id))
    && sh.issued <= sh'.issued
    && sh.responses <= sh'.responses
    && (forall id :: id in sh.batchOf ==> id in sh'.batchOf && sh'.batchOf[id] == sh.batchOf[id])
    && (forall id :: id in sh.claims ==>
          id in sh'.claims && (sh'.claims[id] == sh.claims[id] || (holder.Some? && sh.claims[id] == Held(holder.value))))
  }

  lemma GrowsEndOffset(sh: Shared, sh': Shared, holder: Option<ProcID>, id: UUID)
    requires Grows(sh, sh', holder) && S.Tiled(sh'.Stream(id))
    ensures S.EndOffset(sh.Stream(id)) <= S.EndOffset(sh'.Stream(id))
  {
    var rs, rs' := sh.Stream(id), sh'.Stream(id);
    assert rs <= rs';
    assert rs == rs'[..|rs|];
    S.EndOffsetMonotone(rs', |rs|);
  }

  lemma GrowsBatch(sh: Shared, sh': Shared, holder: Option<ProcID>, b: seq<Envelope>)
    requires Grows(sh, sh', holder) && IsBatch(sh, b)
    ensures IsBatch(sh', b)
  {
  }

  lemma GrowsStored(sh: Shared, sh': Shared, holder: Option<ProcID>, r: AppendRequest)
    requires Grows(sh, sh', holder) && Stored(sh, r)
    ensures Stored(sh', r)
  {
    var k: nat :| StoredAt(sh.Stream(r.streamID), r.events, k);
    assert sh.Stream(r.streamID) <= sh'.Stream(r.streamID);
    assert StoredAt(sh'.Stream(r.streamID), r.events, k);
  }

  lemma GrowsAnswers(sh: Shared, sh': Shared, holder: Option<ProcID>, r: AppendRequest, res: AppendResponse)
    requires Grows(sh, sh', holder) && Answers(sh.Stream(r.streamID), r, res)
    ensures Answers(sh'.Stream(r.streamID), r, res)
  {
    var rs := sh.Stream(r.streamID);
    var k: nat :| StoredAt(rs, r.events, k) && res.begin == rs[k].offsetBefore && res.end == rs[k].offsetAfter;
    assert rs <= sh'.Stream(r.streamID);
    assert StoredAt(sh'.Stream(r.streamID), r.events, k);
  }

  /** What a supervisor knows is not disturbed by what others do. */
  lemma SupUndisturbed(sh: Shared, sh': Shared, holder: Option<ProcID>, p: ProcID, sup: Sup)
    requires Grows(sh, sh', holder) && holder != Some(p) && StreamsOk(sh')
    requires SupOk(sh, p, sup)
    ensures SupOk(sh', p, sup)
  {
    if sup.streamID.Some? {
      assert StreamOk(sh', sup.streamID.value);
      GrowsEndOffset(sh, sh', holder, sup.streamID.value);
    }
    if sup.pos <= |sh.history| {
      I.PhaseStable(sh.history, sh'.history, sup.pos);
    }
    match sup.pc
    case Selecting(_, events, _) =>
      GrowsBatch(sh, sh', holder, events);
    case Recording(op, _) =>
      if op.events != [] {
        GrowsBatch(sh, sh', holder, op.events);
        assert StreamOk(sh', op.streamID.value);
        GrowsEndOffset(sh, sh', holder, op.streamID.value);
      }
    case Marking(op, _) =>
      GrowsStored(sh, sh', holder, op.Request());
    case _ =>
  }

  lemma WorkerUndisturbed(sh: Shared, sh': Shared, holder: Option<ProcID>, w: Worker)
    requires Grows(sh, sh', holder) && WorkerOk(sh, w)
    ensures WorkerOk(sh', w)
  {
    var rs, rs' := sh.Stream(w.streamID), sh'.Stream(w.streamID);
    assert rs <= rs';
    if !w.pc.Stopped? {
      assert rs'[..w.pos] == rs[..w.pos];
    }
  }
}
