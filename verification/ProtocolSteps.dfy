/** Every step of every process keeps the invariant of the protocol. */
module ProtocolSteps {
  import opened Common
  import opened Protocol
  import opened ProtocolInvariant
  import I = IntegrationJournal
  import S = StreamJournal

  // ----- consequences of the invariant -----

  /** In a settled journal every accepted command is handled, and so is in the set of accepted commands. */
  lemma SettledMeansAdded(sh: Shared, n: nat, i: nat)
    requires JournalOk(sh) && SettledAt(sh.history, n) && i < n && sh.history[i].CommandAccepted?
    ensures i + 1 < n && sh.history[i + 1].CommandHandled?
    ensures sh.history[i + 1].op.commandID == sh.history[i].command.messageID
    ensures sh.history[i].command.messageID in sh.accepted
  {
    I.HandledNext(sh.history, n, i);
  }

  /** An operation that awaits its append is the last record there, and its batch is claimed for it. */
  lemma UnappendedIsLast(sh: Shared, n: nat, op: I.Handled)
    requires JournalOk(sh) && ClaimsOk(sh) && UnappendedAt(sh.history, n, op)
    ensures 0 < n && sh.history[n - 1] == I.CommandHandled(op)
    ensures op.events != [] && op.streamID.Some? && Claims(sh, op.Request())
  {
    I.LastRecordOf(sh.history, n);
    assert HandedOver(sh, n - 1);
  }

  /** A record of a stream holds the batch of any claimed request that begins with the same event. */
  lemma SameFirstSameBatch(sh: Shared, r: AppendRequest, id: UUID, k: nat)
    requires StreamOk(sh, id) && Claims(sh, r) && k < |sh.Stream(id)|
    ensures RecordOk(sh, id, k)
    ensures sh.Stream(id)[k].FirstID() == r.events[0].messageID ==>
              r.streamID == id && StoredAt(sh.Stream(id), r.events, k)
  {
    assert RecordOk(sh, id, k);
  }

  // ----- what growth leaves in place -----

  lemma ClaimKept(sh: Shared, sh': Shared, holder: Option<ProcID>, id: UUID)
    requires Grows(sh, sh', holder) && id in sh.claims && sh'.claims[id] == sh.claims[id] && ClaimOk(sh, id)
    requires ClaimedBy(sh, id).Some? ==>
               HintSound(sh'.Stream(ClaimedBy(sh, id).value.streamID), ClaimedBy(sh, id).value)
    ensures ClaimOk(sh', id)
  {
    if ClaimedBy(sh, id).Some? {
      GrowsBatch(sh, sh', holder, ClaimedBy(sh, id).value.events);
    }
  }

  lemma RequestKept(sh: Shared, sh': Shared, holder: Option<ProcID>, r: AppendRequest)
    requires Grows(sh, sh', holder) && Claims(sh, r)
    ensures Claims(sh', r)
  {
  }

  lemma RecordKept(sh: Shared, sh': Shared, holder: Option<ProcID>, id: UUID, k: nat)
    requires Grows(sh, sh', holder) && k < |sh.Stream(id)| && RecordOk(sh, id, k)
    ensures k < |sh'.Stream(id)| && RecordOk(sh', id, k)
  {
    assert sh.Stream(id) <= sh'.Stream(id);
  }

  lemma StreamKept(sh: Shared, sh': Shared, holder: Option<ProcID>, id: UUID)
    requires Grows(sh, sh', holder) && StreamOk(sh, id) && sh'.Stream(id) == sh.Stream(id)
    ensures StreamOk(sh', id)
  {
    forall k | 0 <= k < |sh'.Stream(id)|
      ensures RecordOk(sh', id, k)
    {
      RecordKept(sh, sh', holder, id, k);
    }
    forall j, k | 0 <= j < |sh'.Stream(id)| && 0 <= k < |sh'.Stream(id)|
      ensures OnePlace(sh'.Stream(id), j, k)
    {
      assert OnePlace(sh.Stream(id), j, k);
    }
  }

  lemma AppendedKept(sh: Shared, sh': Shared, holder: Option<ProcID>)
    requires StreamsOk(sh) && Grows(sh, sh', holder)
    requires |sh'.history| <= |sh.history| + 1
    requires sh.history != [] && |sh.history| < |sh'.history| ==> AppendedIfHandled(sh, sh.history[|sh.history| - 1])
    ensures forall i :: 0 <= i < |sh'.history| - 1 ==> AppendedIfHandled(sh', sh'.history[i])
  {
    forall i | 0 <= i < |sh'.history| - 1
      ensures AppendedIfHandled(sh', sh'.history[i])
    {
      var rec := sh.history[i];
      assert sh'.history[i] == rec && AppendedIfHandled(sh, rec);
      if rec.CommandHandled? && rec.op.events != [] {
        GrowsStored(sh, sh', holder, rec.op.Request());
      }
    }
  }

  /** Changes of the journal, the batches, the claims and the issued requests that leave the streams alone. */
  lemma BatchesKept(sh: Shared, sh': Shared, holder: Option<ProcID>)
    requires ClaimsOk(sh) && StreamsOk(sh) && Grows(sh, sh', holder)
    requires sh'.streams == sh.streams && sh'.responses == sh.responses
    requires forall id :: id in sh'.claims && !(id in sh.claims && sh'.claims[id] == sh.claims[id]) ==> ClaimOk(sh', id)
    requires forall r :: r in sh'.issued && r !in sh.issued ==> Claims(sh', r)
    requires |sh'.history| <= |sh.history| + 1
    requires |sh.history| < |sh'.history| ==>
               && HandedOver(sh', |sh.history|)
               && (sh.history != [] ==> AppendedIfHandled(sh, sh.history[|sh.history| - 1]))
    ensures ClaimsOk(sh') && StreamsOk(sh')
  {
    forall id | id in sh'.claims
      ensures ClaimOk(sh', id)
    {
      if id in sh.claims && sh'.claims[id] == sh.claims[id] {
        assert ClaimOk(sh, id);
        ClaimKept(sh, sh', holder, id);
      }
    }
    forall i | 0 <= i < |sh'.history|
      ensures HandedOver(sh', i)
    {
      if i < |sh.history| {
        assert HandedOver(sh, i);
      }
    }
    forall r | r in sh'.issued
      ensures Claims(sh', r)
    {
      if r in sh.issued {
        assert Claims(sh, r);
        RequestKept(sh, sh', holder, r);
      }
    }
    forall id
      ensures StreamOk(sh', id)
    {
      assert StreamOk(sh, id);
      StreamKept(sh, sh', holder, id);
    }
    ResponsesKept(sh, sh', holder);
    AppendedKept(sh, sh', holder);
  }

  lemma ResponsesKept(sh: Shared, sh': Shared, holder: Option<ProcID>)
    requires StreamsOk(sh) && Grows(sh, sh', holder)
    ensures forall r, res :: (r, res) in sh.responses ==> Answered(sh', r, res)
  {
    forall r, res | (r, res) in sh.responses
      ensures Answered(sh', r, res)
    {
      assert Answered(sh, r, res);
      GrowsAnswers(sh, sh', holder, r, res);
    }
  }

  // ----- appending to the journal -----

  lemma JournalAppended(sh: Shared, sh': Shared, r: I.Record)
    requires JournalOk(sh)
    requires sh'.history == sh.history + [r] && sh'.begin == sh.begin && sh'.accepted == sh.accepted
    requires forall id :: id in sh'.acked ==> id in sh.acked || (r.CommandAccepted? && r.command.messageID == id)
    requires I.After(I.PhaseOf(sh.history), r) != I.Malformed
    requires r.CommandAccepted? ==> NotAcceptedBelow(sh.history, |sh.history|, r.command.messageID)
    requires r.CommandHandled? ==> r.op.commandID in sh.accepted
    ensures JournalOk(sh')
  {
    var h, h' := sh.history, sh'.history;
    I.PhaseAppend(h, r);
    assert forall i :: 0 <= i < |h| ==> h'[i] == h[i];
    forall id | WasAccepted(h, id)
      ensures WasAccepted(h', id)
    {
      var i :| 0 <= i < |h| && h[i].CommandAccepted? && h[i].command.messageID == id;
      assert h'[i] == h[i];
    }
    if r.CommandAccepted? {
      assert h'[|h|] == r;
      assert WasAccepted(h', r.command.messageID);
    }
  }

  /** A journal append grows the shared state, when it only moves a claim of the appending supervisor. */
  lemma AppendGrows(sh: Shared, sh': Shared, p: ProcID, r: I.Record)
    requires sh'.history == sh.history + [r] && sh'.begin == sh.begin && sh'.accepted == sh.accepted
    requires sh.acked <= sh'.acked && sh'.streams == sh.streams && sh'.issued == sh.issued
    requires sh'.responses == sh.responses && sh'.batchOf == sh.batchOf
    requires forall id :: id in sh.claims ==>
               id in sh'.claims && (sh'.claims[id] == sh.claims[id] || sh.claims[id] == Held(p))
    ensures Grows(sh, sh', Some(p))
  {
    assert forall id :: sh.Stream(id) == sh'.Stream(id);
  }

  /** A settled or unhandled journal does not end in a hand-over whose events may be missing. */
  lemma LastIsAppended(sh: Shared)
    requires JournalOk(sh) && !I.PhaseOf(sh.history).AwaitingAppend? && sh.history != []
    ensures AppendedIfHandled(sh, sh.history[|sh.history| - 1])
  {
    var n := |sh.history| - 1;
    if sh.history[n].CommandHandled? && sh.history[n].op.events != [] {
      I.AppendFollows(sh.history, n);
    }
  }

  /** The record that a supervisor appends, and the fault that befalls the append. */
  function Appended(sup: Sup, a: SupAction): Option<(I.Record, Fault)> {
    match (a, sup.pc)
    case (Accept(f), Accepting(c)) => Some((I.CommandAccepted(c), f))
    case (RecordHandled(f), Recording(op, _)) => Some((I.CommandHandled(op), f))
    case (MarkAppended(f), Marking(op, _)) => Some((I.EventsAppendedToStream(op.commandID), f))
    case _ => None
  }

  /**
   * Nothing but these three steps ever changes the journal's history. Each appends its record exactly when the
   * supervisor is at the end of the journal and the append does not fail beforehand. A conflict changes nothing at
   * all; a failure after the effect leaves the record, and the supervisor down as after any other failure.
   */
  lemma AppendsOnlyAtTheEnd(sh: Shared, p: ProcID, sup: Sup, a: SupAction)
    ensures var (sh', sup') := SupStep(sh, p, sup, a);
            match Appended(sup, a)
            case None => sh'.history == sh.history
            case Some((r, f)) =>
              if f.FailBefore? || sup.pos != |sh.history| then sh' == sh && sup' == sup.(pc := Down)
              else
                && sh'.history == sh.history + [r] && sh'.streams == sh.streams
                && if f.FailAfter? then sup' == sup.(pc := Down) && sh'.acked == sh.acked
                   else !sup'.pc.Down? && sup'.pos == |sh'.history|
  {
  }

  // ----- producing batches -----

  /** A batch is in no stream as long as no request may append it. */
  lemma UnclaimedIsNotStored(sh: Shared, events: seq<Envelope>, id: UUID)
    requires StreamsOk(sh) && events != []
    requires events[0].messageID in sh.claims ==> ClaimedBy(sh, events[0].messageID).None?
    ensures forall k :: 0 <= k < |sh.Stream(id)| ==> sh.Stream(id)[k].events != events
  {
    assert StreamOk(sh, id);
    forall k | 0 <= k < |sh.Stream(id)|
      ensures sh.Stream(id)[k].events != events
    {
      assert RecordOk(sh, id, k);
    }
  }

  lemma MintGrows(sh: Shared, events: seq<Envelope>, claim: Claim)
    requires Fresh(sh, events)
    ensures IsBatch(Mint(sh, events, claim), events)
    ensures Grows(sh, Mint(sh, events, claim), None)
  {
    assert events[0] in events;
  }

  lemma Minted(sh: Shared, events: seq<Envelope>, claim: Claim)
    requires ClaimsOk(sh) && StreamsOk(sh) && Fresh(sh, events)
    requires claim.Held? || (claim.Foreign? && claim.req.events == events
                             && claim.req.hint <= S.EndOffset(sh.Stream(claim.req.streamID)))
    ensures ClaimsOk(Mint(sh, events, claim)) && StreamsOk(Mint(sh, events, claim))
  {
    var sh' := Mint(sh, events, claim);
    MintGrows(sh, events, claim);
    assert events[0] in events;
    if claim.Foreign? {
      UnclaimedIsNotStored(sh, events, claim.req.streamID);
    }
    assert ClaimOk(sh', events[0].messageID);
    BatchesKept(sh, sh', None);
  }

  // ----- the steps of a supervisor -----

  ghost predicate SupKeeps(sh: Shared, p: ProcID, sh': Shared, sup': Sup) {
    SharedOk(sh') && Grows(sh, sh', Some(p)) && SupOk(sh', p, sup')
  }

  lemma TruncateKeeps(sh: Shared, p: ProcID, sup: Sup, f: Fault)
    requires SharedOk(sh) && SupOk(sh, p, sup) && sup.pc.Truncating?
    ensures var (sh', sup') := DoTruncate(sh, sup, f); SupKeeps(sh, p, sh', sup')
  {
    var (sh', sup') := DoTruncate(sh, sup, f);
    BatchesKept(sh, sh', Some(p));
  }

  lemma CheckKeeps(sh: Shared, p: ProcID, sup: Sup)
    requires SharedOk(sh) && SupOk(sh, p, sup) && sup.pc.Checking?
    ensures var (sh', sup') := SupStep(sh, p, sup, CheckAccepted); SupKeeps(sh, p, sh', sup')
  {
    var (sh', sup') := SupStep(sh, p, sup, CheckAccepted);
    var id := sup.pc.command.messageID;
    if id in sh.accepted {
      BatchesKept(sh, sh', Some(p));
    } else {
      forall i | 0 <= i < sup.pos && sh.history[i].CommandAccepted?
        ensures sh.history[i].command.messageID != id
      {
        SettledMeansAdded(sh, sup.pos, i);
      }
    }
  }

  lemma AcceptShared(sh: Shared, p: ProcID, sup: Sup, f: Fault)
    requires SharedOk(sh) && SupOk(sh, p, sup) && sup.pc.Accepting? && Appends(sh, sup.pos, f)
    ensures var sh' := DoAccept(sh, sup, sup.pc.command, f).0; SharedOk(sh') && Grows(sh, sh', Some(p))
  {
    var r := I.CommandAccepted(sup.pc.command);
    var sh' := DoAccept(sh, sup, sup.pc.command, f).0;
    AppendGrows(sh, sh', p, r);
    assert JournalOk(sh') by {
      JournalAppended(sh, sh', r);
    }
    if sh.history != [] {
      LastIsAppended(sh);
    }
    BatchesKept(sh, sh', Some(p));
  }

  lemma AcceptSup(sh: Shared, p: ProcID, sup: Sup, f: Fault)
    requires SupOk(sh, p, sup) && sup.pc.Accepting?
    ensures var (sh', sup') := DoAccept(sh, sup, sup.pc.command, f); SupOk(sh', p, sup')
  {
    I.PhaseAppend(sh.history, I.CommandAccepted(sup.pc.command));
  }

  lemma AcceptKeeps(sh: Shared, p: ProcID, sup: Sup, f: Fault)
    requires SharedOk(sh) && SupOk(sh, p, sup) && sup.pc.Accepting?
    ensures var (sh', sup') := DoAccept(sh, sup, sup.pc.command, f); SupKeeps(sh, p, sh', sup')
  {
    AcceptSup(sh, p, sup, f);
    if Appends(sh, sup.pos, f) {
      AcceptShared(sh, p, sup, f);
    }
  }

  lemma AddKeeps(sh: Shared, p: ProcID, sup: Sup, f: Fault)
    requires SharedOk(sh) && SupOk(sh, p, sup) && sup.pc.Adding?
    ensures var (sh', sup') := DoAddAccepted(sh, sup, sup.pc.command, sup.pc.rest, f); SupKeeps(sh, p, sh', sup')
  {
    var (sh', sup') := DoAddAccepted(sh, sup, sup.pc.command, sup.pc.rest, f);
    I.LastRecordOf(sh.history, sup.pos);
    assert WasAccepted(sh.history, sup.pc.command.messageID);
    BatchesKept(sh, sh', Some(p));
  }

  lemma MintKeeps(sh: Shared, p: ProcID, events: seq<Envelope>)
    requires SharedOk(sh) && Fresh(sh, events)
    ensures var sh' := Mint(sh, events, Held(p)); SharedOk(sh') && Grows(sh, sh', None) && Holds(sh', p, events)
  {
    Minted(sh, events, Held(p));
    MintGrows(sh, events, Held(p));
  }

  lemma HandlerSup(sh: Shared, p: ProcID, sup: Sup, events: seq<Envelope>)
    requires SupOk(sh, p, sup) && sup.pc.Handling? && Fresh(sh, events) && Holds(Mint(sh, events, Held(p)), p, events)
    ensures var (sh', sup') := DoRunHandler(sh, p, sup, sup.pc.command, sup.pc.rest, events);
            sh' == Mint(sh, events, Held(p)) && SupOk(sh', p, sup')
  {
  }

  lemma HandlerKeeps(sh: Shared, p: ProcID, sup: Sup, events: seq<Envelope>)
    requires SharedOk(sh) && SupOk(sh, p, sup) && sup.pc.Handling?
    ensures var (sh', sup') := DoRunHandler(sh, p, sup, sup.pc.command, sup.pc.rest, events); SupKeeps(sh, p, sh', sup')
  {
    if events != [] && Fresh(sh, events) {
      MintKeeps(sh, p, events);
      HandlerSup(sh, p, sup, events);
    }
  }

  /** The record hands the batch over: the claim moves from the supervisor to the position of the record. */
  lemma HandOver(sh: Shared, sh': Shared, p: ProcID, op: I.Handled)
    requires ClaimsOk(sh) && StreamsOk(sh)
    requires op.events != [] && Holds(sh, p, op.events)
    requires op.streamID.Some? && op.hint <= S.EndOffset(sh.Stream(op.streamID.value))
    requires sh'.history == sh.history + [I.CommandHandled(op)]
    requires sh'.streams == sh.streams && sh'.batchOf == sh.batchOf
    requires sh'.claims == sh.claims[op.events[0].messageID := Journaled(|sh.history|)]
    ensures ClaimOk(sh', op.events[0].messageID) && HandedOver(sh', |sh.history|)
  {
    UnclaimedIsNotStored(sh, op.events, op.streamID.value);
    assert sh'.history[|sh.history|] == I.CommandHandled(op);
  }

  /** The outcome of the last accepted command is recorded. */
  lemma RecordShared(sh: Shared, sh': Shared, p: ProcID, op: I.Handled)
    requires SharedOk(sh) && UnhandledAt(sh.history, |sh.history|, op.commandID) && op.commandID in sh.accepted
    requires op.events != [] ==>
               && Holds(sh, p, op.events) && op.streamID.Some?
               && op.hint <= S.EndOffset(sh.Stream(op.streamID.value))
    requires sh' == sh.(history := sh.history + [I.CommandHandled(op)],
                        claims := if op.events == [] then sh.claims
                                  else sh.claims[op.events[0].messageID := Journaled(|sh.history|)])
    ensures SharedOk(sh') && Grows(sh, sh', Some(p))
  {
    var r := I.CommandHandled(op);
    AppendGrows(sh, sh', p, r);
    assert JournalOk(sh') by {
      JournalAppended(sh, sh', r);
    }
    LastIsAppended(sh);
    if op.events != [] {
      HandOver(sh, sh', p, op);
    }
    BatchesKept(sh, sh', Some(p));
  }

  lemma RecordSup(sh: Shared, p: ProcID, sup: Sup, f: Fault)
    requires SupOk(sh, p, sup) && sup.pc.Recording? && sup.pos <= |sh.history|
    ensures var (sh', sup') := DoRecord(sh, sup, sup.pc.op, sup.pc.rest, f); SupOk(sh', p, sup')
  {
    I.PhaseAppend(sh.history, I.CommandHandled(sup.pc.op));
  }

  lemma RecordKeeps(sh: Shared, p: ProcID, sup: Sup, f: Fault)
    requires SharedOk(sh) && SupOk(sh, p, sup) && sup.pc.Recording?
    ensures var (sh', sup') := DoRecord(sh, sup, sup.pc.op, sup.pc.rest, f); SupKeeps(sh, p, sh', sup')
  {
    RecordSup(sh, p, sup, f);
    if Appends(sh, sup.pos, f) {
      RecordShared(sh, DoRecord(sh, sup, sup.pc.op, sup.pc.rest, f).0, p, sup.pc.op);
    }
  }

  /** The append record is added when the events of the last operation are in their stream. */
  lemma MarkShared(sh: Shared, p: ProcID, op: I.Handled)
    requires SharedOk(sh) && UnappendedAt(sh.history, |sh.history|, op) && op.streamID.Some? && Stored(sh, op.Request())
    ensures var sh' := sh.(history := sh.history + [I.EventsAppendedToStream(op.commandID)]);
            SharedOk(sh') && Grows(sh, sh', Some(p))
  {
    var r := I.EventsAppendedToStream(op.commandID);
    var sh' := sh.(history := sh.history + [r]);
    AppendGrows(sh, sh', p, r);
    assert JournalOk(sh') by {
      JournalAppended(sh, sh', r);
    }
    assert AppendedIfHandled(sh, sh.history[|sh.history| - 1]) by {
      UnappendedIsLast(sh, |sh.history|, op);
    }
    assert HandedOver(sh', |sh.history|);
    BatchesKept(sh, sh', Some(p));
  }

  lemma MarkSup(sh: Shared, p: ProcID, sup: Sup, f: Fault)
    requires SupOk(sh, p, sup) && sup.pc.Marking?
    ensures var (sh', sup') := DoMark(sh, sup, sup.pc.op, sup.pc.rest, f); SupOk(sh', p, sup')
  {
    I.PhaseAppend(sh.history, I.EventsAppendedToStream(sup.pc.op.commandID));
  }

  lemma MarkKeeps(sh: Shared, p: ProcID, sup: Sup, f: Fault)
    requires SharedOk(sh) && SupOk(sh, p, sup) && sup.pc.Marking?
    ensures var (sh', sup') := DoMark(sh, sup, sup.pc.op, sup.pc.rest, f); SupKeeps(sh, p, sh', sup')
  {
    MarkSup(sh, p, sup, f);
    if Appends(sh, sup.pos, f) {
      MarkShared(sh, p, sup.pc.op);
    }
  }

  lemma ReadAllKeeps(sh: Shared, p: ProcID, sup: Sup)
    requires SharedOk(sh) && SupOk(sh, p, sup) && sup.pc.Scanning?
    ensures var (sh', sup') := SupStep(sh, p, sup, ReadAll); sh' == sh && SupOk(sh', p, sup')
  {
    I.PendingAtMostOne(sh.history, sup.pos);
  }

  /** The first operation of the list is without events, or it is the one that the phase calls for. */
  lemma PickOp(ph: I.Phase, hs: seq<I.Handled>, cs: seq<Envelope>)
    requires I.PendingFor(ph, cs, hs) && hs != []
    ensures if hs[0].events == [] then I.PendingFor(ph, cs, hs[1..])
            else ph.AwaitingAppend? && ph.op == hs[0] && I.WithEvents(hs[1..]) == [] && cs == []
  {
    I.WithEventsCons(hs, |hs|);
    if hs[0].events != [] {
      assert ([hs[0]] + I.WithEvents(hs[1..]))[0] == hs[0];
      assert |I.WithEvents(hs[1..])| == 0;
    }
  }

  lemma PickKeeps(sh: Shared, p: ProcID, sup: Sup)
    requires SharedOk(sh) && SupOk(sh, p, sup) && sup.pc.Resuming?
    ensures var (sh', sup') := SupStep(sh, p, sup, Proceed); sh' == sh && SupOk(sh', p, sup')
  {
    I.PrefixWellFormed(sh.history, sup.pos);
    if sup.pc.handled != [] {
      PickOp(I.PhaseAt(sh.history, sup.pos), sup.pc.handled, sup.pc.accepted);
    }
  }

  lemma IssueKeeps(sh: Shared, p: ProcID, r: AppendRequest)
    requires SharedOk(sh) && Claims(sh, r)
    ensures var sh' := sh.(issued := sh.issued + {r}); SharedOk(sh') && Grows(sh, sh', Some(p)) && Grows(sh, sh', None)
  {
    var sh' := sh.(issued := sh.issued + {r});
    RequestKept(sh, sh', None, r);
    BatchesKept(sh, sh', None);
  }

  lemma SendKeeps(sh: Shared, p: ProcID, sup: Sup)
    requires SharedOk(sh) && SupOk(sh, p, sup) && sup.pc.Sending?
    ensures sup.pc.op.streamID.Some?
    ensures var sh' := sh.(issued := sh.issued + {sup.pc.op.Request()});
            SupKeeps(sh, p, sh', sup.(pc := Waiting(sup.pc.op, sup.pc.own, sup.pc.rest)))
  {
    UnappendedIsLast(sh, sup.pos, sup.pc.op);
    IssueKeeps(sh, p, sup.pc.op.Request());
  }

  /** A response tells where in the stream the events are, so its end is a sound hint for later ones. */
  lemma ResponseInStream(sh: Shared, r: AppendRequest, res: AppendResponse)
    requires StreamsOk(sh) && (r, res) in sh.responses
    ensures Stored(sh, r) && res.end <= S.EndOffset(sh.Stream(r.streamID))
  {
    var rs := sh.Stream(r.streamID);
    assert Answered(sh, r, res);
    var k: nat :| StoredAt(rs, r.events, k) && res.begin == rs[k].offsetBefore && res.end == rs[k].offsetAfter;
    assert StreamOk(sh, r.streamID);
    S.EndOffsetBounds(rs, k, |rs|);
    assert rs[..|rs|] == rs;
  }

  lemma ResponseKeeps(sh: Shared, p: ProcID, sup: Sup, res: AppendResponse)
    requires SharedOk(sh) && SupOk(sh, p, sup) && sup.pc.Waiting?
    ensures var (sh', sup') := SupStep(sh, p, sup, GetResponse(res)); sh' == sh && SupOk(sh', p, sup')
  {
    var op := sup.pc.op;
    if op.streamID.Some? && (op.Request(), res) in sh.responses {
      ResponseInStream(sh, op.Request(), res);
    }
  }

  // Each of these steps keeps the invariant, enabled or not.

  lemma TruncateStep(sh: Shared, p: ProcID, sup: Sup, f: Fault)
    requires SharedOk(sh) && SupOk(sh, p, sup)
    ensures var (sh', sup') := SupStep(sh, p, sup, Truncate(f)); SupKeeps(sh, p, sh', sup')
  {
    if sup.pc.Truncating? {
      TruncateKeeps(sh, p, sup, f);
    }
  }

  lemma AcceptStep(sh: Shared, p: ProcID, sup: Sup, f: Fault)
    requires SharedOk(sh) && SupOk(sh, p, sup)
    ensures var (sh', sup') := SupStep(sh, p, sup, Accept(f)); SupKeeps(sh, p, sh', sup')
  {
    if sup.pc.Accepting? {
      AcceptKeeps(sh, p, sup, f);
    }
  }

  lemma AddStep(sh: Shared, p: ProcID, sup: Sup, f: Fault)
    requires SharedOk(sh) && SupOk(sh, p, sup)
    ensures var (sh', sup') := SupStep(sh, p, sup, AddAccepted(f)); SupKeeps(sh, p, sh', sup')
  {
    if sup.pc.Adding? {
      AddKeeps(sh, p, sup, f);
    }
  }

  lemma RecordStep(sh: Shared, p: ProcID, sup: Sup, f: Fault)
    requires SharedOk(sh) && SupOk(sh, p, sup)
    ensures var (sh', sup') := SupStep(sh, p, sup, RecordHandled(f)); SupKeeps(sh, p, sh', sup')
  {
    if sup.pc.Recording? {
      RecordKeeps(sh, p, sup, f);
    }
  }

  lemma MarkStep(sh: Shared, p: ProcID, sup: Sup, f: Fault)
    requires SharedOk(sh) && SupOk(sh, p, sup)
    ensures var (sh', sup') := SupStep(sh, p, sup, MarkAppended(f)); SupKeeps(sh, p, sh', sup')
  {
    if sup.pc.Marking? {
      MarkKeeps(sh, p, sup, f);
    }
  }

  lemma SupStepKeeps(sh: Shared, p: ProcID, sup: Sup, a: SupAction)
    requires SharedOk(sh) && SupOk(sh, p, sup)
    ensures var (sh', sup') := SupStep(sh, p, sup, a); SupKeeps(sh, p, sh', sup')
  {
    match a
    case Truncate(f) => TruncateStep(sh, p, sup, f);
    case Accept(f) => AcceptStep(sh, p, sup, f);
    case AddAccepted(f) => AddStep(sh, p, sup, f);
    case RecordHandled(f) => RecordStep(sh, p, sup, f);
    case MarkAppended(f) => MarkStep(sh, p, sup, f);
    case ReadAll =>
      if sup.pc.Scanning? { ReadAllKeeps(sh, p, sup); }
    case Proceed =>
      if sup.pc.Resuming? { PickKeeps(sh, p, sup); }
    case CheckAccepted =>
      if sup.pc.Checking? { CheckKeeps(sh, p, sup); }
    case RunHandler(events) =>
      if sup.pc.Handling? { HandlerKeeps(sh, p, sup, events); }
    case Send =>
      if sup.pc.Sending? { SendKeeps(sh, p, sup); }
    case GetResponse(res) =>
      if sup.pc.Waiting? { ResponseKeeps(sh, p, sup, res); }
    case _ =>
      QuietSupStep(sh, p, sup, a);
  }

  lemma QuietSupStep(sh: Shared, p: ProcID, sup: Sup, a: SupAction)
    requires SharedOk(sh) && SupOk(sh, p, sup)
    requires a.ReadBounds? || a.Receive? || a.SelectStream? || a.Fail? || a.Replace?
    ensures var (sh', sup') := SupStep(sh, p, sup, a); sh' == sh && SupOk(sh', p, sup')
  {
  }

  /** Only the handler produces events. */
  lemma OnlyHandlersProduce(sh: Shared, p: ProcID, sup: Sup, a: SupAction)
    requires SupOk(sh, p, sup) && !a.RunHandler?
    ensures Known(SupStep(sh, p, sup, a).0) == Known(sh)
  {
  }

  lemma WorkersProduceNothing(sh: Shared, w: Worker, a: WorkerAction)
    ensures Known(WorkerStep(sh, w, a).0) == Known(sh)
  {
  }

  // ----- the steps of a worker -----

  /** A worker takes a request only after deciding that it cannot be below the cached position. */
  lemma TakeKeeps(sh: Shared, w: Worker, r: AppendRequest)
    requires SharedOk(sh) && WorkerOk(sh, w) && w.pc.Ready?
    requires r in sh.issued && r.streamID == w.streamID && r.hint >= w.off
    ensures NotStoredBelow(sh.Stream(w.streamID), w.pos, r)
  {
    var rs := sh.Stream(w.streamID);
    assert Claims(sh, r) && ClaimOk(sh, r.events[0].messageID) && StreamOk(sh, w.streamID);
    forall k | 0 <= k < w.pos && rs[k].events != []
      ensures rs[k].FirstID() != r.events[0].messageID
    {
      S.EndOffsetBounds(rs, k, w.pos);
      assert rs[k].events != r.events;
      SameFirstSameBatch(sh, r, w.streamID, k);
    }
  }

  /** With a sound hint the lookup finds the request's batch if the part of the journal that it sees holds it. */
  lemma LookupIsExact(sh: Shared, w: Worker, r: AppendRequest, end: nat)
    requires ClaimsOk(sh) && StreamOk(sh, r.streamID) && r in sh.issued && r.streamID == w.streamID
    requires w.pos <= end <= |sh.Stream(w.streamID)| && w.off == S.EndOffset(sh.Stream(w.streamID)[..w.pos])
    requires r.hint < w.off
    ensures r.events != []
    ensures var rs := sh.Stream(w.streamID);
            match S.FastLookup(rs[..end], w.pos, r.hint, r.events[0].messageID)
            case None => NotStoredBelow(rs, w.pos, r)
            case Some(k) => StoredAt(rs, r.events, k)
  {
    var rs := sh.Stream(w.streamID);
    assert Claims(sh, r) && ClaimOk(sh, r.events[0].messageID);
    var id := r.events[0].messageID;
    var seen := rs[..end];
    assert seen[..w.pos] == rs[..w.pos];
    S.TiledPrefix(rs, end);
    var found := S.FirstMatch(seen, 0, id);
    if found.Some? {
      SameFirstSameBatch(sh, r, r.streamID, found.value);
      assert S.TiledAt(rs, found.value);
    }
    S.FastLookupRefinesLinearScan(seen, w.pos, r.hint, id);
  }

  lemma LookupKeeps(sh: Shared, w: Worker, end: nat)
    requires SharedOk(sh) && WorkerOk(sh, w) && w.pc.Looking?
    ensures var (sh', w') := DoLookup(sh, w, w.pc.req, end);
            SharedOk(sh') && Grows(sh, sh', None) && WorkerOk(sh', w')
  {
    var r, rs := w.pc.req, sh.Stream(w.streamID);
    var (sh', w') := DoLookup(sh, w, r, end);
    if w.pos <= end <= |rs| {
      assert StreamOk(sh, r.streamID);
      LookupIsExact(sh, w, r, end);
      var found := S.FastLookup(rs[..end], w.pos, r.hint, r.events[0].messageID);
      if found.Some? {
        var res := AppendResponse(rs[found.value].offsetBefore, rs[found.value].offsetAfter, true);
        RespondKeeps(sh, r, res, found.value);
        WorkerUndisturbed(sh, sh', None, w.(pc := Ready));
      }
    }
  }

  lemma RespondKeeps(sh: Shared, r: AppendRequest, res: AppendResponse, k: nat)
    requires SharedOk(sh) && StoredAt(sh.Stream(r.streamID), r.events, k)
    requires var rec := sh.Stream(r.streamID)[k]; res.begin == rec.offsetBefore && res.end == rec.offsetAfter
    ensures SharedOk(sh.Respond(r, res)) && Grows(sh, sh.Respond(r, res), None)
  {
    var sh' := sh.Respond(r, res);
    forall id
      ensures StreamOk(sh', id)
    {
      assert StreamOk(sh, id);
      StreamKept(sh, sh', None, id);
    }
    ClaimsWithoutResponses(sh, sh');
    ResponsesKept(sh, sh', None);
    assert Answered(sh', r, res);
    AppendedKept(sh, sh', None);
  }

  lemma ClaimsWithoutResponses(sh: Shared, sh': Shared)
    requires ClaimsOk(sh) && sh' == sh.(responses := sh'.responses)
    ensures ClaimsOk(sh')
  {
    forall id | id in sh'.claims
      ensures ClaimOk(sh', id)
    {
      assert ClaimOk(sh, id);
    }
    forall i | 0 <= i < |sh'.history|
      ensures HandedOver(sh', i)
    {
      assert HandedOver(sh, i);
    }
    forall q | q in sh'.issued
      ensures Claims(sh', q)
    {
      assert Claims(sh, q);
    }
  }

  /** Hints stay sound when a batch is stored at the end of its stream. */
  lemma HintSoundAppend(rs: seq<S.Record>, rec: S.Record, r: AppendRequest)
    requires S.Tiled(rs) && HintSound(rs, r)
    requires rec.offsetBefore == S.EndOffset(rs) && rec.offsetAfter >= rec.offsetBefore
    ensures HintSound(rs + [rec], r)
  {
  }

  /** The record that holds a request's batch at the end of its stream. */
  function NextRecord(sh: Shared, r: AppendRequest): S.Record {
    var off := S.EndOffset(sh.Stream(r.streamID));
    S.Record(off, off + |r.events|, r.events)
  }

  function Store(sh: Shared, r: AppendRequest): Shared {
    sh.Store(r.streamID, NextRecord(sh, r))
  }

  lemma StoreGrows(sh: Shared, r: AppendRequest)
    ensures Grows(sh, Store(sh, r), None)
    ensures forall id :: id != r.streamID ==> Store(sh, r).Stream(id) == sh.Stream(id)
  {
  }

  lemma StoreKeepsClaims(sh: Shared, r: AppendRequest)
    requires ClaimsOk(sh) && StreamOk(sh, r.streamID)
    ensures ClaimsOk(Store(sh, r))
  {
    var sh' := Store(sh, r);
    StoreGrows(sh, r);
    forall id | id in sh'.claims
      ensures ClaimOk(sh', id)
    {
      assert ClaimOk(sh, id);
      if ClaimedBy(sh, id).Some? && ClaimedBy(sh, id).value.streamID == r.streamID {
        var rs := sh.Stream(r.streamID);
        HintSoundAppend(rs, sh'.Stream(r.streamID)[|rs|], ClaimedBy(sh, id).value);
      }
      ClaimKept(sh, sh', None, id);
    }
    forall i | 0 <= i < |sh'.history|
      ensures HandedOver(sh', i)
    {
      assert HandedOver(sh, i);
    }
    forall q | q in sh'.issued
      ensures Claims(sh', q)
    {
      assert Claims(sh, q);
    }
  }

  lemma StoreKeepsStream(sh: Shared, r: AppendRequest)
    requires StreamOk(sh, r.streamID) && Claims(sh, r)
    requires NotStoredBelow(sh.Stream(r.streamID), |sh.Stream(r.streamID)|, r)
    ensures StreamOk(Store(sh, r), r.streamID)
  {
    var sh', n := Store(sh, r), |sh.Stream(r.streamID)|;
    var rs, rs' := sh.Stream(r.streamID), sh'.Stream(r.streamID);
    StoreGrows(sh, r);
    S.TiledAppend(rs, r.events);
    forall k | 0 <= k < |rs'|
      ensures RecordOk(sh', r.streamID, k)
    {
      if k < n {
        assert RecordOk(sh, r.streamID, k);
        RecordKept(sh, sh', None, r.streamID, k);
      }
    }
    forall j, k | 0 <= j < |rs'| && 0 <= k < |rs'|
      ensures OnePlace(rs', j, k)
    {
      if j < n && k < n {
        assert OnePlace(rs, j, k);
      }
    }
  }

  lemma StoreKeeps(sh: Shared, r: AppendRequest)
    requires SharedOk(sh) && Claims(sh, r)
    requires NotStoredBelow(sh.Stream(r.streamID), |sh.Stream(r.streamID)|, r)
    ensures SharedOk(Store(sh, r)) && Grows(sh, Store(sh, r), None)
  {
    var sh' := Store(sh, r);
    StoreGrows(sh, r);
    assert StreamOk(sh, r.streamID);
    StoreKeepsClaims(sh, r);
    forall id
      ensures StreamOk(sh', id)
    {
      assert StreamOk(sh, id);
      if id == r.streamID {
        StoreKeepsStream(sh, r);
      } else {
        StreamKept(sh, sh', None, id);
      }
    }
    ResponsesKept(sh, sh', None);
    AppendedKept(sh, sh', None);
  }

  /** A batch is stored and the request answered. */
  lemma WrittenKeeps(sh: Shared, r: AppendRequest)
    requires SharedOk(sh) && Claims(sh, r)
    requires NotStoredBelow(sh.Stream(r.streamID), |sh.Stream(r.streamID)|, r)
    ensures var rec := NextRecord(sh, r);
            var sh' := Store(sh, r).Respond(r, AppendResponse(rec.offsetBefore, rec.offsetAfter, false));
            SharedOk(sh') && Grows(sh, sh', None)
  {
    var rec, sh1 := NextRecord(sh, r), Store(sh, r);
    var res := AppendResponse(rec.offsetBefore, rec.offsetAfter, false);
    StoreKeeps(sh, r);
    RespondKeeps(sh1, r, res, |sh.Stream(r.streamID)|);
    GrowsTwice(sh, sh1, sh1.Respond(r, res));
  }

  lemma WriteIsStore(sh: Shared, w: Worker, f: Fault)
    requires WorkerOk(sh, w) && w.pc.Writing? && !f.FailBefore? && w.pos == |sh.Stream(w.streamID)|
    ensures var r := w.pc.req;
            var rec := NextRecord(sh, r);
            DoWrite(sh, w, r, f).0 ==
            if f.FailAfter? then Store(sh, r)
            else Store(sh, r).Respond(r, AppendResponse(rec.offsetBefore, rec.offsetAfter, false))
  {
    assert sh.Stream(w.streamID)[..w.pos] == sh.Stream(w.streamID);
  }

  lemma WriteShared(sh: Shared, w: Worker, f: Fault)
    requires SharedOk(sh) && WorkerOk(sh, w) && w.pc.Writing?
    ensures var sh' := DoWrite(sh, w, w.pc.req, f).0; SharedOk(sh') && Grows(sh, sh', None)
  {
    var r := w.pc.req;
    if !f.FailBefore? && w.pos == |sh.Stream(w.streamID)| {
      WriteIsStore(sh, w, f);
      assert Claims(sh, r);
      if f.FailAfter? {
        StoreKeeps(sh, r);
      } else {
        WrittenKeeps(sh, r);
      }
    }
  }

  lemma WriteKeeps(sh: Shared, w: Worker, f: Fault)
    requires SharedOk(sh) && WorkerOk(sh, w) && w.pc.Writing?
    ensures var (sh', w') := DoWrite(sh, w, w.pc.req, f);
            SharedOk(sh') && Grows(sh, sh', None) && WorkerOk(sh', w')
  {
    WriteShared(sh, w, f);
    if f.Ok? && w.pos == |sh.Stream(w.streamID)| {
      var rs' := DoWrite(sh, w, w.pc.req, f).0.Stream(w.streamID);
      assert rs'[..w.pos + 1] == rs';
    }
  }

  lemma GrowsTwice(sh: Shared, sh1: Shared, sh2: Shared)
    requires Grows(sh, sh1, None) && Grows(sh1, sh2, None)
    ensures Grows(sh, sh2, None)
  {
    forall id
      ensures sh.Stream(id) <= sh2.Stream(id)
    {
      assert sh.Stream(id) <= sh1.Stream(id) <= sh2.Stream(id);
    }
  }

  lemma WorkerStepKeeps(sh: Shared, w: Worker, a: WorkerAction)
    requires SharedOk(sh) && WorkerOk(sh, w)
    ensures var (sh', w') := WorkerStep(sh, w, a);
            SharedOk(sh') && Grows(sh, sh', None) && WorkerOk(sh', w')
  {
    match (a, w.pc)
    case (Start(id), Stopped) =>
      assert sh.Stream(id)[..|sh.Stream(id)|] == sh.Stream(id);
    case (Take(r), Ready) =>
      if r in sh.issued && r.streamID == w.streamID && r.hint >= w.off {
        TakeKeeps(sh, w, r);
      }
    case (Lookup(end), Looking(_)) =>
      LookupKeeps(sh, w, end);
    case (Write(f), Writing(_)) =>
      WriteKeeps(sh, w, f);
    case _ =>
  }

  lemma ForeignKeeps(sh: Shared, r: AppendRequest)
    requires SharedOk(sh)
    ensures SharedOk(DoForeign(sh, r)) && Grows(sh, DoForeign(sh, r), None)
  {
    if Fresh(sh, r.events) && r.hint <= S.EndOffset(sh.Stream(r.streamID)) {
      var sh1 := Mint(sh, r.events, Foreign(r));
      Minted(sh, r.events, Foreign(r));
      MintGrows(sh, r.events, Foreign(r));
      BatchesKept(sh1, DoForeign(sh, r), None);
    }
  }

  // ----- every step, every run -----

  lemma StepBySup(s: System, p: ProcID, a: SupAction)
    requires Inv(s)
    ensures Inv(Apply(s, BySup(p, a)))
  {
    var s' := Apply(s, BySup(p, a));
    SupStepKeeps(s.shared, p, s.SupOf(p), a);
    forall q
      ensures SupOk(s'.shared, q, s'.SupOf(q))
    {
      if q != p {
        assert SupOk(s.shared, q, s.SupOf(q));
        SupUndisturbed(s.shared, s'.shared, Some(p), q, s.SupOf(q));
      }
    }
    forall w
      ensures WorkerOk(s'.shared, s'.WorkerOf(w))
    {
      assert WorkerOk(s.shared, s.WorkerOf(w));
      WorkerUndisturbed(s.shared, s'.shared, Some(p), s.WorkerOf(w));
    }
  }

  lemma StepByWorker(s: System, w: ProcID, a: WorkerAction)
    requires Inv(s)
    ensures Inv(Apply(s, ByWorker(w, a)))
  {
    var s' := Apply(s, ByWorker(w, a));
    WorkerStepKeeps(s.shared, s.WorkerOf(w), a);
    OthersUndisturbed(s, s');
    forall v
      ensures WorkerOk(s'.shared, s'.WorkerOf(v))
    {
      if v != w {
        assert WorkerOk(s.shared, s.WorkerOf(v));
        WorkerUndisturbed(s.shared, s'.shared, None, s.WorkerOf(v));
      }
    }
  }

  lemma OthersUndisturbed(s: System, s': System)
    requires Inv(s) && StreamsOk(s'.shared) && Grows(s.shared, s'.shared, None) && s'.sups == s.sups
    ensures forall q :: SupOk(s'.shared, q, s'.SupOf(q))
  {
    forall q
      ensures SupOk(s'.shared, q, s'.SupOf(q))
    {
      assert SupOk(s.shared, q, s.SupOf(q));
      SupUndisturbed(s.shared, s'.shared, None, q, s.SupOf(q));
    }
  }

  lemma StepByOther(s: System, r: AppendRequest)
    requires Inv(s)
    ensures Inv(Apply(s, ByOther(r)))
  {
    var s' := Apply(s, ByOther(r));
    ForeignKeeps(s.shared, r);
    OthersUndisturbed(s, s');
    forall w
      ensures WorkerOk(s'.shared, s'.WorkerOf(w))
    {
      assert WorkerOk(s.shared, s.WorkerOf(w));
      WorkerUndisturbed(s.shared, s'.shared, None, s.WorkerOf(w));
    }
  }

  /** Every step of every process keeps the invariant. */
  lemma StepKeeps(s: System, a: Action)
    requires Inv(s)
    ensures Inv(Apply(s, a))
  {
    match a
    case BySup(p, sa) => StepBySup(s, p, sa);
    case ByWorker(w, wa) => StepByWorker(s, w, wa);
    case ByOther(r) => StepByOther(s, r);
  }

  lemma {:induction false} Always(run: seq<Action>)
    ensures Inv(After(run))
  {
    if run != [] {
      Always(run[..|run| - 1]);
      StepKeeps(After(run[..|run| - 1]), run[|run| - 1]);
    }
  }
}
