/**
 * The exactly-once protocol as a state machine. Any number of integration supervisors share one journal and one
 * set of accepted commands; any number of event-stream workers share the stream journals. Each step is one
 * persistence operation of one process, so a run is any interleaving of them.
 *
 * A step that is not enabled leaves the system as it is; hence every sequence of actions is a run.
 */
module Protocol {
  import opened Common
  import I = IntegrationJournal
  import S = StreamJournal

  // ----- what is shared -----

  /** Who may use a batch of events, which is identified by its first event. */
  datatype Claim =
    | Held(proc: ProcID)            // produced by a handler, not yet journaled
    | Journaled(pos: nat)           // recorded at this position of the handler's journal
    | Foreign(req: AppendRequest)   // produced outside this handler

  /**
   * The durable state, together with history variables: `history` also keeps the truncated records, and
   * `acked`, `issued`, `responses`, `batchOf` and `claims` record what was said and produced so far.
   */
  datatype Shared = Shared(
    history: seq<I.Record>,
    begin: nat,
    accepted: set<UUID>,
    acked: set<UUID>,
    streams: map<UUID, seq<S.Record>>,
    issued: set<AppendRequest>,
    responses: set<(AppendRequest, AppendResponse)>,
    batchOf: map<UUID, seq<Envelope>>,
    claims: map<UUID, Claim>)
  {
    function Stream(id: UUID): seq<S.Record> {
      if id in streams then streams[id] else []
    }

    function Store(id: UUID, rec: S.Record): Shared {
      this.(streams := streams[id := Stream(id) + [rec]])
    }

    function Respond(r: AppendRequest, res: AppendResponse): Shared {
      this.(responses := responses + {(r, res)})
    }
  }

  // ----- an integration supervisor -----

  /** What a supervisor returns to when a command is done. */
  datatype Rest = ToIdle | ToResume(handled: seq<I.Handled>, accepted: seq<Envelope>)
  {
    function Next(): PC {
      match this
      case ToIdle => Idle
      case ToResume(hs, cs) => Resuming(hs, cs)
    }
  }

  /** Where a supervisor is between two persistence operations, with the local variables it holds there. */
  datatype PC =
    | Down
    | Scanning
    | Resuming(handled: seq<I.Handled>, accepted: seq<Envelope>)
    | Truncating
    | Idle
    | Checking(command: Envelope)
    | Accepting(command: Envelope)
    | Adding(command: Envelope, rest: Rest)
    | Handling(command: Envelope, rest: Rest)
    | Selecting(command: Envelope, events: seq<Envelope>, rest: Rest)
    | Recording(op: I.Handled, rest: Rest)
    | Sending(op: I.Handled, own: bool, rest: Rest)
    | Waiting(op: I.Handled, own: bool, rest: Rest)
    | Marking(op: I.Handled, rest: Rest)

  /** The fields of a supervisor: `journalPos`, `eventStreamID` and `eventOffsetHint`. */
  datatype Sup = Sup(pc: PC, pos: nat, streamID: Option<UUID>, hint: nat)

  const NewSup := Sup(Down, 0, None, 0)

  datatype SupAction =
    | ReadBounds
    | ReadAll
    | Proceed
    | Truncate(fault: Fault)
    | Receive(command: Envelope)
    | CheckAccepted
    | Accept(fault: Fault)
    | AddAccepted(fault: Fault)
    | RunHandler(events: seq<Envelope>)
    | SelectStream(streamID: UUID, offset: nat)
    | RecordHandled(fault: Fault)
    | Send
    | GetResponse(res: AppendResponse)
    | MarkAppended(fault: Fault)
    | Fail                          // any failure or crash; the object and its hint survive
    | Replace                       // a new object takes over

  /** `Append` takes effect only at the end of the journal; anywhere else it is a conflict. */
  predicate Appends(sh: Shared, pos: nat, f: Fault) {
    !f.FailBefore? && pos == |sh.history|
  }

  predicate DistinctIDs(events: seq<Envelope>) {
    forall i, j :: 0 <= i < j < |events| ==> events[i].messageID != events[j].messageID
  }

  /** A handler's events carry identifiers that were never used before. */
  predicate Fresh(sh: Shared, events: seq<Envelope>) {
    && events != []
    && DistinctIDs(events)
    && forall e :: e in events ==> e.messageID !in sh.batchOf && e.messageID !in sh.claims
  }

  /** The identifiers of all events that were ever produced. */
  function Known(sh: Shared): set<UUID> {
    sh.batchOf.Keys + sh.claims.Keys
  }

  function Mint(sh: Shared, events: seq<Envelope>, claim: Claim): Shared
    requires events != []
  {
    sh.(batchOf := sh.batchOf + (map e | e in events :: e.messageID := events),
        claims := sh.claims[events[0].messageID := claim])
  }

  function DoTruncate(sh: Shared, sup: Sup, f: Fault): (Shared, Sup) {
    var sh' := if f.FailBefore? || sup.pos <= sh.begin then sh else sh.(begin := sup.pos);
    (sh', sup.(pc := if f.Ok? then Idle else Down))
  }

  function DoAccept(sh: Shared, sup: Sup, c: Envelope, f: Fault): (Shared, Sup) {
    var sh1 := if Appends(sh, sup.pos, f) then sh.(history := sh.history + [I.CommandAccepted(c)]) else sh;
    if f.Ok? && Appends(sh, sup.pos, f) then
      (sh1.(acked := sh1.acked + {c.messageID}), sup.(pos := sup.pos + 1, pc := Adding(c, ToIdle)))
    else
      (sh1, sup.(pc := Down))
  }

  function DoAddAccepted(sh: Shared, sup: Sup, c: Envelope, rest: Rest, f: Fault): (Shared, Sup) {
    var sh' := if f.FailBefore? then sh else sh.(accepted := sh.accepted + {c.messageID});
    (sh', sup.(pc := if f.Ok? then Handling(c, rest) else Down))
  }

  function DoRunHandler(
    sh: Shared, p: ProcID, sup: Sup, c: Envelope, rest: Rest, events: seq<Envelope>): (Shared, Sup)
  {
    if events == [] then
      (sh, sup.(pc := Recording(I.Handled(c.messageID, [], None, 0), rest)))
    else if !Fresh(sh, events) then
      (sh, sup)
    else
      var pc := match sup.streamID
        case None => Selecting(c, events, rest)
        case Some(_) => Recording(I.Handled(c.messageID, events, sup.streamID, sup.hint), rest);
      (Mint(sh, events, Held(p)), sup.(pc := pc))
  }

  /** The stream is chosen together with an offset that was its next offset at some earlier time. */
  function DoSelect(
    sh: Shared, sup: Sup, c: Envelope, events: seq<Envelope>, rest: Rest, id: UUID, off: nat): (Shared, Sup)
  {
    if off > S.EndOffset(sh.Stream(id)) then (sh, sup)
    else
      (sh, sup.(streamID := Some(id), hint := off, pc := Recording(I.Handled(c.messageID, events, Some(id), off), rest)))
  }

  function DoRecord(sh: Shared, sup: Sup, op: I.Handled, rest: Rest, f: Fault): (Shared, Sup) {
    var sh' :=
      if !Appends(sh, sup.pos, f) then sh
      else
        sh.(history := sh.history + [I.CommandHandled(op)],
            claims := if op.events == [] then sh.claims
                      else sh.claims[op.events[0].messageID := Journaled(|sh.history|)]);
    if f.Ok? && Appends(sh, sup.pos, f) then
      (sh', sup.(pos := sup.pos + 1, pc := if op.events == [] then rest.Next() else Sending(op, true, rest)))
    else
      (sh', sup.(pc := Down))
  }

  function DoMark(sh: Shared, sup: Sup, op: I.Handled, rest: Rest, f: Fault): (Shared, Sup) {
    var sh' :=
      if !Appends(sh, sup.pos, f) then sh
      else sh.(history := sh.history + [I.EventsAppendedToStream(op.commandID)]);
    if f.Ok? && Appends(sh, sup.pos, f) then
      (sh', sup.(pos := sup.pos + 1, pc := rest.Next()))
    else
      (sh', sup.(pc := Down))
  }

  /** What recovery turns to next: events to append come before commands to handle. */
  function Pick(hs: seq<I.Handled>, cs: seq<Envelope>): PC {
    if hs != [] then
      if hs[0].events == [] then Resuming(hs[1..], cs)
      else Sending(hs[0], false, ToResume(hs[1..], cs))
    else if cs != [] then Adding(cs[0], ToResume([], cs[1..]))
    else Truncating
  }

  function SupStep(sh: Shared, p: ProcID, sup: Sup, a: SupAction): (Shared, Sup) {
    match (a, sup.pc)
    case (Fail, _) => (sh, sup.(pc := Down))
    case (Replace, _) => (sh, NewSup)
    case (ReadBounds, Down) =>
      (sh, sup.(pos := sh.begin, pc := if sh.begin == |sh.history| then Resuming([], []) else Scanning))
    case (ReadAll, Scanning) =>
      var n := |sh.history|;
      if sup.pos > n then (sh, sup)
      else
        (sh, sup.(pos := n, pc := Resuming(I.PendingOps(sh.history, sup.pos, n), I.PendingCommands(sh.history, sup.pos, n))))
    case (Proceed, Resuming(hs, cs)) => (sh, sup.(pc := Pick(hs, cs)))
    case (Truncate(f), Truncating) => DoTruncate(sh, sup, f)
    case (Receive(c), Idle) => (sh, sup.(pc := Checking(c)))
    case (CheckAccepted, Checking(c)) =>
      if c.messageID in sh.accepted then
        (sh.(acked := sh.acked + {c.messageID}), sup.(pc := Idle))
      else
        (sh, sup.(pc := Accepting(c)))
    case (Accept(f), Accepting(c)) => DoAccept(sh, sup, c, f)
    case (AddAccepted(f), Adding(c, rest)) => DoAddAccepted(sh, sup, c, rest, f)
    case (RunHandler(events), Handling(c, rest)) => DoRunHandler(sh, p, sup, c, rest, events)
    case (SelectStream(id, off), Selecting(c, events, rest)) => DoSelect(sh, sup, c, events, rest, id, off)
    case (RecordHandled(f), Recording(op, rest)) => DoRecord(sh, sup, op, rest, f)
    case (Send, Sending(op, own, rest)) =>
      if op.streamID.None? then (sh, sup)
      else (sh.(issued := sh.issued + {op.Request()}), sup.(pc := Waiting(op, own, rest)))
    case (GetResponse(res), Waiting(op, own, rest)) =>
      if op.streamID.None? || (op.Request(), res) !in sh.responses then (sh, sup)
      else (sh, sup.(hint := if own then res.end else sup.hint, pc := Marking(op, rest)))
    case (MarkAppended(f), Marking(op, rest)) => DoMark(sh, sup, op, rest, f)
    case _ => (sh, sup)
  }

  // ----- an event-stream worker -----

  datatype WorkerPC = Stopped | Ready | Looking(req: AppendRequest) | Writing(req: AppendRequest)

  /** The fields of a worker: the cached next position of its journal and next offset of its stream. */
  datatype Worker = Worker(pc: WorkerPC, streamID: UUID, pos: nat, off: nat)

  const NewWorker := Worker(Stopped, 0, 0, 0)

  datatype WorkerAction =
    | Start(streamID: UUID)
    | Take(req: AppendRequest)
    | Lookup(end: nat)
    | Write(fault: Fault)
    | Halt

  function WorkerStep(sh: Shared, w: Worker, a: WorkerAction): (Shared, Worker) {
    match (a, w.pc)
    case (Halt, _) => (sh, w.(pc := Stopped))
    case (Start(id), Stopped) => (sh, Worker(Ready, id, |sh.Stream(id)|, S.EndOffset(sh.Stream(id))))
    case (Take(req), Ready) =>
      if req !in sh.issued || req.streamID != w.streamID then (sh, w)
      else (sh, w.(pc := if req.hint < w.off then Looking(req) else Writing(req)))
    case (Lookup(end), Looking(req)) => DoLookup(sh, w, req, end)
    case (Write(f), Writing(req)) => DoWrite(sh, w, req, f)
    case _ => (sh, w)
  }

  /** The search covers the positions below the cached one; the scan goes on to the end that it happens to see. */
  function DoLookup(sh: Shared, w: Worker, req: AppendRequest, end: nat): (Shared, Worker) {
    var rs := sh.Stream(w.streamID);
    if !(w.pos <= end <= |rs|) || req.events == [] then (sh, w)
    else
      match S.FastLookup(rs[..end], w.pos, req.hint, req.events[0].messageID)
      case None => (sh, w.(pc := Writing(req)))
      case Some(k) =>
        var res := AppendResponse(rs[k].offsetBefore, rs[k].offsetAfter, true);
        (sh.Respond(req, res), w.(pc := Ready))
  }

  function DoWrite(sh: Shared, w: Worker, req: AppendRequest, f: Fault): (Shared, Worker) {
    var after := w.off + |req.events|;
    if f.FailBefore? || w.pos != |sh.Stream(w.streamID)| then
      (sh, w.(pc := Stopped))
    else
      var sh1 := sh.Store(w.streamID, S.Record(w.off, after, req.events));
      if f.FailAfter? then
        (sh1, w.(pc := Stopped))
      else
        (sh1.Respond(req, AppendResponse(w.off, after, false)), w.(pc := Ready, pos := w.pos + 1, off := after))
  }

  // ----- everything else that appends to the streams -----

  /** Some other source asks for fresh events to be appended, with a hint that was an end offset. */
  function DoForeign(sh: Shared, req: AppendRequest): Shared {
    if !Fresh(sh, req.events) || req.hint > S.EndOffset(sh.Stream(req.streamID)) then sh
    else
      var sh1 := Mint(sh, req.events, Foreign(req));
      sh1.(issued := sh1.issued + {req})
  }

  // ----- the system -----

  datatype System = System(shared: Shared, sups: map<ProcID, Sup>, workers: map<ProcID, Worker>)
  {
    function SupOf(p: ProcID): Sup {
      if p in sups then sups[p] else NewSup
    }

    function WorkerOf(w: ProcID): Worker {
      if w in workers then workers[w] else NewWorker
    }
  }

  datatype Action =
    | BySup(p: ProcID, sup: SupAction)
    | ByWorker(w: ProcID, worker: WorkerAction)
    | ByOther(req: AppendRequest)

  const Initial := System(Shared([], 0, {}, {}, map[], {}, {}, map[], map[]), map[], map[])

  function Apply(s: System, a: Action): System {
    match a
    case BySup(p, sa) =>
      var (sh, sup) := SupStep(s.shared, p, s.SupOf(p), sa);
      System(sh, s.sups[p := sup], s.workers)
    case ByWorker(w, wa) =>
      var (sh, worker) := WorkerStep(s.shared, s.WorkerOf(w), wa);
      System(sh, s.sups, s.workers[w := worker])
    case ByOther(req) =>
      s.(shared := DoForeign(s.shared, req))
  }

  /** The system after a run. Every reachable state is `After(run)` for some `run`. */
  function After(run: seq<Action>): System {
    Fold(Apply, Initial, run)
  }

  lemma AfterSnoc(run: seq<Action>, a: Action)
    ensures After(run + [a]) == Apply(After(run), a)
  {
    assert (run + [a])[..|run|] == run;
  }
}
