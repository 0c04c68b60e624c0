/** The write-ahead journal of one integration handler: its grammar, and the scan that finds pending work. */
module IntegrationJournal {
  import opened Common

  /** The outcome of a successful call of the handler. A command without events has no stream. */
  datatype Handled = Handled(commandID: UUID, events: seq<Envelope>, streamID: Option<UUID>, hint: nat)
  {
    function Request(): AppendRequest
      requires streamID.Some?
    {
      AppendRequest(streamID.value, events, hint)
    }
  }

  datatype Record =
    | CommandAccepted(command: Envelope)
    | CommandHandled(op: Handled)
    | EventsAppendedToStream(commandID: UUID)

  // ----- the grammar of a journal -----

  /** What the records so far still call for. */
  datatype Phase =
    | Settled
    | AwaitingHandle(command: Envelope)
    | AwaitingAppend(command: Envelope, op: Handled)
    | Malformed

  function After(ph: Phase, r: Record): Phase {
    match (ph, r)
    case (Settled, CommandAccepted(c)) => AwaitingHandle(c)
    case (AwaitingHandle(c), CommandHandled(op)) =>
      if op.commandID != c.messageID then Malformed
      else if op.events == [] then Settled
      else AwaitingAppend(c, op)
    case (AwaitingAppend(c, op), EventsAppendedToStream(id)) =>
      if id == op.commandID then Settled else Malformed
    case _ => Malformed
  }

  /** The phase after the first `n` records. */
  function PhaseAt(h: seq<Record>, n: nat): Phase
    requires n <= |h|
  {
    if n == 0 then Settled else After(PhaseAt(h, n - 1), h[n - 1])
  }

  function PhaseOf(h: seq<Record>): Phase {
    PhaseAt(h, |h|)
  }

  /** The records of one command that was seen through to the end. */
  datatype Block = Block(command: Envelope, op: Handled)
  {
    predicate Valid() {
      op.commandID == command.messageID
    }

    function Records(): seq<Record> {
      if op.events == [] then [CommandAccepted(command), CommandHandled(op)]
      else [CommandAccepted(command), CommandHandled(op), EventsAppendedToStream(command.messageID)]
    }
  }

  function Unparse(blocks: seq<Block>): seq<Record> {
    if blocks == [] then [] else Unparse(blocks[..|blocks| - 1]) + blocks[|blocks| - 1].Records()
  }

  predicate ValidTail(ph: Phase) {
    match ph
    case Settled => true
    case AwaitingHandle(_) => true
    case AwaitingAppend(c, op) => op.commandID == c.messageID && op.events != []
    case Malformed => false
  }

  /** The records of the one command that is still in progress. */
  function Tail(ph: Phase): seq<Record>
    requires ValidTail(ph)
  {
    match ph
    case Settled => []
    case AwaitingHandle(c) => [CommandAccepted(c)]
    case AwaitingAppend(c, op) => [CommandAccepted(c), CommandHandled(op)]
  }

  /** The phase at a position does not depend on what is appended later. */
  lemma {:induction false} PhaseStable(h: seq<Record>, h': seq<Record>, n: nat)
    requires h <= h' && n <= |h|
    ensures PhaseAt(h, n) == PhaseAt(h', n)
  {
    if n != 0 {
      PhaseStable(h, h', n - 1);
    }
  }

  lemma PhaseSnoc(h: seq<Record>, r: Record)
    ensures PhaseOf(h + [r]) == After(PhaseOf(h), r)
  {
    PhaseStable(h, h + [r], |h|);
  }

  lemma PhaseAppend(h: seq<Record>, r: Record)
    ensures PhaseOf(h + [r]) == After(PhaseOf(h), r)
    ensures forall n :: 0 <= n <= |h| ==> PhaseAt(h + [r], n) == PhaseAt(h, n)
  {
    PhaseSnoc(h, r);
    forall n | 0 <= n <= |h|
      ensures PhaseAt(h + [r], n) == PhaseAt(h, n)
    {
      PhaseStable(h, h + [r], n);
    }
  }

  lemma PhaseOfTail(h: seq<Record>, ph: Phase)
    requires PhaseOf(h) == Settled && ValidTail(ph)
    ensures PhaseOf(h + Tail(ph)) == ph
  {
    match ph
    case Settled =>
      assert h + Tail(ph) == h;
    case AwaitingHandle(c) =>
      PhaseSnoc(h, CommandAccepted(c));
    case AwaitingAppend(c, op) =>
      PhaseSnoc(h, CommandAccepted(c));
      PhaseSnoc(h + [CommandAccepted(c)], CommandHandled(op));
      assert h + Tail(ph) == h + [CommandAccepted(c)] + [CommandHandled(op)];
  }

  lemma PhaseOfBlock(h: seq<Record>, b: Block)
    requires PhaseOf(h) == Settled && b.Valid()
    ensures PhaseOf(h + b.Records()) == Settled
  {
    var h1 := h + [CommandAccepted(b.command)];
    PhaseSnoc(h, CommandAccepted(b.command));
    var h2 := h1 + [CommandHandled(b.op)];
    PhaseSnoc(h1, CommandHandled(b.op));
    if b.op.events == [] {
      assert h + b.Records() == h2;
    } else {
      PhaseSnoc(h2, EventsAppendedToStream(b.command.messageID));
      assert h + b.Records() == h2 + [EventsAppendedToStream(b.command.messageID)];
    }
  }

  lemma {:induction false} PhaseOfBlocks(blocks: seq<Block>)
    requires forall b :: b in blocks ==> b.Valid()
    ensures PhaseOf(Unparse(blocks)) == Settled
  {
    if blocks != [] {
      var n := |blocks| - 1;
      var h, b := Unparse(blocks[..n]), blocks[n];
      PhaseOfBlocks(blocks[..n]);
      assert b in blocks;
      PhaseOfBlock(h, b);
    }
  }

  lemma UnparseSnoc(blocks: seq<Block>, b: Block)
    ensures Unparse(blocks + [b]) == Unparse(blocks) + b.Records()
  {
    assert (blocks + [b])[..|blocks|] == blocks;
  }

  ghost predicate IsBlocks(h: seq<Record>, blocks: seq<Block>, tail: Phase) {
    && (forall b :: b in blocks ==> b.Valid())
    && ValidTail(tail)
    && h == Unparse(blocks) + Tail(tail)
  }

  /** One more record either extends the block in progress or completes it. */
  lemma ParseStep(h: seq<Record>, blocks: seq<Block>, ph: Phase, r: Record) returns (blocks': seq<Block>)
    requires IsBlocks(h, blocks, ph) && After(ph, r) != Malformed
    ensures IsBlocks(h + [r], blocks', After(ph, r))
  {
    blocks' := blocks;
    if ph.AwaitingHandle? {
      var b := Block(ph.command, r.op);
      if r.op.events == [] {
        UnparseSnoc(blocks, b);
        blocks' := blocks + [b];
        assert Tail(ph) + [r] == b.Records();
      } else {
        assert Tail(ph) + [r] == Tail(After(ph, r));
      }
      assert Unparse(blocks) + Tail(ph) + [r] == Unparse(blocks) + (Tail(ph) + [r]);
    } else if ph.AwaitingAppend? {
      var b := Block(ph.command, ph.op);
      UnparseSnoc(blocks, b);
      blocks' := blocks + [b];
      assert Tail(ph) + [r] == b.Records();
      assert Unparse(blocks) + Tail(ph) + [r] == Unparse(blocks) + (Tail(ph) + [r]);
    }
  }

  /** Reads a well-formed journal back as the commands that were seen through. */
  lemma {:induction false} ParseBlocks(h: seq<Record>, n: nat) returns (blocks: seq<Block>)
    requires n <= |h| && PhaseAt(h, n) != Malformed
    ensures IsBlocks(h[..n], blocks, PhaseAt(h, n))
  {
    if n == 0 {
      blocks := [];
    } else {
      var blocks0 := ParseBlocks(h, n - 1);
      blocks := ParseStep(h[..n - 1], blocks0, PhaseAt(h, n - 1), h[n - 1]);
      assert h[..n] == h[..n - 1] + [h[n - 1]];
    }
  }

  /** A journal is well formed exactly when it is whole blocks followed by at most one block in progress. */
  lemma WellFormedIffBlocks(h: seq<Record>)
    ensures PhaseOf(h) != Malformed <==> exists blocks, tail :: IsBlocks(h, blocks, tail)
  {
    if PhaseOf(h) != Malformed {
      var blocks := ParseBlocks(h, |h|);
      assert h[..|h|] == h;
      assert IsBlocks(h, blocks, PhaseOf(h));
    }
    forall blocks, tail | IsBlocks(h, blocks, tail)
      ensures PhaseOf(h) == tail
    {
      PhaseOfBlocks(blocks);
      PhaseOfTail(Unparse(blocks), tail);
    }
  }

  lemma {:induction false} PrefixWellFormed(h: seq<Record>, n: nat)
    requires PhaseOf(h) != Malformed && n <= |h|
    ensures PhaseAt(h, n) != Malformed
    decreases |h| - n
  {
    if n < |h| {
      PrefixWellFormed(h, n + 1);
    }
  }

  lemma ValidPhase(h: seq<Record>, n: nat)
    requires n <= |h| && PhaseAt(h, n) != Malformed
    ensures ValidTail(PhaseAt(h, n))
  {
    var _ := ParseBlocks(h, n);
  }

  /** What precedes each record of a well-formed journal. */
  lemma Neighbours(h: seq<Record>, i: nat)
    requires PhaseOf(h) != Malformed && i < |h|
    ensures h[i].CommandAccepted? ==> PhaseAt(h, i) == Settled
    ensures h[i].CommandHandled? ==>
              && 1 <= i && h[i - 1].CommandAccepted? && h[i - 1].command.messageID == h[i].op.commandID
              && PhaseAt(h, i) == AwaitingHandle(h[i - 1].command)
    ensures h[i].EventsAppendedToStream? ==>
              && 2 <= i && h[i - 1].CommandHandled? && h[i - 1].op.commandID == h[i].commandID
              && h[i - 1].op.events != []
              && PhaseAt(h, i).AwaitingAppend? && PhaseAt(h, i).op == h[i - 1].op
  {
    PrefixWellFormed(h, i + 1);
    if 1 <= i {
      PrefixWellFormed(h, i);
      if 2 <= i {
        PrefixWellFormed(h, i - 1);
      }
    }
  }

  /** A handled command with events is followed by nothing but its own append record. */
  lemma AppendFollows(h: seq<Record>, i: nat)
    requires PhaseOf(h) != Malformed && i < |h| && h[i].CommandHandled? && h[i].op.events != []
    ensures PhaseAt(h, i + 1).AwaitingAppend? && PhaseAt(h, i + 1).op == h[i].op
    ensures i + 1 < |h| ==> h[i + 1] == EventsAppendedToStream(h[i].op.commandID)
  {
    Neighbours(h, i);
    if i + 1 < |h| {
      Neighbours(h, i + 1);
      PrefixWellFormed(h, i + 2);
    }
  }

  /** What the last of the first `n` records is, when they call for something. */
  lemma LastRecordOf(h: seq<Record>, n: nat)
    requires n <= |h| && PhaseAt(h, n) != Malformed
    ensures PhaseAt(h, n).AwaitingHandle? ==> 0 < n && h[n - 1] == CommandAccepted(PhaseAt(h, n).command)
    ensures PhaseAt(h, n).AwaitingAppend? ==>
              0 < n && h[n - 1] == CommandHandled(PhaseAt(h, n).op) && PhaseAt(h, n).op.events != []
  {
  }

  /** Before a settled position every acceptance is followed by the record that the command was handled. */
  lemma HandledNext(h: seq<Record>, n: nat, i: nat)
    requires PhaseOf(h) != Malformed && i < n <= |h| && PhaseAt(h, n) == Settled && h[i].CommandAccepted?
    ensures i + 1 < n && h[i + 1].CommandHandled? && h[i + 1].op.commandID == h[i].command.messageID
  {
    Neighbours(h, i);
    assert PhaseAt(h, i + 1) == AwaitingHandle(h[i].command);
    PrefixWellFormed(h, i + 2);
  }

  // ----- each command once -----

  ghost predicate AcceptedOnce(rs: seq<Record>) {
    forall i, j :: 0 <= i < j < |rs| && rs[i].CommandAccepted? && rs[j].CommandAccepted? ==>
      rs[i].command.messageID != rs[j].command.messageID
  }

  ghost predicate HandledOnce(rs: seq<Record>) {
    forall i, j :: 0 <= i < j < |rs| && rs[i].CommandHandled? && rs[j].CommandHandled? ==>
      rs[i].op.commandID != rs[j].op.commandID
  }

  /** No command is handled before it is accepted, and no events are marked appended before they are handled. */
  ghost predicate InOrder(rs: seq<Record>) {
    && (forall i, j :: 0 <= i < j < |rs| && rs[i].CommandHandled? && rs[j].CommandAccepted? ==>
          rs[i].op.commandID != rs[j].command.messageID)
    && (forall i, j :: 0 <= i < j < |rs| && rs[i].EventsAppendedToStream? && rs[j].CommandHandled? ==>
          rs[i].commandID != rs[j].op.commandID)
  }

  ghost predicate Scannable(rs: seq<Record>) {
    AcceptedOnce(rs) && HandledOnce(rs) && InOrder(rs)
  }

  /** In a well-formed journal it is enough that commands are accepted once. */
  lemma WellFormedIsScannable(h: seq<Record>)
    requires PhaseOf(h) != Malformed && AcceptedOnce(h)
    ensures Scannable(h)
  {
    forall i, j | 0 <= i < j < |h| && h[i].CommandHandled? && h[j].CommandHandled?
      ensures h[i].op.commandID != h[j].op.commandID
    {
      Neighbours(h, i);
      Neighbours(h, j);
    }
    forall i, j | 0 <= i < j < |h| && h[i].CommandHandled? && h[j].CommandAccepted?
      ensures h[i].op.commandID != h[j].command.messageID
    {
      Neighbours(h, i);
    }
    forall i, j | 0 <= i < j < |h| && h[i].EventsAppendedToStream? && h[j].CommandHandled?
      ensures h[i].commandID != h[j].op.commandID
    {
      Neighbours(h, i);
      Neighbours(h, i - 1);
      Neighbours(h, j);
    }
  }

  // ----- pending work -----

  function CommandKey(c: Envelope): UUID {
    c.messageID
  }

  function OpKey(op: Handled): UUID {
    op.commandID
  }

  /** The elements of `xs`, in order, whose key is not in `done`. */
  function Without<T>(xs: seq<T>, key: T -> UUID, done: set<UUID>): seq<T> {
    WithoutUpTo(xs, key, done, |xs|)
  }

  function WithoutUpTo<T>(xs: seq<T>, key: T -> UUID, done: set<UUID>, n: nat): seq<T>
    requires n <= |xs|
  {
    if n == 0 then []
    else
      var rest := WithoutUpTo(xs, key, done, n - 1);
      if key(xs[n - 1]) in done then rest else rest + [xs[n - 1]]
  }

  /** The commands accepted in records `b` up to `n`. */
  function Commands(h: seq<Record>, b: nat, n: nat): seq<Envelope>
    requires b <= n <= |h|
  {
    if b == n then []
    else
      var rest := Commands(h, b, n - 1);
      if h[n - 1].CommandAccepted? then rest + [h[n - 1].command] else rest
  }

  function Ops(h: seq<Record>, b: nat, n: nat): seq<Handled>
    requires b <= n <= |h|
  {
    if b == n then []
    else
      var rest := Ops(h, b, n - 1);
      if h[n - 1].CommandHandled? then rest + [h[n - 1].op] else rest
  }

  function HandledIDs(h: seq<Record>, b: nat, n: nat): set<UUID>
    requires b <= n <= |h|
  {
    if b == n then {}
    else
      var rest := HandledIDs(h, b, n - 1);
      if h[n - 1].CommandHandled? then rest + {h[n - 1].op.commandID} else rest
  }

  function AppendedIDs(h: seq<Record>, b: nat, n: nat): set<UUID>
    requires b <= n <= |h|
  {
    if b == n then {}
    else
      var rest := AppendedIDs(h, b, n - 1);
      if h[n - 1].EventsAppendedToStream? then rest + {h[n - 1].commandID} else rest
  }

  /** The commands that were accepted but never handled, in journal order. */
  function PendingCommands(h: seq<Record>, b: nat, n: nat): seq<Envelope>
    requires b <= n <= |h|
  {
    Without(Commands(h, b, n), CommandKey, HandledIDs(h, b, n))
  }

  /** The handled operations that were never marked appended, in journal order. */
  function PendingOps(h: seq<Record>, b: nat, n: nat): seq<Handled>
    requires b <= n <= |h|
  {
    Without(Ops(h, b, n), OpKey, AppendedIDs(h, b, n))
  }

  /** The operations that have events to append. */
  function WithEvents(ops: seq<Handled>): seq<Handled> {
    WithEventsUpTo(ops, |ops|)
  }

  function WithEventsUpTo(ops: seq<Handled>, n: nat): seq<Handled>
    requires n <= |ops|
  {
    if n == 0 then []
    else
      var rest := WithEventsUpTo(ops, n - 1);
      if ops[n - 1].events == [] then rest else rest + [ops[n - 1]]
  }

  ghost predicate Distinct<T>(xs: seq<T>, key: T -> UUID) {
    forall i, j :: 0 <= i < j < |xs| ==> key(xs[i]) != key(xs[j])
  }

  lemma {:induction false} WithoutMember<T>(xs: seq<T>, key: T -> UUID, done: set<UUID>, n: nat, x: T)
    requires n <= |xs|
    ensures x in WithoutUpTo(xs, key, done, n) <==> x in xs[..n] && key(x) !in done
  {
    if n != 0 {
      WithoutMember(xs, key, done, n - 1, x);
      assert xs[..n] == xs[..n - 1] + [xs[n - 1]];
    }
  }

  lemma {:induction false} WithoutDistinct<T>(xs: seq<T>, key: T -> UUID, done: set<UUID>, n: nat)
    requires Distinct(xs, key) && n <= |xs|
    ensures Distinct(WithoutUpTo(xs, key, done, n), key)
  {
    if n != 0 {
      WithoutDistinct(xs, key, done, n - 1);
      var ys := WithoutUpTo(xs, key, done, n - 1);
      forall i | 0 <= i < |ys|
        ensures key(ys[i]) != key(xs[n - 1])
      {
        WithoutMember(xs, key, done, n - 1, ys[i]);
        var k :| 0 <= k < n - 1 && xs[k] == ys[i];
      }
    }
  }

  /** Filtering a prefix does not depend on what comes after it. */
  lemma {:induction false} WithoutStable<T>(xs: seq<T>, xs': seq<T>, key: T -> UUID, done: set<UUID>, n: nat)
    requires n <= |xs| && n <= |xs'| && forall k :: 0 <= k < n ==> xs[k] == xs'[k]
    ensures WithoutUpTo(xs, key, done, n) == WithoutUpTo(xs', key, done, n)
  {
    if n != 0 {
      WithoutStable(xs, xs', key, done, n - 1);
    }
  }

  lemma WithoutSnoc<T>(xs: seq<T>, key: T -> UUID, done: set<UUID>, x: T)
    ensures Without(xs + [x], key, done) ==
            if key(x) in done then Without(xs, key, done) else Without(xs, key, done) + [x]
  {
    WithoutStable(xs, xs + [x], key, done, |xs|);
  }

  lemma {:induction false} WithoutWithout<T>(xs: seq<T>, key: T -> UUID, a: set<UUID>, b: set<UUID>, n: nat)
    requires n <= |xs|
    ensures Without(WithoutUpTo(xs, key, a, n), key, b) == WithoutUpTo(xs, key, a + b, n)
  {
    if n != 0 {
      WithoutWithout(xs, key, a, b, n - 1);
      WithoutSnoc(WithoutUpTo(xs, key, a, n - 1), key, b, xs[n - 1]);
    }
  }

  lemma {:induction false} WithoutAbsent<T>(xs: seq<T>, key: T -> UUID, done: set<UUID>, n: nat)
    requires n <= |xs| && forall k :: 0 <= k < n ==> key(xs[k]) !in done
    ensures WithoutUpTo(xs, key, done, n) == xs[..n]
  {
    if n != 0 {
      WithoutAbsent(xs, key, done, n - 1);
    }
  }

  lemma {:induction false} WithoutOnly<T>(xs: seq<T>, key: T -> UUID, i: nat, n: nat)
    requires Distinct(xs, key) && i < n <= |xs|
    ensures WithoutUpTo(xs, key, {key(xs[i])}, n) == xs[..i] + xs[i + 1..n]
  {
    if i == n - 1 {
      WithoutAbsent(xs, key, {key(xs[i])}, i);
    } else {
      WithoutOnly(xs, key, i, n - 1);
    }
  }

  /** Element `i` is the first with the given key; if there is none, `i` is the length. */
  ghost predicate First<T>(xs: seq<T>, key: T -> UUID, id: UUID, i: nat) {
    && i <= |xs|
    && (forall k :: 0 <= k < i ==> key(xs[k]) != id)
    && (i < |xs| ==> key(xs[i]) == id)
  }

  /** Deletes the first element with the given key while ranging over the list. If keys are distinct none is left. */
  method DeleteFirst<T>(xs: seq<T>, key: T -> UUID, id: UUID) returns (ys: seq<T>)
    ensures exists i: nat :: First(xs, key, id, i) && ys == if i < |xs| then xs[..i] + xs[i + 1..] else xs
    ensures Distinct(xs, key) ==> ys == Without(xs, key, {id})
  {
    for i := 0 to |xs|
      invariant forall k :: 0 <= k < i ==> key(xs[k]) != id
    {
      if key(xs[i]) == id {
        if Distinct(xs, key) {
          WithoutOnly(xs, key, i, |xs|);
        }
        assert First(xs, key, id, i);
        return xs[..i] + xs[i + 1..];
      }
    }
    WithoutAbsent(xs, key, {id}, |xs|);
    assert First(xs, key, id, |xs|);
    return xs;
  }

  lemma {:induction false} CommandsMember(h: seq<Record>, b: nat, n: nat, c: Envelope)
    requires b <= n <= |h|
    ensures c in Commands(h, b, n) <==> CommandAccepted(c) in h[b..n]
  {
    if b < n {
      CommandsMember(h, b, n - 1, c);
      assert h[b..n] == h[b..n - 1] + [h[n - 1]];
    }
  }

  lemma {:induction false} OpsMember(h: seq<Record>, b: nat, n: nat, op: Handled)
    requires b <= n <= |h|
    ensures op in Ops(h, b, n) <==> CommandHandled(op) in h[b..n]
  {
    if b < n {
      OpsMember(h, b, n - 1, op);
      assert h[b..n] == h[b..n - 1] + [h[n - 1]];
    }
  }

  lemma {:induction false} HandledIDsMember(h: seq<Record>, b: nat, n: nat, id: UUID)
    requires b <= n <= |h|
    ensures id in HandledIDs(h, b, n) <==>
            exists k :: b <= k < n && h[k].CommandHandled? && h[k].op.commandID == id
  {
    if b < n {
      HandledIDsMember(h, b, n - 1, id);
    }
  }

  lemma {:induction false} AppendedIDsMember(h: seq<Record>, b: nat, n: nat, id: UUID)
    requires b <= n <= |h|
    ensures id in AppendedIDs(h, b, n) <==>
            exists k :: b <= k < n && h[k].EventsAppendedToStream? && h[k].commandID == id
  {
    if b < n {
      AppendedIDsMember(h, b, n - 1, id);
    }
  }

  lemma {:induction false} CommandsDistinct(h: seq<Record>, b: nat, n: nat)
    requires b <= n <= |h| && AcceptedOnce(h)
    ensures Distinct(Commands(h, b, n), CommandKey)
  {
    if b < n {
      CommandsDistinct(h, b, n - 1);
      var cs := Commands(h, b, n - 1);
      if h[n - 1].CommandAccepted? {
        forall i | 0 <= i < |cs|
          ensures cs[i].messageID != h[n - 1].command.messageID
        {
          CommandsMember(h, b, n - 1, cs[i]);
          var k :| b <= k < n - 1 && h[k] == CommandAccepted(cs[i]);
        }
      }
    }
  }

  lemma {:induction false} OpsDistinct(h: seq<Record>, b: nat, n: nat)
    requires b <= n <= |h| && HandledOnce(h)
    ensures Distinct(Ops(h, b, n), OpKey)
  {
    if b < n {
      OpsDistinct(h, b, n - 1);
      var ops := Ops(h, b, n - 1);
      if h[n - 1].CommandHandled? {
        forall i | 0 <= i < |ops|
          ensures ops[i].commandID != h[n - 1].op.commandID
        {
          OpsMember(h, b, n - 1, ops[i]);
          var k :| b <= k < n - 1 && h[k] == CommandHandled(ops[i]);
        }
      }
    }
  }

  /** A command is pending exactly when it was accepted and nothing answers it. */
  lemma PendingCommandsMeaning(h: seq<Record>, b: nat, n: nat, c: Envelope)
    requires b <= n <= |h|
    ensures c in PendingCommands(h, b, n) <==>
            && CommandAccepted(c) in h[b..n]
            && !exists k :: b <= k < n && h[k].CommandHandled? && h[k].op.commandID == c.messageID
  {
    CommandsMember(h, b, n, c);
    WithoutMember(Commands(h, b, n), CommandKey, HandledIDs(h, b, n), |Commands(h, b, n)|, c);
    HandledIDsMember(h, b, n, c.messageID);
  }

  /** An operation is pending exactly when it was recorded and no append record answers it. */
  lemma PendingOpsMeaning(h: seq<Record>, b: nat, n: nat, op: Handled)
    requires b <= n <= |h|
    ensures op in PendingOps(h, b, n) <==>
            && CommandHandled(op) in h[b..n]
            && !exists k :: b <= k < n && h[k].EventsAppendedToStream? && h[k].commandID == op.commandID
  {
    OpsMember(h, b, n, op);
    WithoutMember(Ops(h, b, n), OpKey, AppendedIDs(h, b, n), |Ops(h, b, n)|, op);
    AppendedIDsMember(h, b, n, op.commandID);
  }

  lemma {:induction false} WithoutInOrder<T>(xs: seq<T>, key: T -> UUID, done: set<UUID>, n: nat, i: nat, j: nat)
    returns (p: nat, q: nat)
    requires n <= |xs| && i < j < |WithoutUpTo(xs, key, done, n)|
    ensures p < q < n
    ensures xs[p] == WithoutUpTo(xs, key, done, n)[i] && xs[q] == WithoutUpTo(xs, key, done, n)[j]
  {
    var rest := WithoutUpTo(xs, key, done, n - 1);
    if j < |rest| {
      p, q := WithoutInOrder(xs, key, done, n - 1, i, j);
    } else {
      WithoutMember(xs, key, done, n - 1, rest[i]);
      p :| 0 <= p < n - 1 && xs[p] == rest[i];
      q := n - 1;
    }
  }

  lemma {:induction false} CommandsInOrder(h: seq<Record>, b: nat, n: nat, i: nat, j: nat) returns (p: nat, q: nat)
    requires b <= n <= |h| && i < j < |Commands(h, b, n)|
    ensures b <= p < q < n
    ensures h[p] == CommandAccepted(Commands(h, b, n)[i]) && h[q] == CommandAccepted(Commands(h, b, n)[j])
  {
    var rest := Commands(h, b, n - 1);
    if j < |rest| {
      p, q := CommandsInOrder(h, b, n - 1, i, j);
    } else {
      CommandsMember(h, b, n - 1, rest[i]);
      p :| b <= p < n - 1 && h[p] == CommandAccepted(rest[i]);
      q := n - 1;
    }
  }

  lemma {:induction false} OpsInOrder(h: seq<Record>, b: nat, n: nat, i: nat, j: nat) returns (p: nat, q: nat)
    requires b <= n <= |h| && i < j < |Ops(h, b, n)|
    ensures b <= p < q < n
    ensures h[p] == CommandHandled(Ops(h, b, n)[i]) && h[q] == CommandHandled(Ops(h, b, n)[j])
  {
    var rest := Ops(h, b, n - 1);
    if j < |rest| {
      p, q := OpsInOrder(h, b, n - 1, i, j);
    } else {
      OpsMember(h, b, n - 1, rest[i]);
      p :| b <= p < n - 1 && h[p] == CommandHandled(rest[i]);
      q := n - 1;
    }
  }

  /** The pending commands come in the order in which the journal accepted them. */
  lemma PendingCommandsInOrder(h: seq<Record>, b: nat, n: nat, i: nat, j: nat) returns (p: nat, q: nat)
    requires b <= n <= |h| && i < j < |PendingCommands(h, b, n)|
    ensures b <= p < q < n
    ensures h[p] == CommandAccepted(PendingCommands(h, b, n)[i]) && h[q] == CommandAccepted(PendingCommands(h, b, n)[j])
  {
    var cs := Commands(h, b, n);
    var k, l := WithoutInOrder(cs, CommandKey, HandledIDs(h, b, n), |cs|, i, j);
    p, q := CommandsInOrder(h, b, n, k, l);
  }

  /** The pending operations come in the order in which the journal recorded them. */
  lemma PendingOpsInOrder(h: seq<Record>, b: nat, n: nat, i: nat, j: nat) returns (p: nat, q: nat)
    requires b <= n <= |h| && i < j < |PendingOps(h, b, n)|
    ensures b <= p < q < n
    ensures h[p] == CommandHandled(PendingOps(h, b, n)[i]) && h[q] == CommandHandled(PendingOps(h, b, n)[j])
  {
    var ops := Ops(h, b, n);
    var k, l := WithoutInOrder(ops, OpKey, AppendedIDs(h, b, n), |ops|, i, j);
    p, q := OpsInOrder(h, b, n, k, l);
  }

  // ----- the recovery scan -----

  /** How the scan edits its two lists when a record goes by. */
  function ScanStep(accepted: seq<Envelope>, handled: seq<Handled>, r: Record): (seq<Envelope>, seq<Handled>) {
    match r
    case CommandAccepted(c) => (accepted + [c], handled)
    case CommandHandled(op) => (Without(accepted, CommandKey, {op.commandID}), handled + [op])
    case EventsAppendedToStream(id) => (accepted, Without(handled, OpKey, {id}))
  }

  /** Record `n` does not accept a handled command, nor handle one whose events are marked appended. */
  ghost predicate MayFollow(h: seq<Record>, b: nat, n: nat)
    requires b <= n < |h|
  {
    && (h[n].CommandAccepted? ==> h[n].command.messageID !in HandledIDs(h, b, n))
    && (h[n].CommandHandled? ==> h[n].op.commandID !in AppendedIDs(h, b, n))
  }

  lemma ScannableMayFollow(h: seq<Record>, b: nat, n: nat)
    requires Scannable(h) && b <= n < |h|
    ensures MayFollow(h, b, n)
  {
    if h[n].CommandAccepted? {
      HandledIDsMember(h, b, n, h[n].command.messageID);
    }
    if h[n].CommandHandled? {
      AppendedIDsMember(h, b, n, h[n].op.commandID);
    }
  }

  /** One more record changes the pending work by one edit of the scan. */
  lemma PendingSnoc(h: seq<Record>, b: nat, n: nat)
    requires b <= n < |h| && MayFollow(h, b, n)
    ensures (PendingCommands(h, b, n + 1), PendingOps(h, b, n + 1)) ==
            ScanStep(PendingCommands(h, b, n), PendingOps(h, b, n), h[n])
  {
    match h[n]
    case CommandAccepted(c) =>
      WithoutSnoc(Commands(h, b, n), CommandKey, HandledIDs(h, b, n), c);
    case CommandHandled(op) =>
      WithoutWithout(Commands(h, b, n), CommandKey, HandledIDs(h, b, n), {op.commandID}, |Commands(h, b, n)|);
      WithoutSnoc(Ops(h, b, n), OpKey, AppendedIDs(h, b, n), op);
    case EventsAppendedToStream(id) =>
      WithoutWithout(Ops(h, b, n), OpKey, AppendedIDs(h, b, n), {id}, |Ops(h, b, n)|);
  }

  lemma PendingDistinct(h: seq<Record>, b: nat, n: nat)
    requires Scannable(h) && b <= n <= |h|
    ensures Distinct(PendingCommands(h, b, n), CommandKey) && Distinct(PendingOps(h, b, n), OpKey)
  {
    CommandsDistinct(h, b, n);
    OpsDistinct(h, b, n);
    WithoutDistinct(Commands(h, b, n), CommandKey, HandledIDs(h, b, n), |Commands(h, b, n)|);
    WithoutDistinct(Ops(h, b, n), OpKey, AppendedIDs(h, b, n), |Ops(h, b, n)|);
  }

  lemma ScanDistinct(h: seq<Record>, b: nat, n: nat)
    requires Scannable(h) && b <= n < |h|
    ensures (PendingCommands(h, b, n + 1), PendingOps(h, b, n + 1)) ==
            ScanStep(PendingCommands(h, b, n), PendingOps(h, b, n), h[n])
    ensures Distinct(PendingCommands(h, b, n), CommandKey) && Distinct(PendingOps(h, b, n), OpKey)
  {
    ScannableMayFollow(h, b, n);
    PendingSnoc(h, b, n);
    PendingDistinct(h, b, n);
  }

  /**
   * The scan that recovery makes of the journal. The two lists are edited in place as records go by. At the end
   * `pos` is the end of the journal, and for a journal such as the protocol writes the lists are exactly the
   * pending work.
   */
  method RecoveryScan(begin: nat, rs: seq<Record>)
    returns (pos: nat, accepted: seq<Envelope>, handled: seq<Handled>)
    ensures pos == begin + |rs|
    ensures Scannable(rs) ==> accepted == PendingCommands(rs, 0, |rs|)
    ensures Scannable(rs) ==> handled == PendingOps(rs, 0, |rs|)
  {
    pos, accepted, handled := begin, [], [];
    for n := 0 to |rs|
      invariant pos == begin + n
      invariant Scannable(rs) ==> accepted == PendingCommands(rs, 0, n)
      invariant Scannable(rs) ==> handled == PendingOps(rs, 0, n)
    {
      pos := pos + 1;
      if Scannable(rs) {
        ScanDistinct(rs, 0, n);
      }
      match rs[n]
      case CommandAccepted(c) =>
        accepted := accepted + [c];
      case CommandHandled(op) =>
        accepted := DeleteFirst(accepted, CommandKey, op.commandID);
        handled := handled + [op];
      case EventsAppendedToStream(id) =>
        handled := DeleteFirst(handled, OpKey, id);
    }
  }

  /** Scanning the live records alone is scanning that part of the whole history. */
  lemma {:induction false} PendingOfSuffix(h: seq<Record>, b: nat, n: nat)
    requires b <= n <= |h|
    ensures Commands(h[b..], 0, n - b) == Commands(h, b, n)
    ensures Ops(h[b..], 0, n - b) == Ops(h, b, n)
    ensures HandledIDs(h[b..], 0, n - b) == HandledIDs(h, b, n)
    ensures AppendedIDs(h[b..], 0, n - b) == AppendedIDs(h, b, n)
  {
    if b < n {
      PendingOfSuffix(h, b, n - 1);
    }
  }

  lemma ScannableSuffix(h: seq<Record>, b: nat)
    requires Scannable(h) && b <= |h|
    ensures Scannable(h[b..])
  {
  }

  // ----- what a journal accepts, in order -----

  lemma {:induction false} CommandsStable(h: seq<Record>, h': seq<Record>, b: nat, n: nat)
    requires h <= h' && b <= n <= |h|
    ensures Commands(h, b, n) == Commands(h', b, n)
  {
    if b < n {
      CommandsStable(h, h', b, n - 1);
    }
  }

  lemma {:induction false} CommandsSplit(h: seq<Record>, b: nat, m: nat, n: nat)
    requires b <= m <= n <= |h|
    ensures Commands(h, b, n) == Commands(h, b, m) + Commands(h, m, n)
  {
    if m < n {
      CommandsSplit(h, b, m, n - 1);
    }
  }

  /** The commands accepted in a journal that has grown: the earlier ones, then those accepted since. */
  lemma CommandsGrow(a: seq<Record>, b: seq<Record>, c: seq<Record>)
    requires a <= b <= c
    ensures Commands(c, |a|, |c|) == Commands(b, |a|, |b|) + Commands(c, |b|, |c|)
  {
    CommandsSplit(c, |a|, |b|, |c|);
    CommandsStable(b, c, |a|, |b|);
  }

  lemma CommandsSince(h: seq<Record>, rs: seq<Record>)
    ensures Commands(h + rs, |h|, |h + rs|) == Commands(rs, 0, |rs|)
  {
    PendingOfSuffix(h + rs, |h|, |h + rs|);
    assert (h + rs)[|h|..] == rs;
  }

  /** The identifiers of all commands ever accepted. */
  ghost function AcceptedIn(h: seq<Record>): set<UUID> {
    set c | c in Commands(h, 0, |h|) :: c.messageID
  }

  ghost function IDsOf(inbox: seq<Envelope>, n: nat): set<UUID>
    requires n <= |inbox|
  {
    set i | 0 <= i < n :: inbox[i].messageID
  }

  /** Those of the first `n` commands, in order, that are neither known nor the same as an earlier one. */
  ghost function Admitted(inbox: seq<Envelope>, known: set<UUID>, n: nat): seq<Envelope>
    requires n <= |inbox|
  {
    if n == 0 then []
    else
      var rest := Admitted(inbox, known, n - 1);
      if inbox[n - 1].messageID in known + IDsOf(inbox, n - 1) then rest else rest + [inbox[n - 1]]
  }

  lemma {:induction false} NoCommands(rs: seq<Record>, b: nat, n: nat)
    requires b <= n <= |rs| && forall k :: b <= k < n ==> !rs[k].CommandAccepted?
    ensures Commands(rs, b, n) == []
  {
    if b < n {
      NoCommands(rs, b, n - 1);
    }
  }

  /** A journal that has grown by records of other kinds has accepted nothing since. */
  lemma NothingAcceptedSince(h: seq<Record>, rs: seq<Record>)
    requires forall k :: 0 <= k < |rs| ==> !rs[k].CommandAccepted?
    ensures Commands(h + rs, |h|, |h + rs|) == []
  {
    NoCommands(h + rs, |h|, |h + rs|);
  }

  lemma OneAcceptedSince(h: seq<Record>, c: Envelope, rs: seq<Record>)
    requires forall k :: 0 <= k < |rs| ==> !rs[k].CommandAccepted?
    ensures var h' := h + ([CommandAccepted(c)] + rs); Commands(h', |h|, |h'|) == [c]
  {
    var h' := h + ([CommandAccepted(c)] + rs);
    CommandsSplit(h', |h|, |h| + 1, |h'|);
    NoCommands(h', |h| + 1, |h'|);
    assert Commands(h', |h|, |h|) == [];
  }

  /** One more command of the inbox is accepted, or passed over because it is known. */
  lemma AdmitOne(h0: seq<Record>, h1: seq<Record>, h2: seq<Record>, inbox: seq<Envelope>, known: set<UUID>, n: nat)
    requires h0 <= h1 <= h2 && n < |inbox|
    requires Commands(h1, |h0|, |h1|) == Admitted(inbox, known, n)
    requires Commands(h2, |h1|, |h2|) == if inbox[n].messageID in known + IDsOf(inbox, n) then [] else [inbox[n]]
    ensures Commands(h2, |h0|, |h2|) == Admitted(inbox, known, n + 1)
    ensures IDsOf(inbox, n + 1) == IDsOf(inbox, n) + {inbox[n].messageID}
  {
    CommandsGrow(h0, h1, h2);
  }

  lemma SameAccepted(h: seq<Record>, h': seq<Record>)
    requires h <= h' && Commands(h', |h|, |h'|) == []
    ensures AcceptedIn(h') == AcceptedIn(h)
  {
    CommandsSplit(h', 0, |h|, |h'|);
    CommandsStable(h, h', 0, |h|);
  }

  // ----- a well-formed journal has at most one piece of pending work -----

  /** The pending work that a phase stands for. */
  predicate PendingFor(ph: Phase, accepted: seq<Envelope>, handled: seq<Handled>) {
    && accepted == (if ph.AwaitingHandle? then [ph.command] else [])
    && WithEvents(handled) == (if ph.AwaitingAppend? then [ph.op] else [])
  }

  lemma {:induction false} WithEventsStable(ops: seq<Handled>, ops': seq<Handled>, n: nat)
    requires n <= |ops| && n <= |ops'| && forall k :: 0 <= k < n ==> ops[k] == ops'[k]
    ensures WithEventsUpTo(ops, n) == WithEventsUpTo(ops', n)
  {
    if n != 0 {
      WithEventsStable(ops, ops', n - 1);
    }
  }

  lemma WithEventsSnoc(ops: seq<Handled>, op: Handled)
    ensures WithEvents(ops + [op]) == if op.events == [] then WithEvents(ops) else WithEvents(ops) + [op]
  {
    WithEventsStable(ops, ops + [op], |ops|);
  }

  /** The head of the list is either without events or the first of those that have some. */
  lemma {:induction false} WithEventsCons(ops: seq<Handled>, n: nat)
    requires 0 < n <= |ops|
    ensures WithEventsUpTo(ops, n) ==
            if ops[0].events == [] then WithEventsUpTo(ops[1..], n - 1) else [ops[0]] + WithEventsUpTo(ops[1..], n - 1)
  {
    if n == 1 {
      assert WithEventsUpTo(ops, 0) == [];
    } else {
      WithEventsCons(ops, n - 1);
    }
  }

  lemma {:induction false} WithoutWithEvents(ops: seq<Handled>, done: set<UUID>, n: nat)
    requires n <= |ops|
    ensures WithEvents(WithoutUpTo(ops, OpKey, done, n)) == Without(WithEventsUpTo(ops, n), OpKey, done)
  {
    if n != 0 {
      WithoutWithEvents(ops, done, n - 1);
      WithEventsSnoc(WithoutUpTo(ops, OpKey, done, n - 1), ops[n - 1]);
      WithoutSnoc(WithEventsUpTo(ops, n - 1), OpKey, done, ops[n - 1]);
    }
  }

  lemma WithoutSingle<T>(x: T, key: T -> UUID)
    ensures Without([x], key, {key(x)}) == []
  {
    WithoutSnoc([], key, {key(x)}, x);
    assert [] + [x] == [x];
  }

  /** The pending lists after one more record, given that the scan edits them one record at a time. */
  lemma PendingStep(ph: Phase, r: Record, cs: seq<Envelope>, ops: seq<Handled>, cs': seq<Envelope>, ops': seq<Handled>)
    requires PendingFor(ph, cs, ops) && After(ph, r) != Malformed && ValidTail(ph)
    requires (cs', ops') == ScanStep(cs, ops, r)
    ensures PendingFor(After(ph, r), cs', ops')
  {
    if ph.AwaitingHandle? {
      WithoutSingle(ph.command, CommandKey);
      WithEventsSnoc(ops, r.op);
    } else if ph.AwaitingAppend? {
      WithoutWithEvents(ops, {r.commandID}, |ops|);
      WithoutSingle(ph.op, OpKey);
    }
  }

  ghost predicate AtMostOne(h: seq<Record>, b: nat, n: nat)
    requires b <= n <= |h|
  {
    PendingFor(PhaseAt(h, n), PendingCommands(h, b, n), PendingOps(h, b, n))
  }

  lemma AtMostOneNext(h: seq<Record>, b: nat, n: nat)
    requires b <= n < |h| && PhaseAt(h, n + 1) != Malformed && ValidTail(PhaseAt(h, n))
    requires MayFollow(h, b, n) && AtMostOne(h, b, n)
    ensures AtMostOne(h, b, n + 1)
  {
    PendingSnoc(h, b, n);
    PendingStep(PhaseAt(h, n), h[n], PendingCommands(h, b, n), PendingOps(h, b, n),
                PendingCommands(h, b, n + 1), PendingOps(h, b, n + 1));
  }

  lemma NextWellFormed(h: seq<Record>, n: nat)
    requires PhaseOf(h) != Malformed && n < |h|
    ensures PhaseAt(h, n + 1) != Malformed && ValidTail(PhaseAt(h, n))
  {
    PrefixWellFormed(h, n + 1);
    PrefixWellFormed(h, n);
    ValidPhase(h, n);
  }

  lemma NothingPendingAtFirst(h: seq<Record>, b: nat)
    requires b <= |h| && PhaseAt(h, b) == Settled
    ensures AtMostOne(h, b, b)
  {
  }

  lemma {:induction false} AtMostOneUpTo(h: seq<Record>, b: nat, n: nat)
    requires PhaseOf(h) != Malformed && Scannable(h)
    requires b <= n <= |h| && PhaseAt(h, b) == Settled
    ensures AtMostOne(h, b, n)
  {
    if n == b {
      NothingPendingAtFirst(h, b);
    } else {
      AtMostOneUpTo(h, b, n - 1);
      NextWellFormed(h, n - 1);
      ScannableMayFollow(h, b, n - 1);
      AtMostOneNext(h, b, n - 1);
    }
  }

  /** Recovery never finds more than one unhandled command, or more than one unappended batch of events. */
  lemma PendingAtMostOne(h: seq<Record>, b: nat)
    requires PhaseOf(h) != Malformed && AcceptedOnce(h)
    requires b <= |h| && PhaseAt(h, b) == Settled
    ensures PendingFor(PhaseOf(h), PendingCommands(h, b, |h|), PendingOps(h, b, |h|))
  {
    WellFormedIsScannable(h);
    AtMostOneUpTo(h, b, |h|);
  }
}
