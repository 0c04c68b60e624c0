/** The observer of the cluster's registry, which tells its subscriber which nodes join and leave. */
module Registry {
  import opened Common

  datatype Node = Node(id: UUID, addresses: seq<string>)

  datatype Registration = Registration(node: Node, expiresAt: int)

  datatype MembershipChanged = MembershipChanged(registered: seq<Node>, deregistered: seq<Node>)

  /** Every registration, and every node, is kept under the identifier of its node. */
  predicate WellKeyed(store: map<UUID, Registration>) {
    forall id :: id in store ==> store[id].node.id == id
  }

  predicate Keyed(nodes: map<UUID, Node>) {
    forall id :: id in nodes ==> nodes[id].id == id
  }

  /** The nodes whose registration has not expired. */
  function Live(store: map<UUID, Registration>, now: int): map<UUID, Node> {
    map id | id in store && store[id].expiresAt > now :: store[id].node
  }

  // ----- events and what they add up to -----

  function IDs(nodes: seq<Node>): set<UUID> {
    set i | 0 <= i < |nodes| :: nodes[i].id
  }

  predicate DistinctNodes(nodes: seq<Node>) {
    forall i, j :: 0 <= i < j < |nodes| ==> nodes[i].id != nodes[j].id
  }

  /** The nodes `xs` lists, each once, are those of `nodes` whose identifiers are in `ids`. */
  predicate Lists(xs: seq<Node>, nodes: map<UUID, Node>, ids: set<UUID>) {
    && DistinctNodes(xs)
    && IDs(xs) == ids
    && forall i :: 0 <= i < |xs| ==> xs[i].id in nodes && nodes[xs[i].id] == xs[i]
  }

  function SetAll(nodes: map<UUID, Node>, xs: seq<Node>): map<UUID, Node> {
    if xs == [] then nodes else SetAll(nodes, xs[..|xs| - 1])[xs[|xs| - 1].id := xs[|xs| - 1]]
  }

  function RemoveAll(nodes: map<UUID, Node>, xs: seq<Node>): map<UUID, Node> {
    nodes - IDs(xs)
  }

  /** What a subscriber knows after one more event. */
  function Commit(nodes: map<UUID, Node>, ev: MembershipChanged): map<UUID, Node> {
    RemoveAll(SetAll(nodes, ev.registered), ev.deregistered)
  }

  /** What a subscriber knows after a sequence of events. */
  function Replay(events: seq<MembershipChanged>): map<UUID, Node> {
    Fold(Commit, map[], events)
  }

  /** The event registers nodes that are unknown so far and deregisters nodes that are known, and no node twice. */
  predicate Sensible(nodes: map<UUID, Node>, ev: MembershipChanged) {
    && DistinctNodes(ev.registered) && DistinctNodes(ev.deregistered)
    && IDs(ev.registered) !! nodes.Keys
    && IDs(ev.deregistered) <= nodes.Keys
    && (ev.registered != [] || ev.deregistered != [])
  }

  ghost predicate SensibleAt(events: seq<MembershipChanged>, k: nat)
    requires k < |events|
  {
    Sensible(Replay(events[..k]), events[k])
  }

  ghost predicate AllSensible(events: seq<MembershipChanged>) {
    forall k {:trigger SensibleAt(events, k)} :: 0 <= k < |events| ==> SensibleAt(events, k)
  }

  lemma ReplaySnoc(events: seq<MembershipChanged>, ev: MembershipChanged)
    ensures Replay(events + [ev]) == Commit(Replay(events), ev)
  {
    assert (events + [ev])[..|events|] == events;
  }

  lemma {:induction false} SetAllKeys(nodes: map<UUID, Node>, xs: seq<Node>)
    ensures SetAll(nodes, xs).Keys == nodes.Keys + IDs(xs)
    ensures Keyed(nodes) ==> Keyed(SetAll(nodes, xs))
    ensures forall id :: id in nodes && id !in IDs(xs) ==> SetAll(nodes, xs)[id] == nodes[id]
  {
    if xs != [] {
      var n := |xs| - 1;
      SetAllKeys(nodes, xs[..n]);
      assert IDs(xs) == IDs(xs[..n]) + {xs[n].id};
    }
  }

  lemma {:induction false} SetAllValues(nodes: map<UUID, Node>, xs: seq<Node>, i: nat)
    requires DistinctNodes(xs) && i < |xs|
    ensures xs[i].id in SetAll(nodes, xs) && SetAll(nodes, xs)[xs[i].id] == xs[i]
  {
    var n := |xs| - 1;
    if i < n {
      SetAllValues(nodes, xs[..n], i);
    }
  }

  /** An event never names an identifier on both sides. */
  lemma OneSideOnly(nodes: map<UUID, Node>, ev: MembershipChanged)
    requires Sensible(nodes, ev)
    ensures IDs(ev.registered) !! IDs(ev.deregistered)
  {
  }

  ghost predicate Registers(events: seq<MembershipChanged>, id: UUID, k: nat) {
    k < |events| && id in IDs(events[k].registered)
  }

  ghost predicate Deregisters(events: seq<MembershipChanged>, id: UUID, k: nat) {
    k < |events| && id in IDs(events[k].deregistered)
  }

  lemma KnownAfter(events: seq<MembershipChanged>, id: UUID, k: nat)
    requires AllSensible(events) && k < |events|
    ensures id in Replay(events[..k + 1]) <==>
            Registers(events, id, k) || (id in Replay(events[..k]) && !Deregisters(events, id, k))
  {
    assert events[..k + 1] == events[..k] + [events[k]];
    ReplaySnoc(events[..k], events[k]);
    SetAllKeys(Replay(events[..k]), events[k].registered);
    assert SensibleAt(events, k);
  }

  /** As long as nothing is said about a node, what is known of it stays. */
  lemma {:induction false} KnownBetween(events: seq<MembershipChanged>, id: UUID, i: nat, j: nat)
    requires AllSensible(events) && i <= j <= |events|
    requires forall k :: i <= k < j ==> !Registers(events, id, k) && !Deregisters(events, id, k)
    ensures id in Replay(events[..i]) <==> id in Replay(events[..j])
    decreases j - i
  {
    if i < j {
      KnownBetween(events, id, i, j - 1);
      KnownAfter(events, id, j - 1);
    }
  }

  /**
   * For each node, registrations and deregistrations alternate, beginning with a registration: what comes before
   * event `j` and is the last to name the node is the opposite of what event `j` says of it.
   */
  lemma MembershipAlternates(events: seq<MembershipChanged>, id: UUID, j: nat)
    requires AllSensible(events)
    ensures Registers(events, id, j) ==>
              forall i: nat :: LastNamed(events, id, i, j) ==> Deregisters(events, id, i)
    ensures Deregisters(events, id, j) ==>
              exists i: nat :: LastNamed(events, id, i, j) && Registers(events, id, i)
  {
    if j < |events| {
      assert SensibleAt(events, j);
      forall i: nat | LastNamed(events, id, i, j)
        ensures Registers(events, id, j) ==> Deregisters(events, id, i)
        ensures Deregisters(events, id, j) ==> Registers(events, id, i)
      {
        KnownBetween(events, id, i + 1, j);
        KnownAfter(events, id, i);
        assert SensibleAt(events, i);
      }
      if Deregisters(events, id, j) {
        NothingKnownAtFirst(events);
        var i := NamedBefore(events, id, j);
      }
    }
  }

  ghost predicate LastNamed(events: seq<MembershipChanged>, id: UUID, i: nat, j: nat) {
    && i < j <= |events|
    && (Registers(events, id, i) || Deregisters(events, id, i))
    && forall k :: i < k < j ==> !Registers(events, id, k) && !Deregisters(events, id, k)
  }

  lemma NothingKnownAtFirst(events: seq<MembershipChanged>)
    ensures Replay(events[..0]) == map[]
  {
    assert events[..0] == [];
  }

  /** A node that is known was named. */
  lemma {:induction false} NamedBefore(events: seq<MembershipChanged>, id: UUID, j: nat) returns (i: nat)
    requires AllSensible(events) && 0 < j <= |events| && id in Replay(events[..j])
    ensures LastNamed(events, id, i, j)
  {
    i := j - 1;
    KnownAfter(events, id, i);
    if !Registers(events, id, i) && !Deregisters(events, id, i) {
      assert 0 < i by {
        NothingKnownAtFirst(events);
      }
      i := NamedBefore(events, id, i);
    }
  }

  // ----- one poll -----

  /** The event that leads from the known nodes to those of a snapshot. */
  ghost predicate Diff(nodes: map<UUID, Node>, snapshot: map<UUID, Node>, ev: MembershipChanged) {
    && Lists(ev.deregistered, nodes, nodes.Keys - snapshot.Keys)
    && Lists(ev.registered, snapshot, snapshot.Keys - nodes.Keys)
  }

  lemma NoneListed(xs: seq<Node>)
    ensures IDs(xs) == {} <==> xs == []
  {
    if xs != [] {
      assert xs[0].id in IDs(xs);
    }
  }

  lemma {:induction false} SetAllListed(nodes: map<UUID, Node>, xs: seq<Node>, id: UUID)
    requires DistinctNodes(xs) && id in IDs(xs)
    ensures id in SetAll(nodes, xs) && SetAll(nodes, xs)[id] in xs && SetAll(nodes, xs)[id].id == id
  {
    var i :| 0 <= i < |xs| && xs[i].id == id;
    SetAllValues(nodes, xs, i);
  }

  /** Once the event is delivered, the nodes that are known are those of the snapshot, by identifier. */
  lemma CommitReachesSnapshot(nodes: map<UUID, Node>, snapshot: map<UUID, Node>, ev: MembershipChanged)
    requires Diff(nodes, snapshot, ev)
    ensures Commit(nodes, ev).Keys == snapshot.Keys
    ensures forall id :: id in Commit(nodes, ev) ==>
              Commit(nodes, ev)[id] == if id in nodes then nodes[id] else snapshot[id]
  {
    SetAllKeys(nodes, ev.registered);
    forall id | id in Commit(nodes, ev)
      ensures Commit(nodes, ev)[id] == if id in nodes then nodes[id] else snapshot[id]
    {
      if id !in nodes {
        SetAllListed(nodes, ev.registered, id);
      }
    }
  }

  /** Addresses are not compared: what is known equals the snapshot exactly when no node that stays has changed. */
  lemma UpToDateIff(nodes: map<UUID, Node>, snapshot: map<UUID, Node>, ev: MembershipChanged)
    requires Diff(nodes, snapshot, ev)
    ensures Commit(nodes, ev) == snapshot <==>
            forall id :: id in nodes && id in snapshot ==> nodes[id] == snapshot[id]
  {
    CommitReachesSnapshot(nodes, snapshot, ev);
    if forall id :: id in nodes && id in snapshot ==> nodes[id] == snapshot[id] {
      assert forall id :: id in snapshot ==> Commit(nodes, ev)[id] == snapshot[id];
    } else {
      var id :| id in nodes && id in snapshot && nodes[id] != snapshot[id];
      assert Commit(nodes, ev)[id] == nodes[id];
    }
  }

  /** A node that moves to another address goes unnoticed. */
  lemma NewAddressIsInvisible() returns (nodes: map<UUID, Node>, snapshot: map<UUID, Node>, ev: MembershipChanged)
    ensures Keyed(nodes) && Keyed(snapshot) && nodes != snapshot
    ensures Diff(nodes, snapshot, ev) && ev.registered == [] && ev.deregistered == []
    ensures Commit(nodes, ev) != snapshot
  {
    var a, b := Node(1, ["a"]), Node(1, ["b"]);
    nodes, snapshot, ev := map[1 := a], map[1 := b], MembershipChanged([], []);
    assert a.addresses[0][0] != b.addresses[0][0];
    assert nodes[1] != snapshot[1];
    UpToDateIff(nodes, snapshot, ev);
  }

  // ----- the observer -----

  /** What the observer may do while it waits for its subscriber. */
  datatype Ready = Cancelled | Tick | Delivered

  /** What the observer meets when it next acts: the store, the time, failing deletions, and what is ready first. */
  datatype Turn = Turn(store: map<UUID, Registration>, now: int, faults: UUID -> Fault, ready: Ready)

  datatype Phase = Idle | Polling | Publishing(ev: MembershipChanged) | Stopped | Failed

  /** A poll succeeds exactly when no deletion of an expired registration fails. */
  predicate CanLoad(turn: Turn) {
    AllDeleted(turn.store, turn.now, turn.faults, turn.store.Keys)
  }

  predicate AllDeleted(store: map<UUID, Registration>, now: int, faults: UUID -> Fault, ids: set<UUID>) {
    forall id :: id in ids && id in store && store[id].expiresAt <= now ==> faults(id).Ok?
  }

  /** Where the observer goes in one turn. */
  predicate Moves(a: Phase, turn: Turn, b: Phase) {
    match a
    case Idle =>
      (match turn.ready
       case Cancelled => b == Stopped
       case Tick => b == Polling
       case Delivered => b == Idle)
    case Polling => if CanLoad(turn) then b.Idle? || b.Publishing? else b == Failed
    case Publishing(_) =>
      (match turn.ready
       case Cancelled => b == Stopped
       case Tick => b == Polling
       case Delivered => b == Idle)
    case _ => b == a
  }

  /** The observer polls first, and then moves turn by turn. */
  ghost predicate Trace(phases: seq<Phase>, turns: seq<Turn>) {
    && |phases| == |turns| + 1 && phases[0] == Polling
    && forall i {:trigger turns[i]} :: 0 <= i < |turns| ==> Moves(phases[i], turns[i], phases[i + 1])
  }

  lemma TraceSnoc(phases: seq<Phase>, turns: seq<Turn>, i: nat, next: Phase)
    requires i < |turns| && Trace(phases, turns[..i]) && Moves(phases[i], turns[i], next)
    ensures Trace(phases + [next], turns[..i + 1])
  {
    var turns' := turns[..i + 1];
    forall k | 0 <= k < |turns'|
      ensures Moves((phases + [next])[k], turns'[k], (phases + [next])[k + 1])
    {
      if k < i {
        assert turns[..i][k] == turns'[k];
      }
    }
  }

  /** Turn `k` is the last before turn `n` in which the observer polled. */
  ghost predicate LastPoll(phases: seq<Phase>, k: nat, n: nat) {
    && k < n <= |phases| && phases[k].Polling?
    && forall j :: k < j < n ==> !phases[j].Polling?
  }

  lemma LastPollSnoc(phases: seq<Phase>, k: nat, n: nat, next: Phase)
    requires |phases| == n + 1
    requires !phases[n].Polling? ==> LastPoll(phases, k, n)
    ensures LastPoll(phases + [next], if phases[n].Polling? then n else k, n + 1)
  {
  }

  /** The events that were delivered in the first `n` turns. */
  function Deliveries(phases: seq<Phase>, turns: seq<Turn>, n: nat): seq<MembershipChanged>
    requires n <= |phases| && n <= |turns|
  {
    if n == 0 then []
    else
      var rest := Deliveries(phases, turns, n - 1);
      if phases[n - 1].Publishing? && turns[n - 1].ready.Delivered? then rest + [phases[n - 1].ev] else rest
  }

  lemma {:induction false} DeliveriesStable(phases: seq<Phase>, phases': seq<Phase>, turns: seq<Turn>, n: nat)
    requires n <= |phases| && n <= |turns| && phases <= phases'
    ensures Deliveries(phases, turns, n) == Deliveries(phases', turns, n)
  {
    if n != 0 {
      DeliveriesStable(phases, phases', turns, n - 1);
    }
  }

  class RegistryObserver {
    var nodes: map<UUID, Node>
    ghost var delivered: seq<MembershipChanged>

    constructor ()
      ensures Valid() && nodes == map[] && delivered == []
    {
      nodes, delivered := map[], [];
    }

    /** What the observer knows is what the delivered events add up to. */
    ghost predicate Valid()
      reads this
    {
      Keyed(nodes) && nodes == Replay(delivered) && AllSensible(delivered)
    }

    /** Reads the live registrations and deletes the expired ones. A deletion may fail before or after its effect. */
    method LoadNodes(store: map<UUID, Registration>, now: int, faults: UUID -> Fault)
      returns (ok: bool, loaded: map<UUID, Node>, store': map<UUID, Registration>)
      ensures Keyed(loaded)
      ensures ok && WellKeyed(store) ==> loaded == Live(store, now)
      ensures ok && WellKeyed(store) ==>
                && (forall id :: id in loaded <==> id in store && now < store[id].expiresAt)
                && (forall id :: id in loaded ==> loaded[id] == store[id].node)
      ensures ok ==> forall id :: id in store' <==> id in store && now < store[id].expiresAt
      ensures ok ==> store'.Keys == Live(store, now).Keys
      ensures forall id :: id in store' ==> id in store && store'[id] == store[id]
      ensures Live(store, now).Keys <= store'.Keys
      ensures ok <==> AllDeleted(store, now, faults, store.Keys)
    {
      loaded, store' := map[], store;
      var left := store.Keys;
      while left != {}
        invariant left <= store.Keys
        invariant AllDeleted(store, now, faults, store.Keys - left)
        invariant Keyed(loaded)
        invariant WellKeyed(store) ==> loaded == Live(store, now) - left
        invariant store' == Remaining(store, now, left)
        decreases left
      {
        var id :| id in left;
        var reg := store[id];
        OneLess(store, now, left, id);
        if reg.expiresAt > now {
          loaded := loaded[reg.node.id := reg.node];
        } else {
          if !faults(id).FailBefore? {
            store' := store' - {id};
          }
          if !faults(id).Ok? {
            return false, loaded, store';
          }
        }
        left := left - {id};
      }
      ok := true;
    }

    /** What a poll keeps of the store while these registrations are still to be looked at. */
    function Remaining(store: map<UUID, Registration>, now: int, left: set<UUID>): map<UUID, Registration> {
      map id | id in store && (id in left || store[id].expiresAt > now) :: store[id]
    }

    lemma OneLess(store: map<UUID, Registration>, now: int, left: set<UUID>, id: UUID)
      requires id in left && left <= store.Keys
      ensures Remaining(store, now, left - {id}) ==
              if store[id].expiresAt > now then Remaining(store, now, left) else Remaining(store, now, left) - {id}
      ensures Live(store, now) - (left - {id}) ==
              if store[id].expiresAt > now then (Live(store, now) - left)[id := store[id].node] else Live(store, now) - left
    {
    }

    /** The nodes of one map that another does not have, each once. */
    method Missing(from: map<UUID, Node>, other: map<UUID, Node>) returns (xs: seq<Node>)
      requires Keyed(from)
      ensures Lists(xs, from, from.Keys - other.Keys)
    {
      xs := [];
      var left := from.Keys;
      while left != {}
        invariant left <= from.Keys
        invariant Lists(xs, from, from.Keys - other.Keys - left)
        decreases left
      {
        var id :| id in left;
        if id !in other {
          ListsOneMore(xs, from, from.Keys - other.Keys - left, id);
          xs := xs + [from[id]];
        }
        left := left - {id};
        assert IDs(xs) == from.Keys - other.Keys - left;
      }
    }

    lemma ListsOneMore(xs: seq<Node>, from: map<UUID, Node>, ids: set<UUID>, id: UUID)
      requires Keyed(from) && Lists(xs, from, ids) && id in from && id !in ids
      ensures Lists(xs + [from[id]], from, ids + {id})
    {
      var ys := xs + [from[id]];
      forall i | 0 <= i < |xs|
        ensures xs[i].id != id
      {
        assert xs[i].id in IDs(xs);
      }
      assert IDs(ys) == IDs(xs) + {id} by {
        assert ys[|xs|].id == id;
        forall k | k in IDs(xs)
          ensures k in IDs(ys)
        {
          var i :| 0 <= i < |xs| && xs[i].id == k;
          assert ys[i].id == k;
        }
      }
    }

    /** Compares a snapshot of the registry with what is known. */
    method PollState(snapshot: map<UUID, Node>) returns (next: Phase)
      requires Valid() && Keyed(snapshot)
      ensures next.Idle? || next.Publishing?
      ensures next.Idle? ==> nodes.Keys == snapshot.Keys
      ensures next.Publishing? ==> Diff(nodes, snapshot, next.ev) && Sensible(nodes, next.ev)
    {
      var deregistered := Missing(nodes, snapshot);
      var registered := Missing(snapshot, nodes);
      NoneListed(deregistered);
      NoneListed(registered);
      if |registered| == 0 && |deregistered| == 0 {
        assert nodes.Keys - snapshot.Keys == {} && snapshot.Keys - nodes.Keys == {};
        return Idle;
      }
      next := Publishing(MembershipChanged(registered, deregistered));
    }

    /** Takes an event over into what is known. */
    method ApplyEvent(ev: MembershipChanged)
      modifies this`nodes
      ensures nodes == Commit(old(nodes), ev)
    {
      for i := 0 to |ev.registered|
        invariant nodes == SetAll(old(nodes), ev.registered[..i])
      {
        assert ev.registered[..i + 1][..i] == ev.registered[..i];
        nodes := nodes[ev.registered[i].id := ev.registered[i]];
      }
      assert ev.registered[..|ev.registered|] == ev.registered;
      ghost var all := nodes;
      for i := 0 to |ev.deregistered|
        invariant nodes == RemoveAll(all, ev.deregistered[..i])
      {
        assert IDs(ev.deregistered[..i + 1]) == IDs(ev.deregistered[..i]) + {ev.deregistered[i].id};
        nodes := nodes - {ev.deregistered[i].id};
      }
      assert ev.deregistered[..|ev.deregistered|] == ev.deregistered;
    }

    /** Offers an event to the subscriber. Only when it is delivered does the observer know what the event says. */
    method PublishState(ev: MembershipChanged, ready: Ready) returns (next: Phase)
      requires Valid() && Sensible(nodes, ev)
      modifies this
      ensures Valid()
      ensures next == match ready
                      case Cancelled => Stopped
                      case Tick => Polling
                      case Delivered => Idle
      ensures delivered == if ready.Delivered? then old(delivered) + [ev] else old(delivered)
      ensures nodes == if ready.Delivered? then Commit(old(nodes), ev) else old(nodes)
    {
      match ready
      case Cancelled => return Stopped;
      case Tick => return Polling;
      case Delivered =>
        Committed(nodes, ev);
        ApplyEvent(ev);
        delivered := delivered + [ev];
        next := Idle;
    }

    lemma Committed(known: map<UUID, Node>, ev: MembershipChanged)
      requires Keyed(known) && known == Replay(delivered) && AllSensible(delivered) && Sensible(known, ev)
      ensures Keyed(Commit(known, ev)) && Commit(known, ev) == Replay(delivered + [ev]) && AllSensible(delivered + [ev])
    {
      ReplaySnoc(delivered, ev);
      SetAllKeys(known, ev.registered);
      forall k | 0 <= k <= |delivered|
        ensures SensibleAt(delivered + [ev], k)
      {
        assert (delivered + [ev])[..k] == delivered[..k];
        if k < |delivered| {
          assert SensibleAt(delivered, k);
        } else {
          assert delivered[..k] == delivered;
        }
      }
    }

    /** What the observer has made of its last poll. */
    ghost predicate UpToDate(phase: Phase, turn: Turn)
      reads this
    {
      var snapshot := Live(turn.store, turn.now);
      && (phase.Idle? ==> nodes.Keys == snapshot.Keys)
      && (phase.Publishing? ==> Diff(nodes, snapshot, phase.ev) && Sensible(nodes, phase.ev))
    }

    /** One turn: waits, polls or publishes. */
    method Move(phase: Phase, turn: Turn, ghost poll: Turn) returns (next: Phase)
      requires Valid() && WellKeyed(turn.store) && UpToDate(phase, poll)
      modifies this
      ensures Valid() && Moves(phase, turn, next)
      ensures UpToDate(next, if phase.Polling? then turn else poll)
      ensures delivered == if phase.Publishing? && turn.ready.Delivered? then old(delivered) + [phase.ev] else old(delivered)
    {
      match phase
      case Idle =>
        next := match turn.ready case Cancelled => Stopped case Tick => Polling case Delivered => Idle;
      case Polling =>
        var ok, loaded, _ := LoadNodes(turn.store, turn.now, turn.faults);
        if ok {
          next := PollState(loaded);
        } else {
          next := Failed;
        }
      case Publishing(ev) =>
        CommitReachesSnapshot(nodes, Live(poll.store, poll.now), ev);
        next := PublishState(ev, turn.ready);
      case _ =>
        next := phase;
    }

    /**
     * Runs the observer through whatever happens. Whenever it is idle, its nodes are those that were live at its last
     * poll, by identifier; and it polls again at the next tick. `phases` tells where it was before each turn and
     * where it is in the end.
     */
    method Run(turns: seq<Turn>) returns (phase: Phase, ghost phases: seq<Phase>, ghost polled: nat)
      requires Valid() && forall i :: 0 <= i < |turns| ==> WellKeyed(turns[i].store)
      modifies this
      ensures Valid() && Trace(phases, turns) && phase == phases[|turns|]
      ensures forall i {:trigger turns[i]} :: 0 <= i < |turns| && (phases[i].Idle? || phases[i].Publishing?) ==>
                match turns[i].ready
                case Cancelled => phases[i + 1].Stopped?
                case Tick => phases[i + 1].Polling?
                case Delivered => phases[i + 1].Idle?
      ensures delivered == old(delivered) + Deliveries(phases, turns, |turns|)
      ensures phase.Idle? || phase.Publishing? ==>
                LastPoll(phases, polled, |turns|) && UpToDate(phase, turns[polled])
    {
      phase, phases, polled := Polling, [Polling], 0;
      ghost var poll := Turn(map[], 0, _ => Ok, Cancelled);
      for i := 0 to |turns|
        invariant Valid() && Trace(phases, turns[..i]) && phase == phases[i]
        invariant delivered == old(delivered) + Deliveries(phases, turns, i)
        invariant !phase.Polling? ==> LastPoll(phases, polled, i) && turns[polled] == poll
        invariant UpToDate(phase, poll)
      {
        var next := Move(phase, turns[i], poll);
        if phase.Polling? {
          poll := turns[i];
        }
        LastPollSnoc(phases, polled, i, next);
        polled := if phase.Polling? then i else polled;
        TraceSnoc(phases, turns, i, next);
        DeliveriesStable(phases, phases + [next], turns, i);
        phase, phases := next, phases + [next];
      }
      assert turns[..|turns|] == turns;
    }
  }
}
