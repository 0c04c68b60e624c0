/** Rendezvous hashing: which node of a cluster handles a workload. */
module Partition {
  import opened Common
  import opened Optimistic

  // ----- what routing means, as a function of the set of nodes alone -----

  /**
   * The owner of a workload among a set of nodes: the node with the greatest score, the smallest of them if several
   * have it. A score of zero never wins.
   */
  ghost predicate Owns(hash: (UUID, UUID) -> nat, nodes: set<UUID>, workload: UUID, owner: Option<UUID>) {
    match owner
    case None => forall m :: m in nodes ==> hash(m, workload) == 0
    case Some(n) =>
      && n in nodes && 0 < hash(n, workload)
      && forall m :: m in nodes ==> Beats(hash, workload, n, m)
  }

  /** Node `n` is not worse than node `m`. */
  predicate Beats(hash: (UUID, UUID) -> nat, workload: UUID, n: UUID, m: UUID) {
    hash(m, workload) < hash(n, workload) || (hash(m, workload) == hash(n, workload) && n <= m)
  }

  lemma OwnerIsUnique(hash: (UUID, UUID) -> nat, nodes: set<UUID>, workload: UUID, a: Option<UUID>, b: Option<UUID>)
    requires Owns(hash, nodes, workload, a) && Owns(hash, nodes, workload, b)
    ensures a == b
  {
    if a.Some? && b.Some? {
      assert Beats(hash, workload, a.value, b.value) && Beats(hash, workload, b.value, a.value);
    }
  }

  lemma {:induction false} OwnerExists(hash: (UUID, UUID) -> nat, nodes: set<UUID>, workload: UUID)
    returns (owner: Option<UUID>)
    ensures Owns(hash, nodes, workload, owner)
    decreases |nodes|
  {
    if nodes == {} {
      owner := None;
    } else {
      var x :| x in nodes;
      var rest := OwnerExists(hash, nodes - {x}, workload);
      owner := Winner(hash, nodes - {x}, workload, rest, x);
      assert nodes - {x} + {x} == nodes;
    }
  }

  /** Who owns the workload after a node joins: nobody but the new node can take it over. */
  lemma Winner(hash: (UUID, UUID) -> nat, nodes: set<UUID>, workload: UUID, owner: Option<UUID>, x: UUID)
    returns (owner': Option<UUID>)
    requires Owns(hash, nodes, workload, owner)
    ensures Owns(hash, nodes + {x}, workload, owner')
    ensures owner' == if 0 < hash(x, workload) && (owner.Some? ==> Beats(hash, workload, x, owner.value)) then Some(x) else owner
  {
    if 0 < hash(x, workload) && (owner.Some? ==> Beats(hash, workload, x, owner.value)) {
      owner' := Some(x);
    } else {
      owner' := owner;
    }
  }

  /**
   * Minimal disruption by a joining node. Workloads move to it only, and they move exactly when it beats their owner.
   */
  lemma AddingMovesOnlyToTheNewNode(hash: (UUID, UUID) -> nat, nodes: set<UUID>, workload: UUID, x: UUID,
                                    before: Option<UUID>, after: Option<UUID>)
    requires Owns(hash, nodes, workload, before) && Owns(hash, nodes + {x}, workload, after)
    ensures after == before || after == Some(x)
    ensures after == Some(x) <==> 0 < hash(x, workload) && (before.Some? ==> Beats(hash, workload, x, before.value))
  {
    var owner := Winner(hash, nodes, workload, before, x);
    OwnerIsUnique(hash, nodes + {x}, workload, owner, after);
    if before == Some(x) {
      assert Beats(hash, workload, x, x);
    }
  }

  /** Minimal disruption by a leaving node. Exactly the workloads that it owned move. */
  lemma RemovingMovesOnlyItsOwn(hash: (UUID, UUID) -> nat, nodes: set<UUID>, workload: UUID, x: UUID,
                                before: Option<UUID>, after: Option<UUID>)
    requires Owns(hash, nodes, workload, before) && Owns(hash, nodes - {x}, workload, after)
    ensures after == before <==> before != Some(x)
  {
    if before != Some(x) {
      OwnerIsUnique(hash, nodes - {x}, workload, before, after);
    }
  }

  /** A workload is routed to a node exactly when some node has a score at all. */
  lemma RoutedIff(hash: (UUID, UUID) -> nat, nodes: set<UUID>, workload: UUID, owner: Option<UUID>)
    requires Owns(hash, nodes, workload, owner)
    ensures owner.Some? <==> exists n :: n in nodes && hash(n, workload) > 0
  {
  }

  // ----- the partitioner -----

  datatype Change = Join(node: UUID) | Leave(node: UUID)

  /** The nodes of a cluster after a history of changes. */
  function NodesAfter(history: seq<Change>): set<UUID> {
    if history == [] then {}
    else
      var nodes := NodesAfter(history[..|history| - 1]);
      match history[|history| - 1]
      case Join(n) => nodes + {n}
      case Leave(n) => nodes - {n}
  }

  lemma {:induction false} MemberAfter(history: seq<Change>, more: seq<Change>, n: UUID)
    ensures n in NodesAfter(history) && Leave(n) !in more ==> n in NodesAfter(history + more)
    ensures n in NodesAfter(history + more) && Join(n) !in more ==> n in NodesAfter(history)
    decreases |more|
  {
    if more == [] {
      assert history + more == history;
    } else {
      var init := more[..|more| - 1];
      MemberAfter(history, init, n);
      assert (history + more)[..|history + more| - 1] == history + init;
      assert more == init + [more[|more| - 1]];
    }
  }

  /** Over any stretch of changes, a workload moves only because its owner left or its new owner joined. */
  lemma MovesHaveACause(hash: (UUID, UUID) -> nat, history: seq<Change>, more: seq<Change>, workload: UUID,
                        before: Option<UUID>, after: Option<UUID>)
    requires Owns(hash, NodesAfter(history), workload, before)
    requires Owns(hash, NodesAfter(history + more), workload, after)
    requires before != after
    ensures (before.Some? && Leave(before.value) in more) || (after.Some? && Join(after.value) in more)
  {
    if before.Some? {
      MemberAfter(history, more, before.value);
    }
    if after.Some? {
      MemberAfter(history, more, after.value);
    }
  }

  class Partitioner {
    const hash: (UUID, UUID) -> nat
    const nodes: OrderedSet<UUID>

    constructor (hash: (UUID, UUID) -> nat)
      ensures Valid() && fresh(nodes) && nodes.View() == {} && this.hash == hash
    {
      CompareByLessIsLawful();
      this.hash := hash;
      nodes := new OrderedSet(CompareByLess);
    }

    ghost predicate Valid()
      reads nodes
    {
      nodes.Valid() && nodes.compare == CompareByLess
    }

    method AddNode(id: UUID)
      requires Valid()
      modifies nodes
      ensures Valid() && nodes.View() == old(nodes.View()) + {id}
    {
      nodes.Add(id);
    }

    method RemoveNode(id: UUID)
      requires Valid()
      modifies nodes
      ensures Valid() && nodes.View() == old(nodes.View()) - {id}
    {
      nodes.Delete(id);
    }

    /** Any history of changes. */
    method Replay(history: seq<Change>)
      requires Valid() && nodes.View() == {}
      modifies nodes
      ensures Valid() && nodes.View() == NodesAfter(history)
    {
      for i := 0 to |history|
        invariant Valid() && nodes.View() == NodesAfter(history[..i])
      {
        assert history[..i + 1][..i] == history[..i];
        match history[i]
        case Join(n) => AddNode(n);
        case Leave(n) => RemoveNode(n);
      }
      assert history[..|history|] == history;
    }

    /** Routes a workload to its owner. Without nodes the program panics. */
    method Route(workload: UUID) returns (panics: bool, winner: Option<UUID>)
      requires Valid()
      ensures panics <==> nodes.View() == {}
      ensures !panics ==> Owns(hash, nodes.View(), workload, winner)
      ensures !panics && winner.Some? ==>
                && winner.value in nodes.View()
                && forall m :: m in nodes.View() ==>
                     || hash(m, workload) < hash(winner.value, workload)
                     || (hash(m, workload) == hash(winner.value, workload) && winner.value <= m)
      ensures !panics ==> (winner.Some? <==> exists n :: n in nodes.View() && 0 < hash(n, workload))
    {
      var members := nodes.Members();
      NoElements(members);
      winner := None;
      if |members| == 0 {
        return true, None;
      }
      var score := 0;
      for i := 0 to |members|
        invariant score == Score(winner, workload)
        invariant Owns(hash, Elements(members[..i]), workload, winner)
      {
        var s := hash(members[i], workload);
        OneMore(members, i, workload, winner);
        if s > score {
          winner, score := Some(members[i]), s;
        }
      }
      assert members[..|members|] == members;
      panics := false;
    }

    function Score(winner: Option<UUID>, workload: UUID): nat {
      if winner.None? then 0 else hash(winner.value, workload)
    }

    /** Members come in order, so on equal scores the earlier one stays. */
    lemma OneMore(members: seq<UUID>, i: nat, workload: UUID, winner: Option<UUID>)
      requires Sorted(CompareByLess, members) && i < |members|
      requires Owns(hash, Elements(members[..i]), workload, winner)
      ensures Owns(hash, Elements(members[..i + 1]), workload,
                   if hash(members[i], workload) > Score(winner, workload) then Some(members[i]) else winner)
    {
      NotBelowTheLater(members, i, winner);
      assert Elements(members[..i + 1]) == Elements(members[..i]) + {members[i]};
      var _ := Winner(hash, Elements(members[..i]), workload, winner, members[i]);
    }

    lemma NotBelowTheLater(members: seq<UUID>, i: nat, winner: Option<UUID>)
      requires Sorted(CompareByLess, members) && i < |members|
      requires winner.Some? ==> winner.value in members[..i]
      ensures winner.Some? ==> winner.value < members[i]
    {
      if winner.Some? {
        var k :| 0 <= k < i && members[k] == winner.value;
        assert CompareByLess(members[k], members[i]) < 0;
      }
    }
  }

  /** A node whose scores are all zero is never chosen, not even if it is the only one. */
  method RouteToNobody(node: UUID, workload: UUID) returns (panics: bool, winner: Option<UUID>)
    ensures !panics && winner == None
  {
    var p := new Partitioner((n, w) => 0);
    p.AddNode(node);
    panics, winner := p.Route(workload);
  }
}
