/** The journal behind one event stream: how its records tile the offsets, and how an append request is looked up. */
module StreamJournal {
  import opened Common

  datatype Record = Record(offsetBefore: nat, offsetAfter: nat, events: seq<Envelope>)
  {
    function FirstID(): UUID
      requires events != []
    {
      events[0].messageID
    }

    predicate Covers(off: nat) {
      offsetBefore <= off < offsetAfter
    }
  }

  /** The three-way comparison that drives the binary search for the record that covers `off`. */
  function SearchByOffset(off: nat, rec: Record): int {
    if rec.offsetBefore > off then 1
    else if rec.offsetAfter <= off then -1
    else 0
  }

  function EndOffset(rs: seq<Record>): nat {
    if rs == [] then 0 else rs[|rs| - 1].offsetAfter
  }

  /** Record `k` holds at least one event and starts where record `k - 1` ends, or at offset 0. */
  predicate TiledAt(rs: seq<Record>, k: nat)
    requires k < |rs|
  {
    && rs[k].events != []
    && rs[k].offsetBefore == EndOffset(rs[..k])
    && rs[k].offsetAfter == rs[k].offsetBefore + |rs[k].events|
  }

  /** The records leave neither gap nor overlap. */
  ghost predicate Tiled(rs: seq<Record>) {
    forall k :: 0 <= k < |rs| ==> TiledAt(rs, k)
  }

  /** The stream as its consumers see it: every event in offset order. */
  function Flatten(rs: seq<Record>): seq<Envelope> {
    if rs == [] then [] else Flatten(rs[..|rs| - 1]) + rs[|rs| - 1].events
  }

  // ----- tiling -----

  lemma TiledPrefix(rs: seq<Record>, n: nat)
    requires Tiled(rs) && n <= |rs|
    ensures Tiled(rs[..n])
  {
    forall k | 0 <= k < n
      ensures TiledAt(rs[..n], k)
    {
      assert TiledAt(rs, k);
      assert rs[..n][..k] == rs[..k];
    }
  }

  lemma {:induction false} TiledMonotone(rs: seq<Record>, i: nat, j: nat)
    requires Tiled(rs) && i <= j < |rs|
    ensures rs[i].offsetBefore <= rs[j].offsetBefore
    ensures i < j ==> rs[i].offsetAfter <= rs[j].offsetBefore
    decreases j - i
  {
    if i < j {
      TiledMonotone(rs, i, j - 1);
      assert TiledAt(rs, j) && TiledAt(rs, j - 1);
    }
  }

  lemma EndOffsetBounds(rs: seq<Record>, k: nat, n: nat)
    requires Tiled(rs) && k < n <= |rs|
    ensures rs[k].offsetBefore < rs[k].offsetAfter <= EndOffset(rs[..n])
  {
    TiledMonotone(rs, k, n - 1);
    assert TiledAt(rs, k) && TiledAt(rs, n - 1);
  }

  lemma EndOffsetMonotone(rs: seq<Record>, n: nat)
    requires Tiled(rs) && n <= |rs|
    ensures EndOffset(rs[..n]) <= EndOffset(rs)
  {
    if 0 < n {
      EndOffsetBounds(rs, n - 1, |rs|);
      assert rs[..|rs|] == rs;
    }
  }

  lemma TiledAppend(rs: seq<Record>, events: seq<Envelope>)
    requires Tiled(rs) && events != []
    ensures Tiled(rs + [Record(EndOffset(rs), EndOffset(rs) + |events|, events)])
  {
    var rs' := rs + [Record(EndOffset(rs), EndOffset(rs) + |events|, events)];
    forall k | 0 <= k < |rs'|
      ensures TiledAt(rs', k)
    {
      assert rs'[..k] == rs[..k];
      if k == |rs| {
        assert rs[..k] == rs;
      } else {
        assert TiledAt(rs, k);
      }
    }
  }

  /** Every offset below the end is covered by a record. */
  lemma {:induction false} TilesCover(rs: seq<Record>, end: nat, off: nat) returns (k: nat)
    requires Tiled(rs) && end <= |rs| && off < EndOffset(rs[..end])
    ensures k < end && rs[k].Covers(off)
  {
    assert TiledAt(rs, end - 1);
    if rs[end - 1].offsetBefore <= off {
      k := end - 1;
    } else {
      k := TilesCover(rs, end - 1, off);
    }
  }

  /** No offset is covered twice. */
  lemma CoverUnique(rs: seq<Record>, i: nat, j: nat, off: nat)
    requires Tiled(rs) && i < |rs| && j < |rs|
    requires rs[i].Covers(off) && rs[j].Covers(off)
    ensures i == j
  {
    if i < j {
      TiledMonotone(rs, i, j);
    } else if j < i {
      TiledMonotone(rs, j, i);
    }
  }

  lemma {:induction false} FlattenLength(rs: seq<Record>)
    requires Tiled(rs)
    ensures |Flatten(rs)| == EndOffset(rs)
  {
    if rs != [] {
      assert TiledAt(rs, |rs| - 1);
      TiledPrefix(rs, |rs| - 1);
      FlattenLength(rs[..|rs| - 1]);
    }
  }

  /** An append-only journal never rewrites what was already visible in the stream. */
  lemma {:induction false} FlattenPrefix(rs: seq<Record>, n: nat)
    requires n <= |rs|
    ensures Flatten(rs[..n]) <= Flatten(rs)
    decreases |rs|
  {
    if n < |rs| {
      assert rs[..|rs| - 1][..n] == rs[..n];
      FlattenPrefix(rs[..|rs| - 1], n);
    } else {
      assert rs[..n] == rs;
    }
  }

  /** The offsets in the records are the indices of the flattened stream. */
  lemma FlattenTiles(rs: seq<Record>, k: nat)
    requires Tiled(rs) && k < |rs|
    ensures rs[k].offsetBefore < rs[k].offsetAfter <= |Flatten(rs)|
    ensures Flatten(rs)[rs[k].offsetBefore..rs[k].offsetAfter] == rs[k].events
  {
    assert TiledAt(rs, k);
    TiledPrefix(rs, k);
    FlattenLength(rs[..k]);
    assert rs[..k + 1][..k] == rs[..k];
    FlattenPrefix(rs, k + 1);
    assert Flatten(rs[..k]) + rs[k].events <= Flatten(rs);
  }

  // ----- looking up an append -----

  /** Linear scan: the first record at or after `from` whose first event has the given identifier. */
  function FirstMatch(rs: seq<Record>, from: nat, id: UUID): (r: Option<nat>)
    ensures r.Some? ==> from <= r.value < |rs| && rs[r.value].events != [] && rs[r.value].FirstID() == id
    ensures forall k :: from <= k < |rs| && (r.Some? ==> k < r.value) && rs[k].events != [] ==> rs[k].FirstID() != id
    decreases |rs| - from
  {
    if from >= |rs| then None
    else if rs[from].events != [] && rs[from].FirstID() == id then Some(from)
    else FirstMatch(rs, from + 1, id)
  }

  /** The position below `end` of the record that covers `off`. */
  function Covering(rs: seq<Record>, end: nat, off: nat): (r: Option<nat>)
    requires end <= |rs|
    ensures r.Some? ==> r.value < end && rs[r.value].Covers(off)
    ensures r.None? ==> forall k :: 0 <= k < end ==> !rs[k].Covers(off)
  {
    if end == 0 then None
    else if rs[end - 1].Covers(off) then Some(end - 1)
    else Covering(rs, end - 1, off)
  }

  /** What the worker asks of the journal: search below `end` for the hint, then scan on from the hit. */
  function FastLookup(rs: seq<Record>, end: nat, hint: nat, id: UUID): Option<nat>
    requires end <= |rs|
  {
    match Covering(rs, end, hint)
    case None => None
    case Some(k) => FirstMatch(rs, k, id)
  }

  lemma {:induction false} FirstMatchFrom(rs: seq<Record>, from: nat, to: nat, id: UUID)
    requires from <= to <= |rs|
    requires forall k :: from <= k < to && rs[k].events != [] ==> rs[k].FirstID() != id
    ensures FirstMatch(rs, from, id) == FirstMatch(rs, to, id)
    decreases |rs| - from
  {
    if from < to {
      FirstMatchFrom(rs, from + 1, to, id);
    }
  }

  /**
   * The fast lookup finds what a scan of the whole journal finds exactly when there is nothing to find
   * or the hint lies before the end of the record to find. The search itself always hits.
   */
  lemma FastLookupRefinesLinearScan(rs: seq<Record>, end: nat, hint: nat, id: UUID)
    requires Tiled(rs) && end <= |rs| && hint < EndOffset(rs[..end])
    ensures Covering(rs, end, hint).Some?
    ensures var found := FirstMatch(rs, 0, id);
            FastLookup(rs, end, hint, id) == found <==>
            (found.None? || hint < rs[found.value].offsetAfter)
  {
    var k := TilesCover(rs, end, hint);
    var h := Covering(rs, end, hint).value;
    var found := FirstMatch(rs, 0, id);
    if found.None? {
      FirstMatchFrom(rs, 0, h, id);
    } else if found.value < h {
      TiledMonotone(rs, found.value, h);
    } else {
      TiledMonotone(rs, h, found.value);
      assert TiledAt(rs, found.value);
      FirstMatchFrom(rs, 0, h, id);
    }
  }

  /** Binary search of the half-open interval `[0, end)`, driven by `SearchByOffset`. */
  method Search(rs: seq<Record>, end: nat, off: nat) returns (hit: Option<nat>)
    requires Tiled(rs) && end <= |rs|
    ensures hit == Covering(rs, end, off)
  {
    var lo, hi := 0, end;
    while lo < hi
      invariant lo <= hi <= end
      invariant forall k :: 0 <= k < lo ==> rs[k].offsetAfter <= off
      invariant forall k :: hi <= k < end ==> rs[k].offsetBefore > off
    {
      var mid := lo + (hi - lo) / 2;
      var cmp := SearchByOffset(off, rs[mid]);
      if cmp == 0 {
        CoveringIs(rs, end, off, mid);
        return Some(mid);
      } else if cmp < 0 {
        forall k | 0 <= k < mid
          ensures rs[k].offsetAfter <= off
        {
          TiledMonotone(rs, k, mid);
        }
        lo := mid + 1;
      } else {
        forall k | mid <= k < end
          ensures rs[k].offsetBefore > off
        {
          TiledMonotone(rs, mid, k);
        }
        hi := mid;
      }
    }
    return None;
  }

  lemma CoveringIs(rs: seq<Record>, end: nat, off: nat, k: nat)
    requires Tiled(rs) && k < end <= |rs| && rs[k].Covers(off)
    ensures Covering(rs, end, off) == Some(k)
  {
    CoverUnique(rs, k, Covering(rs, end, off).value, off);
  }

  /** Forward scan from a position to the end of the journal. */
  method Scan(rs: seq<Record>, from: nat, id: UUID) returns (found: Option<nat>)
    requires Tiled(rs)
    ensures found == FirstMatch(rs, from, id)
  {
    var k := from;
    while k < |rs|
      invariant from <= k
      invariant FirstMatch(rs, from, id) == FirstMatch(rs, k, id)
    {
      assert TiledAt(rs, k);
      if rs[k].FirstID() == id {
        return Some(k);
      }
      k := k + 1;
    }
    return None;
  }
}
