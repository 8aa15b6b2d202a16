/**
 * The agent's working memory (Tileworld_v13 MyMemory): a per-cell grid of
 * timestamped percepts, a parallel grid of bare entities, a counter of
 * occupied cells, a per-class index of the closest entity seen in the last
 * perception batch, and a remembered fuel-station cell.
 */
module Memory {
  import opened World

  /** Percepts older than this many schedule steps are always evicted. */
  const MAX_TIME: int := 10

  /** TWAgentPercept: an entity and the schedule time it was recorded at. */
  datatype Percept = Percept(e: Entity, t: int)

  /**
   * One entry of the sensed-objects bag: a null entry, or an entity together
   * with whether it is a TWObject (only those are remembered).
   */
  datatype Sensed = Null | Sighting(e: Entity, isObject: bool)

  /** The entry is remembered, and at cell (x, y). */
  predicate Hits(s: Sensed, x: int, y: int)
  {
    s.Sighting? && s.isObject && s.e.x == x && s.e.y == y
  }

  /** The entry is remembered and lies inside the grid. */
  predicate Ingested(s: Sensed, width: int, height: int)
  {
    s.Sighting? && s.isObject && InGrid(width, height, s.e.x, s.e.y)
  }

  /** The entity of the last entry of the batch that is remembered at (x, y). */
  function LastHit(batch: seq<Sensed>, x: int, y: int): (r: Option<Entity>)
    ensures r.None? <==> forall i :: 0 <= i < |batch| ==> !Hits(batch[i], x, y)
    ensures r.Some? ==> exists i :: 0 <= i < |batch| && Hits(batch[i], x, y) && batch[i].e == r.value &&
                                    (forall j :: i < j < |batch| ==> !Hits(batch[j], x, y))
  {
    if batch == [] then None
    else if Hits(batch[|batch| - 1], x, y) then Some(batch[|batch| - 1].e)
    else LastHit(batch[..|batch| - 1], x, y)
  }

  /** A percepts-grid cell after the batch has been written into it at time now. */
  function IngestCell(batch: seq<Sensed>, x: int, y: int, prev: Option<Percept>, now: int): Option<Percept>
  {
    match LastHit(batch, x, y)
    case Some(e) => Some(Percept(e, now))
    case None => prev
  }

  /** An entity-grid cell after the batch has been written into it. */
  function IngestGridCell(batch: seq<Sensed>, x: int, y: int, prev: Option<Entity>): Option<Entity>
  {
    match LastHit(batch, x, y)
    case Some(e) => Some(e)
    case None => prev
  }

  /** One more entry, for one remembered cell: it is overwritten exactly when the entry hits it. */
  lemma IngestStep(b: seq<Sensed>, r: Sensed, cx: int, cy: int, p: Option<Percept>, q: Option<Entity>, now: int)
    ensures IngestCell(b + [r], cx, cy, p, now) == if Hits(r, cx, cy) then Some(Percept(r.e, now)) else IngestCell(b, cx, cy, p, now)
    ensures IngestGridCell(b + [r], cx, cy, q) == if Hits(r, cx, cy) then Some(r.e) else IngestGridCell(b, cx, cy, q)
  {
    assert (b + [r])[..|b|] == b;
  }

  predicate Expired(p: Percept, now: int)
  {
    now - p.t > MAX_TIME
  }

  /** The cell is cleared by the decay pass: too old, or chosen by the random draw. */
  predicate Decays(c: Option<Percept>, now: int, drop: bool)
  {
    c.Some? && (Expired(c.value, now) || drop)
  }

  /** A cell after the decay pass; `drop` stands for the outcome of the random draw. */
  function DecayCell(c: Option<Percept>, now: int, drop: bool): (r: Option<Percept>)
    ensures r.Some? ==> r == c && !Expired(r.value, now)
    ensures c.Some? && Expired(c.value, now) ==> r.None?
    ensures c.Some? && !drop && !Expired(c.value, now) ==> r == c
  {
    if Decays(c, now, drop) then None else c
  }

  /** Every entry of the closest-in-sensor-range index is filed under its own class. */
  predicate KindsMatch(closest: map<Kind, Entity>)
  {
    forall k :: k in closest ==> closest[k].kind == k
  }

  function DistTo(ax: int, ay: int, e: Entity): nat
  {
    SqDist(ax, ay, e.x, e.y)
  }

  /**
   * updateClosest: file e under its class unless an entity already filed there
   * is at least as close to the agent at (ax, ay).
   */
  function UpdateClosest(closest: map<Kind, Entity>, e: Entity, ax: int, ay: int): (r: map<Kind, Entity>)
    ensures r.Keys == closest.Keys + {e.kind}
    ensures forall k :: k in closest && k != e.kind ==> r[k] == closest[k]
    ensures r[e.kind] == e || (e.kind in closest && r[e.kind] == closest[e.kind])
    ensures DistTo(ax, ay, r[e.kind]) <= DistTo(ax, ay, e)
    ensures e.kind in closest ==> DistTo(ax, ay, r[e.kind]) <= DistTo(ax, ay, closest[e.kind])
    ensures e.kind in closest && DistTo(ax, ay, closest[e.kind]) <= DistTo(ax, ay, e) ==> r[e.kind] == closest[e.kind]
    ensures KindsMatch(closest) ==> KindsMatch(r)
  {
    if e.kind !in closest then closest[e.kind := e]
    else if DistTo(ax, ay, e) < DistTo(ax, ay, closest[e.kind]) then closest[e.kind := e]
    else closest
  }

  /** The index after every remembered in-grid entry of the batch has passed through updateClosest. */
  function ClosestAfter(init: map<Kind, Entity>, batch: seq<Sensed>, ax: int, ay: int, width: int, height: int): map<Kind, Entity>
  {
    if batch == [] then init
    else
      var c := ClosestAfter(init, batch[..|batch| - 1], ax, ay, width, height);
      var s := batch[|batch| - 1];
      if Ingested(s, width, height) then UpdateClosest(c, s.e, ax, ay) else c
  }

  /** One more entry: the index moves on by it. */
  lemma ClosestStep(c: map<Kind, Entity>, b: seq<Sensed>, r: Sensed, ax: int, ay: int, width: int, height: int)
    ensures ClosestAfter(c, b + [r], ax, ay, width, height) ==
      if Ingested(r, width, height) then UpdateClosest(ClosestAfter(c, b, ax, ay, width, height), r.e, ax, ay)
      else ClosestAfter(c, b, ax, ay, width, height)
  {
    assert (b + [r])[..|b|] == b;
  }

  /** Entry i of the batch is an ingested entity of class k. */
  predicate IngestedOf(batch: seq<Sensed>, i: int, k: Kind, width: int, height: int)
    requires 0 <= i < |batch|
  {
    Ingested(batch[i], width, height) && batch[i].e.kind == k
  }

  /** A class is indexed after a batch iff it was before or an ingested entry has that class. */
  lemma {:induction false} ClosestAfterKeys(init: map<Kind, Entity>, batch: seq<Sensed>, ax: int, ay: int, width: int, height: int)
    ensures var r := ClosestAfter(init, batch, ax, ay, width, height);
      forall k :: (k in r <==> k in init || exists i :: 0 <= i < |batch| && IngestedOf(batch, i, k, width, height))
  {
    if batch != [] {
      var n := |batch| - 1;
      var pre := batch[..n];
      ClosestAfterKeys(init, pre, ax, ay, width, height);
      var c := ClosestAfter(init, pre, ax, ay, width, height);
      var r := ClosestAfter(init, batch, ax, ay, width, height);
      forall k
        ensures k in r <==> k in init || exists i :: 0 <= i < |batch| && IngestedOf(batch, i, k, width, height)
      {
        if k in init || exists i :: 0 <= i < n && IngestedOf(pre, i, k, width, height) {
          assert k in c;
          if !(k in init) {
            var i :| 0 <= i < n && IngestedOf(pre, i, k, width, height);
            assert IngestedOf(batch, i, k, width, height);
          }
        } else if exists i :: 0 <= i < |batch| && IngestedOf(batch, i, k, width, height) {
          var i :| 0 <= i < |batch| && IngestedOf(batch, i, k, width, height);
          if i < n {
            assert IngestedOf(pre, i, k, width, height);
          }
          assert i == n;
        } else {
          assert !IngestedOf(batch, n, k, width, height);
        }
      }
    }
  }

  /**
   * The indexed entity is no farther from (ax, ay) than any ingested entry of
   * its class, nor than the entity indexed before.
   */
  lemma {:induction false} ClosestAfterNearest(init: map<Kind, Entity>, batch: seq<Sensed>, ax: int, ay: int, width: int, height: int)
    ensures var r := ClosestAfter(init, batch, ax, ay, width, height);
      forall k, i :: k in r && 0 <= i < |batch| && IngestedOf(batch, i, k, width, height) ==>
        DistTo(ax, ay, r[k]) <= DistTo(ax, ay, batch[i].e)
    ensures var r := ClosestAfter(init, batch, ax, ay, width, height);
      forall k :: k in r && k in init ==> DistTo(ax, ay, r[k]) <= DistTo(ax, ay, init[k])
  {
    if batch != [] {
      var n := |batch| - 1;
      var pre := batch[..n];
      ClosestAfterNearest(init, pre, ax, ay, width, height);
      ClosestAfterKeys(init, pre, ax, ay, width, height);
      var c := ClosestAfter(init, pre, ax, ay, width, height);
      var r := ClosestAfter(init, batch, ax, ay, width, height);
      forall k, i | k in r && 0 <= i < |batch| && IngestedOf(batch, i, k, width, height)
        ensures DistTo(ax, ay, r[k]) <= DistTo(ax, ay, batch[i].e)
      {
        if i < n {
          assert IngestedOf(pre, i, k, width, height);
          assert k in c;
        }
      }
    }
  }

  /**
   * The indexed entity is the one indexed before, or the FIRST ingested entry
   * of its class at its distance, strictly nearer than the one indexed before:
   * a tie keeps the earlier entity.
   */
  lemma {:induction false} ClosestAfterFirst(init: map<Kind, Entity>, batch: seq<Sensed>, ax: int, ay: int, width: int, height: int)
    ensures var r := ClosestAfter(init, batch, ax, ay, width, height);
      forall k :: k in r ==>
        (k in init && r[k] == init[k]) ||
        (exists i :: 0 <= i < |batch| && IngestedOf(batch, i, k, width, height) && r[k] == batch[i].e &&
          (k in init ==> DistTo(ax, ay, r[k]) < DistTo(ax, ay, init[k])) &&
          (forall j :: 0 <= j < i && IngestedOf(batch, j, k, width, height) ==> DistTo(ax, ay, r[k]) < DistTo(ax, ay, batch[j].e)))
  {
    if batch != [] {
      var n := |batch| - 1;
      var pre := batch[..n];
      ClosestAfterFirst(init, pre, ax, ay, width, height);
      ClosestAfterNearest(init, pre, ax, ay, width, height);
      ClosestAfterKeys(init, pre, ax, ay, width, height);
      var c := ClosestAfter(init, pre, ax, ay, width, height);
      var r := ClosestAfter(init, batch, ax, ay, width, height);
      forall k | k in r
        ensures (k in init && r[k] == init[k]) ||
          (exists i :: 0 <= i < |batch| && IngestedOf(batch, i, k, width, height) && r[k] == batch[i].e &&
            (k in init ==> DistTo(ax, ay, r[k]) < DistTo(ax, ay, init[k])) &&
            (forall j :: 0 <= j < i && IngestedOf(batch, j, k, width, height) ==> DistTo(ax, ay, r[k]) < DistTo(ax, ay, batch[j].e)))
      {
        if k in c && r[k] == c[k] {
          if !(k in init && r[k] == init[k]) {
            var i :| 0 <= i < n && IngestedOf(pre, i, k, width, height) && c[k] == pre[i].e &&
              (k in init ==> DistTo(ax, ay, c[k]) < DistTo(ax, ay, init[k])) &&
              (forall j :: 0 <= j < i && IngestedOf(pre, j, k, width, height) ==> DistTo(ax, ay, c[k]) < DistTo(ax, ay, pre[j].e));
            assert IngestedOf(batch, i, k, width, height) && r[k] == batch[i].e;
            forall j | 0 <= j < i && IngestedOf(batch, j, k, width, height)
              ensures DistTo(ax, ay, r[k]) < DistTo(ax, ay, batch[j].e)
            {
              assert IngestedOf(pre, j, k, width, height);
            }
          }
        } else {
          var e := batch[n].e;
          assert r == UpdateClosest(c, e, ax, ay);
          assert e.kind == k && r[k] == e && IngestedOf(batch, n, k, width, height);
          assert k in c ==> DistTo(ax, ay, e) < DistTo(ax, ay, c[k]);
          assert k in init ==> DistTo(ax, ay, e) < DistTo(ax, ay, init[k]);
          forall j | 0 <= j < n && IngestedOf(batch, j, k, width, height)
            ensures DistTo(ax, ay, r[k]) < DistTo(ax, ay, batch[j].e)
          {
            assert IngestedOf(pre, j, k, width, height);
          }
        }
      }
    }
  }

  /** The index built from scratch by one perception batch. */
  lemma ClosestIndexCorrect(batch: seq<Sensed>, ax: int, ay: int, width: int, height: int)
    ensures var r := ClosestAfter(map[], batch, ax, ay, width, height);
      forall k :: k in r <==> exists i :: 0 <= i < |batch| && IngestedOf(batch, i, k, width, height)
    ensures var r := ClosestAfter(map[], batch, ax, ay, width, height);
      forall k :: k in r ==> exists i :: (0 <= i < |batch| && IngestedOf(batch, i, k, width, height) && r[k] == batch[i].e &&
        (forall j :: 0 <= j < |batch| && IngestedOf(batch, j, k, width, height) ==> DistTo(ax, ay, r[k]) <= DistTo(ax, ay, batch[j].e)) &&
        (forall j :: 0 <= j < i && IngestedOf(batch, j, k, width, height) ==> DistTo(ax, ay, r[k]) < DistTo(ax, ay, batch[j].e)))
  {
    ClosestAfterKeys(map[], batch, ax, ay, width, height);
    ClosestAfterNearest(map[], batch, ax, ay, width, height);
    ClosestAfterFirst(map[], batch, ax, ay, width, height);
  }

  /** Folding a batch over an index that already beats every candidate changes nothing. */
  lemma {:induction false} ClosestAfterStable(c: map<Kind, Entity>, batch: seq<Sensed>, ax: int, ay: int, width: int, height: int)
    requires forall i :: 0 <= i < |batch| && Ingested(batch[i], width, height) ==>
      batch[i].e.kind in c && DistTo(ax, ay, c[batch[i].e.kind]) <= DistTo(ax, ay, batch[i].e)
    ensures ClosestAfter(c, batch, ax, ay, width, height) == c
  {
    if batch != [] {
      var n := |batch| - 1;
      assert forall i :: 0 <= i < n ==> batch[..n][i] == batch[i];
      ClosestAfterStable(c, batch[..n], ax, ay, width, height);
    }
  }

  /** Folding two batches one after the other is folding their concatenation. */
  lemma {:induction false} ClosestAfterAppend(c: map<Kind, Entity>, b1: seq<Sensed>, b2: seq<Sensed>, ax: int, ay: int, width: int, height: int)
    ensures ClosestAfter(c, b1 + b2, ax, ay, width, height) ==
            ClosestAfter(ClosestAfter(c, b1, ax, ay, width, height), b2, ax, ay, width, height)
  {
    if b2 == [] {
      assert b1 + b2 == b1;
    } else {
      var n := |b2| - 1;
      assert (b1 + b2)[..|b1 + b2| - 1] == b1 + b2[..n];
      ClosestAfterAppend(c, b1, b2[..n], ax, ay, width, height);
    }
  }

  /**
   * Ingesting the same batch twice leaves the memory exactly as ingesting it
   * once: every cell and the closest index.
   */
  lemma IngestTwiceIsIngestOnce(c: map<Kind, Entity>, batch: seq<Sensed>, x: int, y: int, prev: Option<Percept>, now: int,
                                ax: int, ay: int, width: int, height: int)
    ensures IngestCell(batch + batch, x, y, prev, now) == IngestCell(batch, x, y, prev, now)
    ensures ClosestAfter(c, batch + batch, ax, ay, width, height) == ClosestAfter(c, batch, ax, ay, width, height)
  {
    LastHitAppend(batch, batch, x, y);
    ClosestAfterAppend(c, batch, batch, ax, ay, width, height);
    var r := ClosestAfter(c, batch, ax, ay, width, height);
    ClosestAfterKeys(c, batch, ax, ay, width, height);
    ClosestAfterNearest(c, batch, ax, ay, width, height);
    forall i | 0 <= i < |batch| && Ingested(batch[i], width, height)
      ensures batch[i].e.kind in r && DistTo(ax, ay, r[batch[i].e.kind]) <= DistTo(ax, ay, batch[i].e)
    {
      assert IngestedOf(batch, i, batch[i].e.kind, width, height);
    }
    ClosestAfterStable(r, batch, ax, ay, width, height);
  }

  /** The last hit of a concatenation comes from the second part when it has one. */
  lemma {:induction false} LastHitAppend(b1: seq<Sensed>, b2: seq<Sensed>, x: int, y: int)
    ensures LastHit(b1 + b2, x, y) == if LastHit(b2, x, y).Some? then LastHit(b2, x, y) else LastHit(b1, x, y)
  {
    if b2 == [] {
      assert b1 + b2 == b1;
    } else {
      var n := |b2| - 1;
      assert (b1 + b2)[..|b1 + b2| - 1] == b1 + b2[..n];
      LastHitAppend(b1, b2[..n], x, y);
    }
  }

  // ----- getNearbyObject: the spiral search over remembered cells -----

  /** The cell holds a percept of the requested class. */
  predicate Matches(c: Option<Percept>, kind: Kind)
  {
    c.Some? && c.value.e.kind == kind
  }

  /** The cell holds a percept of the requested class seen at most threshold steps ago. */
  predicate FreshMatch(c: Option<Percept>, kind: Kind, now: int, threshold: int)
  {
    Matches(c, kind) && now - c.value.t <= threshold
  }

  /** Index of the first fresh match along the spiral, or |cs| if there is none. */
  function FirstFresh(cs: seq<Option<Percept>>, kind: Kind, now: int, threshold: int): (i: nat)
    ensures i <= |cs|
    ensures i < |cs| ==> FreshMatch(cs[i], kind, now, threshold)
    ensures forall j :: 0 <= j < i ==> !FreshMatch(cs[j], kind, now, threshold)
  {
    if cs == [] then 0
    else if FreshMatch(cs[0], kind, now, threshold) then 0
    else 1 + FirstFresh(cs[1..], kind, now, threshold)
  }

  /**
   * Among the first n cells: the index of the first match with the largest
   * timestamp, provided that timestamp is positive; n when no match among them
   * has a positive timestamp.
   */
  function Latest(cs: seq<Option<Percept>>, n: nat, kind: Kind): (i: nat)
    requires n <= |cs|
    ensures i <= n
    ensures i < n ==> Matches(cs[i], kind) && cs[i].value.t > 0
    ensures i < n ==> forall j :: 0 <= j < n && Matches(cs[j], kind) ==> cs[j].value.t <= cs[i].value.t
    ensures i < n ==> forall j :: 0 <= j < i && Matches(cs[j], kind) ==> cs[j].value.t < cs[i].value.t
    ensures i == n ==> forall j :: 0 <= j < n && Matches(cs[j], kind) ==> cs[j].value.t <= 0
  {
    if n == 0 then 0
    else
      var i := Latest(cs, n - 1, kind);
      var best := if i < n - 1 then cs[i].value.t else 0;
      if Matches(cs[n - 1], kind) && cs[n - 1].value.t > best then n - 1
      else if i < n - 1 then i
      else n
  }

  /**
   * getNearbyObject over the cells met along the spiral: the first fresh match;
   * failing that, the most recently seen match; failing that, nothing.
   */
  function NearbyObject(cs: seq<Option<Percept>>, kind: Kind, now: int, threshold: int): (r: Option<Entity>)
    ensures r.Some? ==> r.value.kind == kind
    ensures r.None? <==> forall j :: 0 <= j < |cs| && Matches(cs[j], kind) ==>
                          !FreshMatch(cs[j], kind, now, threshold) && cs[j].value.t <= 0
  {
    var i := FirstFresh(cs, kind, now, threshold);
    if i < |cs| then Some(cs[i].value.e)
    else
      var j := Latest(cs, |cs|, kind);
      if j < |cs| then Some(cs[j].value.e) else None
  }

  /**
   * The two ways the search can answer, stated on their own: the first fresh
   * match wins; with no fresh match the answer is a match no older than any
   * other and strictly newer than every match before it.
   */
  lemma NearbyObjectChoice(cs: seq<Option<Percept>>, kind: Kind, now: int, threshold: int, i: nat)
    requires i < |cs| && FreshMatch(cs[i], kind, now, threshold)
    requires forall j :: 0 <= j < i ==> !FreshMatch(cs[j], kind, now, threshold)
    ensures NearbyObject(cs, kind, now, threshold) == Some(cs[i].value.e)
  {
  }

  /**
   * The running best of the search loop after the first n cells: the last
   * match seen whose timestamp beat every earlier one, starting from 0.
   */
  function Scan(cs: seq<Option<Percept>>, n: nat, kind: Kind): (Option<Entity>, int)
    requires n <= |cs|
  {
    if n == 0 then (None, 0)
    else
      var (ret, maxTimestamp) := Scan(cs, n - 1, kind);
      if Matches(cs[n - 1], kind) && cs[n - 1].value.t > maxTimestamp then (Some(cs[n - 1].value.e), cs[n - 1].value.t)
      else (ret, maxTimestamp)
  }

  /** The running best is the latest positive-stamped match. */
  lemma {:induction false} ScanIsLatest(cs: seq<Option<Percept>>, n: nat, kind: Kind)
    requires n <= |cs|
    ensures var l := Latest(cs, n, kind);
      Scan(cs, n, kind) == if l < n then (Some(cs[l].value.e), cs[l].value.t) else (None, 0)
  {
    if n > 0 {
      ScanIsLatest(cs, n - 1, kind);
    }
  }

  /** With no fresh match anywhere, the search answers its running best over all the cells. */
  lemma NearbyObjectIsScan(cs: seq<Option<Percept>>, kind: Kind, now: int, threshold: int)
    requires forall j :: 0 <= j < |cs| ==> !FreshMatch(cs[j], kind, now, threshold)
    ensures NearbyObject(cs, kind, now, threshold) == Scan(cs, |cs|, kind).0
  {
    ScanIsLatest(cs, |cs|, kind);
  }

  lemma NearbyObjectStale(cs: seq<Option<Percept>>, kind: Kind, now: int, threshold: int)
    requires forall j :: 0 <= j < |cs| ==> !FreshMatch(cs[j], kind, now, threshold)
    requires NearbyObject(cs, kind, now, threshold).Some?
    ensures exists i :: (0 <= i < |cs| && Matches(cs[i], kind) && NearbyObject(cs, kind, now, threshold) == Some(cs[i].value.e) &&
      cs[i].value.t > 0 &&
      (forall j :: 0 <= j < |cs| && Matches(cs[j], kind) ==> cs[j].value.t <= cs[i].value.t) &&
      (forall j :: 0 <= j < i && Matches(cs[j], kind) ==> cs[j].value.t < cs[i].value.t))
  {
    var i := Latest(cs, |cs|, kind);
    assert i < |cs|;
  }

  // ----- the memory object -----

  class MyMemory {
    const width: nat
    const height: nat
    /** The NeighbourSpiral offsets, nearest ring first. */
    const spiral: seq<Pos>
    /** objects[x][y]: the latest percept of cell (x, y). */
    const objects: array2<Option<Percept>>
    /** memoryGrid: the bare entity of each cell, which other components also write. */
    const memoryGrid: array2<Option<Entity>>
    var memorySize: int
    /** closestInSensorRange, keyed by entity class. */
    var closest: map<Kind, Entity>
    var fuelStation: Option<Pos>

    ghost predicate Valid()
      reads this
    {
      objects.Length0 == width && objects.Length1 == height &&
      memoryGrid.Length0 == width && memoryGrid.Length1 == height &&
      KindsMatch(closest)
    }

    /** The cells that hold a percept. */
    ghost function Occupied(): set<Pos>
      reads objects
    {
      set x, y | 0 <= x < objects.Length0 && 0 <= y < objects.Length1 && objects[x, y].Some? :: Pos(x, y)
    }

    /** memorySize counts exactly the cells that hold a percept. */
    ghost predicate SizeConsistent()
      reads this`memorySize, objects
    {
      memorySize == |Occupied()|
    }

    /** How far memorySize is from the true number of occupied cells. */
    ghost function Drift(): int
      reads this`memorySize, objects
    {
      memorySize - |Occupied()|
    }

    constructor (width: nat, height: nat, spiral: seq<Pos>)
      ensures Valid() && SizeConsistent()
      ensures this.width == width && this.height == height && this.spiral == spiral
      ensures fresh(objects) && fresh(memoryGrid)
      ensures forall x, y :: InGrid(width, height, x, y) ==> objects[x, y].None? && memoryGrid[x, y].None?
      ensures memorySize == 0 && closest == map[] && fuelStation.None?
    {
      this.width := width;
      this.height := height;
      this.spiral := spiral;
      objects := new Option<Percept>[width, height]((x, y) => None);
      memoryGrid := new Option<Entity>[width, height]((x, y) => None);
      memorySize := 0;
      closest := map[];
      fuelStation := None;
      new;
      assert Occupied() == {};
    }

    /** The percept remembered at (x, y), None outside the grid. */
    function CellAt(x: int, y: int): Option<Percept>
      reads this, objects
    {
      if 0 <= x < objects.Length0 && 0 <= y < objects.Length1 then objects[x, y] else None
    }

    /** The cells the spiral search visits from (sx, sy), in visiting order. */
    ghost function Candidates(sx: int, sy: int): (cs: seq<Option<Percept>>)
      reads this, objects
      ensures |cs| == |spiral|
    {
      seq(|spiral|, i requires 0 <= i < |spiral| reads this, objects => CellAt(sx + spiral[i].x, sy + spiral[i].y))
    }

    /** updateEntityInMemory: overwrite the cell of e with a percept stamped now. */
    method UpdateEntityInMemory(e: Entity, now: int, ax: int, ay: int)
      requires Valid()
      modifies this, objects, memoryGrid
      ensures Valid() && fuelStation == old(fuelStation)
      ensures InGrid(width, height, e.x, e.y) ==>
        objects[e.x, e.y] == Some(Percept(e, now)) && memoryGrid[e.x, e.y] == Some(e) &&
        memorySize == old(memorySize) + (if old(objects[e.x, e.y]).None? then 1 else 0) &&
        closest == UpdateClosest(old(closest), e, ax, ay)
      ensures !InGrid(width, height, e.x, e.y) ==> memorySize == old(memorySize) && closest == old(closest)
      ensures forall x, y :: InGrid(width, height, x, y) && (x != e.x || y != e.y) ==>
        objects[x, y] == old(objects[x, y]) && memoryGrid[x, y] == old(memoryGrid[x, y])
      ensures Drift() == old(Drift())
    {
      if InGrid(width, height, e.x, e.y) {
        ghost var before := Occupied();
        if objects[e.x, e.y].None? {
          memorySize := memorySize + 1;
        }
        objects[e.x, e.y] := Some(Percept(e, now));
        memoryGrid[e.x, e.y] := Some(e);
        closest := UpdateClosest(closest, e, ax, ay);
        assert Occupied() == before + {Pos(e.x, e.y)};
      }
    }

    /**
     * cleanExpiredMemory: clear every cell older than MAX_TIME, and every other
     * occupied cell for which the random draw, drop(x, y), says so.
     */
    method CleanExpiredMemory(now: int, drop: (int, int) -> bool)
      requires Valid()
      modifies this, objects, memoryGrid
      ensures Valid() && closest == old(closest) && fuelStation == old(fuelStation)
      ensures forall x, y :: InGrid(width, height, x, y) ==>
        objects[x, y] == DecayCell(old(objects[x, y]), now, drop(x, y))
      ensures forall x, y :: InGrid(width, height, x, y) ==>
        memoryGrid[x, y] == if Decays(old(objects[x, y]), now, drop(x, y)) then None else old(memoryGrid[x, y])
      ensures Drift() == old(Drift())
    {
      var x := 0;
      while x < width
        invariant 0 <= x <= width
        invariant Valid() && closest == old(closest) && fuelStation == old(fuelStation) && Drift() == old(Drift())
        invariant forall i, j :: InGrid(width, height, i, j) ==>
          objects[i, j] == (if i < x then DecayCell(old(objects[i, j]), now, drop(i, j)) else old(objects[i, j])) &&
          memoryGrid[i, j] == (if i < x && Decays(old(objects[i, j]), now, drop(i, j)) then None else old(memoryGrid[i, j]))
      {
        DecayColumn(x, now, drop);
        x := x + 1;
      }
    }

    /** Column x of the decay pass. */
    method DecayColumn(x: int, now: int, drop: (int, int) -> bool)
      requires Valid() && 0 <= x < width
      modifies this, objects, memoryGrid
      ensures Valid() && closest == old(closest) && fuelStation == old(fuelStation) && Drift() == old(Drift())
      ensures forall i, j :: InGrid(width, height, i, j) ==>
        objects[i, j] == (if i == x then DecayCell(old(objects[i, j]), now, drop(i, j)) else old(objects[i, j])) &&
        memoryGrid[i, j] == (if i == x && Decays(old(objects[i, j]), now, drop(i, j)) then None else old(memoryGrid[i, j]))
    {
      var y := 0;
      while y < height
        invariant 0 <= y <= height
        invariant Valid() && closest == old(closest) && fuelStation == old(fuelStation) && Drift() == old(Drift())
        invariant forall i, j :: InGrid(width, height, i, j) ==>
          objects[i, j] == (if i == x && j < y then DecayCell(old(objects[i, j]), now, drop(i, j)) else old(objects[i, j])) &&
          memoryGrid[i, j] == (if i == x && j < y && Decays(old(objects[i, j]), now, drop(i, j)) then None
                               else old(memoryGrid[i, j]))
      {
        var percept := objects[x, y];
        if percept.Some? {
          if now - percept.value.t > MAX_TIME {
            ClearCell(x, y);
          } else if drop(x, y) {
            ClearCell(x, y);
          }
        }
        y := y + 1;
      }
    }

    /** One removal of the decay pass: both grids cleared, memorySize decremented. */
    method ClearCell(x: int, y: int)
      requires Valid() && InGrid(width, height, x, y) && objects[x, y].Some?
      modifies this`memorySize, objects, memoryGrid
      ensures Valid()
      ensures objects[x, y].None? && memoryGrid[x, y].None? && memorySize == old(memorySize) - 1
      ensures forall i, j :: InGrid(width, height, i, j) && (i != x || j != y) ==>
        objects[i, j] == old(objects[i, j]) && memoryGrid[i, j] == old(memoryGrid[i, j])
      ensures Drift() == old(Drift())
    {
      ghost var before := Occupied();
      objects[x, y] := None;
      memoryGrid[x, y] := None;
      memorySize := memorySize - 1;
      assert Occupied() == before - {Pos(x, y)};
    }

    /**
     * updateMemory: a null bag changes nothing; otherwise the closest index is
     * rebuilt from this batch alone, every remembered in-grid entry is written
     * (the last one wins a cell), and then the decay pass runs over the whole
     * grid, fresh cells included.
     */
    method UpdateMemory(sensed: Option<seq<Sensed>>, now: int, ax: int, ay: int, drop: (int, int) -> bool)
      requires Valid()
      modifies this, objects, memoryGrid
      ensures Valid() && fuelStation == old(fuelStation)
      ensures sensed.None? ==> unchanged(this, objects, memoryGrid)
      ensures sensed.Some? ==> closest == ClosestAfter(map[], sensed.value, ax, ay, width, height)
      ensures sensed.Some? ==> forall x, y :: InGrid(width, height, x, y) ==>
        objects[x, y] == DecayCell(IngestCell(sensed.value, x, y, old(objects[x, y]), now), now, drop(x, y))
      ensures sensed.Some? ==> forall x, y :: InGrid(width, height, x, y) ==>
        memoryGrid[x, y] == if Decays(IngestCell(sensed.value, x, y, old(objects[x, y]), now), now, drop(x, y))
                            then None else IngestGridCell(sensed.value, x, y, old(memoryGrid[x, y]))
      ensures Drift() == old(Drift())
    {
      if sensed.None? {
        return;
      }
      var batch := sensed.value;
      closest := map[];
      ghost var seen: seq<Sensed> := [];
      var i := 0;
      while i < |batch|
        invariant 0 <= i <= |batch|
        invariant Valid() && fuelStation == old(fuelStation)
        invariant seen == batch[..i]
        invariant closest == ClosestAfter(map[], seen, ax, ay, width, height)
        invariant forall x, y :: InGrid(width, height, x, y) ==>
          objects[x, y] == IngestCell(seen, x, y, old(objects[x, y]), now) &&
          memoryGrid[x, y] == IngestGridCell(seen, x, y, old(memoryGrid[x, y]))
        invariant Drift() == old(Drift())
      {
        var s := batch[i];
        ClosestStep(map[], seen, s, ax, ay, width, height);
        IngestEntry(s, now, ax, ay);
        forall x, y | InGrid(width, height, x, y)
          ensures objects[x, y] == IngestCell(seen + [s], x, y, old(objects[x, y]), now)
          ensures memoryGrid[x, y] == IngestGridCell(seen + [s], x, y, old(memoryGrid[x, y]))
        {
          IngestStep(seen, s, x, y, old(objects[x, y]), old(memoryGrid[x, y]), now);
        }
        assert batch[..i + 1] == seen + [s];
        seen := seen + [s];
        i := i + 1;
      }
      assert batch[..|batch|] == batch;
      CleanExpiredMemory(now, drop);
    }

    /** One entry of the sensed batch: a remembered entity is written into memory, anything else is skipped. */
    method IngestEntry(s: Sensed, now: int, ax: int, ay: int)
      requires Valid()
      modifies this, objects, memoryGrid
      ensures Valid() && fuelStation == old(fuelStation) && Drift() == old(Drift())
      ensures closest == if Ingested(s, width, height) then UpdateClosest(old(closest), s.e, ax, ay) else old(closest)
      ensures forall x, y :: InGrid(width, height, x, y) ==>
        objects[x, y] == (if Hits(s, x, y) then Some(Percept(s.e, now)) else old(objects[x, y])) &&
        memoryGrid[x, y] == (if Hits(s, x, y) then Some(s.e) else old(memoryGrid[x, y]))
    {
      if s.Sighting? && s.isObject {
        UpdateEntityInMemory(s.e, now, ax, ay);
      }
    }

    /**
     * updateFromMessage: no entity, no change; otherwise the entity is ingested
     * and, iff it is a fuel station, its cell becomes the remembered station.
     */
    method UpdateFromMessage(entity: Option<Entity>, now: int, ax: int, ay: int)
      requires Valid()
      modifies this, objects, memoryGrid
      ensures Valid()
      ensures entity.None? ==> unchanged(this, objects, memoryGrid)
      ensures entity.Some? ==>
        var e := entity.value;
        (InGrid(width, height, e.x, e.y) ==>
          objects[e.x, e.y] == Some(Percept(e, now)) && memoryGrid[e.x, e.y] == Some(e) &&
          memorySize == old(memorySize) + (if old(objects[e.x, e.y]).None? then 1 else 0) &&
          closest == UpdateClosest(old(closest), e, ax, ay)) &&
        (!InGrid(width, height, e.x, e.y) ==> memorySize == old(memorySize) && closest == old(closest)) &&
        (forall x, y :: InGrid(width, height, x, y) && (x != e.x || y != e.y) ==>
          objects[x, y] == old(objects[x, y]) && memoryGrid[x, y] == old(memoryGrid[x, y])) &&
        fuelStation == if e.kind == FuelStation then Some(Pos(e.x, e.y)) else old(fuelStation)
      ensures Drift() == old(Drift())
    {
      if entity.None? {
        return;
      }
      var e := entity.value;
      UpdateEntityInMemory(e, now, ax, ay);
      if e.kind == FuelStation {
        fuelStation := Some(Pos(e.x, e.y));
      }
    }

    /**
     * removeAgentPercept: forget the percept of (x, y). The entity grid and
     * memorySize are left alone, so clearing an occupied cell leaves memorySize
     * one above the number of occupied cells.
     */
    method RemoveAgentPercept(x: int, y: int)
      requires Valid() && InGrid(width, height, x, y)
      modifies objects
      ensures objects[x, y].None?
      ensures forall i, j :: InGrid(width, height, i, j) && (i != x || j != y) ==> objects[i, j] == old(objects[i, j])
      ensures Drift() == old(Drift()) + (if old(objects[x, y]).Some? then 1 else 0)
    {
      ghost var before := Occupied();
      objects[x, y] := None;
      assert Occupied() == before - {Pos(x, y)};
    }

    /** removeObject: forget the percept of the cell o stands on. */
    method RemoveObject(o: Entity)
      requires Valid() && InGrid(width, height, o.x, o.y)
      modifies objects
      ensures objects[o.x, o.y].None?
      ensures forall i, j :: InGrid(width, height, i, j) && (i != o.x || j != o.y) ==> objects[i, j] == old(objects[i, j])
      ensures Drift() == old(Drift()) + (if old(objects[o.x, o.y]).Some? then 1 else 0)
    {
      RemoveAgentPercept(o.x, o.y);
    }

    /**
     * getNearbyObject: walk the spiral from (sx, sy); answer the first in-grid
     * percept of the class seen at most threshold steps ago, otherwise the one
     * with the largest positive timestamp, otherwise nothing.
     */
    method GetNearbyObject(sx: int, sy: int, threshold: int, kind: Kind, now: int) returns (r: Option<Entity>)
      requires Valid()
      ensures r == NearbyObject(Candidates(sx, sy), kind, now, threshold)
    {
      ghost var cs := Candidates(sx, sy);
      var maxTimestamp := 0;
      var ret: Option<Entity> := None;
      var i := 0;
      while i < |spiral|
        invariant 0 <= i <= |spiral|
        invariant forall j :: 0 <= j < i ==> !FreshMatch(cs[j], kind, now, threshold)
        invariant (ret, maxTimestamp) == Scan(cs, i, kind)
      {
        var x := spiral[i].x + sx;
        var y := spiral[i].y + sy;
        var cell := CellAt(x, y);
        assert cell == cs[i];
        if cell.Some? && cell.value.e.kind == kind {
          if now - cell.value.t <= threshold {
            NearbyObjectChoice(cs, kind, now, threshold, i);
            return Some(cell.value.e);
          } else if cell.value.t > maxTimestamp {
            ret := Some(cell.value.e);
            maxTimestamp := cell.value.t;
          }
        }
        i := i + 1;
      }
      NearbyObjectIsScan(cs, kind, now, threshold);
      r := ret;
    }

    /** getNearbyTile. */
    method GetNearbyTile(x: int, y: int, threshold: int, now: int) returns (r: Option<Entity>)
      requires Valid()
      ensures r == NearbyObject(Candidates(x, y), Tile, now, threshold)
      ensures r.Some? ==> r.value.kind == Tile
    {
      r := GetNearbyObject(x, y, threshold, Tile, now);
    }

    /** getNearbyHole. */
    method GetNearbyHole(x: int, y: int, threshold: int, now: int) returns (r: Option<Entity>)
      requires Valid()
      ensures r == NearbyObject(Candidates(x, y), Hole, now, threshold)
      ensures r.Some? ==> r.value.kind == Hole
    {
      r := GetNearbyObject(x, y, threshold, Hole, now);
    }

    /** getClosestObjectInSensorRange. */
    function GetClosestObjectInSensorRange(kind: Kind): (r: Option<Entity>)
      requires Valid()
      reads this
      ensures r.Some? <==> kind in closest
      ensures r.Some? ==> r.value.kind == kind && r.value == closest[kind]
    {
      if kind in closest then Some(closest[kind]) else None
    }

    /** isCellBlocked: an empty cell is open; otherwise blocked iff it remembers an obstacle. */
    function IsCellBlocked(tx: int, ty: int): (r: bool)
      requires Valid() && InGrid(width, height, tx, ty)
      reads this, objects
      ensures objects[tx, ty].None? ==> !r
      ensures objects[tx, ty].Some? ==> (r <==> objects[tx, ty].value.e.kind == Obstacle)
    {
      objects[tx, ty].Some? && objects[tx, ty].value.e.kind == Obstacle
    }

    /** getFuelStation. */
    function GetFuelStation(): Option<Pos>
      reads this
    {
      fuelStation
    }
  }
}
