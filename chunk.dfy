/** The two pieces of src/chunk/Chunk.tsx that compute: the 3 x 3 x 3 block of chunks a chunk
    is meshed from, and the reconciliation of the physics colliders with a fresh output of
    `voxelColliders`. The physics world is reduced to the events it receives. */
module Chunk {
  import opened Data
  import opened JsText
  import opened VoxelMesher
  import opened VoxelColliders

  // ------------------------------------------------------- the neighbourhood

  /** The offset, each component in -1 .. 1, of entry `i` of the block. */
  function Offset(i: int): Vec3 {
    Vec3(i % 3 - 1, i / 3 % 3 - 1, i / 9 - 1)
  }

  /** The block around `center`: entry `i` is the chunk at `center + Offset(i)`. */
  function Neighbours(chunkAt: Vec3 -> ChunkData, center: Vec3): (data: seq<ChunkData>)
    ensures |data| == 27
  {
    seq(27, i => chunkAt(Add(center, Offset(i))))
  }

  lemma OffsetOf(x: int, y: int, z: int)
    requires -1 <= x <= 1 && -1 <= y <= 1 && -1 <= z <= 1
    ensures Offset((z + 1) * 9 + (y + 1) * 3 + (x + 1)) == Vec3(x, y, z)
  {
  }

  /** The neighbourhood loop of the component: `getChunk(...).use()` pushed for z, y and x
      from -1 to 1. `chunkAt` is what the store's `getChunk` signal holds for each position. */
  method BuildNeighbourhood(chunkAt: Vec3 -> ChunkData, center: Vec3) returns (data: seq<ChunkData>)
    ensures data == Neighbours(chunkAt, center)
  {
    ghost var all := Neighbours(chunkAt, center);
    data := [];
    for z := -1 to 2
      invariant |data| == (z + 1) * 9 && data == all[..(z + 1) * 9]
    {
      for y := -1 to 2
        invariant |data| == (z + 1) * 9 + (y + 1) * 3 && data == all[..(z + 1) * 9 + (y + 1) * 3]
      {
        for x := -1 to 2
          invariant |data| == (z + 1) * 9 + (y + 1) * 3 + (x + 1)
          invariant data == all[..(z + 1) * 9 + (y + 1) * 3 + (x + 1)]
        {
          var n := (z + 1) * 9 + (y + 1) * 3 + (x + 1);
          OffsetOf(x, y, z);
          assert all[n] == chunkAt(Add(center, Offset(n)));
          assert all[..n + 1] == all[..n] + [all[n]];
          data := data + [chunkAt(Vec3(center.x + x, center.y + y, center.z + z))];
        }
      }
    }
  }

  /** Entry `(z + 1) * 9 + (y + 1) * 3 + (x + 1)` is the chunk at `center + (x, y, z)`. */
  lemma NeighbourAt(chunkAt: Vec3 -> ChunkData, center: Vec3, x: int, y: int, z: int)
    requires -1 <= x <= 1 && -1 <= y <= 1 && -1 <= z <= 1
    ensures Neighbours(chunkAt, center)[(z + 1) * 9 + (y + 1) * 3 + (x + 1)]
      == chunkAt(Vec3(center.x + x, center.y + y, center.z + z))
  {
    var n := (z + 1) * 9 + (y + 1) * 3 + (x + 1);
    OffsetOf(x, y, z);
    assert Neighbours(chunkAt, center)[n] == chunkAt(Add(center, Offset(n)));
  }

  /** Entry 13, the one the mesher and the merger treat as their own chunk, is the chunk itself. */
  lemma CentreIsChunk(chunkAt: Vec3 -> ChunkData, center: Vec3)
    ensures Neighbours(chunkAt, center)[13] == chunkAt(center)
  {
    NeighbourAt(chunkAt, center, 0, 0, 0);
  }

  /** The block is a neighbourhood `getVoxel` can read whenever every chunk holds a full voxel array. */
  lemma NeighboursFit(chunkAt: Vec3 -> ChunkData, center: Vec3)
    requires forall c: Vec3 :: |chunkAt(c).voxels| == ChunkVolume
    ensures Neighbourhood(Neighbours(chunkAt, center))
  {
    var data := Neighbours(chunkAt, center);
    forall i | 0 <= i < 27 ensures |data[i].voxels| == ChunkVolume {
      assert data[i] == chunkAt(Add(center, Offset(i)));
    }
  }

  /** The order of the block is the one `getVoxel` expects: a local coordinate in -16 .. 31 reads
      the chunk `center + (x / 16, y / 16, z / 16)` (rounding down) at the cell `(x, y, z) mod 16`. */
  lemma NeighbourVoxel(chunkAt: Vec3 -> ChunkData, center: Vec3, x: int, y: int, z: int)
    requires forall c: Vec3 :: |chunkAt(c).voxels| == ChunkVolume
    requires InReach(x, y, z)
    ensures Neighbourhood(Neighbours(chunkAt, center))
    ensures GetVoxel(Neighbours(chunkAt, center), x, y, z)
      == chunkAt(Vec3(center.x + x / 16, center.y + y / 16, center.z + z / 16)).voxels[Idx(x % 16, y % 16, z % 16)]
  {
    var data := Neighbours(chunkAt, center);
    NeighboursFit(chunkAt, center);
    GetVoxelIndex(data, x, y, z);
    assert (x + 16) / 16 == x / 16 + 1 && (x + 16) % 16 == x % 16;
    assert (y + 16) / 16 == y / 16 + 1 && (y + 16) % 16 == y % 16;
    assert (z + 16) / 16 == z / 16 + 1 && (z + 16) % 16 == z % 16;
    NeighbourAt(chunkAt, center, x / 16, y / 16, z / 16);
  }

  // ------------------------------------------------------- ordered maps

  /** A physics collider, as the world identifies it. */
  type Handle = nat

  /** What the component asks of the physics world. */
  datatype Event = Create(box: Collider, handle: Handle) | Remove(handle: Handle)

  /** The keys of a JavaScript `Map` given by its entries in insertion order. */
  function KeysOf<K, V>(m: seq<(K, V)>): set<K> {
    set i | 0 <= i < |m| :: m[i].0
  }

  predicate UniqueKeys<K(==), V>(m: seq<(K, V)>) {
    forall i, j :: 0 <= i < j < |m| ==> m[i].0 != m[j].0
  }

  /** `m.get(k)`; `None` is `undefined`. */
  function Get<K(==)>(m: seq<(K, Handle)>, k: K): Option<Handle> {
    if m == [] then None else if m[0].0 == k then Some(m[0].1) else Get(m[1..], k)
  }

  /** `m.delete(k)`. */
  function Delete<K(==)>(m: seq<(K, Handle)>, k: K): seq<(K, Handle)> {
    if m == [] then [] else (if m[0].0 == k then [] else [m[0]]) + Delete(m[1..], k)
  }

  /** `m.set(k, h)`: a present key keeps its place and takes the new value; a new key goes last. */
  function Put<K(==)>(m: seq<(K, Handle)>, k: K, h: Handle): seq<(K, Handle)> {
    if m == [] then [(k, h)] else if m[0].0 == k then [(k, h)] + m[1..] else [m[0]] + Put(m[1..], k, h)
  }

  /** The entries of `m` whose keys are not in `ks`, in their order. */
  function Without<K(==)>(m: seq<(K, Handle)>, ks: set<K>): seq<(K, Handle)> {
    if m == [] then [] else (if m[0].0 in ks then [] else [m[0]]) + Without(m[1..], ks)
  }

  lemma {:induction false} KeysOfCons<K, V>(e: (K, V), m: seq<(K, V)>)
    ensures KeysOf([e] + m) == {e.0} + KeysOf(m)
  {
    var t := [e] + m;
    forall k | k in KeysOf(t) ensures k in {e.0} + KeysOf(m) {
      var i :| 0 <= i < |t| && t[i].0 == k;
      if i > 0 {
        assert m[i - 1] == t[i];
      }
    }
    forall k | k in KeysOf(m) ensures k in KeysOf(t) {
      var i :| 0 <= i < |m| && m[i].0 == k;
      assert t[i + 1] == m[i];
    }
    assert t[0] == e;
  }

  lemma {:induction false} KeysOfTail<K, V>(m: seq<(K, V)>)
    requires m != []
    ensures KeysOf(m) == {m[0].0} + KeysOf(m[1..])
  {
    assert m == [m[0]] + m[1..];
    KeysOfCons(m[0], m[1..]);
  }

  lemma {:induction false} UniqueTail<K, V>(m: seq<(K, V)>)
    requires m != [] && UniqueKeys(m)
    ensures UniqueKeys(m[1..]) && m[0].0 !in KeysOf(m[1..])
  {
    assert forall i :: 0 <= i < |m[1..]| ==> m[1..][i] == m[i + 1];
  }

  lemma {:induction false} UniqueCons<K, V>(e: (K, V), m: seq<(K, V)>)
    requires UniqueKeys(m) && e.0 !in KeysOf(m)
    ensures UniqueKeys([e] + m)
  {
    var t := [e] + m;
    forall i, j | 0 <= i < j < |t| ensures t[i].0 != t[j].0 {
      assert t[j] == m[j - 1];
      if i > 0 {
        assert t[i] == m[i - 1];
      }
    }
  }

  /** `get` finds a key exactly when it is present. */
  lemma {:induction false} GetPresent<K>(m: seq<(K, Handle)>, k: K)
    ensures Get(m, k).Some? <==> k in KeysOf(m)
  {
    if m != [] {
      KeysOfTail(m);
      GetPresent(m[1..], k);
    }
  }

  lemma {:induction false} GetPut<K>(m: seq<(K, Handle)>, k: K, h: Handle, q: K)
    ensures Get(Put(m, k, h), q) == if q == k then Some(h) else Get(m, q)
  {
    if m != [] && m[0].0 != k {
      GetPut(m[1..], k, h, q);
    }
  }

  /** `set` adds its key and no other; it keeps the keys unique. */
  lemma {:induction false} PutKeys<K>(m: seq<(K, Handle)>, k: K, h: Handle)
    ensures KeysOf(Put(m, k, h)) == KeysOf(m) + {k}
    ensures UniqueKeys(m) ==> UniqueKeys(Put(m, k, h))
  {
    if m == [] {
      assert KeysOf([(k, h)]) == {k} by {
        KeysOfCons((k, h), []);
      }
    } else if m[0].0 == k {
      KeysOfCons((k, h), m[1..]);
      KeysOfTail(m);
      if UniqueKeys(m) {
        UniqueTail(m);
        UniqueCons((k, h), m[1..]);
      }
    } else {
      PutKeys(m[1..], k, h);
      KeysOfCons(m[0], Put(m[1..], k, h));
      KeysOfTail(m);
      if UniqueKeys(m) {
        UniqueTail(m);
        UniqueCons(m[0], Put(m[1..], k, h));
      }
    }
  }

  lemma {:induction false} GetWithout<K>(m: seq<(K, Handle)>, ks: set<K>, q: K)
    ensures Get(Without(m, ks), q) == if q in ks then None else Get(m, q)
  {
    if m != [] {
      GetWithout(m[1..], ks, q);
      if m[0].0 !in ks {
        assert Without(m, ks) == [m[0]] + Without(m[1..], ks);
      } else {
        assert Without(m, ks) == Without(m[1..], ks);
      }
    }
  }

  /** Deleting one more key from what is left of `m` leaves `m` without that key too. */
  lemma {:induction false} DeleteWithout<K>(m: seq<(K, Handle)>, ks: set<K>, k: K)
    ensures Delete(Without(m, ks), k) == Without(m, ks + {k})
  {
    if m != [] {
      DeleteWithout(m[1..], ks, k);
      if m[0].0 in ks {
        assert Without(m, ks) == Without(m[1..], ks);
      } else {
        assert Without(m, ks) == [m[0]] + Without(m[1..], ks);
        assert Delete(Without(m, ks), k) == (if m[0].0 == k then [] else [m[0]]) + Delete(Without(m[1..], ks), k);
      }
    }
  }

  // ------------------------------------------------------- reconciliation

  /** The state of the `forEach` over the new boxes: what is left of the previous map (`current`
      in the component), the map being filled (`colliders.current`), the events so far, and the
      handle the world gives the next collider it creates. */
  datatype Pass<K> = Pass(previous: seq<(K, Handle)>, current: seq<(K, Handle)>, events: seq<Event>, next: Handle)

  /** One box with key `k`: reuse and delete the previous collider, or create one; then record it. */
  function Visit<K(==)>(p: Pass<K>, k: K, box: Collider): Pass<K> {
    match Get(p.previous, k)
    case None => Pass(p.previous, Put(p.current, k, p.next), p.events + [Create(box, p.next)], p.next + 1)
    case Some(h) => Pass(Delete(p.previous, k), Put(p.current, k, h), p.events, p.next)
  }

  /** The `forEach` over the keyed boxes `keyed`, from the previous map and an empty new one. */
  function Visits<K(==)>(previous: seq<(K, Handle)>, keyed: seq<(K, Collider)>, next: Handle): Pass<K>
    decreases |keyed|
  {
    if keyed == [] then Pass(previous, [], [], next)
    else
      var last := keyed[|keyed| - 1];
      Visit(Visits(previous, keyed[..|keyed| - 1], next), last.0, last.1)
  }

  /** The final `forEach` over the leftovers: one removal each, in insertion order. */
  function Removals<K>(m: seq<(K, Handle)>): (r: seq<Event>)
    ensures |r| == |m| && forall i :: 0 <= i < |m| ==> r[i] == Remove(m[i].1)
  {
    seq(|m|, i requires 0 <= i < |m| => Remove(m[i].1))
  }

  /** The boxes, with their keys, whose keys the previous map lacks. */
  function Absent<K(==)>(previous: seq<(K, Handle)>, keyed: seq<(K, Collider)>): seq<(K, Collider)>
    decreases |keyed|
  {
    if keyed == [] then []
    else
      var last := keyed[|keyed| - 1];
      Absent(previous, keyed[..|keyed| - 1]) + (if last.0 in KeysOf(previous) then [] else [last])
  }

  /** One creation for each of `boxes`, with the handles `next`, `next + 1`, ... */
  function Creations<K>(boxes: seq<(K, Collider)>, next: Handle): (r: seq<Event>)
    ensures |r| == |boxes| && forall j :: 0 <= j < |boxes| ==> r[j] == Create(boxes[j].1, next + j)
  {
    seq(|boxes|, j requires 0 <= j < |boxes| => Create(boxes[j].1, next + j))
  }

  /** The new map and the events of one reconciliation. */
  function Reconciled<K(==)>(previous: seq<(K, Handle)>, keyed: seq<(K, Collider)>, next: Handle)
    : (r: (seq<(K, Handle)>, seq<Event>))
  {
    var p := Visits(previous, keyed, next);
    (p.current, p.events + Removals(p.previous))
  }

  /** Whatever the boxes: what is left of the previous map is its entries whose keys no box has,
      and the new map holds each box key once and nothing else. */
  lemma {:induction false} VisitsKeys<K>(previous: seq<(K, Handle)>, keyed: seq<(K, Collider)>, next: Handle)
    ensures Visits(previous, keyed, next).previous == Without(previous, KeysOf(keyed))
    ensures KeysOf(Visits(previous, keyed, next).current) == KeysOf(keyed)
    ensures UniqueKeys(Visits(previous, keyed, next).current)
    decreases |keyed|
  {
    if keyed == [] {
      assert KeysOf(keyed) == {};
      WithoutNone(previous);
    } else {
      var init := keyed[..|keyed| - 1];
      var last := keyed[|keyed| - 1];
      assert keyed == init + [last];
      var p := Visits(previous, init, next);
      VisitsKeys(previous, init, next);
      KeysOfSnoc(init, last);
      PutKeys(p.current, last.0, if Get(p.previous, last.0).Some? then Get(p.previous, last.0).value else p.next);
      if Get(p.previous, last.0).Some? {
        DeleteWithout(previous, KeysOf(init), last.0);
      } else {
        GetPresent(p.previous, last.0);
        WithoutAbsent(previous, KeysOf(init), last.0);
      }
    }
  }

  lemma {:induction false} WithoutNone<K>(m: seq<(K, Handle)>)
    ensures Without(m, {}) == m
  {
    if m != [] {
      WithoutNone(m[1..]);
      assert m == [m[0]] + m[1..];
    }
  }

  /** Leaving out a key the remainder does not hold changes nothing. */
  lemma {:induction false} WithoutAbsent<K>(m: seq<(K, Handle)>, ks: set<K>, k: K)
    requires k !in KeysOf(Without(m, ks))
    ensures Without(m, ks + {k}) == Without(m, ks)
  {
    if m != [] {
      var w := Without(m[1..], ks);
      if m[0].0 in ks {
        assert Without(m, ks) == w;
      } else {
        assert Without(m, ks) == [m[0]] + w;
        KeysOfCons(m[0], w);
      }
      WithoutAbsent(m[1..], ks, k);
    }
  }

  lemma {:induction false} KeysOfSnoc<K, V>(m: seq<(K, V)>, e: (K, V))
    ensures KeysOf(m + [e]) == KeysOf(m) + {e.0}
  {
    var t := m + [e];
    forall k | k in KeysOf(t) ensures k in KeysOf(m) + {e.0} {
      var i :| 0 <= i < |t| && t[i].0 == k;
      if i < |m| {
        assert t[i] == m[i];
      }
    }
    forall k | k in KeysOf(m) ensures k in KeysOf(t) {
      var i :| 0 <= i < |m| && m[i].0 == k;
      assert t[i] == m[i];
    }
    assert t[|m|] == e;
  }

  lemma {:induction false} UniqueInit<K, V>(m: seq<(K, V)>)
    requires m != [] && UniqueKeys(m)
    ensures UniqueKeys(m[..|m| - 1]) && m[|m| - 1].0 !in KeysOf(m[..|m| - 1])
  {
    var init := m[..|m| - 1];
    assert forall i :: 0 <= i < |init| ==> init[i] == m[i];
  }

  /** With distinct box keys: a box whose key the previous map had keeps that map's collider, the
      events so far are exactly a creation for each box whose key was absent (with fresh handles,
      in box order), and each such box is stored with a handle from that range (`NewHandles`
      says which one). */
  lemma {:induction false} VisitsReuse<K>(previous: seq<(K, Handle)>, keyed: seq<(K, Collider)>, next: Handle)
    requires UniqueKeys(keyed)
    ensures var p := Visits(previous, keyed, next);
      && p.events == Creations(Absent(previous, keyed), next)
      && p.next == next + |Absent(previous, keyed)|
      && (forall k :: k in KeysOf(keyed) && k in KeysOf(previous) ==> Get(p.current, k) == Get(previous, k))
      && (forall k :: k in KeysOf(keyed) && k !in KeysOf(previous) ==>
            Get(p.current, k).Some? && next <= Get(p.current, k).value < p.next)
    decreases |keyed|
  {
    if keyed != [] {
      var init := keyed[..|keyed| - 1];
      var last := keyed[|keyed| - 1];
      assert keyed == init + [last];
      var p := Visits(previous, init, next);
      UniqueInit(keyed);
      VisitsReuse(previous, init, next);
      VisitsKeys(previous, init, next);
      KeysOfSnoc(init, last);
      GetWithout(previous, KeysOf(init), last.0);
      GetPresent(previous, last.0);
      var q := Visits(previous, keyed, next);
      var h := if Get(p.previous, last.0).Some? then Get(p.previous, last.0).value else p.next;
      assert Get(p.previous, last.0) == Get(previous, last.0);
      assert q.current == Put(p.current, last.0, h);
      forall k | k in KeysOf(keyed) && k in KeysOf(previous) ensures Get(q.current, k) == Get(previous, k) {
        GetPut(p.current, last.0, h, k);
      }
      forall k | k in KeysOf(keyed) && k !in KeysOf(previous)
        ensures Get(q.current, k).Some? && next <= Get(q.current, k).value < q.next
      {
        GetPut(p.current, last.0, h, k);
      }
      if last.0 !in KeysOf(previous) {
        assert Absent(previous, keyed) == Absent(previous, init) + [last];
        assert q.events == p.events + [Create(last.1, p.next)];
      } else {
        assert Absent(previous, keyed) == Absent(previous, init) + [];
        assert q.next == p.next;
      }
    }
  }

  /** With distinct box keys: the j-th box created for is recorded under its own key with the
      j-th fresh handle, the one its creation event carries. */
  lemma {:induction false} NewHandles<K>(previous: seq<(K, Handle)>, keyed: seq<(K, Collider)>, next: Handle)
    requires UniqueKeys(keyed)
    ensures var absent := Absent(previous, keyed);
      forall j :: 0 <= j < |absent| ==> Get(Visits(previous, keyed, next).current, absent[j].0) == Some(next + j)
    decreases |keyed|
  {
    if keyed != [] {
      var init := keyed[..|keyed| - 1];
      var last := keyed[|keyed| - 1];
      assert keyed == init + [last];
      var p := Visits(previous, init, next);
      var a0 := Absent(previous, init);
      var absent := Absent(previous, keyed);
      UniqueInit(keyed);
      NewHandles(previous, init, next);
      VisitsReuse(previous, init, next);
      VisitsKeys(previous, init, next);
      AbsentKeys(previous, init);
      GetWithout(previous, KeysOf(init), last.0);
      GetPresent(previous, last.0);
      var h := if Get(p.previous, last.0).Some? then Get(p.previous, last.0).value else p.next;
      var q := Visits(previous, keyed, next);
      assert q.current == Put(p.current, last.0, h);
      forall j | 0 <= j < |absent| ensures Get(q.current, absent[j].0) == Some(next + j) {
        GetPut(p.current, last.0, h, absent[j].0);
        if j < |a0| {
          assert absent[j] == a0[j];
          assert a0[j].0 in KeysOf(a0);
        } else {
          assert last.0 !in KeysOf(previous) && absent == a0 + [last];
        }
      }
    }
  }

  /** The physics world, seen as the log of what it was asked to do. */
  class PhysicsWorld {
    /** The handle the next collider gets. */
    var next: Handle
    var events: seq<Event>

    constructor ()
      ensures next == 0 && events == []
    {
      next := 0;
      events := [];
    }

    /** `world.createCollider(...)` for a cuboid of the box's size at the box's position. */
    method CreateCollider(box: Collider) returns (h: Handle)
      modifies this
      ensures h == old(next) && next == old(next) + 1 && events == old(events) + [Create(box, h)]
    {
      h := next;
      events := events + [Create(box, h)];
      next := next + 1;
    }

    /** `world.removeCollider(h, true)`. */
    method RemoveCollider(h: Handle)
      modifies this
      ensures next == old(next) && events == old(events) + [Remove(h)]
    {
      events := events + [Remove(h)];
    }
  }

  /** The collider effect for boxes already keyed: fills a new map from the boxes, reusing the
      previous map's colliders and creating the missing ones, then removes what is left over. */
  method Reconcile<K(==)>(world: PhysicsWorld, previous: seq<(K, Handle)>, keyed: seq<(K, Collider)>)
    returns (current: seq<(K, Handle)>)
    modifies world
    ensures current == Reconciled(previous, keyed, old(world.next)).0
    ensures world.events == old(world.events) + Reconciled(previous, keyed, old(world.next)).1
    ensures world.next == Visits(previous, keyed, old(world.next)).next
  {
    ghost var next0 := world.next;
    ghost var events0 := world.events;
    var rest := previous;
    current := [];
    for i := 0 to |keyed|
      invariant var p := Visits(previous, keyed[..i], next0);
        rest == p.previous && current == p.current && world.events == events0 + p.events && world.next == p.next
    {
      assert keyed[..i + 1][..i] == keyed[..i];
      rest, current := VisitBox(world, rest, current, keyed[i].0, keyed[i].1,
        Visits(previous, keyed[..i], next0), events0);
    }
    assert keyed[..|keyed|] == keyed;
    RemoveAll(world, rest);
  }

  /** The body of the `forEach`: `get`, then `createCollider` or `delete`, then `set`. `p` is the
      pass so far and `events0` the world's log before it began. */
  method VisitBox<K(==)>(world: PhysicsWorld, rest: seq<(K, Handle)>, current: seq<(K, Handle)>, key: K, box: Collider,
    ghost p: Pass<K>, ghost events0: seq<Event>)
    returns (rest': seq<(K, Handle)>, current': seq<(K, Handle)>)
    requires p.previous == rest && p.current == current && p.next == world.next && world.events == events0 + p.events
    modifies world
    ensures var q := Visit(p, key, box);
      rest' == q.previous && current' == q.current && world.events == events0 + q.events && world.next == q.next
  {
    var found := Get(rest, key);
    var collider;
    rest' := rest;
    if found.None? {
      collider := world.CreateCollider(box);
    } else {
      collider := found.value;
      rest' := Delete(rest, key);
    }
    current' := Put(current, key, collider);
  }

  /** The unmount effect: every collider of the map is removed, in insertion order. */
  method RemoveAll<K>(world: PhysicsWorld, current: seq<(K, Handle)>)
    modifies world
    ensures world.next == old(world.next) && world.events == old(world.events) + Removals(current)
  {
    for j := 0 to |current|
      invariant world.next == old(world.next) && world.events == old(world.events) + Removals(current[..j])
    {
      assert Removals(current[..j + 1]) == Removals(current[..j]) + [Remove(current[j].1)];
      world.RemoveCollider(current[j].1);
    }
    assert current[..|current|] == current;
  }

  // ------------------------------------------------------- collider keys

  /** The key `${position}:${size}` of a box, components joined with ':'. */
  function ColliderKey(b: Collider): string {
    Join([b.position.x, b.position.y, b.position.z, b.size.x, b.size.y, b.size.z])
  }

  /** The boxes with their keys, in order. */
  function Keyed(boxes: seq<Collider>): (r: seq<(string, Collider)>)
    ensures |r| == |boxes| && forall i :: 0 <= i < |boxes| ==> r[i] == (ColliderKey(boxes[i]), boxes[i])
  {
    seq(|boxes|, i requires 0 <= i < |boxes| => (ColliderKey(boxes[i]), boxes[i]))
  }

  /** Different boxes have different keys. */
  lemma ColliderKeyInjective(a: Collider, b: Collider)
    requires ColliderKey(a) == ColliderKey(b)
    ensures a == b
  {
    var xs := [a.position.x, a.position.y, a.position.z, a.size.x, a.size.y, a.size.z];
    var ys := [b.position.x, b.position.y, b.position.z, b.size.x, b.size.y, b.size.z];
    JoinInjective(xs, ys);
    assert xs[0] == ys[0] && xs[1] == ys[1] && xs[2] == ys[2];
    assert xs[3] == ys[3] && xs[4] == ys[4] && xs[5] == ys[5];
  }

  /** The boxes `voxelColliders` returns have pairwise different keys. */
  lemma CollidersKeysUnique(vox: seq<byte>)
    requires |vox| == ChunkVolume
    ensures UniqueKeys(Keyed(Colliders(vox)))
  {
    var bs := Colliders(vox);
    var keyed := Keyed(bs);
    forall i, j | 0 <= i < j < |keyed| ensures keyed[i].0 != keyed[j].0 {
      if keyed[i].0 == keyed[j].0 {
        ColliderKeyInjective(bs[i], bs[j]);
        CollidersFit(vox, i);
        CollidersDisjoint(vox, i, j);
        CellsMember(bs[i], bs[i].position);
        assert false;
      }
    }
  }

  /** The collider effect of the component: key the new boxes and reconcile. */
  method ReconcileColliders(world: PhysicsWorld, previous: seq<(string, Handle)>, boxes: seq<Collider>)
    returns (current: seq<(string, Handle)>)
    modifies world
    ensures current == Reconciled(previous, Keyed(boxes), old(world.next)).0
    ensures world.events == old(world.events) + Reconciled(previous, Keyed(boxes), old(world.next)).1
  {
    current := Reconcile(world, previous, Keyed(boxes));
  }

  /** After a reconciliation with distinct box keys: the new map's keys are the box keys; a key the
      previous map had keeps its collider; creations are exactly the boxes with absent keys, with
      fresh handles, each recorded under the key of the box it was created for; and the removals
      are exactly the previous colliders whose keys no box has, in the previous map's order. */
  lemma ReconcileFacts<K>(previous: seq<(K, Handle)>, keyed: seq<(K, Collider)>, next: Handle)
    requires UniqueKeys(keyed)
    ensures var (current, events) := Reconciled(previous, keyed, next);
      var absent := Absent(previous, keyed);
      && KeysOf(current) == KeysOf(keyed) && UniqueKeys(current)
      && (forall k :: k in KeysOf(keyed) && k in KeysOf(previous) ==> Get(current, k) == Get(previous, k))
      && (forall k :: k in KeysOf(keyed) && k !in KeysOf(previous) ==>
            Get(current, k).Some? && next <= Get(current, k).value < next + |absent|)
      && (forall j :: 0 <= j < |absent| ==> Get(current, absent[j].0) == Some(next + j))
      && events == Creations(absent, next) + Removals(Without(previous, KeysOf(keyed)))
  {
    VisitsKeys(previous, keyed, next);
    VisitsReuse(previous, keyed, next);
    NewHandles(previous, keyed, next);
  }

  /** Only boxes whose keys the previous map lacked are created. */
  lemma AbsentKeys<K>(previous: seq<(K, Handle)>, keyed: seq<(K, Collider)>)
    ensures KeysOf(Absent(previous, keyed)) == KeysOf(keyed) - KeysOf(previous)
    decreases |keyed|
  {
    if keyed == [] {
    } else {
      var init := keyed[..|keyed| - 1];
      var last := keyed[|keyed| - 1];
      assert keyed == init + [last];
      AbsentKeys(previous, init);
      KeysOfSnoc(init, last);
      if last.0 in KeysOf(previous) {
        assert Absent(previous, keyed) == Absent(previous, init) + [];
        assert Absent(previous, init) + [] == Absent(previous, init);
      } else {
        assert Absent(previous, keyed) == Absent(previous, init) + [last];
        KeysOfSnoc(Absent(previous, init), last);
      }
    }
  }

  /** A reconciliation against the map it produced creates and removes nothing. */
  lemma ReconcileAgain<K>(previous: seq<(K, Handle)>, keyed: seq<(K, Collider)>, next: Handle)
    requires UniqueKeys(keyed)
    ensures var current := Reconciled(previous, keyed, next).0;
      Reconciled(current, keyed, next + |Absent(previous, keyed)|).1 == []
  {
    var current := Reconciled(previous, keyed, next).0;
    ReconcileFacts(previous, keyed, next);
    ReconcileFacts(current, keyed, next + |Absent(previous, keyed)|);
    AbsentKeys(current, keyed);
    var absent := Absent(current, keyed);
    if absent != [] {
      KeysOfTail(absent);
    }
    WithoutAll(current, KeysOf(keyed));
  }

  /** Leaving out every key of `m` leaves nothing. */
  lemma {:induction false} WithoutAll<K>(m: seq<(K, Handle)>, ks: set<K>)
    requires KeysOf(m) <= ks
    ensures Without(m, ks) == []
  {
    if m != [] {
      KeysOfTail(m);
      WithoutAll(m[1..], ks);
    }
  }
}
