/** The collider merger `voxelColliders` of src/chunk/voxelMesher.ts: a greedy pass over the
    centre chunk in z, y, x order that starts a box at every solid cell not yet covered, grows
    it in depth (z), then height (y), then width (x), and marks its cells in the bitmap `map`. */
module VoxelColliders {
  import opened Data
  import opened VoxelMesher

  /** `{ position, size }`: the lowest cell of the box and its width (x), height (y) and depth (z). */
  datatype Collider = Collider(position: Vec3, size: Vec3)

  /** A solid cell of the centre chunk, whose voxels are `vox`. */
  predicate Filled(vox: seq<byte>, x: int, y: int, z: int)
    requires |vox| == ChunkVolume
  {
    InChunk(x, y, z) && vox[Idx(x, y, z)] != 0
  }

  /** A cell the merger may still take: solid and not yet marked in `map`. */
  predicate Open(vox: seq<byte>, visited: set<Vec3>, x: int, y: int, z: int)
    requires |vox| == ChunkVolume
  {
    Filled(vox, x, y, z) && Vec3(x, y, z) !in visited
  }

  // --------------------------------------------------------- growing a box

  /** Which cells a box may take; the merger asks `Opening(vox, visited)`. */
  type Probe = (int, int, int) -> bool

  function Opening(vox: seq<byte>, visited: set<Vec3>): Probe {
    (x: int, y: int, z: int) => |vox| == ChunkVolume && Open(vox, visited, x, y, z)
  }

  /** The depth loop: the first `i` from `i0` on where column (x, y) is blocked, `chunkSize` at the latest. */
  function DepthEnd(open: Probe, x: int, y: int, i: int): int
    requires 0 <= i <= ChunkSize
    decreases ChunkSize - i
  {
    if i == ChunkSize || !open(x, y, i) then i else DepthEnd(open, x, y, i + 1)
  }

  /** The height loop in layer `i` from row `j` on: it runs while `j <= y + h`, and the first
      blocked row cuts the height to `j - y`, which also ends the loop. */
  function HeightCut(open: Probe, x: int, y: int, i: int, j: int, h: int): int
    decreases y + h + 1 - j
  {
    if j > y + h then h
    else if j == ChunkSize || !open(x, j, i) then j - y
    else HeightCut(open, x, y, i, j + 1, h)
  }

  /** The height after the height loop has visited the first `t` layers from `z`. */
  function Height(open: Probe, x: int, y: int, z: int, t: int): int
    decreases t
  {
    if t <= 0 then ChunkSize - y
    else HeightCut(open, x, y, z + t - 1, y + 1, Height(open, x, y, z, t - 1))
  }

  /** The width loop in row `j` of layer `i` from column `k` on, like `HeightCut`. */
  function WidthCut(open: Probe, x: int, j: int, i: int, k: int, w: int): int
    decreases x + w + 1 - k
  {
    if k > x + w then w
    else if k == ChunkSize || !open(k, j, i) then k - x
    else WidthCut(open, x, j, i, k + 1, w)
  }

  /** The width after the rows `y .. y + r - 1` of layer `i`, starting from width `w`. */
  function WidthLayer(open: Probe, x: int, y: int, i: int, r: int, w: int): int
    decreases r
  {
    if r <= 0 then w
    else WidthCut(open, x, y + r - 1, i, x + 1, WidthLayer(open, x, y, i, r - 1, w))
  }

  /** The width after the width loop has visited the first `t` layers from `z`, `h` rows each. */
  function Width(open: Probe, x: int, y: int, z: int, h: int, t: int): int
    decreases t
  {
    if t <= 0 then ChunkSize - x
    else WidthLayer(open, x, y, z + t - 1, h, Width(open, x, y, z, h, t - 1))
  }

  /** The box `voxelColliders` grows from cell `c`. */
  function GrowBox(open: Probe, c: Vec3): Collider
    requires InChunk(c.x, c.y, c.z)
  {
    var d := DepthEnd(open, c.x, c.y, c.z + 1) - c.z;
    var h := Height(open, c.x, c.y, c.z, d);
    var w := Width(open, c.x, c.y, c.z, h, d);
    Collider(c, Vec3(w, h, d))
  }

  // ------------------------------------------------------------ box cells

  /** The cells of box `b`. */
  function Cells(b: Collider): set<Vec3> {
    set i, j, k | b.position.z <= i < b.position.z + b.size.z && b.position.y <= j < b.position.y + b.size.y
      && b.position.x <= k < b.position.x + b.size.x :: Vec3(k, j, i)
  }

  predicate InBox(b: Collider, c: Vec3) {
    && b.position.x <= c.x < b.position.x + b.size.x
    && b.position.y <= c.y < b.position.y + b.size.y
    && b.position.z <= c.z < b.position.z + b.size.z
  }

  /** Positive sizes, inside the chunk. */
  predicate Fits(b: Collider) {
    && InChunk(b.position.x, b.position.y, b.position.z)
    && 1 <= b.size.x && b.position.x + b.size.x <= ChunkSize
    && 1 <= b.size.y && b.position.y + b.size.y <= ChunkSize
    && 1 <= b.size.z && b.position.z + b.size.z <= ChunkSize
  }

  /** The scan index of a box's first cell. */
  function Start(b: Collider): int {
    b.position.z * 256 + b.position.y * 16 + b.position.x
  }

  // ----------------------------------------------------------- the merge

  /** The merger's state: the cells marked in `map` and the boxes emitted so far. */
  datatype Merge = Merge(visited: set<Vec3>, colliders: seq<Collider>)

  /** The body of the x loop for cell `c`: skipped when it is air or marked, otherwise a box
      grows from it, its cells are marked and it is emitted. */
  function Step(vox: seq<byte>, s: Merge, c: Vec3): Merge
    requires |vox| == ChunkVolume && InChunk(c.x, c.y, c.z)
  {
    if !Open(vox, s.visited, c.x, c.y, c.z) then s
    else
      var b := GrowBox(Opening(vox, s.visited), c);
      Merge(s.visited + Cells(b), s.colliders + [b])
  }

  function StepOf(vox: seq<byte>): (Merge, Vec3) -> Merge {
    (s: Merge, c: Vec3) => if |vox| == ChunkVolume && InChunk(c.x, c.y, c.z) then Step(vox, s, c) else s
  }

  /** `step` applied to the cells with index below `n`, in z, y, x order, from a cleared `map`. */
  function Fold(step: (Merge, Vec3) -> Merge, n: nat): Merge
    requires n <= ChunkVolume
    decreases step, n
  {
    if n == 0 then Merge({}, []) else step(Fold(step, n - 1), Cell(n - 1))
  }

  /** The state after the merger has visited the cells with index below `n`. */
  function Merged(vox: seq<byte>, n: nat): Merge
    requires n <= ChunkVolume
  {
    Fold(StepOf(vox), n)
  }

  /** What `voxelColliders` returns for a centre chunk with voxels `vox`. */
  function Colliders(vox: seq<byte>): seq<Collider> {
    Merged(vox, ChunkVolume).colliders
  }

  /** The cells of all of `bs`. */
  function Union(bs: seq<Collider>): set<Vec3> {
    if bs == [] then {} else Union(bs[..|bs| - 1]) + Cells(bs[|bs| - 1])
  }

  // ------------------------------------------------------- membership

  /** A box's cell set is exactly the cells inside it. */
  lemma CellsMember(b: Collider, c: Vec3)
    ensures c in Cells(b) <==> InBox(b, c)
  {
    if InBox(b, c) {
      assert c == Vec3(c.x, c.y, c.z);
    }
  }

  lemma {:induction false} UnionMember(bs: seq<Collider>, c: Vec3)
    ensures c in Union(bs) <==> exists i :: 0 <= i < |bs| && c in Cells(bs[i])
  {
    if bs != [] {
      var p := bs[..|bs| - 1];
      UnionMember(p, c);
      if c in Union(p) {
        var i :| 0 <= i < |p| && c in Cells(p[i]);
        assert bs[i] == p[i];
      }
      if exists i :: 0 <= i < |bs| && c in Cells(bs[i]) {
        var i :| 0 <= i < |bs| && c in Cells(bs[i]);
        if i < |p| {
          assert bs[i] == p[i];
        }
      }
    }
  }

  lemma UnionAppend(bs: seq<Collider>, b: Collider)
    ensures Union(bs + [b]) == Union(bs) + Cells(b)
  {
    assert (bs + [b])[..|bs|] == bs;
  }

  // ------------------------------------------------------- box facts

  lemma {:induction false} DepthFacts(open: Probe, x: int, y: int, i: int)
    requires 0 <= i <= ChunkSize
    ensures i <= DepthEnd(open, x, y, i) <= ChunkSize
    ensures forall t :: i <= t < DepthEnd(open, x, y, i) ==> open(x, y, t)
    decreases ChunkSize - i
  {
    if i < ChunkSize && open(x, y, i) {
      DepthFacts(open, x, y, i + 1);
    }
  }

  lemma {:induction false} HeightCutFacts(open: Probe, x: int, y: int, i: int, j: int, h: int)
    requires y < j && y + h <= ChunkSize
    ensures HeightCut(open, x, y, i, j, h) <= h
    ensures j - y <= h ==> j - y <= HeightCut(open, x, y, i, j, h)
    ensures forall jj :: j <= jj < y + HeightCut(open, x, y, i, j, h) ==> open(x, jj, i)
    decreases y + h + 1 - j
  {
    if j <= y + h && j != ChunkSize && open(x, j, i) {
      HeightCutFacts(open, x, y, i, j + 1, h);
    }
  }

  lemma {:induction false} HeightFacts(open: Probe, x: int, y: int, z: int, t: int)
    requires 0 <= y < ChunkSize
    ensures 1 <= Height(open, x, y, z, t) <= ChunkSize - y
    ensures forall i, j :: z <= i < z + t && y < j < y + Height(open, x, y, z, t) ==> open(x, j, i)
    decreases t
  {
    if t > 0 {
      HeightFacts(open, x, y, z, t - 1);
      HeightCutFacts(open, x, y, z + t - 1, y + 1, Height(open, x, y, z, t - 1));
    }
  }

  lemma {:induction false} WidthCutFacts(open: Probe, x: int, j: int, i: int, k: int, w: int)
    requires x < k && x + w <= ChunkSize
    ensures WidthCut(open, x, j, i, k, w) <= w
    ensures k - x <= w ==> k - x <= WidthCut(open, x, j, i, k, w)
    ensures forall kk :: k <= kk < x + WidthCut(open, x, j, i, k, w) ==> open(kk, j, i)
    decreases x + w + 1 - k
  {
    if k <= x + w && k != ChunkSize && open(k, j, i) {
      WidthCutFacts(open, x, j, i, k + 1, w);
    }
  }

  lemma {:induction false} WidthLayerFacts(open: Probe, x: int, y: int, i: int, r: int, w: int)
    requires 1 <= w && x + w <= ChunkSize
    ensures 1 <= WidthLayer(open, x, y, i, r, w) <= w
    ensures forall j, k :: y <= j < y + r && x < k < x + WidthLayer(open, x, y, i, r, w) ==> open(k, j, i)
    decreases r
  {
    if r > 0 {
      WidthLayerFacts(open, x, y, i, r - 1, w);
      WidthCutFacts(open, x, y + r - 1, i, x + 1, WidthLayer(open, x, y, i, r - 1, w));
    }
  }

  lemma {:induction false} WidthFacts(open: Probe, x: int, y: int, z: int, h: int, t: int)
    requires 0 <= x < ChunkSize
    ensures 1 <= Width(open, x, y, z, h, t) <= ChunkSize - x
    ensures forall i, j, k :: z <= i < z + t && y <= j < y + h && x < k < x + Width(open, x, y, z, h, t) ==>
      open(k, j, i)
    decreases t
  {
    if t > 0 {
      WidthFacts(open, x, y, z, h, t - 1);
      WidthLayerFacts(open, x, y, z + t - 1, h, Width(open, x, y, z, h, t - 1));
    }
  }

  /** The box grown from an open cell starts there, has positive sizes, fits in the chunk,
      and holds open cells only. */
  lemma GrowBoxFacts(open: Probe, c: Vec3)
    requires InChunk(c.x, c.y, c.z) && open(c.x, c.y, c.z)
    ensures GrowBox(open, c).position == c && Fits(GrowBox(open, c))
    ensures forall q :: InBox(GrowBox(open, c), q) ==> open(q.x, q.y, q.z)
  {
    var b := GrowBox(open, c);
    var d := DepthEnd(open, c.x, c.y, c.z + 1) - c.z;
    var h := Height(open, c.x, c.y, c.z, d);
    DepthFacts(open, c.x, c.y, c.z + 1);
    HeightFacts(open, c.x, c.y, c.z, d);
    WidthFacts(open, c.x, c.y, c.z, h, d);
    forall q | InBox(b, q) ensures open(q.x, q.y, q.z) {
      if q.x == c.x && q.y == c.y && q.z > c.z {
        assert open(c.x, c.y, q.z);
      }
    }
  }

  // ------------------------------------------------------ the invariant

  /** What holds after the merger has visited the cells with index below `n`: `map` marks the
      cells of the emitted boxes and only solid ones, every solid cell already visited is marked,
      the boxes fit in the chunk and are disjoint, and they start in scan order below `n`. */
  ghost predicate Inv(vox: seq<byte>, s: Merge, n: nat)
    requires |vox| == ChunkVolume
  {
    && s.visited == Union(s.colliders)
    && (forall c :: c in s.visited ==> Filled(vox, c.x, c.y, c.z))
    && (forall m :: 0 <= m < n && m < ChunkVolume && vox[m] != 0 ==> Cell(m) in s.visited)
    && (forall i :: 0 <= i < |s.colliders| ==> Fits(s.colliders[i]) && Start(s.colliders[i]) < n)
    && (forall i, j :: 0 <= i < j < |s.colliders| ==> Cells(s.colliders[i]) !! Cells(s.colliders[j]))
    && (forall i, j :: 0 <= i < j < |s.colliders| ==> Start(s.colliders[i]) < Start(s.colliders[j]))
  }

  lemma UnionCovers(bs: seq<Collider>, i: int)
    requires 0 <= i < |bs|
    ensures Cells(bs[i]) <= Union(bs)
  {
    forall c | c in Cells(bs[i]) ensures c in Union(bs) {
      UnionMember(bs, c);
    }
  }

  /** A new box of open cells keeps the boxes disjoint. */
  lemma NewBoxDisjoint(vox: seq<byte>, s: Merge, b: Collider, i: int)
    requires |vox| == ChunkVolume && s.visited == Union(s.colliders) && 0 <= i < |s.colliders|
    requires forall q :: InBox(b, q) ==> Open(vox, s.visited, q.x, q.y, q.z)
    ensures Cells(s.colliders[i]) !! Cells(b)
  {
    UnionCovers(s.colliders, i);
    forall q | q in Cells(b) ensures q !in Cells(s.colliders[i]) {
      CellsMember(b, q);
    }
  }

  /** Adding a fitting box of open cells that starts at `Cell(n)` keeps the invariant, one cell further. */
  lemma AddBoxKeeps(vox: seq<byte>, s: Merge, b: Collider, n: nat)
    requires |vox| == ChunkVolume && n < ChunkVolume && Inv(vox, s, n)
    requires Fits(b) && b.position == Cell(n) && Start(b) == n
    requires forall q :: InBox(b, q) ==> Open(vox, s.visited, q.x, q.y, q.z)
    ensures Inv(vox, Merge(s.visited + Cells(b), s.colliders + [b]), n + 1)
  {
    var t := Merge(s.visited + Cells(b), s.colliders + [b]);
    UnionAppend(s.colliders, b);
    AddBoxFilled(vox, s, b);
    AddBoxCovers(vox, s, b, n);
    AddBoxDisjoint(vox, s, b);
    AddBoxOrder(s.colliders, b, n);
  }

  lemma AddBoxOrder(bs: seq<Collider>, b: Collider, n: nat)
    requires Fits(b) && Start(b) == n
    requires forall i :: 0 <= i < |bs| ==> Fits(bs[i]) && Start(bs[i]) < n
    requires forall i, j :: 0 <= i < j < |bs| ==> Start(bs[i]) < Start(bs[j])
    ensures forall i :: 0 <= i < |bs + [b]| ==> Fits((bs + [b])[i]) && Start((bs + [b])[i]) < n + 1
    ensures forall i, j :: 0 <= i < j < |bs + [b]| ==> Start((bs + [b])[i]) < Start((bs + [b])[j])
  {
    var t := bs + [b];
    assert forall i :: 0 <= i < |bs| ==> t[i] == bs[i];
  }

  lemma AddBoxFilled(vox: seq<byte>, s: Merge, b: Collider)
    requires |vox| == ChunkVolume
    requires forall c :: c in s.visited ==> Filled(vox, c.x, c.y, c.z)
    requires forall q :: InBox(b, q) ==> Open(vox, s.visited, q.x, q.y, q.z)
    ensures forall c :: c in s.visited + Cells(b) ==> Filled(vox, c.x, c.y, c.z)
  {
    forall q | q in Cells(b) ensures Filled(vox, q.x, q.y, q.z) {
      CellsMember(b, q);
    }
  }

  lemma AddBoxCovers(vox: seq<byte>, s: Merge, b: Collider, n: nat)
    requires |vox| == ChunkVolume && n < ChunkVolume && Fits(b) && b.position == Cell(n)
    requires forall m :: 0 <= m < n && m < ChunkVolume && vox[m] != 0 ==> Cell(m) in s.visited
    ensures forall m :: 0 <= m < n + 1 && m < ChunkVolume && vox[m] != 0 ==> Cell(m) in s.visited + Cells(b)
  {
    CellsMember(b, Cell(n));
  }

  lemma AddBoxDisjoint(vox: seq<byte>, s: Merge, b: Collider)
    requires |vox| == ChunkVolume && s.visited == Union(s.colliders)
    requires forall i, j :: 0 <= i < j < |s.colliders| ==> Cells(s.colliders[i]) !! Cells(s.colliders[j])
    requires forall q :: InBox(b, q) ==> Open(vox, s.visited, q.x, q.y, q.z)
    ensures forall i, j :: 0 <= i < j < |s.colliders + [b]| ==>
      Cells((s.colliders + [b])[i]) !! Cells((s.colliders + [b])[j])
  {
    var t := s.colliders + [b];
    forall i, j | 0 <= i < j < |t| ensures Cells(t[i]) !! Cells(t[j]) {
      if j == |s.colliders| {
        NewBoxDisjoint(vox, s, b, i);
      } else {
        assert t[i] == s.colliders[i] && t[j] == s.colliders[j];
      }
    }
  }

  /** Taking a box at an open cell `Cell(n)` keeps the invariant, one cell further. */
  lemma GrowKeeps(vox: seq<byte>, s: Merge, n: nat)
    requires |vox| == ChunkVolume && n < ChunkVolume && Inv(vox, s, n)
    requires Open(vox, s.visited, Cell(n).x, Cell(n).y, Cell(n).z)
    ensures Inv(vox, Step(vox, s, Cell(n)), n + 1)
  {
    var c := Cell(n);
    var b := GrowBox(Opening(vox, s.visited), c);
    GrowBoxFacts(Opening(vox, s.visited), c);
    IdxOfCell(n);
    AddBoxKeeps(vox, s, b, n);
  }

  /** Every step keeps the invariant, one cell further. */
  lemma StepKeeps(vox: seq<byte>, s: Merge, n: nat)
    requires |vox| == ChunkVolume && n < ChunkVolume && Inv(vox, s, n)
    ensures Inv(vox, Step(vox, s, Cell(n)), n + 1)
  {
    var c := Cell(n);
    if Open(vox, s.visited, c.x, c.y, c.z) {
      GrowKeeps(vox, s, n);
    } else {
      IdxOfCell(n);
    }
  }

  lemma MergedInv(vox: seq<byte>, n: nat)
    requires |vox| == ChunkVolume && n <= ChunkVolume
    ensures Inv(vox, Merged(vox, n), n)
  {
    var p := (s: Merge, m: nat) => |vox| == ChunkVolume && Inv(vox, s, m);
    assert p(Merge({}, []), 0);
    forall s: Merge, m: nat | m < ChunkVolume && p(s, m) ensures p(StepOf(vox)(s, Cell(m)), m + 1) {
      StepKeeps(vox, s, m);
    }
    FoldKeeps(StepOf(vox), p, n);
  }

  /** Induction over the scan: a property of the empty state that every step carries one cell further
      holds after the first `n` cells. */
  lemma {:induction false} FoldKeeps(step: (Merge, Vec3) -> Merge, p: (Merge, nat) -> bool, n: nat)
    requires n <= ChunkVolume && p(Merge({}, []), 0)
    requires forall s: Merge, m: nat :: m < ChunkVolume && p(s, m) ==> p(step(s, Cell(m)), m + 1)
    ensures p(Fold(step, n), n)
    decreases n
  {
    if n > 0 {
      FoldKeeps(step, p, n - 1);
    }
  }

  // ------------------------------------------------------ what the merge returns

  /** Each returned box has positive sizes and lies inside the chunk. */
  lemma CollidersFit(vox: seq<byte>, i: int)
    requires |vox| == ChunkVolume && 0 <= i < |Colliders(vox)|
    ensures Fits(Colliders(vox)[i])
  {
    MergedInv(vox, ChunkVolume);
  }

  /** A cell of the chunk is solid exactly when some returned box holds it. */
  lemma CollidersCover(vox: seq<byte>, c: Vec3)
    requires |vox| == ChunkVolume && InChunk(c.x, c.y, c.z)
    ensures Filled(vox, c.x, c.y, c.z) <==> exists i :: 0 <= i < |Colliders(vox)| && c in Cells(Colliders(vox)[i])
  {
    MergedInv(vox, ChunkVolume);
    UnionMember(Colliders(vox), c);
    var m := Idx(c.x, c.y, c.z);
    assert Cell(m) == c;
  }

  /** No cell lies in two returned boxes. */
  lemma CollidersDisjoint(vox: seq<byte>, i: int, j: int)
    requires |vox| == ChunkVolume && 0 <= i < j < |Colliders(vox)|
    ensures Cells(Colliders(vox)[i]) !! Cells(Colliders(vox)[j])
  {
    MergedInv(vox, ChunkVolume);
  }

  /** The returned boxes start in z, y, x scan order. */
  lemma CollidersInOrder(vox: seq<byte>, i: int, j: int)
    requires |vox| == ChunkVolume && 0 <= i < j < |Colliders(vox)|
    ensures Start(Colliders(vox)[i]) < Start(Colliders(vox)[j])
  {
    MergedInv(vox, ChunkVolume);
  }

  /** An all-air centre chunk has no colliders. */
  lemma EmptyChunk(vox: seq<byte>)
    requires |vox| == ChunkVolume && forall m :: 0 <= m < ChunkVolume ==> vox[m] == 0
    ensures Colliders(vox) == []
  {
    EmptyMerged(vox, ChunkVolume);
  }

  lemma {:induction false} EmptyMerged(vox: seq<byte>, n: nat)
    requires |vox| == ChunkVolume && n <= ChunkVolume && forall m :: 0 <= m < ChunkVolume ==> vox[m] == 0
    ensures Merged(vox, n) == Merge({}, [])
  {
    if n > 0 {
      EmptyMerged(vox, n - 1);
      IdxOfCell(n - 1);
    }
  }

  /** Every cell the probe is asked about inside the chunk is open. */
  ghost predicate AllOpen(open: Probe) {
    forall x, y, z :: InChunk(x, y, z) ==> open(x, y, z)
  }

  lemma {:induction false} DepthAll(open: Probe, x: int, y: int, i: int)
    requires AllOpen(open) && 0 <= x < ChunkSize && 0 <= y < ChunkSize && 0 <= i <= ChunkSize
    ensures DepthEnd(open, x, y, i) == ChunkSize
    decreases ChunkSize - i
  {
    if i < ChunkSize {
      DepthAll(open, x, y, i + 1);
    }
  }

  lemma {:induction false} HeightCutAll(open: Probe, x: int, y: int, i: int, j: int)
    requires AllOpen(open) && 0 <= x < ChunkSize && 0 <= y < j <= ChunkSize && 0 <= i < ChunkSize
    ensures HeightCut(open, x, y, i, j, ChunkSize - y) == ChunkSize - y
    decreases ChunkSize - j
  {
    if j < ChunkSize {
      HeightCutAll(open, x, y, i, j + 1);
    }
  }

  lemma {:induction false} HeightAll(open: Probe, x: int, y: int, t: int)
    requires AllOpen(open) && 0 <= x < ChunkSize && 0 <= y < ChunkSize && t <= ChunkSize
    ensures Height(open, x, y, 0, t) == ChunkSize - y
    decreases t
  {
    if t > 0 {
      HeightAll(open, x, y, t - 1);
      HeightCutAll(open, x, y, t - 1, y + 1);
    }
  }

  lemma {:induction false} WidthCutAll(open: Probe, x: int, j: int, i: int, k: int)
    requires AllOpen(open) && 0 <= x < k <= ChunkSize && 0 <= j < ChunkSize && 0 <= i < ChunkSize
    ensures WidthCut(open, x, j, i, k, ChunkSize - x) == ChunkSize - x
    decreases ChunkSize - k
  {
    if k < ChunkSize {
      WidthCutAll(open, x, j, i, k + 1);
    }
  }

  lemma {:induction false} WidthLayerAll(open: Probe, x: int, i: int, r: int)
    requires AllOpen(open) && 0 <= x < ChunkSize && 0 <= i < ChunkSize && r <= ChunkSize
    ensures WidthLayer(open, x, 0, i, r, ChunkSize - x) == ChunkSize - x
    decreases r
  {
    if r > 0 {
      WidthLayerAll(open, x, i, r - 1);
      WidthCutAll(open, x, r - 1, i, x + 1);
    }
  }

  lemma {:induction false} WidthAll(open: Probe, x: int, t: int)
    requires AllOpen(open) && 0 <= x < ChunkSize && t <= ChunkSize
    ensures Width(open, x, 0, 0, ChunkSize, t) == ChunkSize - x
    decreases t
  {
    if t > 0 {
      WidthAll(open, x, t - 1);
      WidthLayerAll(open, x, t - 1, ChunkSize);
    }
  }

  /** The box that fills the whole chunk. */
  const Whole := Collider(Vec3(0, 0, 0), Vec3(ChunkSize, ChunkSize, ChunkSize))

  /** With every cell open, the box grown from the first cell fills the chunk. */
  lemma GrowWhole(open: Probe)
    requires AllOpen(open)
    ensures GrowBox(open, Vec3(0, 0, 0)) == Whole
  {
    DepthAll(open, 0, 0, 1);
    HeightAll(open, 0, 0, ChunkSize);
    WidthAll(open, 0, ChunkSize);
  }

  /** A marked or air cell is skipped. */
  lemma StepSkips(vox: seq<byte>, s: Merge, c: Vec3)
    requires |vox| == ChunkVolume && InChunk(c.x, c.y, c.z) && !Open(vox, s.visited, c.x, c.y, c.z)
    ensures Step(vox, s, c) == s
  {
  }

  /** Every cell of the chunk is marked. */
  ghost predicate AllMarked(visited: set<Vec3>) {
    forall c: Vec3 :: InChunk(c.x, c.y, c.z) ==> c in visited
  }

  lemma SolidOpen(vox: seq<byte>, visited: set<Vec3>)
    requires |vox| == ChunkVolume && forall m :: 0 <= m < ChunkVolume ==> vox[m] != 0
    requires visited == {}
    ensures AllOpen(Opening(vox, visited))
  {
    forall x, y, z | InChunk(x, y, z) ensures Opening(vox, visited)(x, y, z) {
      assert vox[Idx(x, y, z)] != 0;
    }
  }

  lemma WholeMarks(b: Collider)
    requires b.position == Vec3(0, 0, 0) && b.size.x >= ChunkSize && b.size.y >= ChunkSize && b.size.z >= ChunkSize
    ensures AllMarked(Cells(b))
  {
    forall c: Vec3 | InChunk(c.x, c.y, c.z) ensures c in Cells(b) {
      CellsMember(b, c);
    }
  }

  /** A fold whose first step reaches `s1` and whose every later step keeps it ends in `s1`. */
  lemma {:induction false} FoldSettles(step: (Merge, Vec3) -> Merge, s1: Merge, n: nat)
    requires 1 <= n <= ChunkVolume
    requires step(Merge({}, []), Cell(0)) == s1
    requires forall c: Vec3 :: InChunk(c.x, c.y, c.z) ==> step(s1, c) == s1
    ensures Fold(step, n) == s1
    decreases n
  {
    if n > 1 {
      FoldSettles(step, s1, n - 1);
      var c := Cell(n - 1);
      assert step(s1, c) == s1;
    }
  }

  /** From the cleared state, a solid cell starts a box. */
  lemma FirstStep(vox: seq<byte>, c: Vec3)
    requires |vox| == ChunkVolume && InChunk(c.x, c.y, c.z) && Filled(vox, c.x, c.y, c.z)
    ensures var b := GrowBox(Opening(vox, {}), c);
      StepOf(vox)(Merge({}, []), c) == Merge({} + Cells(b), [b])
  {
  }

  /** Once a box from the origin spanning the chunk is marked, every step skips. */
  lemma WholeSkips(vox: seq<byte>, b: Collider, c: Vec3)
    requires |vox| == ChunkVolume && InChunk(c.x, c.y, c.z)
    requires b.position == Vec3(0, 0, 0) && b.size.x >= ChunkSize && b.size.y >= ChunkSize && b.size.z >= ChunkSize
    ensures StepOf(vox)(Merge({} + Cells(b), [b]), c) == Merge({} + Cells(b), [b])
  {
    WholeMarks(b);
    assert c in Cells(b);
  }

  lemma WholeSettles(vox: seq<byte>, b: Collider)
    requires |vox| == ChunkVolume
    requires b.position == Vec3(0, 0, 0) && b.size.x >= ChunkSize && b.size.y >= ChunkSize && b.size.z >= ChunkSize
    ensures var s1 := Merge({} + Cells(b), [b]);
      forall c: Vec3 :: InChunk(c.x, c.y, c.z) ==> StepOf(vox)(s1, c) == s1
  {
    forall c: Vec3 | InChunk(c.x, c.y, c.z) ensures StepOf(vox)(Merge({} + Cells(b), [b]), c) == Merge({} + Cells(b), [b]) {
      WholeSkips(vox, b, c);
    }
  }

  /** In a chunk whose first voxel is solid, the first step emits the box grown from the origin. */
  lemma SolidStart(vox: seq<byte>, b: Collider)
    requires |vox| == ChunkVolume && vox[0] != 0
    requires b == GrowBox(Opening(vox, {}), Vec3(0, 0, 0))
    ensures StepOf(vox)(Merge({}, []), Cell(0)) == Merge({} + Cells(b), [b])
  {
    var c0 := Cell(0);
    assert c0 == Vec3(0, 0, 0);
    assert Idx(0, 0, 0) == 0;
    FirstStep(vox, c0);
  }

  lemma SolidSole(vox: seq<byte>, b: Collider)
    requires |vox| == ChunkVolume && vox[0] != 0
    requires b == GrowBox(Opening(vox, {}), Vec3(0, 0, 0))
    requires b.position == Vec3(0, 0, 0) && b.size.x >= ChunkSize && b.size.y >= ChunkSize && b.size.z >= ChunkSize
    ensures Colliders(vox) == [b]
  {
    SolidStart(vox, b);
    WholeSettles(vox, b);
    FoldSettles(StepOf(vox), Merge({} + Cells(b), [b]), ChunkVolume);
  }

  /** An all-solid centre chunk gives exactly one box, the whole chunk. */
  lemma SolidChunk(vox: seq<byte>)
    requires |vox| == ChunkVolume && forall m :: 0 <= m < ChunkVolume ==> vox[m] != 0
    ensures Colliders(vox) == [Whole]
  {
    var b := GrowBox(Opening(vox, {}), Vec3(0, 0, 0));
    SolidOpen(vox, {});
    GrowWhole(Opening(vox, {}));
    SolidSole(vox, b);
  }

  // ------------------------------------------------------ voxelColliders

  /** `marks` holds a mark exactly for the cells in `visited`. */
  ghost predicate MarksExactly(marks: array<bool>, visited: set<Vec3>)
    requires marks.Length == ChunkVolume
    reads marks
  {
    forall x, y, z :: InChunk(x, y, z) ==> (marks[Idx(x, y, z)] <==> Vec3(x, y, z) in visited)
  }

  /** The probe `open` answers what the loops test: a solid centre-chunk voxel not yet marked. */
  ghost predicate Sees(chunks: seq<ChunkData>, marks: array<bool>, open: Probe)
    requires Neighbourhood(chunks) && marks.Length == ChunkVolume
    reads marks
  {
    forall x, y, z {:trigger marks[Idx(x, y, z)]} :: InChunk(x, y, z) ==>
      (open(x, y, z) <==> chunks[13].voxels[Idx(x, y, z)] != 0 && !marks[Idx(x, y, z)])
  }

  /** `step` is the merger's step for the voxels `vox`, on every cell of the chunk. */
  ghost predicate StepIs(vox: seq<byte>, step: (Merge, Vec3) -> Merge)
    requires |vox| == ChunkVolume
  {
    forall s: Merge, c: Vec3 {:trigger Step(vox, s, c)} :: InChunk(c.x, c.y, c.z) ==> step(s, c) == Step(vox, s, c)
  }

  lemma StepIsStepOf(vox: seq<byte>)
    requires |vox| == ChunkVolume
    ensures StepIs(vox, StepOf(vox))
  {
  }

  /** Any step that agrees with the merger's on the chunk folds to `Merged`. */
  lemma {:induction false} FoldIsMerged(vox: seq<byte>, step: (Merge, Vec3) -> Merge, n: nat)
    requires |vox| == ChunkVolume && StepIs(vox, step) && n <= ChunkVolume
    ensures Fold(step, n) == Merged(vox, n)
    decreases n
  {
    if n > 0 {
      FoldIsMerged(vox, step, n - 1);
      var c := Cell(n - 1);
      assert step(Fold(step, n - 1), c) == Step(vox, Merged(vox, n - 1), c);
    }
  }

  lemma MarksSee(chunks: seq<ChunkData>, marks: array<bool>, visited: set<Vec3>)
    requires Neighbourhood(chunks) && marks.Length == ChunkVolume && MarksExactly(marks, visited)
    ensures Sees(chunks, marks, Opening(chunks[13].voxels, visited))
  {
  }

  /** `step` run from `s` over the first `x` cells of row `y` of layer `z` (the x loop). */
  function RowFold(step: (Merge, Vec3) -> Merge, s: Merge, y: int, z: int, x: nat): Merge
    requires x <= ChunkSize
    decreases step, x
  {
    if x == 0 then s else step(RowFold(step, s, y, z, x - 1), Vec3(x - 1, y, z))
  }

  /** `step` run from `s` over the first `y` rows of layer `z` (the y loop). */
  function LayerFold(step: (Merge, Vec3) -> Merge, s: Merge, z: int, y: nat): Merge
    requires y <= ChunkSize
    decreases step, y
  {
    if y == 0 then s else RowFold(step, LayerFold(step, s, z, y - 1), y - 1, z, ChunkSize)
  }

  /** `step` run over the first `z` layers (the z loop). */
  function ChunkFold(step: (Merge, Vec3) -> Merge, z: nat): Merge
    requires z <= ChunkSize
    decreases step, z
  {
    if z == 0 then Merge({}, []) else LayerFold(step, ChunkFold(step, z - 1), z - 1, ChunkSize)
  }

  /** One more cell visited in z, y, x order. */
  lemma FoldNext(step: (Merge, Vec3) -> Merge, n: nat, x: int, y: int, z: int)
    requires InChunk(x, y, z) && n == z * 256 + y * 16 + x
    ensures Fold(step, n + 1) == step(Fold(step, n), Vec3(x, y, z))
  {
    assert n == Idx(x, y, z) && Cell(n) == Vec3(x, y, z);
  }

  lemma {:induction false} RowFoldIs(step: (Merge, Vec3) -> Merge, y: int, z: int, x: nat)
    requires 0 <= y < ChunkSize && 0 <= z < ChunkSize && x <= ChunkSize
    ensures RowFold(step, Fold(step, z * 256 + y * 16), y, z, x) == Fold(step, z * 256 + y * 16 + x)
    decreases x
  {
    if x > 0 {
      RowFoldIs(step, y, z, x - 1);
      FoldNext(step, z * 256 + y * 16 + x - 1, x - 1, y, z);
    }
  }

  lemma {:induction false} LayerFoldIs(step: (Merge, Vec3) -> Merge, z: int, y: nat)
    requires 0 <= z < ChunkSize && y <= ChunkSize
    ensures LayerFold(step, Fold(step, z * 256), z, y) == Fold(step, z * 256 + y * 16)
    decreases y
  {
    if y > 0 {
      LayerFoldIs(step, z, y - 1);
      RowFoldIs(step, y - 1, z, ChunkSize);
    }
  }

  /** The three nested loops visit the cells in index order: they compute `Fold`. */
  lemma {:induction false} ChunkFoldIs(step: (Merge, Vec3) -> Merge, z: nat)
    requires z <= ChunkSize
    ensures ChunkFold(step, z) == Fold(step, z * 256)
    decreases z
  {
    if z > 0 {
      ChunkFoldIs(step, z - 1);
      LayerFoldIs(step, z - 1, ChunkSize);
    }
  }

  /** `voxelColliders(chunks)`. `marks` is the module's scratch bitmap `map`; it is cleared first and
      ends up marking exactly the solid voxels of the centre chunk. */
  method VoxelColliders(chunks: seq<ChunkData>, marks: array<bool>) returns (colliders: seq<Collider>)
    requires Neighbourhood(chunks) && marks.Length == ChunkVolume
    modifies marks
    ensures colliders == Colliders(chunks[13].voxels)
    ensures forall m :: 0 <= m < ChunkVolume ==> (marks[m] <==> chunks[13].voxels[m] != 0)
  {
    var vox := chunks[13].voxels;
    forall m | 0 <= m < marks.Length {
      marks[m] := false;
    }
    ghost var visited;
    StepIsStepOf(vox);
    colliders, visited := MergeScan(chunks, marks, StepOf(vox));
    MarksSolid(marks, visited, vox);
  }

  /** A bitmap marking exactly the visited cells, when those are the solid ones, marks the solid voxels. */
  lemma MarksSolid(marks: array<bool>, visited: set<Vec3>, vox: seq<byte>)
    requires marks.Length == ChunkVolume && |vox| == ChunkVolume && MarksExactly(marks, visited)
    requires forall m :: 0 <= m < ChunkVolume ==> (Cell(m) in visited <==> vox[m] != 0)
    ensures forall m :: 0 <= m < ChunkVolume ==> (marks[m] <==> vox[m] != 0)
  {
    forall m | 0 <= m < ChunkVolume ensures marks[m] <==> vox[m] != 0 {
      var c := Cell(m);
      IdxOfCell(m);
      assert marks[Idx(c.x, c.y, c.z)] <==> c in visited;
    }
  }

  /** What the three loops leave: the colliders of the chunk, and visited cells that are its solid voxels. */
  lemma ScanResult(vox: seq<byte>, step: (Merge, Vec3) -> Merge, visited: set<Vec3>, colliders: seq<Collider>)
    requires |vox| == ChunkVolume && StepIs(vox, step) && Merge(visited, colliders) == ChunkFold(step, ChunkSize)
    ensures colliders == Colliders(vox)
    ensures forall m :: 0 <= m < ChunkVolume ==> (Cell(m) in visited <==> vox[m] != 0)
  {
    ChunkFoldIs(step, ChunkSize);
    FoldIsMerged(vox, step, ChunkVolume);
    MergedResult(vox, visited, colliders);
  }

  lemma MergedResult(vox: seq<byte>, visited: set<Vec3>, colliders: seq<Collider>)
    requires |vox| == ChunkVolume && Merge(visited, colliders) == Merged(vox, ChunkVolume)
    ensures colliders == Colliders(vox)
    ensures forall m :: 0 <= m < ChunkVolume ==> (Cell(m) in visited <==> vox[m] != 0)
  {
    MergedInv(vox, ChunkVolume);
    forall m | 0 <= m < ChunkVolume ensures Cell(m) in visited <==> vox[m] != 0 {
      IdxOfCell(m);
    }
  }

  /** The z loop. */
  method MergeScan(chunks: seq<ChunkData>, marks: array<bool>, ghost step: (Merge, Vec3) -> Merge)
    returns (colliders: seq<Collider>, ghost visited: set<Vec3>)
    requires Neighbourhood(chunks) && marks.Length == ChunkVolume
    requires StepIs(chunks[13].voxels, step) && MarksExactly(marks, {})
    modifies marks
    ensures colliders == Colliders(chunks[13].voxels) && MarksExactly(marks, visited)
    ensures forall m :: 0 <= m < ChunkVolume ==> (Cell(m) in visited <==> chunks[13].voxels[m] != 0)
  {
    colliders := [];
    visited := {};
    for z := 0 to ChunkSize
      invariant Merge(visited, colliders) == ChunkFold(step, z) && MarksExactly(marks, visited)
    {
      colliders, visited := MergeLayer(chunks, marks, step, z, colliders, visited);
    }
    ScanResult(chunks[13].voxels, step, visited, colliders);
  }

  /** The y loop in layer `z`. */
  method MergeLayer(chunks: seq<ChunkData>, marks: array<bool>, ghost step: (Merge, Vec3) -> Merge, z: int,
    colliders0: seq<Collider>, ghost visited0: set<Vec3>)
    returns (colliders: seq<Collider>, ghost visited: set<Vec3>)
    requires Neighbourhood(chunks) && marks.Length == ChunkVolume && 0 <= z < ChunkSize
    requires StepIs(chunks[13].voxels, step) && MarksExactly(marks, visited0)
    modifies marks
    ensures Merge(visited, colliders) == LayerFold(step, Merge(visited0, colliders0), z, ChunkSize)
    ensures MarksExactly(marks, visited)
  {
    colliders, visited := colliders0, visited0;
    for y := 0 to ChunkSize
      invariant Merge(visited, colliders) == LayerFold(step, Merge(visited0, colliders0), z, y)
      invariant MarksExactly(marks, visited)
    {
      colliders, visited := MergeRow(chunks, marks, step, y, z, colliders, visited);
    }
  }

  /** The x loop in row `y` of layer `z`. */
  method MergeRow(chunks: seq<ChunkData>, marks: array<bool>, ghost step: (Merge, Vec3) -> Merge, y: int, z: int,
    colliders0: seq<Collider>, ghost visited0: set<Vec3>)
    returns (colliders: seq<Collider>, ghost visited: set<Vec3>)
    requires Neighbourhood(chunks) && marks.Length == ChunkVolume && 0 <= y < ChunkSize && 0 <= z < ChunkSize
    requires StepIs(chunks[13].voxels, step) && MarksExactly(marks, visited0)
    modifies marks
    ensures Merge(visited, colliders) == RowFold(step, Merge(visited0, colliders0), y, z, ChunkSize)
    ensures MarksExactly(marks, visited)
  {
    colliders, visited := colliders0, visited0;
    for x := 0 to ChunkSize
      invariant Merge(visited, colliders) == RowFold(step, Merge(visited0, colliders0), y, z, x)
      invariant MarksExactly(marks, visited)
    {
      colliders, visited := ColliderAt(chunks, marks, x, y, z, colliders, visited);
    }
  }

  /** The body of the x loop: skip an air or marked voxel, otherwise grow a box from it,
      mark its cells and emit it. */
  method ColliderAt(chunks: seq<ChunkData>, marks: array<bool>,
    x: int, y: int, z: int, colliders0: seq<Collider>, ghost visited0: set<Vec3>)
    returns (colliders: seq<Collider>, ghost visited: set<Vec3>)
    requires Neighbourhood(chunks) && marks.Length == ChunkVolume && InChunk(x, y, z)
    requires MarksExactly(marks, visited0)
    modifies marks
    ensures Merge(visited, colliders) == Step(chunks[13].voxels, Merge(visited0, colliders0), Vec3(x, y, z))
    ensures MarksExactly(marks, visited)
  {
    ghost var vox := chunks[13].voxels;
    ghost var s := Merge(visited0, colliders0);
    var voxel := GetVoxel(chunks, x, y, z);
    if voxel == 0 || marks[Idx(x, y, z)] {
      assert Step(vox, s, Vec3(x, y, z)) == s;
      return colliders0, visited0;
    }
    ghost var open := Opening(vox, visited0);
    MarksSee(chunks, marks, visited0);
    var b := GrowAt(chunks, marks, open, x, y, z);
    GrowBoxFacts(open, Vec3(x, y, z));
    MarkBox(marks, b, visited0);
    colliders := colliders0 + [b];
    visited := visited0 + Cells(b);
    assert Step(vox, s, Vec3(x, y, z)) == Merge(visited, colliders);
  }

  /** The grid test of every growth loop: the edge of the chunk, an air voxel or a marked one. */
  method Blocked(chunks: seq<ChunkData>, marks: array<bool>, ghost open: Probe, edge: bool, x: int, y: int, z: int)
    returns (blocked: bool)
    requires Neighbourhood(chunks) && marks.Length == ChunkVolume && Sees(chunks, marks, open)
    requires edge || InChunk(x, y, z)
    ensures blocked == (edge || !open(x, y, z))
  {
    if edge {
      return true;
    }
    ghost var marked := marks[Idx(x, y, z)];
    blocked := GetVoxel(chunks, x, y, z) == 0 || marks[Idx(x, y, z)];
  }

  /** The depth, height and width loops: the box grown from cell (x, y, z). */
  method GrowAt(chunks: seq<ChunkData>, marks: array<bool>, ghost open: Probe, x: int, y: int, z: int)
    returns (b: Collider)
    requires Neighbourhood(chunks) && marks.Length == ChunkVolume && InChunk(x, y, z) && Sees(chunks, marks, open)
    ensures b == GrowBox(open, Vec3(x, y, z))
  {
    var depth := FindDepth(chunks, marks, open, x, y, z);
    DepthFacts(open, x, y, z + 1);
    var height := FindHeight(chunks, marks, open, x, y, z, depth);
    HeightFacts(open, x, y, z, depth);
    var width := FindWidth(chunks, marks, open, x, y, z, height, depth);
    b := Collider(Vec3(x, y, z), Vec3(width, height, depth));
  }

  /** The depth loop, run until the column is blocked. */
  method FindDepth(chunks: seq<ChunkData>, marks: array<bool>, ghost open: Probe, x: int, y: int, z: int)
    returns (depth: int)
    requires Neighbourhood(chunks) && marks.Length == ChunkVolume && InChunk(x, y, z) && Sees(chunks, marks, open)
    ensures depth == DepthEnd(open, x, y, z + 1) - z
  {
    var i := z + 1;
    var blocked := Blocked(chunks, marks, open, i == ChunkSize, x, y, i);
    while !blocked
      invariant z + 1 <= i <= ChunkSize && blocked == (i == ChunkSize || !open(x, y, i))
      invariant DepthEnd(open, x, y, i) == DepthEnd(open, x, y, z + 1)
      decreases ChunkSize - i
    {
      i := i + 1;
      blocked := Blocked(chunks, marks, open, i == ChunkSize, x, y, i);
    }
    depth := i - z;
  }

  /** The height loop over the layers `z .. z + depth - 1`. */
  method FindHeight(chunks: seq<ChunkData>, marks: array<bool>, ghost open: Probe, x: int, y: int, z: int, depth: int)
    returns (height: int)
    requires Neighbourhood(chunks) && marks.Length == ChunkVolume && InChunk(x, y, z) && Sees(chunks, marks, open)
    requires 0 <= depth <= ChunkSize - z
    ensures height == Height(open, x, y, z, depth)
  {
    height := ChunkSize - y;
    for i := z to z + depth
      invariant height == Height(open, x, y, z, i - z)
    {
      HeightFacts(open, x, y, z, i - z);
      height := HeightColumn(chunks, marks, open, x, y, i, height);
    }
  }

  /** The inner height loop in layer `i`: a blocked row cuts `height`, which ends the loop. */
  method HeightColumn(chunks: seq<ChunkData>, marks: array<bool>, ghost open: Probe, x: int, y: int, i: int, h: int)
    returns (height: int)
    requires Neighbourhood(chunks) && marks.Length == ChunkVolume && InChunk(x, y, i) && Sees(chunks, marks, open)
    requires 1 <= h <= ChunkSize - y
    ensures height == HeightCut(open, x, y, i, y + 1, h)
  {
    height := h;
    var j := y + 1;
    while j <= y + height
      invariant y + 1 <= j <= y + height + 1 && 1 <= height <= ChunkSize - y
      invariant HeightCut(open, x, y, i, j, height) == HeightCut(open, x, y, i, y + 1, h)
      decreases y + height + 1 - j
    {
      var blocked := Blocked(chunks, marks, open, j == ChunkSize, x, j, i);
      if blocked {
        height := j - y;
      }
      j := j + 1;
    }
  }

  /** The width loop over the layers `z .. z + depth - 1`. */
  method FindWidth(chunks: seq<ChunkData>, marks: array<bool>, ghost open: Probe, x: int, y: int, z: int,
    height: int, depth: int)
    returns (width: int)
    requires Neighbourhood(chunks) && marks.Length == ChunkVolume && InChunk(x, y, z) && Sees(chunks, marks, open)
    requires 0 <= depth <= ChunkSize - z && 0 <= height <= ChunkSize - y
    ensures width == Width(open, x, y, z, height, depth)
  {
    width := ChunkSize - x;
    for i := z to z + depth
      invariant width == Width(open, x, y, z, height, i - z)
    {
      WidthFacts(open, x, y, z, height, i - z);
      width := WidthLayerScan(chunks, marks, open, x, y, i, height, width);
    }
  }

  /** The rows `y .. y + height - 1` of layer `i`. */
  method WidthLayerScan(chunks: seq<ChunkData>, marks: array<bool>, ghost open: Probe, x: int, y: int, i: int,
    height: int, w: int)
    returns (width: int)
    requires Neighbourhood(chunks) && marks.Length == ChunkVolume && InChunk(x, y, i) && Sees(chunks, marks, open)
    requires 0 <= height <= ChunkSize - y && 1 <= w <= ChunkSize - x
    ensures width == WidthLayer(open, x, y, i, height, w)
  {
    width := w;
    for j := y to y + height
      invariant width == WidthLayer(open, x, y, i, j - y, w)
    {
      WidthLayerFacts(open, x, y, i, j - y, w);
      width := WidthRow(chunks, marks, open, x, j, i, width);
    }
  }

  /** The innermost width loop in row `j` of layer `i`, like `HeightColumn`. */
  method WidthRow(chunks: seq<ChunkData>, marks: array<bool>, ghost open: Probe, x: int, j: int, i: int, w: int)
    returns (width: int)
    requires Neighbourhood(chunks) && marks.Length == ChunkVolume && InChunk(x, j, i) && Sees(chunks, marks, open)
    requires 1 <= w <= ChunkSize - x
    ensures width == WidthCut(open, x, j, i, x + 1, w)
  {
    width := w;
    var k := x + 1;
    while k <= x + width
      invariant x + 1 <= k <= x + width + 1 && 1 <= width <= ChunkSize - x
      invariant WidthCut(open, x, j, i, k, width) == WidthCut(open, x, j, i, x + 1, w)
      decreases x + width + 1 - k
    {
      var blocked := Blocked(chunks, marks, open, k == ChunkSize, k, j, i);
      if blocked {
        width := k - x;
      }
      k := k + 1;
    }
  }

  /** `marks` marks `visited` and the cells of `b` that come before layer `i`, row `j`, column `k`
      in the order the marking loops visit them. */
  ghost predicate MarkedBefore(marks: array<bool>, visited: set<Vec3>, b: Collider, i: int, j: int, k: int)
    requires marks.Length == ChunkVolume
    reads marks
  {
    forall x, y, z :: InChunk(x, y, z) ==>
      (marks[Idx(x, y, z)] <==>
         Vec3(x, y, z) in visited || (InBox(b, Vec3(x, y, z)) && (z < i || (z == i && (y < j || (y == j && x < k))))))
  }

  /** The marking loops: every cell of `b` is set in `marks`. */
  method MarkBox(marks: array<bool>, b: Collider, ghost visited: set<Vec3>)
    requires marks.Length == ChunkVolume && Fits(b) && MarksExactly(marks, visited)
    modifies marks
    ensures MarksExactly(marks, visited + Cells(b))
  {
    var p := b.position;
    for i := p.z to p.z + b.size.z
      invariant MarkedBefore(marks, visited, b, i, p.y, p.x)
    {
      for j := p.y to p.y + b.size.y
        invariant MarkedBefore(marks, visited, b, i, j, p.x)
      {
        for k := p.x to p.x + b.size.x
          invariant MarkedBefore(marks, visited, b, i, j, k)
        {
          marks[Idx(k, j, i)] := true;
        }
      }
    }
    forall x, y, z | InChunk(x, y, z) ensures marks[Idx(x, y, z)] <==> Vec3(x, y, z) in visited + Cells(b) {
      CellsMember(b, Vec3(x, y, z));
    }
  }
}
