/** The mesher of src/chunk/voxelMesher.ts: the 3×3×3 neighbourhood lookup `getVoxel`,
    the corner occlusion count `getAO`, the face frames, and `voxelMesher`, which emits one
    eight-slot record per exposed face of the centre chunk and grows a bounding box.
    Face centres `x + 0.5` are represented by the cell coordinate `x`, and an occlusion
    value `0.2 * k` by the count `k`. */
module VoxelMesher {
  import opened Data

  /** The chunk list `voxelMesher` and `voxelColliders` read: 27 chunks, index
      `cz * 9 + cy * 3 + cx`, the centre at 13, each with a full voxel array. */
  predicate Neighbourhood(chunks: seq<ChunkData>) {
    |chunks| == 27 && forall i :: 0 <= i < 27 ==> |chunks[i].voxels| == ChunkVolume
  }

  /** The local coordinates `getVoxel` resolves: at most one chunk beyond the centre on each axis. */
  predicate InReach(x: int, y: int, z: int) {
    -ChunkSize <= x < 2 * ChunkSize && -ChunkSize <= y < 2 * ChunkSize && -ChunkSize <= z < 2 * ChunkSize
  }

  /** One axis of `getVoxel`: the two range checks in sequence, giving the coordinate inside
      its chunk and the chunk's column 0, 1 or 2 (the centre is 1). */
  function Wrap(c: int): (r: (int, int))
    requires -16 <= c < 32
    ensures 0 <= r.0 < 16 && 0 <= r.1 <= 2 && c == r.0 + 16 * r.1 - 16
  {
    var w := if c < 0 then (c + ChunkSize, 0) else (c, 1);
    if w.0 >= ChunkSize then (w.0 - ChunkSize, w.1 + 1) else w
  }

  /** `getVoxel(chunks, x, y, z)`. */
  function GetVoxel(chunks: seq<ChunkData>, x: int, y: int, z: int): (v: byte)
    requires Neighbourhood(chunks) && InReach(x, y, z)
    ensures InChunk(x, y, z) ==> v == chunks[13].voxels[Idx(x, y, z)]
  {
    var wx := Wrap(x);
    var wy := Wrap(y);
    var wz := Wrap(z);
    chunks[wz.1 * 9 + wy.1 * 3 + wx.1].voxels[Idx(wx.0, wy.0, wz.0)]
  }

  /** `getVoxel` reads chunk `cz * 9 + cy * 3 + cx` of the block, where each `c` is the
      floor of `(coordinate + 16) / 16`, at the coordinate's remainder modulo 16. */
  lemma GetVoxelIndex(chunks: seq<ChunkData>, x: int, y: int, z: int)
    requires Neighbourhood(chunks) && InReach(x, y, z)
    ensures GetVoxel(chunks, x, y, z) ==
      chunks[(z + 16) / 16 * 9 + (y + 16) / 16 * 3 + (x + 16) / 16].voxels[Idx((x + 16) % 16, (y + 16) % 16, (z + 16) % 16)]
  {
    WrapFloor(x);
    WrapFloor(y);
    WrapFloor(z);
  }

  lemma WrapFloor(c: int)
    requires -16 <= c < 32
    ensures Wrap(c) == ((c + 16) % 16, (c + 16) / 16)
  {
    var r := Wrap(c);
    assert c + 16 == 16 * r.1 + r.0;
  }

  /** `getAO(n1, n2, n3)` counted in steps of 0.2: one per solid edge neighbour, and one for
      the solid corner unless both edges are already solid. */
  function GetAO(n1: bool, n2: bool, n3: bool): (ao: nat)
    ensures ao <= 3
    ensures ao == (if n1 then 1 else 0) + (if n2 then 1 else 0) + (if n3 && !(n1 && n2) then 1 else 0)
    ensures n1 && n2 ==> ao == 2
    ensures !n1 && !n2 ==> (ao == 1 <==> n3)
    ensures ao == 0 <==> !n1 && !n2 && !n3
  {
    var a := if n1 then 1 else 0;
    var b := if n2 then a + 1 else a;
    if (!n1 || !n2) && n3 then b + 1 else b
  }

  /** Occlusion never decreases when a neighbour becomes solid. */
  lemma GetAOMonotone(n1: bool, n2: bool, n3: bool, m1: bool, m2: bool, m3: bool)
    requires (n1 ==> m1) && (n2 ==> m2) && (n3 ==> m3)
    ensures GetAO(n1, n2, n3) <= GetAO(m1, m2, m3)
  {
  }

  // ------------------------------------------------------------------ tables

  /** A row of `normals`: the face normal and the two in-plane axes of its quad. */
  datatype Frame = Frame(n: Vec3, u: Vec3, v: Vec3)

  /** A vector with components in [-1, 1]. */
  predicate Small(a: Vec3) {
    -1 <= a.x <= 1 && -1 <= a.y <= 1 && -1 <= a.z <= 1
  }

  /** `normals[face]`. */
  function Normals(face: VoxelFace): (fr: Frame)
    ensures Small(fr.n) && Small(fr.u) && Small(fr.v)
  {
    if face == 0 then Frame(Vec3(0, 0, 1), Vec3(1, 0, 0), Vec3(0, 1, 0))
    else if face == 1 then Frame(Vec3(0, 1, 0), Vec3(1, 0, 0), Vec3(0, 0, -1))
    else if face == 2 then Frame(Vec3(0, -1, 0), Vec3(1, 0, 0), Vec3(0, 0, 1))
    else if face == 3 then Frame(Vec3(-1, 0, 0), Vec3(0, 0, 1), Vec3(0, 1, 0))
    else if face == 4 then Frame(Vec3(1, 0, 0), Vec3(0, 0, -1), Vec3(0, 1, 0))
    else Frame(Vec3(0, 0, -1), Vec3(-1, 0, 0), Vec3(0, 1, 0))
  }

  /** `vertices[vertex]`: the quad corner as signs along u (x) and v (y). */
  function Vertices(vertex: nat): (vn: Vec3)
    requires vertex < 4
    ensures vn.z == 0 && (vn.x == 1 || vn.x == -1) && (vn.y == 1 || vn.y == -1)
  {
    if vertex == 0 then Vec3(-1, 1, 0)
    else if vertex == 1 then Vec3(1, 1, 0)
    else if vertex == 2 then Vec3(-1, -1, 0)
    else Vec3(1, -1, 0)
  }

  /** A unit vector along one coordinate axis. */
  predicate UnitAxis(a: Vec3) {
    || a == Vec3(1, 0, 0) || a == Vec3(-1, 0, 0)
    || a == Vec3(0, 1, 0) || a == Vec3(0, -1, 0)
    || a == Vec3(0, 0, 1) || a == Vec3(0, 0, -1)
  }

  /** Two axis vectors along different axes. */
  predicate Perpendicular(a: Vec3, b: Vec3) {
    (a.x == 0 || b.x == 0) && (a.y == 0 || b.y == 0) && (a.z == 0 || b.z == 0)
  }

  /** n, u and v are unit vectors along three different axes. */
  predicate AxisFrame(fr: Frame) {
    UnitAxis(fr.n) && UnitAxis(fr.u) && UnitAxis(fr.v)
    && Perpendicular(fr.n, fr.u) && Perpendicular(fr.n, fr.v) && Perpendicular(fr.u, fr.v)
  }

  /** The normals point the way the `VoxelFace` names say, each face has its own normal,
      and the vertices are the four distinct corners (±1, ±1). */
  lemma TablesFacts()
    ensures Normals(South).n == Vec3(0, 0, 1) && Normals(Top).n == Vec3(0, 1, 0)
      && Normals(Bottom).n == Vec3(0, -1, 0) && Normals(West).n == Vec3(-1, 0, 0)
      && Normals(East).n == Vec3(1, 0, 0) && Normals(North).n == Vec3(0, 0, -1)
    ensures forall f, g :: 0 <= f < g < 6 ==> Normals(f).n != Normals(g).n
    ensures forall k, l :: 0 <= k < l < 4 ==> Vertices(k) != Vertices(l)
  {
  }

  /** `p = cell + n`, the neighbour a face looks at. */
  function Neighbour(c: Vec3, face: VoxelFace): Vec3 {
    Add(c, Normals(face).n)
  }

  /** `a` times the sign `s` (1 or -1). */
  function Flip(a: Vec3, s: int): Vec3 {
    if s < 0 then Vec3(-a.x, -a.y, -a.z) else a
  }

  /** `vu`: the frame's u axis times the vertex's x sign. */
  function EdgeU(face: VoxelFace, vertex: nat): Vec3
    requires vertex < 4
  {
    Flip(Normals(face).u, Vertices(vertex).x)
  }

  /** `vv`: the frame's v axis times the vertex's y sign. */
  function EdgeV(face: VoxelFace, vertex: nat): Vec3
    requires vertex < 4
  {
    Flip(Normals(face).v, Vertices(vertex).y)
  }

  /** `target.set(a.x * s, a.y * s, a.z * s)` with a vertex sign `s`: the sign flip above. */
  method Scaled(a: Vec3, s: int) returns (r: Vec3)
    requires s == 1 || s == -1
    ensures r == Flip(a, s)
  {
    r := Vec3(a.x * s, a.y * s, a.z * s);
  }

  predicate Near(p: Vec3) {
    -1 <= p.x <= ChunkSize && -1 <= p.y <= ChunkSize && -1 <= p.z <= ChunkSize
  }

  /** Every offset a face applies has components in [-1, 1]. */
  lemma OffsetsSmall(face: VoxelFace, vertex: nat)
    requires vertex < 4
    ensures Small(Normals(face).n) && Small(EdgeU(face, vertex)) && Small(EdgeV(face, vertex))
  {
  }

  /** Each frame is made of unit vectors along three different axes. */
  lemma FrameAxes(face: VoxelFace)
    ensures AxisFrame(Normals(face))
  {
  }

  /** The neighbour and the three occlusion probes of a face lie in [-1, 16]³, so every read
      `voxelMesher` issues stays inside the 3×3×3 block. */
  lemma ProbesNear(c: Vec3, face: VoxelFace, vertex: nat)
    requires InChunk(c.x, c.y, c.z) && vertex < 4
    ensures var p := Neighbour(c, face);
      var vu := EdgeU(face, vertex);
      var vv := EdgeV(face, vertex);
      Near(p) && Near(Add(p, vu)) && Near(Add(p, vv)) && Near(Add(Add(p, vu), vv))
  {
    FrameAxes(face);
  }

  // ------------------------------------------------------ what is emitted

  /** `getVoxel(...) !== 0` at a position in reach. */
  predicate Solid(chunks: seq<ChunkData>, p: Vec3)
    requires Neighbourhood(chunks) && InReach(p.x, p.y, p.z)
  {
    GetVoxel(chunks, p.x, p.y, p.z) != 0
  }

  /** A face is drawn when its voxel is solid and the neighbour along the face normal is air. */
  predicate Exposed(chunks: seq<ChunkData>, c: Vec3, face: VoxelFace)
    requires Neighbourhood(chunks) && InChunk(c.x, c.y, c.z)
  {
    OffsetsSmall(face, 0);
    Solid(chunks, c) && !Solid(chunks, Neighbour(c, face))
  }

  /** `isTop`: the voxel above is air. */
  predicate IsTop(chunks: seq<ChunkData>, c: Vec3)
    requires Neighbourhood(chunks) && InChunk(c.x, c.y, c.z)
  {
    !Solid(chunks, Vec3(c.x, c.y + 1, c.z))
  }

  /** The occlusion count of corner `vertex` of a face: the voxels at `p + vu`, `p + vv`, `p + vu + vv`. */
  function AO(chunks: seq<ChunkData>, c: Vec3, face: VoxelFace, vertex: nat): (ao: nat)
    requires Neighbourhood(chunks) && InChunk(c.x, c.y, c.z) && vertex < 4
    ensures ao <= 3
  {
    OffsetsSmall(face, vertex);
    var p := Neighbour(c, face);
    var vu := EdgeU(face, vertex);
    var vv := EdgeV(face, vertex);
    GetAO(Solid(chunks, Add(p, vu)), Solid(chunks, Add(p, vv)), Solid(chunks, Add(Add(p, vu), vv)))
  }

  /** `[f(0), ..., f(k - 1)]`. */
  function Tabulate(f: nat --> int, k: nat): (r: seq<int>)
    requires forall j :: 0 <= j < k ==> f.requires(j)
    ensures |r| == k
  {
    if k == 0 then [] else Tabulate(f, k - 1) + [f(k - 1)]
  }

  /** `AO` of a face as a value, defined on the four vertices. */
  function AOAt(chunks: seq<ChunkData>, c: Vec3, face: VoxelFace): nat --> int {
    (vertex: nat) requires Neighbourhood(chunks) && InChunk(c.x, c.y, c.z) && vertex < 4 => AO(chunks, c, face, vertex)
  }

  /** The occlusion counts of the first `k` corners, in `vertices` order. */
  function AOs(chunks: seq<ChunkData>, c: Vec3, face: VoxelFace, k: nat): (r: seq<int>)
    requires Neighbourhood(chunks) && InChunk(c.x, c.y, c.z) && k <= 4
    ensures |r| == k
  {
    Tabulate(AOAt(chunks, c, face), k)
  }

  /** A drawn face: the cell and the face index. */
  datatype FaceRef = FaceRef(cell: Vec3, face: VoxelFace)

  /** The first four slots of a face: the cell (standing for its centre) and
      `getTexture(voxel, face, isTop) * 6 + face`. */
  function Head(chunks: seq<ChunkData>, getTexture: (int, VoxelFace, bool) -> int, r: FaceRef): (s: seq<int>)
    requires Neighbourhood(chunks) && InChunk(r.cell.x, r.cell.y, r.cell.z)
    ensures |s| == 4
  {
    var c := r.cell;
    [c.x, c.y, c.z, getTexture(GetVoxel(chunks, c.x, c.y, c.z), r.face, IsTop(chunks, c)) * 6 + r.face]
  }

  /** The eight slots of a face: its head and the four occlusion counts. */
  function Record(chunks: seq<ChunkData>, getTexture: (int, VoxelFace, bool) -> int, r: FaceRef): (s: seq<int>)
    requires Neighbourhood(chunks) && InChunk(r.cell.x, r.cell.y, r.cell.z)
    ensures |s| == 8
  {
    Head(chunks, getTexture, r) + AOs(chunks, r.cell, r.face, 4)
  }


  /** `f(x)` for each of `xs` in turn, concatenated. */
  function Concat<T>(f: T -> seq<int>, xs: seq<T>): seq<int> {
    if xs == [] then [] else Concat(f, xs[..|xs| - 1]) + f(xs[|xs| - 1])
  }

  /** `Record` as a value: the record of a face of the centre chunk. */
  function RecordOf(chunks: seq<ChunkData>, getTexture: (int, VoxelFace, bool) -> int): FaceRef -> seq<int> {
    (r: FaceRef) =>
      if Neighbourhood(chunks) && InChunk(r.cell.x, r.cell.y, r.cell.z) then Record(chunks, getTexture, r) else []
  }

  /** The records of `faces`, one after the other. */
  function Records(chunks: seq<ChunkData>, getTexture: (int, VoxelFace, bool) -> int, faces: seq<FaceRef>): seq<int> {
    Concat(RecordOf(chunks, getTexture), faces)
  }

  /** The faces of cell `c` among 0 .. f-1 that `exposed` marks, in face order. */
  function Pick(c: Vec3, exposed: seq<bool>, f: nat): (r: seq<FaceRef>)
    requires |exposed| == 6 && f <= 6
    ensures forall q :: q in r ==> q.cell == c && q.face < f && exposed[q.face]
  {
    if f == 0 then [] else Pick(c, exposed, f - 1) + if exposed[f - 1] then [FaceRef(c, f - 1)] else []
  }

  /** Which of the six faces of `c` are exposed, in face order. */
  function Exposures(chunks: seq<ChunkData>, c: Vec3): (e: seq<bool>)
    requires Neighbourhood(chunks) && InChunk(c.x, c.y, c.z)
    ensures |e| == 6 && forall g: VoxelFace :: e[g] == Exposed(chunks, c, g)
  {
    seq(6, (g: int) requires 0 <= g < 6 => Exposed(chunks, c, g))
  }

  /** The exposed faces of cell `c` among faces 0 .. f-1, in face order. */
  function CellFaces(chunks: seq<ChunkData>, c: Vec3, f: nat): (r: seq<FaceRef>)
    requires Neighbourhood(chunks) && InChunk(c.x, c.y, c.z) && f <= 6
    ensures forall q :: q in r ==> q.cell == c && q.face < f && Exposed(chunks, c, q.face)
  {
    if f == 0 then []
    else CellFaces(chunks, c, f - 1) + if Exposed(chunks, c, f - 1) then [FaceRef(c, f - 1)] else []
  }
  /** A cell with at least one drawn face. */
  predicate Visible(chunks: seq<ChunkData>, c: Vec3)
    requires Neighbourhood(chunks) && InChunk(c.x, c.y, c.z)
  {
    CellFaces(chunks, c, 6) != []
  }

  // ----------------------------------------------------------------- bounds

  /** A `Box3` over integers; `Empty` is the state `makeEmpty` leaves. */
  datatype Bounds = Empty | Box(min: Vec3, max: Vec3)

  function Min(a: int, b: int): int { if a <= b then a else b }
  function Max(a: int, b: int): int { if a <= b then b else a }

  /** `expandByPoint(p)`. */
  function ExpandByPoint(b: Bounds, p: Vec3): Bounds {
    match b
    case Empty => Box(p, p)
    case Box(lo, hi) =>
      Box(Vec3(Min(lo.x, p.x), Min(lo.y, p.y), Min(lo.z, p.z)), Vec3(Max(hi.x, p.x), Max(hi.y, p.y), Max(hi.z, p.z)))
  }

  function Corner(c: Vec3): Vec3 {
    Vec3(c.x + 1, c.y + 1, c.z + 1)
  }

  // ------------------------------------------------------------ the scan

  /** `f` of each cell with index below `n`, in z, y, x order, concatenated. */
  function Scan<T>(f: Vec3 -> seq<T>, n: nat): seq<T>
    requires n <= ChunkVolume
  {
    if n == 0 then [] else Scan(f, n - 1) + f(Cell(n - 1))
  }

  /** The box after visiting the cells with index below `n`: each cell that `visible` marks
      grows it by the cell and by its far corner. */
  function Sweep(visible: Vec3 -> bool, n: nat): Bounds
    requires n <= ChunkVolume
  {
    if n == 0 then Empty
    else
      var b := Sweep(visible, n - 1);
      var c := Cell(n - 1);
      if visible(c) then ExpandByPoint(ExpandByPoint(b, c), Corner(c)) else b
  }

  /** The exposed faces of each cell of the centre chunk. */
  function FacesAt(chunks: seq<ChunkData>): Vec3 -> seq<FaceRef> {
    (c: Vec3) => if Neighbourhood(chunks) && InChunk(c.x, c.y, c.z) then CellFaces(chunks, c, 6) else []
  }

  /** The records of each cell of the centre chunk. */
  function RecordsAt(chunks: seq<ChunkData>, getTexture: (int, VoxelFace, bool) -> int): Vec3 -> seq<int> {
    (c: Vec3) =>
      if Neighbourhood(chunks) && InChunk(c.x, c.y, c.z) then Records(chunks, getTexture, CellFaces(chunks, c, 6)) else []
  }

  /** Which cells of the centre chunk are visible. */
  function VisibleAt(chunks: seq<ChunkData>): Vec3 -> bool {
    (c: Vec3) => Neighbourhood(chunks) && InChunk(c.x, c.y, c.z) && Visible(chunks, c)
  }

  /** The exposed faces of the cells with index below `n`, in z, y, x order and face order
      within a cell: what `voxelMesher` has emitted after visiting those cells. */
  function FaceList(chunks: seq<ChunkData>, n: nat): seq<FaceRef>
    requires n <= ChunkVolume
  {
    Scan(FacesAt(chunks), n)
  }

  /** The box after visiting the cells with index below `n`. */
  function BoundsOf(chunks: seq<ChunkData>, n: nat): Bounds
    requires n <= ChunkVolume
  {
    Sweep(VisibleAt(chunks), n)
  }

  /** `cellRecords` and `cellVisible` give, for every cell of the centre chunk, its records and
      whether it is visible. The scan loops below are proved against these two values. */
  ghost predicate Describes(chunks: seq<ChunkData>, getTexture: (int, VoxelFace, bool) -> int,
    cellRecords: Vec3 -> seq<int>, cellVisible: Vec3 -> bool)
    requires Neighbourhood(chunks)
  {
    forall c: Vec3 {:trigger CellFaces(chunks, c, 6)} :: InChunk(c.x, c.y, c.z) ==>
      cellRecords(c) == Records(chunks, getTexture, CellFaces(chunks, c, 6)) && cellVisible(c) == Visible(chunks, c)
  }

  // ------------------------------------------------------------------ mesher

  /** `voxelMesher(chunks, getTexture)`. */
  method Mesh(chunks: seq<ChunkData>, getTexture: (int, VoxelFace, bool) -> int) returns (bounds: Bounds, faces: seq<int>)
    requires Neighbourhood(chunks)
    ensures faces == Records(chunks, getTexture, FaceList(chunks, ChunkVolume))
    ensures bounds == BoundsOf(chunks, ChunkVolume)
  {
    DescribesAt(chunks, getTexture);
    bounds, faces := MeshScan(chunks, getTexture, RecordsAt(chunks, getTexture), VisibleAt(chunks));
    ScanRecords(chunks, getTexture, ChunkVolume);
  }

  /** The three nested loops of `voxelMesher` over z, y and x. */
  method MeshScan(chunks: seq<ChunkData>, getTexture: (int, VoxelFace, bool) -> int,
    ghost cellRecords: Vec3 -> seq<int>, ghost cellVisible: Vec3 -> bool) returns (bounds: Bounds, faces: seq<int>)
    requires Neighbourhood(chunks) && Describes(chunks, getTexture, cellRecords, cellVisible)
    ensures faces == Scan(cellRecords, ChunkVolume)
    ensures bounds == Sweep(cellVisible, ChunkVolume)
  {
    bounds := Empty;
    faces := [];
    ghost var n := 0;
    for z := 0 to ChunkSize
      invariant n == z * 256
      invariant faces == Scan(cellRecords, n)
      invariant bounds == Sweep(cellVisible, n)
    {
      for y := 0 to ChunkSize
        invariant n == z * 256 + y * 16
        invariant faces == Scan(cellRecords, n)
        invariant bounds == Sweep(cellVisible, n)
      {
        for x := 0 to ChunkSize
          invariant n == z * 256 + y * 16 + x
          invariant faces == Scan(cellRecords, n)
          invariant bounds == Sweep(cellVisible, n)
        {
          var cellFaces, isVisible := MeshCell(chunks, getTexture, cellRecords, cellVisible, x, y, z);
          ScanNext(cellRecords, n, x, y, z);
          SweepNext(cellVisible, n, x, y, z);
          faces := faces + cellFaces;
          if isVisible {
            bounds := ExpandByPoint(bounds, Vec3(x, y, z));
            bounds := ExpandByPoint(bounds, Vec3(x + 1, y + 1, z + 1));
          }
          n := n + 1;
        }
      }
    }
  }

  /** One more cell visited: its part is appended. */
  lemma ScanNext<T>(f: Vec3 -> seq<T>, n: nat, x: int, y: int, z: int)
    requires InChunk(x, y, z) && n == z * 256 + y * 16 + x
    ensures Scan(f, n + 1) == Scan(f, n) + f(Vec3(x, y, z))
  {
    assert n == Idx(x, y, z) && Cell(n) == Vec3(x, y, z);
  }

  /** One more cell visited: the box grows by it when it is visible. */
  lemma SweepNext(visible: Vec3 -> bool, n: nat, x: int, y: int, z: int)
    requires InChunk(x, y, z) && n == z * 256 + y * 16 + x
    ensures Sweep(visible, n + 1)
      == if visible(Vec3(x, y, z)) then ExpandByPoint(ExpandByPoint(Sweep(visible, n), Vec3(x, y, z)), Vec3(x + 1, y + 1, z + 1))
         else Sweep(visible, n)
  {
    assert n == Idx(x, y, z) && Cell(n) == Vec3(x, y, z);
  }

  /** `RecordsAt` and `VisibleAt` describe the chunk. */
  lemma DescribesAt(chunks: seq<ChunkData>, getTexture: (int, VoxelFace, bool) -> int)
    requires Neighbourhood(chunks)
    ensures Describes(chunks, getTexture, RecordsAt(chunks, getTexture), VisibleAt(chunks))
  {
  }

  /** The records the scan of the first `n` cells emits are the records of its faces. */
  lemma ScanRecords(chunks: seq<ChunkData>, getTexture: (int, VoxelFace, bool) -> int, n: nat)
    requires Neighbourhood(chunks) && n <= ChunkVolume
    ensures Scan(RecordsAt(chunks, getTexture), n) == Records(chunks, getTexture, FaceList(chunks, n))
  {
    ScanConcat(RecordOf(chunks, getTexture), FacesAt(chunks), RecordsAt(chunks, getTexture), n);
  }

  /** Scanning the concatenated parts is concatenating the scanned parts. */
  lemma {:induction false} ScanConcat<T>(f: T -> seq<int>, parts: Vec3 -> seq<T>, joined: Vec3 -> seq<int>, n: nat)
    requires n <= ChunkVolume
    requires forall c :: joined(c) == Concat(f, parts(c))
    ensures Scan(joined, n) == Concat(f, Scan(parts, n))
  {
    if n > 0 {
      ScanConcat(f, parts, joined, n - 1);
      ConcatAppend(f, Scan(parts, n - 1), parts(Cell(n - 1)));
    }
  }

  /** The body of the x loop for one cell: its records and whether any face was drawn. */
  method MeshCell(chunks: seq<ChunkData>, getTexture: (int, VoxelFace, bool) -> int,
    ghost cellRecords: Vec3 -> seq<int>, ghost cellVisible: Vec3 -> bool, x: int, y: int, z: int)
    returns (records: seq<int>, isVisible: bool)
    requires Neighbourhood(chunks) && InChunk(x, y, z) && Describes(chunks, getTexture, cellRecords, cellVisible)
    ensures records == cellRecords(Vec3(x, y, z))
    ensures isVisible == cellVisible(Vec3(x, y, z))
  {
    var c := Vec3(x, y, z);
    records := [];
    isVisible := false;
    var voxel := GetVoxel(chunks, x, y, z);
    if voxel == 0 {
      NoFacesOfAir(chunks, c, 6);
      assert Records(chunks, getTexture, CellFaces(chunks, c, 6)) == [];
      return;
    }
    var isTop := GetVoxel(chunks, c.x, c.y + 1, c.z) == 0;
    for face := 0 to 6
      invariant records == Records(chunks, getTexture, CellFaces(chunks, c, face))
      invariant isVisible == (CellFaces(chunks, c, face) != [])
    {
      var quad, drawn := EmitFace(chunks, getTexture, c, face, voxel, isTop);
      FaceStep(chunks, getTexture, c, face, drawn, quad);
      records := records + quad;
      if drawn {
        isVisible := true;
      }
    }
    assert records == Records(chunks, getTexture, CellFaces(chunks, c, 6));
  }

  /** One more face visited: its record is appended when it is exposed. */
  lemma FaceStep(chunks: seq<ChunkData>, getTexture: (int, VoxelFace, bool) -> int, c: Vec3, face: VoxelFace,
    drawn: bool, quad: seq<int>)
    requires Neighbourhood(chunks) && InChunk(c.x, c.y, c.z)
    requires drawn == Exposed(chunks, c, face)
    requires quad == if drawn then Record(chunks, getTexture, FaceRef(c, face)) else []
    ensures Records(chunks, getTexture, CellFaces(chunks, c, face + 1))
      == Records(chunks, getTexture, CellFaces(chunks, c, face)) + quad
    ensures (CellFaces(chunks, c, face + 1) != []) == (drawn || CellFaces(chunks, c, face) != [])
  {
    CellFacesStep(chunks, c, face);
    if drawn {
      RecordsAppend(chunks, getTexture, CellFaces(chunks, c, face), [FaceRef(c, face)]);
      ConcatOne(RecordOf(chunks, getTexture), FaceRef(c, face));
    } else {
      assert CellFaces(chunks, c, face) + [] == CellFaces(chunks, c, face);
    }
  }

  /** The body of the face loop: whether the neighbour along the normal is air, and if so
      the face's record. */
  method EmitFace(chunks: seq<ChunkData>, getTexture: (int, VoxelFace, bool) -> int, c: Vec3, face: VoxelFace,
    voxel: byte, isTop: bool) returns (quad: seq<int>, drawn: bool)
    requires Neighbourhood(chunks) && InChunk(c.x, c.y, c.z)
    requires voxel == GetVoxel(chunks, c.x, c.y, c.z) && voxel != 0 && isTop == IsTop(chunks, c)
    ensures drawn == Exposed(chunks, c, face)
    ensures quad == if drawn then Record(chunks, getTexture, FaceRef(c, face)) else []
  {
    drawn := NeighbourIsAir(chunks, c, face);
    quad := [];
    if drawn {
      quad := MeshFace(chunks, getTexture, c, face, voxel, isTop);
    }
  }

  /** `getVoxel(chunks, p.x, p.y, p.z) === 0` for `p = cell + n`. */
  method NeighbourIsAir(chunks: seq<ChunkData>, c: Vec3, face: VoxelFace) returns (air: bool)
    requires Neighbourhood(chunks) && InChunk(c.x, c.y, c.z)
    ensures air == !Solid(chunks, Neighbour(c, face))
  {
    OffsetsSmall(face, 0);
    var p := Add(c, Normals(face).n);
    air := GetVoxel(chunks, p.x, p.y, p.z) == 0;
  }

  /** The record of one drawn face, with the vertex loop for its four occlusion counts. */
  method MeshFace(chunks: seq<ChunkData>, getTexture: (int, VoxelFace, bool) -> int, c: Vec3, face: VoxelFace,
    voxel: byte, isTop: bool) returns (quad: seq<int>)
    requires Neighbourhood(chunks) && InChunk(c.x, c.y, c.z)
    requires voxel == GetVoxel(chunks, c.x, c.y, c.z) && isTop == IsTop(chunks, c)
    ensures quad == Record(chunks, getTexture, FaceRef(c, face))
  {
    var head := [c.x, c.y, c.z, getTexture(voxel, face, isTop) * 6 + face];
    assert head == Head(chunks, getTexture, FaceRef(c, face));
    quad := head;
    for vertex := 0 to 4
      invariant quad == head + AOs(chunks, c, face, vertex)
    {
      var ao := VertexAO(chunks, c, face, vertex);
      AppendAssoc(head, AOs(chunks, c, face, vertex), [ao]);
      quad := quad + [ao];
    }
  }

  method VertexAO(chunks: seq<ChunkData>, c: Vec3, face: VoxelFace, vertex: nat) returns (ao: nat)
    requires Neighbourhood(chunks) && InChunk(c.x, c.y, c.z) && vertex < 4
    ensures ao == AO(chunks, c, face, vertex)
  {
    var frame := Normals(face);
    var p := Add(c, frame.n);
    var vn := Vertices(vertex);
    var vu := Scaled(frame.u, vn.x);
    var vv := Scaled(frame.v, vn.y);
    OffsetsSmall(face, vertex);
    var a := Add(p, vu);
    var b := Add(p, vv);
    var d := Add(a, vv);
    ao := GetAO(GetVoxel(chunks, a.x, a.y, a.z) != 0, GetVoxel(chunks, b.x, b.y, b.z) != 0, GetVoxel(chunks, d.x, d.y, d.z) != 0);
  }

  // ------------------------------------------------------------------ lemmas

  lemma AppendAssoc<T>(a: seq<T>, b: seq<T>, c: seq<T>)
    ensures (a + b) + c == a + (b + c)
  {
  }

  lemma CellFacesStep(chunks: seq<ChunkData>, c: Vec3, face: VoxelFace)
    requires Neighbourhood(chunks) && InChunk(c.x, c.y, c.z)
    ensures CellFaces(chunks, c, face + 1)
      == CellFaces(chunks, c, face) + if Exposed(chunks, c, face) then [FaceRef(c, face)] else []
  {
  }

  lemma ConcatOne<T>(f: T -> seq<int>, x: T)
    ensures Concat(f, [x]) == f(x)
  {
    assert [x][..0] == [];
  }

  lemma {:induction false} ConcatAppend<T>(f: T -> seq<int>, a: seq<T>, b: seq<T>)
    ensures Concat(f, a + b) == Concat(f, a) + Concat(f, b)
    decreases |b|
  {
    if b == [] {
      assert a + b == a;
    } else {
      var b' := b[..|b| - 1];
      assert (a + b)[..|a + b| - 1] == a + b';
      assert (a + b)[|a + b| - 1] == b[|b| - 1];
      ConcatAppend(f, a, b');
    }
  }

  lemma RecordsAppend(chunks: seq<ChunkData>, getTexture: (int, VoxelFace, bool) -> int, a: seq<FaceRef>, b: seq<FaceRef>)
    ensures Records(chunks, getTexture, a + b) == Records(chunks, getTexture, a) + Records(chunks, getTexture, b)
  {
    ConcatAppend(RecordOf(chunks, getTexture), a, b);
  }

  /** A cell holding air draws no face. */
  lemma {:induction false} NoFacesOfAir(chunks: seq<ChunkData>, c: Vec3, f: nat)
    requires Neighbourhood(chunks) && InChunk(c.x, c.y, c.z) && f <= 6
    requires !Solid(chunks, c)
    ensures CellFaces(chunks, c, f) == []
  {
    if f > 0 {
      NoFacesOfAir(chunks, c, f - 1);
    }
  }

  // ------------------------------------------------------- record layout

  lemma {:induction false} ConcatLength<T>(f: T -> seq<int>, xs: seq<T>)
    requires forall x :: x in xs ==> |f(x)| == 8
    ensures |Concat(f, xs)| == 8 * |xs|
    decreases |xs|
  {
    if xs != [] {
      var p := xs[..|xs| - 1];
      assert forall x :: x in p ==> x in xs;
      ConcatLength(f, p);
    }
  }

  lemma {:induction false} ConcatSlot<T>(f: T -> seq<int>, xs: seq<T>, i: nat)
    requires forall x :: x in xs ==> |f(x)| == 8
    requires i < |xs|
    ensures |Concat(f, xs)| == 8 * |xs|
    ensures Concat(f, xs)[8 * i .. 8 * i + 8] == f(xs[i])
    decreases |xs|
  {
    ConcatLength(f, xs);
    var p := xs[..|xs| - 1];
    assert forall x :: x in p ==> x in xs;
    ConcatLength(f, p);
    if i < |xs| - 1 {
      ConcatSlot(f, p, i);
      assert p[i] == xs[i];
    }
  }

  /** The flat `faces` array is the concatenation of eight-slot records, one per face, in order. */
  lemma RecordsLayout(chunks: seq<ChunkData>, getTexture: (int, VoxelFace, bool) -> int, faces: seq<FaceRef>)
    requires Neighbourhood(chunks) && forall r :: r in faces ==> InChunk(r.cell.x, r.cell.y, r.cell.z)
    ensures |Records(chunks, getTexture, faces)| == 8 * |faces|
    ensures forall i :: 0 <= i < |faces| ==>
      Records(chunks, getTexture, faces)[8 * i .. 8 * i + 8] == Record(chunks, getTexture, faces[i])
  {
    var f := RecordOf(chunks, getTexture);
    ConcatLength(f, faces);
    forall i | 0 <= i < |faces|
      ensures Records(chunks, getTexture, faces)[8 * i .. 8 * i + 8] == Record(chunks, getTexture, faces[i])
    {
      ConcatSlot(f, faces, i);
    }
  }

  lemma {:induction false} TabulateAt(f: nat --> int, k: nat, j: nat)
    requires forall i :: 0 <= i < k ==> f.requires(i)
    requires j < k
    ensures Tabulate(f, k)[j] == f(j)
  {
    var a := Tabulate(f, k - 1);
    assert Tabulate(f, k) == a + [f(k - 1)];
    if j < k - 1 {
      TabulateAt(f, k - 1, j);
      assert Tabulate(f, k)[j] == a[j];
    } else {
      assert j == k - 1;
    }
  }

  /** Slot `4 + k` of a record holds the occlusion count of corner `k`. */
  lemma RecordAO(chunks: seq<ChunkData>, getTexture: (int, VoxelFace, bool) -> int, r: FaceRef, k: nat)
    requires Neighbourhood(chunks) && InChunk(r.cell.x, r.cell.y, r.cell.z) && k < 4
    ensures Record(chunks, getTexture, r)[4 + k] == AO(chunks, r.cell, r.face, k)
  {
    TabulateAt(AOAt(chunks, r.cell, r.face), 4, k);
  }

  /** The first three slots of a record hold the cell (standing for the face centre). */
  lemma RecordCell(chunks: seq<ChunkData>, getTexture: (int, VoxelFace, bool) -> int, r: FaceRef)
    requires Neighbourhood(chunks) && InChunk(r.cell.x, r.cell.y, r.cell.z)
    ensures Vec3(Record(chunks, getTexture, r)[0], Record(chunks, getTexture, r)[1], Record(chunks, getTexture, r)[2]) == r.cell
  {
  }

  lemma TimesSix(v: int, t: int, f: VoxelFace)
    requires v == t * 6 + f
    ensures v % 6 == f
    ensures v / 6 == t
  {
  }

  /** Slot 3 of a record holds `texture * 6 + face`: the face and the texture `getTexture`
      chose for it are read back by remainder and quotient. */
  lemma RecordTexture(chunks: seq<ChunkData>, getTexture: (int, VoxelFace, bool) -> int, r: FaceRef)
    requires Neighbourhood(chunks) && InChunk(r.cell.x, r.cell.y, r.cell.z)
    ensures Record(chunks, getTexture, r)[3] % 6 == r.face
    ensures Record(chunks, getTexture, r)[3] / 6
      == getTexture(GetVoxel(chunks, r.cell.x, r.cell.y, r.cell.z), r.face, IsTop(chunks, r.cell))
  {
    var c := r.cell;
    var t := getTexture(GetVoxel(chunks, c.x, c.y, c.z), r.face, IsTop(chunks, c));
    TimesSix(Record(chunks, getTexture, r)[3], t, r.face);
  }

  // ---------------------------------------------------- which faces appear

  /** A face of `c` below `f` is listed exactly when it is exposed. */
  lemma {:induction false} CellFacesMember(chunks: seq<ChunkData>, c: Vec3, f: nat, q: FaceRef)
    requires Neighbourhood(chunks) && InChunk(c.x, c.y, c.z) && f <= 6
    ensures q in CellFaces(chunks, c, f) <==> q.cell == c && q.face < f && Exposed(chunks, c, q.face)
  {
    if f > 0 {
      CellFacesMember(chunks, c, f - 1, q);
      CellFacesStep(chunks, c, f - 1);
      if q.face == f - 1 {
        assert q.cell == c ==> q == FaceRef(c, f - 1);
      } else {
        assert q != FaceRef(c, f - 1);
      }
    }
  }

  /** `CellFaces` is `Pick` over the cell's six exposures. */
  lemma {:induction false} CellFacesPick(chunks: seq<ChunkData>, c: Vec3, f: nat)
    requires Neighbourhood(chunks) && InChunk(c.x, c.y, c.z) && f <= 6
    ensures CellFaces(chunks, c, f) == Pick(c, Exposures(chunks, c), f)
  {
    if f > 0 {
      CellFacesPick(chunks, c, f - 1);
      var e := Exposures(chunks, c);
      var g: VoxelFace := f - 1;
      assert e[g] == Exposed(chunks, c, g);
    }
  }

  lemma {:induction false} PickOrdered(c: Vec3, e: seq<bool>, f: nat)
    requires |e| == 6 && f <= 6
    ensures forall i, j :: 0 <= i < j < |Pick(c, e, f)| ==> Pick(c, e, f)[i].face < Pick(c, e, f)[j].face
  {
    if f > 0 {
      PickOrdered(c, e, f - 1);
      var a := Pick(c, e, f - 1);
      var s := Pick(c, e, f);
      if e[f - 1] {
        assert s == a + [FaceRef(c, f - 1)];
        forall i, j | 0 <= i < j < |s| ensures s[i].face < s[j].face {
          assert s[i] == a[i] && a[i] in a;
          if j < |a| {
            assert s[j] == a[j];
          }
        }
      } else {
        assert s == a + [];
      }
    }
  }

  /** With every face below `f` marked, `Pick` lists them all, in order. */
  lemma {:induction false} PickAll(c: Vec3, e: seq<bool>, f: nat)
    requires |e| == 6 && f <= 6
    requires forall g :: 0 <= g < f ==> e[g]
    ensures |Pick(c, e, f)| == f
    ensures forall g :: 0 <= g < f ==> Pick(c, e, f)[g] == FaceRef(c, g)
  {
    if f > 0 {
      PickAll(c, e, f - 1);
      var a := Pick(c, e, f - 1);
      assert e[f - 1];
      assert Pick(c, e, f) == a + [FaceRef(c, f - 1)];
      forall g | 0 <= g < f ensures Pick(c, e, f)[g] == FaceRef(c, g) {
        if g < f - 1 {
          assert Pick(c, e, f)[g] == a[g];
        } else {
          assert g == f - 1;
        }
      }
    }
  }

  /** With no face below `f` marked, `Pick` lists none. */
  lemma {:induction false} PickNone(c: Vec3, e: seq<bool>, f: nat)
    requires |e| == 6 && f <= 6
    requires forall g :: 0 <= g < f ==> !e[g]
    ensures Pick(c, e, f) == []
  {
    if f > 0 {
      PickNone(c, e, f - 1);
      assert !e[f - 1];
    }
  }

  /** `Idx(cell) * 6 + face`: the position of a face in the scan, cell index first. */
  function Rank(q: FaceRef): int {
    (q.cell.z * 256 + q.cell.y * 16 + q.cell.x) * 6 + q.face
  }

  predicate ScanOrdered(s: seq<FaceRef>) {
    forall i, j :: 0 <= i < j < |s| ==> Rank(s[i]) < Rank(s[j])
  }

  lemma OrderedAppend(a: seq<FaceRef>, b: seq<FaceRef>, m: int)
    requires ScanOrdered(a) && ScanOrdered(b)
    requires forall q :: q in a ==> Rank(q) < m
    requires forall q :: q in b ==> m <= Rank(q)
    ensures ScanOrdered(a + b)
  {
    var s := a + b;
    forall i, j | 0 <= i < j < |s| ensures Rank(s[i]) < Rank(s[j]) {
      if j < |a| {
        assert s[i] == a[i] && s[j] == a[j];
      } else if i >= |a| {
        assert s[i] == b[i - |a|] && s[j] == b[j - |a|];
      } else {
        assert s[i] == a[i] && a[i] in a;
        assert s[j] == b[j - |a|] && b[j - |a|] in b;
      }
    }
  }

  lemma CellFacesOrdered(chunks: seq<ChunkData>, c: Vec3)
    requires Neighbourhood(chunks) && InChunk(c.x, c.y, c.z)
    ensures ScanOrdered(CellFaces(chunks, c, 6))
  {
    CellFacesPick(chunks, c, 6);
    PickOrdered(c, Exposures(chunks, c), 6);
    var s := CellFaces(chunks, c, 6);
    forall i, j | 0 <= i < j < |s| ensures Rank(s[i]) < Rank(s[j]) {
      assert s[i] in s && s[j] in s;
    }
  }

  /** The faces of the cell with index `i` rank from `6 * i` to `6 * i + 5`. */
  lemma RankOfCell(i: nat, q: FaceRef)
    requires i < ChunkVolume && q.cell == Cell(i)
    ensures 6 * i <= Rank(q) < 6 * i + 6
  {
    IdxOfCell(i);
  }

  /** When each cell's part is ordered and made of faces of that cell, the scan is ordered
      and stays below the cells not yet visited. */
  lemma {:induction false} ScanInOrder(parts: Vec3 -> seq<FaceRef>, n: nat)
    requires n <= ChunkVolume
    requires forall i :: 0 <= i < ChunkVolume ==> ScanOrdered(parts(Cell(i)))
    requires forall i, q :: 0 <= i < ChunkVolume && q in parts(Cell(i)) ==> q.cell == Cell(i)
    ensures ScanOrdered(Scan(parts, n))
    ensures forall q :: q in Scan(parts, n) ==> Rank(q) < 6 * n
  {
    if n > 0 {
      ScanInOrder(parts, n - 1);
      var a := Scan(parts, n - 1);
      var b := parts(Cell(n - 1));
      forall q | q in b ensures 6 * (n - 1) <= Rank(q) < 6 * n {
        RankOfCell(n - 1, q);
      }
      OrderedAppend(a, b, 6 * (n - 1));
    }
  }

  /** Records appear in z, y, x order of their cells and in face order within a cell; in
      particular no face is emitted twice. */
  lemma FaceListOrdered(chunks: seq<ChunkData>, n: nat)
    requires Neighbourhood(chunks) && n <= ChunkVolume
    ensures ScanOrdered(FaceList(chunks, n))
  {
    var parts := FacesAt(chunks);
    forall i | 0 <= i < ChunkVolume ensures ScanOrdered(parts(Cell(i))) {
      CellFacesOrdered(chunks, Cell(i));
    }
    ScanInOrder(parts, n);
  }

  /** `q` is in the scan of the first `n` cells exactly when one of those cells' parts holds it. */
  lemma {:induction false} ScanMember<T>(parts: Vec3 -> seq<T>, n: nat, q: T)
    requires n <= ChunkVolume
    ensures q in Scan(parts, n) <==> exists i :: 0 <= i < n && q in parts(Cell(i))
  {
    if n > 0 {
      ScanMember(parts, n - 1, q);
      if q in parts(Cell(n - 1)) {
        assert q in Scan(parts, n);
      }
    }
  }

  /** `(cell, face)` is emitted by the scan of the first `n` cells exactly when the cell is one of
      them and the face is exposed. */
  lemma FaceListMember(chunks: seq<ChunkData>, n: nat, q: FaceRef)
    requires Neighbourhood(chunks) && n <= ChunkVolume
    ensures q in FaceList(chunks, n) <==>
      InChunk(q.cell.x, q.cell.y, q.cell.z) && Idx(q.cell.x, q.cell.y, q.cell.z) < n && Exposed(chunks, q.cell, q.face)
  {
    var parts := FacesAt(chunks);
    ScanMember(parts, n, q);
    if q in FaceList(chunks, n) {
      var i :| 0 <= i < n && q in parts(Cell(i));
      CellFacesMember(chunks, Cell(i), 6, q);
      IdxOfCell(i);
    }
    if InChunk(q.cell.x, q.cell.y, q.cell.z) && Idx(q.cell.x, q.cell.y, q.cell.z) < n && Exposed(chunks, q.cell, q.face) {
      var i := Idx(q.cell.x, q.cell.y, q.cell.z);
      CellFacesMember(chunks, q.cell, 6, q);
      assert q in parts(Cell(i));
    }
  }

  /** A solid voxel with air on all six sides draws all six faces, in face order. */
  lemma IsolatedVoxel(chunks: seq<ChunkData>, c: Vec3)
    requires Neighbourhood(chunks) && InChunk(c.x, c.y, c.z)
    requires Solid(chunks, c)
    requires forall g: VoxelFace :: !Solid(chunks, Neighbour(c, g))
    ensures |CellFaces(chunks, c, 6)| == 6
    ensures forall g: VoxelFace :: CellFaces(chunks, c, 6)[g] == FaceRef(c, g)
  {
    CellFacesPick(chunks, c, 6);
    var e := Exposures(chunks, c);
    forall g | 0 <= g < 6 ensures e[g] {
      assert !Solid(chunks, Neighbour(c, g));
    }
    PickAll(c, e, 6);
  }

  /** A voxel whose six neighbours are all solid draws no face. */
  lemma EnclosedVoxel(chunks: seq<ChunkData>, c: Vec3)
    requires Neighbourhood(chunks) && InChunk(c.x, c.y, c.z)
    requires forall g: VoxelFace :: Solid(chunks, Neighbour(c, g))
    ensures CellFaces(chunks, c, 6) == []
  {
    CellFacesPick(chunks, c, 6);
    var e := Exposures(chunks, c);
    forall g | 0 <= g < 6 ensures !e[g] {
      assert Solid(chunks, Neighbour(c, g));
    }
    PickNone(c, e, 6);
  }

  /** A cell grows the bounds exactly when one of its faces is exposed. */
  lemma VisibleIff(chunks: seq<ChunkData>, c: Vec3)
    requires Neighbourhood(chunks) && InChunk(c.x, c.y, c.z)
    ensures Visible(chunks, c) <==> exists f: VoxelFace :: Exposed(chunks, c, f)
  {
    if Visible(chunks, c) {
      var q := CellFaces(chunks, c, 6)[0];
      assert q in CellFaces(chunks, c, 6);
    } else {
      forall f: VoxelFace ensures !Exposed(chunks, c, f) {
        CellFacesMember(chunks, c, 6, FaceRef(c, f));
      }
    }
  }

  // ------------------------------------------------------------ bounds facts

  /** `a <= b` on every axis. */
  predicate Below(a: Vec3, b: Vec3) {
    a.x <= b.x && a.y <= b.y && a.z <= b.z
  }

  lemma {:induction false} SweepEmpty(visible: Vec3 -> bool, n: nat)
    requires n <= ChunkVolume
    ensures Sweep(visible, n) == Empty <==> forall i :: 0 <= i < n ==> !visible(Cell(i))
  {
    if n > 0 {
      SweepEmpty(visible, n - 1);
    }
  }

  lemma {:induction false} SweepCovers(visible: Vec3 -> bool, n: nat, i: nat)
    requires i < n <= ChunkVolume && visible(Cell(i))
    ensures var b := Sweep(visible, n);
      b.Box? && Below(b.min, Cell(i)) && Below(Corner(Cell(i)), b.max)
  {
    if i < n - 1 {
      SweepCovers(visible, n - 1, i);
    }
  }

  lemma {:induction false} SweepLeast(visible: Vec3 -> bool, n: nat, lo: Vec3, hi: Vec3)
    requires n <= ChunkVolume
    requires forall i :: 0 <= i < n && visible(Cell(i)) ==> Below(lo, Cell(i)) && Below(Corner(Cell(i)), hi)
    ensures var b := Sweep(visible, n);
      b.Box? ==> Below(lo, b.min) && Below(b.max, hi)
  {
    if n > 0 {
      SweepLeast(visible, n - 1, lo, hi);
    }
  }

  /** After the scan of the first `n` cells the box is empty exactly when none of them is visible. */
  lemma BoundsEmpty(chunks: seq<ChunkData>, n: nat)
    requires Neighbourhood(chunks) && n <= ChunkVolume
    ensures BoundsOf(chunks, n) == Empty <==> forall i :: 0 <= i < n ==> !Visible(chunks, Cell(i))
  {
    var v := VisibleAt(chunks);
    SweepEmpty(v, n);
    assert forall i :: 0 <= i < n ==> v(Cell(i)) == Visible(chunks, Cell(i));
  }

  /** The box holds every visible cell among the first `n` and its far corner. */
  lemma BoundsCover(chunks: seq<ChunkData>, n: nat, i: nat)
    requires Neighbourhood(chunks) && i < n <= ChunkVolume && Visible(chunks, Cell(i))
    ensures var b := BoundsOf(chunks, n);
      b.Box? && Below(b.min, Cell(i)) && Below(Corner(Cell(i)), b.max)
  {
    SweepCovers(VisibleAt(chunks), n, i);
  }

  /** The box is the least one doing so: any box holding those cells and corners holds it. */
  lemma BoundsLeast(chunks: seq<ChunkData>, n: nat, lo: Vec3, hi: Vec3)
    requires Neighbourhood(chunks) && n <= ChunkVolume
    requires forall i :: 0 <= i < n && Visible(chunks, Cell(i)) ==> Below(lo, Cell(i)) && Below(Corner(Cell(i)), hi)
    ensures var b := BoundsOf(chunks, n);
      b.Box? ==> Below(lo, b.min) && Below(b.max, hi)
  {
    var v := VisibleAt(chunks);
    forall i | 0 <= i < n && v(Cell(i)) ensures Below(lo, Cell(i)) && Below(Corner(Cell(i)), hi) {
    }
    SweepLeast(v, n, lo, hi);
  }
}
