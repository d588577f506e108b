/** The chunk store of src/data/Data.ts: chunks keyed by the text `x:y:z`,
    lazy generation, voxel reads and writes by floor division, export and
    import of modified chunks, and the streaming window `loadChunks`. */
module Data {
  import opened JsText
  import Signal

  datatype Option<T> = None | Some(value: T)

  /** `chunkSize`. */
  const ChunkSize: int := 16
  /** `chunkSize * chunkSize * chunkSize`, the length of a chunk's voxel array. */
  const ChunkVolume: int := 4096

  /** An element of a `Uint8Array`. */
  type byte = b: int | 0 <= b < 256

  /** The conversion a `Uint8Array` applies to an integer stored into it. */
  function ToUint8(v: int): (b: byte)
    ensures (v - b) % 256 == 0
    ensures 0 <= v < 256 ==> b == v
  {
    v % 256
  }

  /** An integer `Vector3`: a chunk coordinate, a world voxel position or a local one. */
  datatype Vec3 = Vec3(x: int, y: int, z: int)

  function Add(a: Vec3, b: Vec3): Vec3 {
    Vec3(a.x + b.x, a.y + b.y, a.z + b.z)
  }

  /** A `Vector3` whose components may be NaN (a position read back from a key). */
  datatype NumVec3 = NumVec3(x: Num, y: Num, z: Num)

  function IntVec(v: Vec3): NumVec3 {
    NumVec3(Int(v.x), Int(v.y), Int(v.z))
  }

  /** `multiplyScalar(chunkSize)`; NaN stays NaN. */
  function Scale(n: Num): Num {
    match n
    case Int(v) => Int(ChunkSize * v)
    case NaN => NaN
  }

  datatype ChunkData = ChunkData(modified: bool, position: NumVec3, voxels: seq<byte>)

  /** `VoxelFace`: south, top, bottom, west, east, north. */
  type VoxelFace = f: int | 0 <= f < 6
  const South: VoxelFace := 0
  const Top: VoxelFace := 1
  const Bottom: VoxelFace := 2
  const West: VoxelFace := 3
  const East: VoxelFace := 4
  const North: VoxelFace := 5

  predicate InChunk(x: int, y: int, z: int) {
    0 <= x < ChunkSize && 0 <= y < ChunkSize && 0 <= z < ChunkSize
  }

  /** `z * chunkSize * chunkSize + y * chunkSize + x`, the layout of every voxel array. */
  function Idx(x: int, y: int, z: int): (n: nat)
    requires InChunk(x, y, z)
    ensures n < ChunkVolume && Cell(n) == Vec3(x, y, z)
  {
    CellOfIdx(x, y, z);
    z * 256 + y * 16 + x
  }

  lemma CellOfIdx(x: int, y: int, z: int)
    requires InChunk(x, y, z)
    ensures Cell(z * 256 + y * 16 + x) == Vec3(x, y, z)
  {
    var n := z * 256 + y * 16 + x;
    DivMod16(n, z * 16 + y, x);
    DivMod16(z * 16 + y, z, y);
    DivMod256(n, z, y * 16 + x);
  }

  lemma DivMod16(n: int, q: int, r: int)
    requires 0 <= r < 16 && n == 16 * q + r
    ensures n / 16 == q && n % 16 == r
  {
  }

  lemma DivMod256(n: int, q: int, r: int)
    requires 0 <= r < 256 && n == 256 * q + r
    ensures n / 256 == q
  {
  }

  /** The local coordinate stored at index `n`. */
  function Cell(n: int): (c: Vec3)
    requires 0 <= n < ChunkVolume
    ensures InChunk(c.x, c.y, c.z)
  {
    Vec3(n % 16, (n / 16) % 16, n / 256)
  }

  lemma IdxOfCell(n: int)
    requires 0 <= n < ChunkVolume
    ensures Idx(Cell(n).x, Cell(n).y, Cell(n).z) == n
  {
  }

  predicate Distinct<T(==)>(s: seq<T>) {
    forall i, j :: 0 <= i < j < |s| ==> s[i] != s[j]
  }

  // ---------------------------------------------------------------- keys

  /** `getChunkKey`: the template literal `${x}:${y}:${z}`. */
  function ChunkKey(c: Vec3): string {
    Join([c.x, c.y, c.z])
  }

  /** Component `i` of `new Vector3().fromArray(parts.map((p) => parseInt(p, 10)))`:
      a missing component reads `undefined`, which compares and scales as NaN does. */
  function Component(parts: seq<string>, i: nat): Num {
    if i < |parts| then ParseInt(parts[i]) else NaN
  }

  /** The position a key denotes, as `loadChunks` and `importChunks` read it back. */
  function KeyPosition(key: string): NumVec3 {
    var parts := Split(key);
    NumVec3(Component(parts, 0), Component(parts, 1), Component(parts, 2))
  }

  /** Parsing a chunk key gives back its coordinate. */
  lemma KeyRoundTrip(c: Vec3)
    ensures KeyPosition(ChunkKey(c)) == IntVec(c)
  {
    SplitJoin([c.x, c.y, c.z]);
    ParseIntOfString(c.x, []);
    ParseIntOfString(c.y, []);
    ParseIntOfString(c.z, []);
    assert IntToString(c.x) + [] == IntToString(c.x);
    assert IntToString(c.y) + [] == IntToString(c.y);
    assert IntToString(c.z) + [] == IntToString(c.z);
  }

  /** Distinct coordinates have distinct keys. */
  lemma KeyInjective(a: Vec3, b: Vec3)
    requires ChunkKey(a) == ChunkKey(b)
    ensures a == b
  {
    JoinInjective([a.x, a.y, a.z], [b.x, b.y, b.z]);
    assert [a.x, a.y, a.z][0] == [b.x, b.y, b.z][0];
    assert [a.x, a.y, a.z][1] == [b.x, b.y, b.z][1];
    assert [a.x, a.y, a.z][2] == [b.x, b.y, b.z][2];
  }

  // ------------------------------------------------ positions and chunks

  /** `position.divideScalar(chunkSize).floor()`. */
  function ChunkOf(p: Vec3): Vec3 {
    Vec3(p.x / ChunkSize, p.y / ChunkSize, p.z / ChunkSize)
  }

  /** `position - chunk * chunkSize`: the voxel's coordinate inside its chunk. */
  function LocalOf(p: Vec3): (l: Vec3)
    ensures InChunk(l.x, l.y, l.z)
    ensures p == Add(Vec3(ChunkSize * ChunkOf(p).x, ChunkSize * ChunkOf(p).y, ChunkSize * ChunkOf(p).z), l)
  {
    var c := ChunkOf(p);
    Vec3(p.x - c.x * ChunkSize, p.y - c.y * ChunkSize, p.z - c.z * ChunkSize)
  }

  /** A position splits into a chunk and a local coordinate in exactly one way. */
  lemma SplitUnique(p: Vec3, c: Vec3, l: Vec3)
    requires InChunk(l.x, l.y, l.z)
    requires p == Add(Vec3(ChunkSize * c.x, ChunkSize * c.y, ChunkSize * c.z), l)
    ensures c == ChunkOf(p) && l == LocalOf(p)
  {
    DivUnique(p.x, c.x, l.x);
    DivUnique(p.y, c.y, l.y);
    DivUnique(p.z, c.z, l.z);
  }

  lemma DivUnique(p: int, c: int, l: int)
    requires 0 <= l < 16 && p == 16 * c + l
    ensures p / 16 == c
  {
  }

  /** The voxel the generator yields for local coordinate `l` of chunk `c` (0 without a generator). */
  function GeneratedVoxel(generator: Option<(int, int, int) -> int>, c: Vec3, l: Vec3): byte {
    match generator
    case None => 0
    case Some(g) => ToUint8(g(ChunkSize * c.x + l.x, ChunkSize * c.y + l.y, ChunkSize * c.z + l.z))
  }

  /** The chunk `getChunk` creates for coordinate `c`. */
  function Generate(generator: Option<(int, int, int) -> int>, c: Vec3): (chunk: ChunkData)
    ensures !chunk.modified && |chunk.voxels| == ChunkVolume
    ensures chunk.position == IntVec(Vec3(ChunkSize * c.x, ChunkSize * c.y, ChunkSize * c.z))
    ensures forall x, y, z :: InChunk(x, y, z) ==>
      chunk.voxels[Idx(x, y, z)] == GeneratedVoxel(generator, c, Vec3(x, y, z))
  {
    ChunkData(false, IntVec(Vec3(ChunkSize * c.x, ChunkSize * c.y, ChunkSize * c.z)),
      seq(ChunkVolume, n requires 0 <= n < ChunkVolume => GeneratedVoxel(generator, c, Cell(n))))
  }

  /** `data.voxels[i]`; a typed array read past its end yields `undefined` (None). */
  function ReadVoxel(chunk: ChunkData, l: Vec3): Option<byte>
    requires InChunk(l.x, l.y, l.z)
  {
    var i := Idx(l.x, l.y, l.z);
    if i < |chunk.voxels| then Some(chunk.voxels[i]) else None
  }

  /** `data.modified = true; data.voxels[i] = value`; a typed array ignores a write past its end. */
  function WriteVoxel(chunk: ChunkData, l: Vec3, value: int): (r: ChunkData)
    requires InChunk(l.x, l.y, l.z)
    ensures r.modified && r.position == chunk.position && |r.voxels| == |chunk.voxels|
    ensures forall x, y, z :: InChunk(x, y, z) ==>
      ReadVoxel(r, Vec3(x, y, z)) ==
        if Vec3(x, y, z) == l && Idx(x, y, z) < |chunk.voxels| then Some(ToUint8(value))
        else ReadVoxel(chunk, Vec3(x, y, z))
  {
    var i := Idx(l.x, l.y, l.z);
    ChunkData(true, chunk.position,
      if i < |chunk.voxels| then chunk.voxels[i := ToUint8(value)] else chunk.voxels)
  }

  /** The chunk map after `getChunk(c)`: unchanged when the key is present, otherwise extended with a generated chunk. */
  function Materialize(generator: Option<(int, int, int) -> int>, chunks: map<string, ChunkData>, c: Vec3)
    : (m: map<string, ChunkData>)
    ensures ChunkKey(c) in m && m.Keys == chunks.Keys + {ChunkKey(c)}
    ensures forall k :: k in chunks ==> m[k] == chunks[k]
  {
    if ChunkKey(c) in chunks then chunks else chunks[ChunkKey(c) := Generate(generator, c)]
  }

  /** What `getVoxel(p)` returns on the chunk map `chunks`. */
  function VoxelAt(generator: Option<(int, int, int) -> int>, chunks: map<string, ChunkData>, p: Vec3): Option<byte> {
    var l := LocalOf(p);
    ReadVoxel(Materialize(generator, chunks, ChunkOf(p))[ChunkKey(ChunkOf(p))], l)
  }

  /** The chunk map after `setVoxel(p, value)`. */
  function AfterSet(generator: Option<(int, int, int) -> int>, chunks: map<string, ChunkData>, p: Vec3, value: int)
    : map<string, ChunkData>
  {
    var m := Materialize(generator, chunks, ChunkOf(p));
    var key := ChunkKey(ChunkOf(p));
    m[key := WriteVoxel(m[key], LocalOf(p), value)]
  }

  /** A chunk is never regenerated: once present, `getChunk` leaves the map as it is. */
  lemma MaterializeIdempotent(generator: Option<(int, int, int) -> int>, chunks: map<string, ChunkData>, c: Vec3)
    ensures Materialize(generator, Materialize(generator, chunks, c), c) == Materialize(generator, chunks, c)
  {
  }

  /** Generated chunks hold the generator's values at world coordinates `16 * c + l`, reduced to a byte. */
  lemma GeneratedValues(generator: Option<(int, int, int) -> int>, chunks: map<string, ChunkData>, p: Vec3)
    requires ChunkKey(ChunkOf(p)) !in chunks
    ensures generator.None? ==> VoxelAt(generator, chunks, p) == Some(0)
    ensures generator.Some? ==> VoxelAt(generator, chunks, p) == Some(ToUint8(generator.value(p.x, p.y, p.z)))
  {
    GeneratedRead(generator, chunks, p);
    GeneratedWorld(generator, p);
  }

  lemma GeneratedRead(generator: Option<(int, int, int) -> int>, chunks: map<string, ChunkData>, p: Vec3)
    requires ChunkKey(ChunkOf(p)) !in chunks
    ensures VoxelAt(generator, chunks, p) == Some(GeneratedVoxel(generator, ChunkOf(p), LocalOf(p)))
  {
    var l := LocalOf(p);
    assert Generate(generator, ChunkOf(p)).voxels[Idx(l.x, l.y, l.z)] == GeneratedVoxel(generator, ChunkOf(p), l);
  }

  lemma GeneratedWorld(generator: Option<(int, int, int) -> int>, p: Vec3)
    ensures GeneratedVoxel(generator, ChunkOf(p), LocalOf(p))
      == if generator.None? then 0 else ToUint8(generator.value(p.x, p.y, p.z))
  {
  }

  /** After `setVoxel(p, v)` the chunk owning `p` is present and marked modified. */
  lemma SetMarksModified(generator: Option<(int, int, int) -> int>, chunks: map<string, ChunkData>, p: Vec3, v: int)
    ensures ChunkKey(ChunkOf(p)) in AfterSet(generator, chunks, p, v)
    ensures AfterSet(generator, chunks, p, v)[ChunkKey(ChunkOf(p))].modified
  {
  }

  /** After `setVoxel(p, v)`, `getVoxel(p)` reads `v` as a byte, when the owning chunk has a
      full-size voxel array (as every generated chunk does). */
  lemma SetThenGet(generator: Option<(int, int, int) -> int>, chunks: map<string, ChunkData>, p: Vec3, v: int)
    requires |Materialize(generator, chunks, ChunkOf(p))[ChunkKey(ChunkOf(p))].voxels| == ChunkVolume
    ensures VoxelAt(generator, AfterSet(generator, chunks, p, v), p) == Some(ToUint8(v))
  {
    var after := AfterSet(generator, chunks, p, v);
    assert Materialize(generator, after, ChunkOf(p)) == after;
  }

  /** `setVoxel(p, v)` leaves every other voxel reading as before. */
  lemma SetLeavesOthers(generator: Option<(int, int, int) -> int>, chunks: map<string, ChunkData>, p: Vec3, v: int, q: Vec3)
    requires q != p
    ensures VoxelAt(generator, AfterSet(generator, chunks, p, v), q) == VoxelAt(generator, chunks, q)
  {
    if ChunkOf(q) == ChunkOf(p) {
      SetSameChunk(generator, chunks, p, v, q);
    } else {
      SetOtherChunk(generator, chunks, p, v, q);
    }
  }

  lemma SetSameChunk(generator: Option<(int, int, int) -> int>, chunks: map<string, ChunkData>, p: Vec3, v: int, q: Vec3)
    requires q != p && ChunkOf(q) == ChunkOf(p)
    ensures VoxelAt(generator, AfterSet(generator, chunks, p, v), q) == VoxelAt(generator, chunks, q)
  {
    var after := AfterSet(generator, chunks, p, v);
    var m := Materialize(generator, chunks, ChunkOf(p));
    var key := ChunkKey(ChunkOf(p));
    var lq := LocalOf(q);
    assert Materialize(generator, after, ChunkOf(q)) == after;
    assert lq != LocalOf(p);
    assert ReadVoxel(after[key], lq) == ReadVoxel(m[key], lq);
  }

  lemma SetOtherChunk(generator: Option<(int, int, int) -> int>, chunks: map<string, ChunkData>, p: Vec3, v: int, q: Vec3)
    requires ChunkOf(q) != ChunkOf(p)
    ensures VoxelAt(generator, AfterSet(generator, chunks, p, v), q) == VoxelAt(generator, chunks, q)
  {
    var after := AfterSet(generator, chunks, p, v);
    var kq := ChunkKey(ChunkOf(q));
    if kq == ChunkKey(ChunkOf(p)) {
      KeyInjective(ChunkOf(q), ChunkOf(p));
    }
    var mq := Materialize(generator, chunks, ChunkOf(q));
    assert Materialize(generator, after, ChunkOf(q))[kq] == mq[kq];
  }

  // ------------------------------------------------------ export, import

  /** `exportChunks`: the voxel array of every modified chunk, under its key. */
  function Exported(chunks: map<string, ChunkData>): map<string, seq<byte>> {
    map k | k in chunks && chunks[k].modified :: chunks[k].voxels
  }

  /** The chunk `importChunks` stores for `key`. */
  function ImportedChunk(key: string, voxels: seq<byte>): ChunkData {
    var p := KeyPosition(key);
    ChunkData(true, NumVec3(Scale(p.x), Scale(p.y), Scale(p.z)), voxels)
  }

  /** The chunk map after `importChunks(serialized)`: every key created or overwritten. */
  function Imported(chunks: map<string, ChunkData>, serialized: map<string, seq<byte>>): map<string, ChunkData> {
    chunks + map k | k in serialized :: ImportedChunk(k, serialized[k])
  }

  /** Importing what a store exported into a fresh store reproduces every exported chunk:
      the same bytes, marked modified, at position `16 * c`, so `getVoxel` reads the same
      value at every voxel of it, whatever generator the fresh store has. */
  lemma ImportExportRoundTrip(
    generator: Option<(int, int, int) -> int>, other: Option<(int, int, int) -> int>,
    chunks: map<string, ChunkData>, p: Vec3)
    requires ChunkKey(ChunkOf(p)) in Exported(chunks)
    ensures var restored := Imported(map[], Exported(chunks));
      var key := ChunkKey(ChunkOf(p));
      && key in restored && restored[key].modified
      && restored[key].voxels == chunks[key].voxels
      && restored[key].position == IntVec(Vec3(ChunkSize * ChunkOf(p).x, ChunkSize * ChunkOf(p).y, ChunkSize * ChunkOf(p).z))
      && VoxelAt(other, restored, p) == VoxelAt(generator, chunks, p)
  {
    KeyRoundTrip(ChunkOf(p));
  }

  // ----------------------------------------------------- streaming window

  /** An integer `Box3`, chunk offsets relative to the origin; `max` is exclusive. */
  datatype Box3 = Box3(min: Vec3, max: Vec3)

  /** The value of the `loaded` Signal. Every key it ever lists is the `getChunkKey` text of an
      integer chunk coordinate, so the list is kept as those coordinates; `Keys` gives the texts. */
  datatype Loaded = Loaded(chunks: seq<Vec3>, origin: Option<Vec3>)

  /** The chunks of row (y, z) of the window, x in [x0, x1), in increasing x. */
  function RowCells(o: Vec3, y: int, z: int, x0: int, x1: int): seq<Vec3>
    decreases x1 - x0
  {
    if x1 <= x0 then [] else RowCells(o, y, z, x0, x1 - 1) + [Add(o, Vec3(x1 - 1, y, z))]
  }

  /** The chunks of layer z of the window, rows y in [b.min.y, y1). */
  function LayerCells(o: Vec3, b: Box3, z: int, y1: int): seq<Vec3>
    decreases y1 - b.min.y
  {
    if y1 <= b.min.y then [] else LayerCells(o, b, z, y1 - 1) + RowCells(o, y1 - 1, z, b.min.x, b.max.x)
  }

  /** The chunks of layers z in [b.min.z, z1) of the window. */
  function BoxCells(o: Vec3, b: Box3, z1: int): seq<Vec3>
    decreases z1 - b.min.z
  {
    if z1 <= b.min.z then [] else BoxCells(o, b, z1 - 1) + LayerCells(o, b, z1 - 1, b.max.y)
  }

  /** The chunks of `origin + [min, max)` in z, y, x order. */
  function Window(o: Vec3, b: Box3): seq<Vec3> {
    BoxCells(o, b, b.max.z)
  }

  /** The key text of every chunk of `cells`, in order. */
  function Keys(cells: seq<Vec3>): seq<string> {
    seq(|cells|, i requires 0 <= i < |cells| => ChunkKey(cells[i]))
  }

  predicate InWindow(c: Vec3, o: Vec3, b: Box3) {
    && o.x + b.min.x <= c.x < o.x + b.max.x
    && o.y + b.min.y <= c.y < o.y + b.max.y
    && o.z + b.min.z <= c.z < o.z + b.max.z
  }

  function Less(n: Num, bound: int): bool {
    n.Int? && n.value < bound
  }

  function AtLeast(n: Num, bound: int): bool {
    n.Int? && n.value >= bound
  }

  /** The check that drops a previously loaded key, exactly as written: the key's y is
      tested against both the y and the z bounds of the doubled box, and its z is never tested. */
  predicate OutsideBand(p: NumVec3, o: Vec3, b: Box3) {
    || Less(p.x, o.x + b.min.x * 2)
    || Less(p.y, o.y + b.min.y * 2)
    || Less(p.y, o.z + b.min.z * 2)
    || AtLeast(p.x, o.x + b.max.x * 2)
    || AtLeast(p.y, o.y + b.max.y * 2)
    || AtLeast(p.y, o.z + b.max.z * 2)
  }

  /** The hysteresis test of `loadChunks(o, b)` on a previously loaded chunk: its key is parsed
      back (which gives the chunk's own coordinate, `KeyRoundTrip`) and checked. */
  function Dropped(o: Vec3, b: Box3): Vec3 -> bool {
    c => OutsideBand(IntVec(c), o, b)
  }

  /** `next` after the `current.forEach` pass: each element of `current` in turn is appended
      unless it is already there or `drop` rejects it. */
  function Retain<T(==)>(start: seq<T>, current: seq<T>, drop: T -> bool): seq<T>
    decreases |current|
  {
    if current == [] then start
    else
      var acc := Retain(start, current[..|current| - 1], drop);
      var key := current[|current| - 1];
      if key in acc || drop(key) then acc else acc + [key]
  }

  /** The loaded list `loadChunks(o, b)` produces from the previous list `current`. */
  function Stream(current: seq<Vec3>, o: Vec3, b: Box3): seq<Vec3> {
    Retain(Window(o, b), current, Dropped(o, b))
  }

  lemma {:induction false} RowCellsFacts(o: Vec3, y: int, z: int, x0: int, x1: int, c: Vec3)
    ensures c in RowCells(o, y, z, x0, x1) <==> c.y == o.y + y && c.z == o.z + z && o.x + x0 <= c.x < o.x + x1
    ensures Distinct(RowCells(o, y, z, x0, x1))
    decreases x1 - x0
  {
    if x1 > x0 {
      var last := Add(o, Vec3(x1 - 1, y, z));
      RowCellsFacts(o, y, z, x0, x1 - 1, c);
      RowCellsFacts(o, y, z, x0, x1 - 1, last);
      AppendDistinct(RowCells(o, y, z, x0, x1 - 1), [last]);
    }
  }

  lemma {:induction false} LayerCellsFacts(o: Vec3, b: Box3, z: int, y1: int, c: Vec3)
    ensures c in LayerCells(o, b, z, y1) <==>
      c.z == o.z + z && o.y + b.min.y <= c.y < o.y + y1 && o.x + b.min.x <= c.x < o.x + b.max.x
    ensures Distinct(LayerCells(o, b, z, y1))
    decreases y1 - b.min.y
  {
    if y1 > b.min.y {
      var prev := LayerCells(o, b, z, y1 - 1);
      var row := RowCells(o, y1 - 1, z, b.min.x, b.max.x);
      LayerCellsFacts(o, b, z, y1 - 1, c);
      RowCellsFacts(o, y1 - 1, z, b.min.x, b.max.x, c);
      forall d | d in prev ensures d !in row {
        LayerCellsFacts(o, b, z, y1 - 1, d);
        RowCellsFacts(o, y1 - 1, z, b.min.x, b.max.x, d);
      }
      AppendDistinct(prev, row);
    }
  }

  lemma {:induction false} BoxCellsFacts(o: Vec3, b: Box3, z1: int, c: Vec3)
    ensures c in BoxCells(o, b, z1) <==>
      o.z + b.min.z <= c.z < o.z + z1 && o.y + b.min.y <= c.y < o.y + b.max.y && o.x + b.min.x <= c.x < o.x + b.max.x
    ensures Distinct(BoxCells(o, b, z1))
    decreases z1 - b.min.z
  {
    if z1 > b.min.z {
      var prev := BoxCells(o, b, z1 - 1);
      var layer := LayerCells(o, b, z1 - 1, b.max.y);
      BoxCellsFacts(o, b, z1 - 1, c);
      LayerCellsFacts(o, b, z1 - 1, b.max.y, c);
      forall d | d in prev ensures d !in layer {
        BoxCellsFacts(o, b, z1 - 1, d);
        LayerCellsFacts(o, b, z1 - 1, b.max.y, d);
      }
      AppendDistinct(prev, layer);
    }
  }

  lemma AppendDistinct<T>(a: seq<T>, b: seq<T>)
    requires Distinct(a) && Distinct(b)
    requires forall k :: k in a ==> k !in b
    ensures Distinct(a + b)
  {
    var s := a + b;
    forall i, j | 0 <= i < j < |s| ensures s[i] != s[j] {
      if j < |a| {
      } else if i >= |a| {
        assert s[i] == b[i - |a|] && s[j] == b[j - |a|];
      } else {
        assert s[i] in a && s[j] == b[j - |a|];
      }
    }
  }

  /** The window holds each chunk of `origin + [min, max)` exactly once, and no other chunk. */
  lemma WindowMembers(o: Vec3, b: Box3, c: Vec3)
    ensures c in Window(o, b) <==> InWindow(c, o, b)
    ensures Distinct(Window(o, b))
  {
    BoxCellsFacts(o, b, b.max.z, c);
  }

  /** Key texts tell chunks apart: a chunk's key is listed exactly when the chunk is, and
      distinct chunks have distinct keys, so `includes` on the texts is membership of the chunks. */
  lemma KeysFacts(cells: seq<Vec3>, c: Vec3)
    ensures ChunkKey(c) in Keys(cells) <==> c in cells
    ensures Distinct(cells) ==> Distinct(Keys(cells))
  {
    var keys := Keys(cells);
    if ChunkKey(c) in keys {
      var i :| 0 <= i < |keys| && keys[i] == ChunkKey(c);
      KeyInjective(cells[i], c);
    }
    if c in cells {
      var i :| 0 <= i < |cells| && cells[i] == c;
      assert keys[i] == ChunkKey(c);
    }
    if Distinct(cells) {
      forall i, j | 0 <= i < j < |keys| ensures keys[i] != keys[j] {
        assert keys[i] == ChunkKey(cells[i]) && keys[j] == ChunkKey(cells[j]);
        if keys[i] == keys[j] {
          KeyInjective(cells[i], cells[j]);
        }
      }
    }
  }

  /** `Retain` only appends: its result starts with `start`, holds nothing twice when `start`
      holds nothing twice, and holds exactly `start` and the elements of `current` that `drop` accepts. */
  lemma {:induction false} RetainFacts<T>(start: seq<T>, current: seq<T>, drop: T -> bool, k: T)
    ensures var r := Retain(start, current, drop);
      && |r| >= |start| && r[..|start|] == start
      && (Distinct(start) ==> Distinct(r))
      && (k in r <==> k in start || (k in current && !drop(k)))
    decreases |current|
  {
    if current != [] {
      var init := current[..|current| - 1];
      var key := current[|current| - 1];
      RetainFacts(start, init, drop, k);
      RetainFacts(start, init, drop, key);
      var acc := Retain(start, init, drop);
      if !(key in acc || drop(key)) {
        assert (acc + [key])[..|start|] == acc[..|start|];
        if Distinct(start) {
          AppendDistinct(acc, [key]);
        }
      }
      assert current == init + [key];
    }
  }

  /** The elements of `current` that come after `start`, in their order. */
  function Kept<T(==)>(start: seq<T>, current: seq<T>, drop: T -> bool): seq<T>
    decreases |current|
  {
    if current == [] then []
    else
      var key := current[|current| - 1];
      Kept(start, current[..|current| - 1], drop) + if key in start || drop(key) then [] else [key]
  }

  /** From a list without duplicates, `Retain` appends exactly the kept elements. */
  lemma {:induction false} RetainIsKept<T>(start: seq<T>, current: seq<T>, drop: T -> bool)
    requires Distinct(current)
    ensures Retain(start, current, drop) == start + Kept(start, current, drop)
    decreases |current|
  {
    if current != [] {
      var init := current[..|current| - 1];
      var key := current[|current| - 1];
      assert Distinct(init);
      RetainIsKept(start, init, drop);
      KeptMembers(start, init, drop, key);
      assert key !in init;
      RetainFacts(start, init, drop, key);
    }
  }

  lemma {:induction false} KeptMembers<T>(start: seq<T>, current: seq<T>, drop: T -> bool, k: T)
    ensures k in Kept(start, current, drop) ==> k in current
    decreases |current|
  {
    if current != [] {
      KeptMembers(start, current[..|current| - 1], drop, k);
    }
  }

  /** The loaded list is the window followed by the previous chunks that are outside the window
      and pass the hysteresis check, in their previous order; it holds no duplicates (nor do its
      key texts), and a chunk is in it exactly when it is in the window or is such a previous chunk. */
  lemma StreamShape(current: seq<Vec3>, o: Vec3, b: Box3, c: Vec3)
    requires Distinct(current)
    ensures Stream(current, o, b) == Window(o, b) + Kept(Window(o, b), current, Dropped(o, b))
    ensures Distinct(Stream(current, o, b)) && Distinct(Keys(Stream(current, o, b)))
    ensures c in Stream(current, o, b) <==>
      InWindow(c, o, b) || (c in current && !OutsideBand(IntVec(c), o, b))
  {
    WindowMembers(o, b, c);
    RetainFacts(Window(o, b), current, Dropped(o, b), c);
    RetainIsKept(Window(o, b), current, Dropped(o, b));
    KeysFacts(Stream(current, o, b), c);
  }

  lemma ZeroKey()
    ensures ChunkKey(Vec3(0, 0, 0)) == "0:0:0"
  {
    assert IntToString(0) == "0";
  }

  /** From an empty list, the window [(0,0,0), (1,1,1)) at the origin loads the single key "0:0:0". */
  lemma SingleChunkWindow()
    ensures Stream([], Vec3(0, 0, 0), Box3(Vec3(0, 0, 0), Vec3(1, 1, 1))) == [Vec3(0, 0, 0)]
    ensures Keys(Stream([], Vec3(0, 0, 0), Box3(Vec3(0, 0, 0), Vec3(1, 1, 1)))) == ["0:0:0"]
  {
    var o := Vec3(0, 0, 0);
    var b := Box3(Vec3(0, 0, 0), Vec3(1, 1, 1));
    assert BoxCells(o, b, 1) == [Vec3(0, 0, 0)] by {
      assert RowCells(o, 0, 0, 0, 1) == [Vec3(0, 0, 0)];
      assert LayerCells(o, b, 0, 1) == [Vec3(0, 0, 0)];
    }
    ZeroKey();
    assert Keys([Vec3(0, 0, 0)]) == ["0:0:0"];
  }

  /** The hysteresis check as written ignores a chunk's z: moving it along z never changes
      whether it is dropped. */
  lemma HysteresisIgnoresZ(c: Vec3, z: int, o: Vec3, b: Box3)
    ensures Dropped(o, b)(c) == Dropped(o, b)(Vec3(c.x, c.y, z))
  {
  }

  /** With the default bounds (-5,0,-5)..(5,2,5) at the origin, a previously loaded chunk one above
      the origin but a thousand chunks away along z passes the check (and is kept, `StreamShape`),
      while the chunk at y = 4 above the origin, inside the z band but outside the y band, is dropped. */
  lemma DefaultBandExamples(o: Vec3, b: Box3)
    requires o == Vec3(0, 0, 0) && b == Box3(Vec3(-5, 0, -5), Vec3(5, 2, 5))
    ensures !Dropped(o, b)(Vec3(0, 1, 1000)) && !InWindow(Vec3(0, 1, 1000), o, b)
    ensures Dropped(o, b)(Vec3(0, 4, 0)) && !InWindow(Vec3(0, 4, 0), o, b)
  {
  }

  /** The `current.forEach` pass of `loadChunks`: appends each previously loaded chunk that is not
      listed yet and whose key, parsed back, passes the hysteresis check. */
  method RetainChunks(start: seq<Vec3>, current: seq<Vec3>, origin: Vec3, bounds: Box3) returns (next: seq<Vec3>)
    ensures next == Retain(start, current, Dropped(origin, bounds))
  {
    next := start;
    for i := 0 to |current|
      invariant next == Retain(start, current[..i], Dropped(origin, bounds))
    {
      assert current[..i + 1][..i] == current[..i];
      var key := current[i];
      if key in next {
        continue;
      }
      var position := KeyPosition(ChunkKey(key));
      KeyRoundTrip(key);
      if OutsideBand(position, origin, bounds) {
        continue;
      }
      next := next + [key];
    }
    assert current[..|current|] == current;
  }

  /** The three nested loops of `loadChunks` that push every chunk of `origin + [min, max)`. */
  method WindowChunks(origin: Vec3, bounds: Box3) returns (next: seq<Vec3>)
    ensures next == Window(origin, bounds)
  {
    next := [];
    var z := bounds.min.z;
    while z < bounds.max.z
      invariant bounds.min.z <= z && (z <= bounds.max.z || z == bounds.min.z)
      invariant next == BoxCells(origin, bounds, z)
    {
      next := PushLayer(next, origin, bounds, z);
      z := z + 1;
    }
  }

  /** The middle loop: pushes layer `z`, row by row. */
  method PushLayer(next: seq<Vec3>, origin: Vec3, bounds: Box3, z: int) returns (r: seq<Vec3>)
    ensures r == next + LayerCells(origin, bounds, z, bounds.max.y)
  {
    r := next;
    var y := bounds.min.y;
    while y < bounds.max.y
      invariant bounds.min.y <= y && (y <= bounds.max.y || y == bounds.min.y)
      invariant r == next + LayerCells(origin, bounds, z, y)
    {
      r := PushRow(r, origin, y, z, bounds.min.x, bounds.max.x);
      y := y + 1;
    }
  }

  /** The inner loop: pushes row (y, z), x from `x0` up to `x1`. */
  method PushRow(next: seq<Vec3>, origin: Vec3, y: int, z: int, x0: int, x1: int) returns (r: seq<Vec3>)
    ensures r == next + RowCells(origin, y, z, x0, x1)
  {
    r := next;
    var x := x0;
    while x < x1
      invariant x0 <= x && (x <= x1 || x == x0)
      invariant r == next + RowCells(origin, y, z, x0, x)
    {
      r := r + [Add(origin, Vec3(x, y, z))];
      x := x + 1;
    }
  }

  /** The voxel array `getChunk` fills for a new chunk `c`: a zeroed `Uint8Array` which, when
      there is a generator, receives `generator(16c + (x, y, z))` at `z*256 + y*16 + x`. */
  method GenerateVoxels(generator: Option<(int, int, int) -> int>, c: Vec3) returns (voxels: seq<byte>)
    ensures voxels == Generate(generator, c).voxels
  {
    var a := new byte[ChunkVolume](_ => 0);
    var wx, wy, wz := c.x * ChunkSize, c.y * ChunkSize, c.z * ChunkSize;
    if generator.Some? {
      var i := 0;
      for z := 0 to ChunkSize
        invariant i == z * 256
        invariant forall n :: 0 <= n < i ==> a[n] == GeneratedVoxel(generator, c, Cell(n))
      {
        GenerateLayer(a, generator, c, wx, wy, wz, z, i);
        i := i + 256;
      }
    }
    voxels := a[..];
    assert forall n :: 0 <= n < ChunkVolume ==> voxels[n] == Generate(generator, c).voxels[n];
  }

  /** The y and x loops of `getChunk` for layer `z`, from cell index `i0 = z * 256`. */
  method GenerateLayer(a: array<byte>, generator: Option<(int, int, int) -> int>, c: Vec3, wx: int, wy: int, wz: int,
    z: int, i0: int)
    requires a.Length == ChunkVolume && generator.Some? && 0 <= z < ChunkSize && i0 == z * 256
    requires wx == c.x * ChunkSize && wy == c.y * ChunkSize && wz == c.z * ChunkSize
    requires forall n :: 0 <= n < i0 ==> a[n] == GeneratedVoxel(generator, c, Cell(n))
    modifies a
    ensures forall n :: 0 <= n < i0 + 256 ==> a[n] == GeneratedVoxel(generator, c, Cell(n))
  {
    var i := i0;
    for y := 0 to ChunkSize
      invariant i == z * 256 + y * 16
      invariant forall n :: 0 <= n < i ==> a[n] == GeneratedVoxel(generator, c, Cell(n))
    {
      GenerateRow(a, generator, c, wx, wy, wz, y, z, i);
      i := i + 16;
    }
  }

  /** The x loop of `getChunk` for row `(y, z)`, from cell index `i0 = z * 256 + y * 16`. */
  method GenerateRow(a: array<byte>, generator: Option<(int, int, int) -> int>, c: Vec3, wx: int, wy: int, wz: int,
    y: int, z: int, i0: int)
    requires a.Length == ChunkVolume && generator.Some? && 0 <= y < ChunkSize && 0 <= z < ChunkSize
    requires i0 == z * 256 + y * 16
    requires wx == c.x * ChunkSize && wy == c.y * ChunkSize && wz == c.z * ChunkSize
    requires forall n :: 0 <= n < i0 ==> a[n] == GeneratedVoxel(generator, c, Cell(n))
    modifies a
    ensures forall n :: 0 <= n < i0 + 16 ==> a[n] == GeneratedVoxel(generator, c, Cell(n))
  {
    var g := generator.value;
    var i := i0;
    for x := 0 to ChunkSize
      invariant i == z * 256 + y * 16 + x
      invariant forall n :: 0 <= n < i ==> a[n] == GeneratedVoxel(generator, c, Cell(n))
    {
      assert Cell(i) == Vec3(x, y, z) by { assert i == Idx(x, y, z); }
      GeneratedAt(generator, c, wx, wy, wz, x, y, z);
      a[i] := ToUint8(g(wx + x, wy + y, wz + z));
      i := i + 1;
    }
  }

  /** The world coordinate of local `(x, y, z)` in chunk `c` is `(wx + x, wy + y, wz + z)`. */
  lemma GeneratedAt(generator: Option<(int, int, int) -> int>, c: Vec3, wx: int, wy: int, wz: int, x: int, y: int, z: int)
    requires generator.Some? && wx == c.x * ChunkSize && wy == c.y * ChunkSize && wz == c.z * ChunkSize
    ensures GeneratedVoxel(generator, c, Vec3(x, y, z)) == ToUint8(generator.value(wx + x, wy + y, wz + z))
  {
  }

  datatype ChangeEvent = ChangeEvent(position: Vec3, value: int)

  /** The default texture callback `(v) => v - 1`. */
  function DefaultTexture(voxel: int, face: VoxelFace, isTop: bool): int {
    voxel - 1
  }

  // ----------------------------------------------------------- the store

  /** `createDataStore`. Each chunk's Signal is represented by its current value in `chunks`
      and by `chunkSets`, the keys whose chunk Signal was `set`, in order; `events` records the
      `change` events dispatched. */
  class DataStore {
    const generator: Option<(int, int, int) -> int>
    const getTexture: (int, VoxelFace, bool) -> int
    var chunks: map<string, ChunkData>
    var chunkSets: seq<string>
    var events: seq<ChangeEvent>
    const loaded: Signal.Signal<Loaded>

    ghost predicate Valid()
      reads this, loaded
    {
      loaded.Valid()
    }

    constructor (generator: Option<(int, int, int) -> int>, getTexture: Option<(int, VoxelFace, bool) -> int>)
      ensures Valid() && fresh(loaded)
      ensures this.generator == generator
      ensures getTexture.Some? ==> this.getTexture == getTexture.value
      ensures getTexture.None? ==> forall v, f, t :: this.getTexture(v, f, t) == DefaultTexture(v, f, t)
      ensures chunks == map[] && chunkSets == [] && events == []
      ensures loaded.Get() == Loaded([], None) && loaded.listeners == [] && loaded.calls == []
    {
      this.generator := generator;
      var fallback: (int, VoxelFace, bool) -> int := (v: int, f: VoxelFace, t: bool) => DefaultTexture(v, f, t);
      if getTexture.Some? {
        this.getTexture := getTexture.value;
      } else {
        this.getTexture := fallback;
      }
      chunks := map[];
      chunkSets := [];
      events := [];
      loaded := new Signal.Signal(Loaded([], None));
    }

    /** `getChunk(c)`: the existing chunk, or a new unmodified one filled by the generator. */
    method GetChunk(c: Vec3) returns (chunk: ChunkData)
      modifies this`chunks
      ensures chunks == Materialize(generator, old(chunks), c)
      ensures chunk == chunks[ChunkKey(c)]
    {
      var key := ChunkKey(c);
      if key in chunks {
        chunk := chunks[key];
        return;
      }
      var voxels := GenerateVoxels(generator, c);
      chunk := ChunkData(false, IntVec(Vec3(c.x * ChunkSize, c.y * ChunkSize, c.z * ChunkSize)), voxels);
      chunks := chunks[key := chunk];
    }

    /** `getVoxel(p)`. */
    method GetVoxel(p: Vec3) returns (v: Option<byte>)
      modifies this`chunks
      ensures chunks == Materialize(generator, old(chunks), ChunkOf(p))
      ensures v == VoxelAt(generator, old(chunks), p)
    {
      var voxelChunk := Vec3(p.x / ChunkSize, p.y / ChunkSize, p.z / ChunkSize);
      var voxel := Vec3(p.x - voxelChunk.x * ChunkSize, p.y - voxelChunk.y * ChunkSize, p.z - voxelChunk.z * ChunkSize);
      var data := GetChunk(voxelChunk);
      var i := Idx(voxel.x, voxel.y, voxel.z);
      v := if i < |data.voxels| then Some(data.voxels[i]) else None;
    }

    /** `setVoxel(p, value)`: writes the voxel, marks the chunk modified, sets the chunk's
      Signal and dispatches one `change` event carrying the value as given. */
    method SetVoxel(p: Vec3, value: int)
      modifies this`chunks, this`chunkSets, this`events
      ensures chunks == AfterSet(generator, old(chunks), p, value)
      ensures chunkSets == old(chunkSets) + [ChunkKey(ChunkOf(p))]
      ensures events == old(events) + [ChangeEvent(p, value)]
    {
      var voxelChunk := Vec3(p.x / ChunkSize, p.y / ChunkSize, p.z / ChunkSize);
      var voxel := Vec3(p.x - voxelChunk.x * ChunkSize, p.y - voxelChunk.y * ChunkSize, p.z - voxelChunk.z * ChunkSize);
      var data := GetChunk(voxelChunk);
      var key := ChunkKey(voxelChunk);
      chunks := chunks[key := WriteVoxel(data, voxel, value)];
      chunkSets := chunkSets + [key];
      events := events + [ChangeEvent(p, value)];
    }

    /** `loadChunks(origin, bounds)`: the window keys, then the previous keys that survive the
      hysteresis check; records the origin. */
    method LoadChunks(origin: Vec3, bounds: Box3)
      requires Valid()
      modifies loaded
      ensures Valid()
      ensures loaded.Get() == Loaded(Stream(old(loaded.Get().chunks), origin, bounds), Some(origin))
      ensures loaded.listeners == old(loaded.listeners)
      ensures loaded.calls == old(loaded.calls) + loaded.listeners
    {
      var current := loaded.Get().chunks;
      var next := WindowChunks(origin, bounds);
      next := RetainChunks(next, current, origin, bounds);
      loaded.Set(Loaded(next, Some(origin)));
    }

    /** `clearChunks`: drops every chunk and resets the loaded list, without an origin. */
    method ClearChunks()
      requires Valid()
      modifies this`chunks, loaded
      ensures Valid()
      ensures chunks == map[]
      ensures loaded.Get() == Loaded([], None) && loaded.listeners == old(loaded.listeners)
      ensures loaded.calls == old(loaded.calls) + loaded.listeners
    {
      chunks := map[];
      loaded.Set(Loaded([], None));
    }

    /** `exportChunks`: one entry per modified chunk, its voxel array under its key. */
    method ExportChunks() returns (serialized: map<string, seq<byte>>)
      ensures serialized == Exported(chunks)
      ensures serialized.Keys == set k | k in chunks && chunks[k].modified
      ensures forall k :: k in serialized ==> serialized[k] == chunks[k].voxels
    {
      serialized := map[];
      var rest := chunks.Keys;
      while rest != {}
        invariant rest <= chunks.Keys
        invariant serialized.Keys == set k | k in chunks && k !in rest && chunks[k].modified
        invariant forall k :: k in serialized ==> serialized[k] == chunks[k].voxels
        decreases rest
      {
        var key :| key in rest;
        if chunks[key].modified {
          serialized := serialized[key := chunks[key].voxels];
        }
        rest := rest - {key};
      }
      assert serialized.Keys == Exported(chunks).Keys;
    }

    /** `importChunks(serialized)`: each key is created or overwritten with a modified chunk at
      the parsed key times chunkSize; a key already present has its Signal set. */
    method ImportChunks(serialized: map<string, seq<byte>>)
      modifies this`chunks, this`chunkSets
      ensures chunks == Imported(old(chunks), serialized)
      ensures |chunkSets| >= |old(chunkSets)| && chunkSets[..|old(chunkSets)|] == old(chunkSets)
      ensures var added := chunkSets[|old(chunkSets)|..];
        Distinct(added) && forall k :: k in added <==> k in serialized && k in old(chunks)
    {
      var rest := serialized.Keys;
      ghost var done: set<string> := {};
      ghost var added: seq<string> := [];
      while rest != {}
        invariant rest <= serialized.Keys && done == serialized.Keys - rest
        invariant chunks.Keys == old(chunks).Keys + done
        invariant forall k :: k in chunks ==>
          chunks[k] == if k in done then ImportedChunk(k, serialized[k]) else old(chunks)[k]
        invariant chunkSets == old(chunkSets) + added
        invariant Distinct(added) && forall k :: k in added <==> k in done && k in old(chunks)
        decreases rest
      {
        var key :| key in rest;
        var data := ImportedChunk(key, serialized[key]);
        if key in chunks {
          AppendDistinct(added, [key]);
          chunkSets := chunkSets + [key];
          added := added + [key];
        }
        chunks := chunks[key := data];
        rest := rest - {key};
        done := done + {key};
      }
      assert chunkSets[|old(chunkSets)|..] == added;
      assert chunks.Keys == Imported(old(chunks), serialized).Keys;
    }
  }
}
