// The GPU stress render session (shell/renderSessions/GPUStressSession.cpp):
// the tunable settings kept in file-level atomics, the forceReset_ flag the
// setters raise, and the cube mesh that initialize/createCubes/
// addNormalsToCube build in the globals vertexData and indexData. The file's
// globals are modelled as fields of the session object. Floating-point vertex
// attributes (positions, uvs, colours, normals) are not modelled: a vertex is
// the corner of the base cube it copies, the face whose normal it carries, and
// the cube it belongs to.

module GPUStressSession {
  import opened IglCore
  import opened XrTypes

  /** igl::BackendType */
  datatype BackendType = InvalidBackend | OpenGL | Metal | Vulkan | Custom

  /** The shader version the device reports. */
  datatype ShaderVersion = ShaderVersion(majorVersion: nat, minorVersion: nat)

  /**
   * isDeviceCompatible: Vulkan always; OpenGL when the shader version has a
   * major version of at least 3 or a minor version of at least 30.
   */
  function IsDeviceCompatible(backend: BackendType, shaderVersion: ShaderVersion): (r: bool)
    ensures r <==> backend == Vulkan || (backend == OpenGL && (shaderVersion.majorVersion >= 3 || shaderVersion.minorVersion >= 30))
    ensures backend != Vulkan && backend != OpenGL ==> !r
  {
    if backend == OpenGL && (shaderVersion.majorVersion >= 3 || shaderVersion.minorVersion >= 30) then true
    else if backend == Vulkan then true
    else false
  }

  /** The atomics kCubeCount ... kRotateCubes. */
  datatype Settings = Settings(
    cubeCount: int,
    drawCount: int,
    testOverdraw: bool,
    enableBlending: bool,
    useMSAA: bool,
    lightCount: int,
    goSlowOnCpu: int,
    threadCount: int,
    thrashMemory: bool,
    memorySize: nat,
    memoryReads: nat,
    memoryWrites: nat,
    dropFrameX: int,
    dropFrameCount: int,
    rotateCubes: bool)

  const DefaultSettings := Settings(
    1, 50, false, false, true, 5, 10000, 1, true, 64, 10000, 10000, 0, 2, true)

  /** threadIds starts as eight entries of -1. */
  const DefaultThreadIds: seq<int> := [-1, -1, -1, -1, -1, -1, -1, -1]

  /** The C++ remainder, which truncates toward zero. */
  function CRem(a: int, b: int): (r: int)
    requires b != 0
    ensures a >= 0 ==> 0 <= r < (if b > 0 then b else -b)
    ensures a < 0 ==> (if b > 0 then -b else b) < r <= 0
    ensures (a - r) % (if b > 0 then b else -b) == 0
    ensures a >= 0 && b > 0 ==> r == a % b
  {
    var n := if b > 0 then b else -b;
    var m := (if a >= 0 then a else -a) % n;
    MultipleRem(if a >= 0 then a else -a, n);
    if a >= 0 then m else -m
  }

  /** x minus its remainder, and its negation, are multiples of n. */
  lemma MultipleRem(x: nat, n: int)
    requires n > 0
    ensures (x - x % n) % n == 0 && (x % n - x) % n == 0
  {
    var q := x / n;
    assert x - x % n == n * q;
    MultipleHasNoRem(n, q);
    MultipleHasNoRem(n, -q);
    assert x % n - x == n * -q;
  }

  /** A multiple of n leaves no remainder. */
  lemma MultipleHasNoRem(n: int, q: int)
    requires n > 0
    ensures (n * q) % n == 0
  {
    var p := n * q;
    var d := q - p / n;
    assert n * d == p % n by {
      assert p == n * (p / n) + p % n;
      assert n * d == n * q - n * (p / n);
    }
  }

  // ---------------------------------------------------------------------
  // The base cube
  // ---------------------------------------------------------------------

  const CornerCount: nat := 8
  const FaceCount: nat := 6
  const IndicesPerFace: nat := 6

  /** indexData0, two triangles per face. */
  const Face0: seq<nat> := [0, 1, 2, 1, 3, 2]
  const Face1: seq<nat> := [1, 4, 3, 4, 6, 3]
  const Face2: seq<nat> := [4, 5, 6, 5, 7, 6]
  const Face3: seq<nat> := [5, 0, 7, 0, 2, 7]
  const Face4: seq<nat> := [5, 4, 0, 4, 1, 0]
  const Face5: seq<nat> := [2, 3, 7, 3, 6, 7]
  const IndexData0: seq<nat> := Face0 + Face1 + Face2 + Face3 + Face4 + Face5

  /**
   * A vertex: the corner of vertexData0 it copies, the face whose normal its
   * base_color holds (None: the colour of vertexData0), and its cube.
   */
  datatype CubeVertex = CubeVertex(corner: nat, normalFace: Option<nat>, cube: nat)

  /** vertexData0, the eight corners of the unit cube. */
  function VertexData0(): (r: seq<CubeVertex>)
    ensures |r| == CornerCount
    ensures forall v :: 0 <= v < |r| ==> r[v] == CubeVertex(v, None, 0)
  {
    seq(CornerCount, v requires 0 <= v < CornerCount => CubeVertex(v, None, 0))
  }

  /** The corners a face's two triangles use. */
  function FaceCorners(f: nat): (r: set<nat>)
    requires f < FaceCount
    ensures |r| == 4
    ensures forall c :: c in r ==> c < CornerCount
  {
    match f
    case 0 => {0, 1, 2, 3}
    case 1 => {1, 3, 4, 6}
    case 2 => {4, 5, 6, 7}
    case 3 => {0, 2, 5, 7}
    case 4 => {0, 1, 4, 5}
    case _ => {2, 3, 6, 7}
  }

  /** Each entry of indexData0 is one of its face's four corners. */
  lemma CornerOfIndex(k: nat)
    requires k < |IndexData0|
    ensures |IndexData0| == FaceCount * IndicesPerFace
    ensures IndexData0[k] in FaceCorners(k / IndicesPerFace)
  {
    var f, i := k / IndicesPerFace, k % IndicesPerFace;
    if f == 0 { assert IndexData0[k] == Face0[i]; assert Face0[i] in Face0; }
    else if f == 1 { assert IndexData0[k] == Face1[i]; assert Face1[i] in Face1; }
    else if f == 2 { assert IndexData0[k] == Face2[i]; assert Face2[i] in Face2; }
    else if f == 3 { assert IndexData0[k] == Face3[i]; assert Face3[i] in Face3; }
    else if f == 4 { assert IndexData0[k] == Face4[i]; assert Face4[i] in Face4; }
    else { assert IndexData0[k] == Face5[i]; assert Face5[i] in Face5; }
  }

  lemma SubsetCardinality(a: set<nat>, b: set<nat>)
    requires a <= b
    ensures |a| <= |b|
  {
    assert b == a + (b - a);
  }

  /**
   * The mesh addNormalsToCube leaves: 36 indices, each naming a vertex that
   * copies the same corner as indexData0 does and carries the normal of the
   * index's face, so no vertex is shared between two faces.
   */
  ghost predicate FlatShaded(vs: seq<CubeVertex>, ix: seq<nat>) {
    && |ix| == |IndexData0|
    && (forall v :: 0 <= v < |vs| ==> vs[v].cube == 0)
    && forall k :: 0 <= k < |ix| ==>
      && ix[k] < |vs|
      && vs[ix[k]].corner == IndexData0[k]
      && vs[ix[k]].normalFace == Some(k / IndicesPerFace)
  }

  // ---------------------------------------------------------------------
  // Replication (createCubes)
  // ---------------------------------------------------------------------

  /** The number of cubes createCubes builds: cube 0 plus one copy for each i in 1..kCubeCount-1. */
  function CubeCopies(cubeCount: int): (r: nat)
    ensures r >= 1
    ensures cubeCount >= 1 ==> r == cubeCount
  {
    if cubeCount < 1 then 1 else cubeCount
  }

  /** Copy c of the cube's vertices. */
  function CubeCopy(cube: seq<CubeVertex>, c: nat): (r: seq<CubeVertex>)
    ensures |r| == |cube|
    ensures forall j :: 0 <= j < |r| ==> r[j] == cube[j].(cube := c)
  {
    seq(|cube|, j requires 0 <= j < |cube| => cube[j].(cube := c))
  }

  /** The cube's indices shifted by `offset` and cast to uint16_t. */
  function ShiftedIndices(indices: seq<nat>, offset: nat): (r: seq<nat>)
    ensures |r| == |indices|
    ensures forall j :: 0 <= j < |r| ==> r[j] == Wrap(indices[j] + offset, UINT16_LIMIT)
  {
    seq(|indices|, j requires 0 <= j < |indices| => Wrap(indices[j] + offset, UINT16_LIMIT))
  }

  /** The vertex buffer of `copies` cubes: copy 0, copy 1, ... */
  function ReplicatedVertices(cube: seq<CubeVertex>, copies: nat): seq<CubeVertex>
  {
    if copies == 0 then [] else ReplicatedVertices(cube, copies - 1) + CubeCopy(cube, copies - 1)
  }

  /** The index buffer of `copies` cubes: copy c's indices are shifted by c * vertexCount. */
  function ReplicatedIndices(indices: seq<nat>, vertexCount: nat, copies: nat): seq<nat>
  {
    if copies == 0 then [] else ReplicatedIndices(indices, vertexCount, copies - 1) + ShiftedIndices(indices, (copies - 1) * vertexCount)
  }

  lemma {:induction false} ReplicatedLengths(cube: seq<CubeVertex>, indices: seq<nat>, vertexCount: nat, copies: nat)
    ensures |ReplicatedVertices(cube, copies)| == copies * |cube|
    ensures |ReplicatedIndices(indices, vertexCount, copies)| == copies * |indices|
  {
    if copies > 0 {
      ReplicatedLengths(cube, indices, vertexCount, copies - 1);
    }
  }

  /** Vertex j of cube c is the cube's vertex j, moved to cube c. */
  lemma {:induction false} ReplicatedVertexAt(cube: seq<CubeVertex>, copies: nat, c: nat, j: nat)
    requires c < copies && j < |cube|
    ensures c * |cube| + j < |ReplicatedVertices(cube, copies)|
    ensures ReplicatedVertices(cube, copies)[c * |cube| + j] == cube[j].(cube := c)
  {
    var indices: seq<nat> := [];
    ReplicatedLengths(cube, indices, 0, copies - 1);
    ReplicatedLengths(cube, indices, 0, copies);
    if c < copies - 1 {
      assert c * |cube| + j < (copies - 1) * |cube| by {
        MulMonotone(c + 1, copies - 1, |cube|);
      }
      ReplicatedVertexAt(cube, copies - 1, c, j);
    } else {
      assert c * |cube| + j == |ReplicatedVertices(cube, copies - 1)| + j;
    }
  }

  /** Index j of cube c is the cube's index j shifted by c * vertexCount, cast to uint16_t. */
  lemma {:induction false} ReplicatedIndexAt(indices: seq<nat>, vertexCount: nat, copies: nat, c: nat, j: nat)
    requires c < copies && j < |indices|
    ensures c * |indices| + j < |ReplicatedIndices(indices, vertexCount, copies)|
    ensures ReplicatedIndices(indices, vertexCount, copies)[c * |indices| + j] == Wrap(indices[j] + c * vertexCount, UINT16_LIMIT)
  {
    var cube: seq<CubeVertex> := [];
    ReplicatedLengths(cube, indices, vertexCount, copies - 1);
    ReplicatedLengths(cube, indices, vertexCount, copies);
    if c < copies - 1 {
      assert c * |indices| + j < (copies - 1) * |indices| by {
        MulMonotone(c + 1, copies - 1, |indices|);
      }
      ReplicatedIndexAt(indices, vertexCount, copies - 1, c, j);
    } else {
      assert c * |indices| + j == |ReplicatedIndices(indices, vertexCount, copies - 1)| + j;
    }
  }

  /** One cube: the replicated buffers are the cube and its indices themselves. */
  lemma ReplicateBase(cube: seq<CubeVertex>, indices: seq<nat>, vertexCount: nat)
    requires forall v :: 0 <= v < |cube| ==> cube[v].cube == 0
    requires IsUInt16Seq(indices)
    ensures ReplicatedVertices(cube, 1) == cube
    ensures ReplicatedIndices(indices, vertexCount, 1) == indices
  {
    assert ReplicatedVertices(cube, 1) == CubeCopy(cube, 0);
    assert CubeCopy(cube, 0) == cube by {
      assert forall v :: 0 <= v < |cube| ==> CubeCopy(cube, 0)[v] == cube[v];
    }
    assert ReplicatedIndices(indices, vertexCount, 1) == ShiftedIndices(indices, 0);
    assert ShiftedIndices(indices, 0) == indices by {
      assert forall k :: 0 <= k < |indices| ==> ShiftedIndices(indices, 0)[k] == indices[k];
    }
  }

  /**
   * One pass of createCubes' outer loop: appending copy i of the leading
   * cube, and its indices shifted by i * vertexCount, gives i + 1 cubes.
   */
  lemma ReplicateStep(cube: seq<CubeVertex>, indices: seq<nat>, vertexCount: nat, i: nat)
    requires i >= 1 && IsUInt16Seq(indices)
    ensures |ReplicatedVertices(cube, i)| >= |cube| && |ReplicatedIndices(indices, vertexCount, i)| >= |indices|
    ensures ReplicatedVertices(cube, i) + CubeCopy(ReplicatedVertices(cube, i)[..|cube|], i) == ReplicatedVertices(cube, i + 1)
    ensures ReplicatedIndices(indices, vertexCount, i) + ShiftedIndices(ReplicatedIndices(indices, vertexCount, i)[..|indices|], i * vertexCount)
         == ReplicatedIndices(indices, vertexCount, i + 1)
  {
    ReplicatedPrefix(cube, indices, vertexCount, i);
    assert CubeCopy(CubeCopy(cube, 0), i) == CubeCopy(cube, i);
    assert ShiftedIndices(ShiftedIndices(indices, 0), i * vertexCount) == ShiftedIndices(indices, i * vertexCount) by {
      forall k | 0 <= k < |indices|
        ensures ShiftedIndices(ShiftedIndices(indices, 0), i * vertexCount)[k] == ShiftedIndices(indices, i * vertexCount)[k]
      {
        assert ShiftedIndices(indices, 0)[k] == indices[k];
      }
    }
  }

  /** Cube 0 comes first: the replicated buffers start with the cube itself. */
  lemma {:induction false} ReplicatedPrefix(cube: seq<CubeVertex>, indices: seq<nat>, vertexCount: nat, copies: nat)
    requires copies >= 1
    ensures |ReplicatedVertices(cube, copies)| >= |cube|
    ensures ReplicatedVertices(cube, copies)[..|cube|] == CubeCopy(cube, 0)
    ensures |ReplicatedIndices(indices, vertexCount, copies)| >= |indices|
    ensures ReplicatedIndices(indices, vertexCount, copies)[..|indices|] == ShiftedIndices(indices, 0)
  {
    if copies > 1 {
      ReplicatedPrefix(cube, indices, vertexCount, copies - 1);
    }
  }

  lemma MulMonotone(a: nat, b: nat, n: nat)
    requires a <= b
    ensures a * n <= b * n
  {
  }

  lemma MulSucc(c: nat, n: nat)
    ensures (c + 1) * n == c * n + n
  {
  }

  /**
   * While the whole vertex buffer is addressable by a uint16_t, index j of
   * cube c names cube c's copy of the vertex that index j of the cube names:
   * every cube's triangles use only that cube's vertices.
   */
  lemma {:induction false} CubeUsesOwnVertices(cube: seq<CubeVertex>, indices: seq<nat>, copies: nat, c: nat, j: nat)
    requires forall k :: 0 <= k < |indices| ==> indices[k] < |cube|
    requires copies * |cube| <= UINT16_LIMIT
    requires c < copies && j < |indices|
    ensures var ix := ReplicatedIndices(indices, |cube|, copies);
      && c * |indices| + j < |ix|
      && ix[c * |indices| + j] == c * |cube| + indices[j]
      && c * |cube| <= ix[c * |indices| + j] < (c + 1) * |cube|
      && ix[c * |indices| + j] < |ReplicatedVertices(cube, copies)|
      && ReplicatedVertices(cube, copies)[ix[c * |indices| + j]] == cube[indices[j]].(cube := c)
  {
    var n, m := |cube|, |indices|;
    var ix := ReplicatedIndices(indices, n, copies);
    var pos := c * m + j;
    ReplicatedIndexAt(indices, n, copies, c, j);
    assert ix[pos] == Wrap(indices[j] + c * n, UINT16_LIMIT);
    MulSucc(c, n);
    MulMonotone(c + 1, copies, n);
    var target := c * n + indices[j];
    assert target < (c + 1) * n <= UINT16_LIMIT;
    assert ix[pos] == target;
    ReplicatedVertexAt(cube, copies, c, indices[j]);
  }

  /**
   * Past 65536 vertices the uint16_t cast wraps: with the unlit cube (eight
   * vertices), the first index of cube 8192 names vertex 0 of cube 0.
   */
  lemma IndexCastWrapsPastSixteenBits()
    ensures |ReplicatedIndices(IndexData0, CornerCount, 8193)| > 8192 * |IndexData0|
    ensures ReplicatedIndices(IndexData0, CornerCount, 8193)[8192 * |IndexData0|] == 0
  {
    ReplicatedIndexAt(IndexData0, CornerCount, 8193, 8192, 0);
  }

  /** The mesh createCubes builds for these settings from one cube with its indices. */
  ghost predicate BuiltFrom(vs: seq<CubeVertex>, ix: seq<nat>, cube: seq<CubeVertex>, cubeIndices: seq<nat>, s: Settings) {
    && vs == ReplicatedVertices(cube, CubeCopies(s.cubeCount))
    && ix == ReplicatedIndices(cubeIndices, |cube|, CubeCopies(s.cubeCount))
    && (if s.lightCount != 0 then FlatShaded(cube, cubeIndices) else cube == VertexData0() && cubeIndices == IndexData0)
  }

  /** What createCubes leaves in vertexData and indexData for these settings. */
  ghost predicate CubeMesh(vs: seq<CubeVertex>, ix: seq<nat>, s: Settings) {
    exists cube, cubeIndices :: BuiltFrom(vs, ix, cube, cubeIndices, s)
  }

  /**
   * In the built mesh, for as long as indices do not wrap, triangle corner j
   * of cube c copies corner j of indexData0 and belongs to cube c; when lit,
   * it carries the normal of its face.
   */
  lemma {:induction false} BuiltMeshCorners(vs: seq<CubeVertex>, ix: seq<nat>, cube: seq<CubeVertex>, cubeIndices: seq<nat>, s: Settings, c: nat, j: nat)
    requires BuiltFrom(vs, ix, cube, cubeIndices, s)
    requires CubeCopies(s.cubeCount) * |cube| <= UINT16_LIMIT
    requires c < CubeCopies(s.cubeCount) && j < |IndexData0|
    ensures c * |IndexData0| + j < |ix| && ix[c * |IndexData0| + j] < |vs|
    ensures vs[ix[c * |IndexData0| + j]].corner == IndexData0[j]
    ensures vs[ix[c * |IndexData0| + j]].cube == c
    ensures s.lightCount != 0 ==> vs[ix[c * |IndexData0| + j]].normalFace == Some(j / IndicesPerFace)
  {
    assert |cubeIndices| == |IndexData0|;
    forall k | 0 <= k < |cubeIndices| ensures cubeIndices[k] < |cube| {
      if s.lightCount == 0 { CornerOfIndex(k); }
    }
    CubeUsesOwnVertices(cube, cubeIndices, CubeCopies(s.cubeCount), c, j);
  }

  /** std::vector::resize: truncates, or pads with value-initialised (zero) entries. */
  function Resize(s: seq<nat>, n: nat): (r: seq<nat>)
    ensures |r| == n
    ensures forall k :: 0 <= k < n && k < |s| ==> r[k] == s[k]
    ensures forall k :: |s| <= k < n ==> r[k] == 0
  {
    if n <= |s| then s[..n] else s + seq(n - |s|, _ => 0)
  }

  predicate IsUInt16Seq(s: seq<nat>) {
    forall k :: 0 <= k < |s| ==> s[k] < UINT16_LIMIT
  }

  // ---------------------------------------------------------------------
  // Flat shading (addNormalsToCube)
  // ---------------------------------------------------------------------

  /** The mesh after the first `faces` faces of addNormalsToCube's face loop, with its normalSet. */
  ghost predicate Shaded(vd: seq<CubeVertex>, id: seq<nat>, faces: nat, ns: seq<bool>) {
    && faces <= FaceCount
    && |id| == |IndexData0|
    && |ns| == 36
    && CornerCount <= |vd|
    && |vd| + LitCorners(ns, CornerCount) == CornerCount + 4 * faces
    && (forall k :: 0 <= k < IndicesPerFace * faces ==> IndexData0[k] < 36 && ns[IndexData0[k]])
    && (forall v :: 0 <= v < |vd| ==> vd[v].cube == 0)
    && (forall k :: IndicesPerFace * faces <= k < |id| ==> id[k] == IndexData0[k])
    && (forall k :: 0 <= k < IndicesPerFace * faces ==>
          && id[k] < |vd|
          && vd[id[k]].corner == IndexData0[k]
          && vd[id[k]].normalFace == Some(k / IndicesPerFace))
    && (forall v :: 0 <= v < CornerCount ==> vd[v].corner == v)
    && (forall v :: 0 <= v < 36 ==> (ns[v] <==> v < |vd| && vd[v].normalFace.Some?))
  }

  /** The number of lit entries among the first n of normalSet. */
  function LitCorners(ns: seq<bool>, n: nat): (r: nat)
    requires n <= |ns|
    ensures r <= n
  {
    if n == 0 then 0 else LitCorners(ns, n - 1) + (if ns[n - 1] then 1 else 0)
  }

  lemma {:induction false} LitCornersLightOne(ns: seq<bool>, n: nat, o: nat)
    requires n <= |ns| && o < n && !ns[o]
    ensures LitCorners(ns[o := true], n) == LitCorners(ns, n) + 1
    decreases n
  {
    if o < n - 1 {
      LitCornersLightOne(ns, n - 1, o);
    } else {
      LitCornersLightAbove(ns, n - 1, o);
    }
  }

  lemma {:induction false} LitCornersLightAbove(ns: seq<bool>, n: nat, j: nat)
    requires n <= j < |ns|
    ensures LitCorners(ns[j := true], n) == LitCorners(ns, n)
    decreases n
  {
    if n > 0 {
      LitCornersLightAbove(ns, n - 1, j);
    }
  }

  lemma {:induction false} LitCornersAllLit(ns: seq<bool>, n: nat)
    requires n <= |ns| && forall v :: 0 <= v < n ==> ns[v]
    ensures LitCorners(ns, n) == n
    decreases n
  {
    if n > 0 {
      LitCornersAllLit(ns, n - 1);
    }
  }

  /** Each corner of a face is named by one of its six indices. */
  lemma FaceCornersCovered(f: nat, seen: set<nat>)
    requires f < FaceCount
    requires forall k :: IndicesPerFace * f <= k < IndicesPerFace * f + IndicesPerFace ==> IndexData0[k] in seen
    ensures FaceCorners(f) <= seen
  {
    if f == 0 { assert IndexData0[0] == 0 && IndexData0[1] == 1 && IndexData0[2] == 2 && IndexData0[4] == 3; }
    else if f == 1 { assert IndexData0[6] == 1 && IndexData0[8] == 3 && IndexData0[7] == 4 && IndexData0[10] == 6; }
    else if f == 2 { assert IndexData0[12] == 4 && IndexData0[13] == 5 && IndexData0[14] == 6 && IndexData0[16] == 7; }
    else if f == 3 { assert IndexData0[19] == 0 && IndexData0[22] == 2 && IndexData0[18] == 5 && IndexData0[20] == 7; }
    else if f == 4 { assert IndexData0[26] == 0 && IndexData0[28] == 1 && IndexData0[25] == 4 && IndexData0[24] == 5; }
    else { assert IndexData0[30] == 2 && IndexData0[31] == 3 && IndexData0[34] == 6 && IndexData0[32] == 7; }
  }

  lemma {:induction false} LitCornersNoneLit(ns: seq<bool>, n: nat)
    requires n <= |ns| && forall v :: 0 <= v < n ==> !ns[v]
    ensures LitCorners(ns, n) == 0
    decreases n
  {
    if n > 0 {
      LitCornersNoneLit(ns, n - 1);
    }
  }

  /**
   * Once all six faces are done, every corner is lit in place and each of the
   * other 16 corner uses got a fresh copy: 24 vertices in all.
   */
  lemma ShadedVertexCount(vd: seq<CubeVertex>, id: seq<nat>, ns: seq<bool>)
    requires Shaded(vd, id, FaceCount, ns)
    ensures |vd| == 3 * CornerCount
  {
    assert IndexData0[0] == 0 && IndexData0[1] == 1 && IndexData0[2] == 2 && IndexData0[4] == 3;
    assert IndexData0[7] == 4 && IndexData0[13] == 5 && IndexData0[10] == 6 && IndexData0[16] == 7;
    LitCornersAllLit(ns, CornerCount);
  }

  /** Every vertex is in cube 0, the original corners keep their place, and normalSet marks the lit vertices. */
  ghost predicate VerticesInv(vd: seq<CubeVertex>, ns: seq<bool>) {
    && CornerCount <= |vd|
    && (forall v :: 0 <= v < |vd| ==> vd[v].cube == 0)
    && (forall v :: 0 <= v < CornerCount ==> vd[v].corner == v)
    && |ns| == 36
    && (forall v :: 0 <= v < 36 ==> (ns[v] <==> v < |vd| && vd[v].normalFace.Some?))
  }

  /** indexremap maps exactly the corners in `seen` to a vertex of that corner lit by `face`. */
  ghost predicate RemapInv(vd: seq<CubeVertex>, face: nat, seen: set<nat>, remap: seq<int>) {
    && |remap| == 24
    && (forall o :: 0 <= o < 24 ==> (remap[o] != -1 <==> o in seen))
    && (forall o :: 0 <= o < 24 && remap[o] != -1 ==>
          && 0 <= remap[o] < |vd|
          && vd[remap[o]].corner == o
          && vd[remap[o]].normalFace == Some(face))
  }

  /** Indices before i name a vertex of their corner lit by their face; the rest are still indexData0's. */
  ghost predicate IndicesInv(vd: seq<CubeVertex>, id: seq<nat>, i: nat) {
    && |id| == |IndexData0|
    && i <= |id|
    && (forall k :: i <= k < |id| ==> id[k] == IndexData0[k])
    && (forall k :: 0 <= k < i ==>
          && id[k] < |vd|
          && vd[id[k]].corner == IndexData0[k]
          && vd[id[k]].normalFace == Some(k / IndicesPerFace))
  }

  /**
   * The counting part of the pass over `face`: the indices done in this face
   * name corners in `seen`, every corner used so far is lit, and each corner
   * use either lit an original corner or added a vertex.
   */
  ghost predicate CountInv(vd: seq<CubeVertex>, face: nat, i: nat, seen: set<nat>, ns: seq<bool>) {
    && i <= |IndexData0| && |ns| == 36
    && |vd| + LitCorners(ns, CornerCount) == CornerCount + 4 * face + |seen|
    && (forall k :: 0 <= k < i ==> IndexData0[k] < 36 && ns[IndexData0[k]])
    && (forall k :: IndicesPerFace * face <= k < i ==> IndexData0[k] in seen)
    && (forall o :: o in seen ==> o < 36 && ns[o])
  }

  /**
   * The mesh inside the pass over `face`, before index i: `seen` are the
   * corners this face has given a vertex, and remap maps each to it.
   */
  ghost predicate Shading(vd: seq<CubeVertex>, id: seq<nat>, face: nat, i: nat, seen: set<nat>, remap: seq<int>, ns: seq<bool>) {
    && face < FaceCount
    && IndicesPerFace * face <= i <= IndicesPerFace * face + IndicesPerFace
    && seen <= FaceCorners(face)
    && CountInv(vd, face, i, seen, ns)
    && VerticesInv(vd, ns)
    && RemapInv(vd, face, seen, remap)
    && IndicesInv(vd, id, i)
  }

  /** A corner seen earlier in this face: nothing is counted. */
  lemma CountRemapped(vd: seq<CubeVertex>, face: nat, i: nat, seen: set<nat>, ns: seq<bool>)
    requires CountInv(vd, face, i, seen, ns) && i < |IndexData0| && IndexData0[i] in seen
    ensures CountInv(vd, face, i + 1, seen, ns)
  {
  }

  /** An unlit original corner: it becomes lit and no vertex is added. */
  lemma CountFirstUse(vd: seq<CubeVertex>, vd': seq<CubeVertex>, face: nat, i: nat, seen: set<nat>, ns: seq<bool>)
    requires CountInv(vd, face, i, seen, ns) && i < |IndexData0| && |vd'| == |vd|
    requires IndexData0[i] < CornerCount && !ns[IndexData0[i]] && IndexData0[i] !in seen
    ensures CountInv(vd', face, i + 1, seen + {IndexData0[i]}, ns[IndexData0[i] := true])
  {
    LitCornersLightOne(ns, CornerCount, IndexData0[i]);
  }

  /** A lit corner not yet seen in this face: one vertex is added past the originals. */
  lemma CountDuplicate(vd: seq<CubeVertex>, v: CubeVertex, face: nat, i: nat, seen: set<nat>, ns: seq<bool>)
    requires CountInv(vd, face, i, seen, ns) && i < |IndexData0| && CornerCount <= |vd| < 36
    requires IndexData0[i] < CornerCount && ns[IndexData0[i]] && IndexData0[i] !in seen
    ensures CountInv(vd + [v], face, i + 1, seen + {IndexData0[i]}, ns[|vd| := true])
  {
    LitCornersLightAbove(ns, CornerCount, |vd|);
  }

  lemma ShadingStarts(vd: seq<CubeVertex>, id: seq<nat>, face: nat, ns: seq<bool>)
    requires face < FaceCount && Shaded(vd, id, face, ns)
    ensures Shading(vd, id, face, IndicesPerFace * face, {}, seq(24, _ => -1), ns)
  {
  }

  lemma {:induction false} ShadingEnds(vd: seq<CubeVertex>, id: seq<nat>, face: nat, seen: set<nat>, remap: seq<int>, ns: seq<bool>)
    requires Shading(vd, id, face, IndicesPerFace * face + IndicesPerFace, seen, remap, ns)
    ensures Shaded(vd, id, face + 1, ns)
  {
    FaceCornersCovered(face, seen);
    assert seen == FaceCorners(face);
  }

  /** The next index still holds indexData0's corner, one of the face's corners. */
  lemma ShadingNextCorner(vd: seq<CubeVertex>, id: seq<nat>, face: nat, i: nat, seen: set<nat>, remap: seq<int>, ns: seq<bool>)
    requires Shading(vd, id, face, i, seen, remap, ns) && i < IndicesPerFace * face + IndicesPerFace
    ensures id[i] == IndexData0[i] && id[i] in FaceCorners(face) && id[i] < CornerCount
  {
    CornerOfIndex(i);
  }

  /** A corner this face already gave a vertex: the index is redirected to it. */
  lemma {:induction false} StepRemapped(vd: seq<CubeVertex>, id: seq<nat>, face: nat, i: nat, seen: set<nat>, remap: seq<int>, ns: seq<bool>)
    requires Shading(vd, id, face, i, seen, remap, ns) && i < IndicesPerFace * face + IndicesPerFace
    requires id[i] < 24 && remap[id[i]] != -1
    ensures Shading(vd, id[i := remap[id[i]] as nat], face, i + 1, seen, remap, ns)
  {
    CornerOfIndex(i);
    assert i / IndicesPerFace == face;
    CountRemapped(vd, face, i, seen, ns);
  }

  /** A corner no face has lit yet: its vertex takes this face's normal. */
  lemma {:induction false} StepFirstUse(vd: seq<CubeVertex>, id: seq<nat>, face: nat, i: nat, seen: set<nat>, remap: seq<int>, ns: seq<bool>)
    requires Shading(vd, id, face, i, seen, remap, ns) && i < IndicesPerFace * face + IndicesPerFace
    requires id[i] < CornerCount && remap[id[i]] == -1 && !ns[id[i]]
    ensures var o := id[i];
      Shading(vd[o := vd[o].(normalFace := Some(face))], id, face, i + 1, seen + {o}, remap[o := o], ns[o := true])
  {
    CornerOfIndex(i);
    assert i / IndicesPerFace == face;
    SubsetCardinality(seen + {id[i]}, FaceCorners(face));
    var o := id[i];
    FirstUseVertices(vd, ns, o, face);
    FirstUseRemap(vd, face, seen, remap, o);
    FirstUseIndices(vd, id, i, face);
    CountFirstUse(vd, vd[o := vd[o].(normalFace := Some(face))], face, i, seen, ns);
  }

  lemma FirstUseVertices(vd: seq<CubeVertex>, ns: seq<bool>, o: nat, face: nat)
    requires VerticesInv(vd, ns) && o < CornerCount && !ns[o]
    ensures VerticesInv(vd[o := vd[o].(normalFace := Some(face))], ns[o := true])
  {
  }

  /** The other remapped vertices are lit, so none of them is the unlit corner o. */
  lemma FirstUseRemap(vd: seq<CubeVertex>, face: nat, seen: set<nat>, remap: seq<int>, o: nat)
    requires RemapInv(vd, face, seen, remap) && o < 24 && remap[o] == -1
    requires o < |vd| && vd[o].corner == o && vd[o].normalFace.None?
    ensures RemapInv(vd[o := vd[o].(normalFace := Some(face))], face, seen + {o}, remap[o := o])
  {
  }

  /** The earlier indices name lit vertices, so none of them is the unlit corner id[i]. */
  lemma FirstUseIndices(vd: seq<CubeVertex>, id: seq<nat>, i: nat, face: nat)
    requires IndicesInv(vd, id, i) && i < |id| && id[i] < |vd|
    requires vd[id[i]].corner == IndexData0[i] && vd[id[i]].normalFace.None? && i / IndicesPerFace == face
    ensures IndicesInv(vd[id[i] := vd[id[i]].(normalFace := Some(face))], id, i + 1)
  {
  }

  /** A corner an earlier face has lit: a fresh copy of the corner takes this face's normal. */
  lemma {:induction false} StepDuplicate(vd: seq<CubeVertex>, id: seq<nat>, face: nat, i: nat, seen: set<nat>, remap: seq<int>, ns: seq<bool>)
    requires Shading(vd, id, face, i, seen, remap, ns) && i < IndicesPerFace * face + IndicesPerFace
    requires id[i] < CornerCount && remap[id[i]] == -1 && ns[id[i]]
    ensures |vd| < 36
    ensures var o := id[i];
      Shading(vd + [CubeVertex(o, Some(face), 0)], id[i := |vd|], face, i + 1, seen + {o}, remap[o := |vd|], ns[|vd| := true])
  {
    CornerOfIndex(i);
    assert i / IndicesPerFace == face;
    SubsetCardinality(seen + {id[i]}, FaceCorners(face));
    var o := id[i];
    DuplicateVertices(vd, ns, o, face);
    DuplicateRemap(vd, face, seen, remap, o);
    DuplicateIndices(vd, id, i, face);
    CountDuplicate(vd, CubeVertex(o, Some(face), 0), face, i, seen, ns);
  }

  lemma DuplicateVertices(vd: seq<CubeVertex>, ns: seq<bool>, o: nat, face: nat)
    requires VerticesInv(vd, ns) && |vd| < 36
    ensures VerticesInv(vd + [CubeVertex(o, Some(face), 0)], ns[|vd| := true])
  {
  }

  lemma DuplicateRemap(vd: seq<CubeVertex>, face: nat, seen: set<nat>, remap: seq<int>, o: nat)
    requires RemapInv(vd, face, seen, remap) && o < 24 && remap[o] == -1
    ensures RemapInv(vd + [CubeVertex(o, Some(face), 0)], face, seen + {o}, remap[o := |vd|])
  {
  }

  /** Index i moves to the appended copy of its corner; the earlier indices keep their vertices. */
  lemma DuplicateIndices(vd: seq<CubeVertex>, id: seq<nat>, i: nat, face: nat)
    requires IndicesInv(vd, id, i) && i < |id| && i / IndicesPerFace == face
    ensures IndicesInv(vd + [CubeVertex(id[i], Some(face), 0)], id[i := |vd|], i + 1)
  {
  }

  // ---------------------------------------------------------------------
  // The session
  // ---------------------------------------------------------------------

  /** QuadLayerParams with n quads at the origin of size 1 x 1. */
  function DefaultQuads(n: nat): (r: QuadLayerParams)
    ensures r.NumQuads() == n && |r.sizes| == n && r.blendModes == []
    ensures forall k :: 0 <= k < n ==> r.positions[k] == Vec3(0.0, 0.0, 0.0) && r.sizes[k] == Vec2(1.0, 1.0)
    ensures r.imageWidth == DefaultImageSize && r.imageHeight == DefaultImageSize
  {
    QuadLayerParams(seq(n, _ => Vec3(0.0, 0.0, 0.0)), seq(n, _ => Vec2(1.0, 1.0)), [], DefaultImageSize, DefaultImageSize)
  }

  class Session {
    var settings: Settings
    var threadIds: seq<int>
    var forceReset: bool
    var vertexData: seq<CubeVertex>
    var indexData: seq<nat>
    /** appParamsRef().quadLayerParams */
    var quadLayerParams: Option<QuadLayerParams>

    ghost predicate Valid()
      reads this
    {
      IsUInt16Seq(indexData)
    }

    /** The state at load time: default settings, indexData = indexData0, no reset pending. */
    constructor ()
      ensures Valid()
      ensures settings == DefaultSettings && threadIds == DefaultThreadIds && !forceReset
      ensures vertexData == [] && indexData == IndexData0 && quadLayerParams == None
    {
      settings := DefaultSettings;
      threadIds := DefaultThreadIds;
      forceReset := false;
      vertexData := [];
      indexData := IndexData0;
      quadLayerParams := None;
      new;
      forall k | 0 <= k < |indexData| ensures indexData[k] < UINT16_LIMIT {
        CornerOfIndex(k);
      }
    }

    // Setters that store their value only.

    method SetNumThreads(numThreads: int)
      modifies this`settings
      ensures settings == old(settings).(threadCount := numThreads) && GetNumThreads() == numThreads
    {
      settings := settings.(threadCount := numThreads);
    }

    method SetThrashMemory(thrashMemory: bool)
      modifies this`settings
      ensures settings == old(settings).(thrashMemory := thrashMemory) && GetThrashMemory() == thrashMemory
    {
      settings := settings.(thrashMemory := thrashMemory);
    }

    method SetMemoryReads(memoryReads: nat)
      modifies this`settings
      ensures settings == old(settings).(memoryReads := memoryReads) && GetMemoryReads() == memoryReads
    {
      settings := settings.(memoryReads := memoryReads);
    }

    method SetMemoryWrites(memoryWrites: nat)
      modifies this`settings
      ensures settings == old(settings).(memoryWrites := memoryWrites) && GetMemoryWrites() == memoryWrites
    {
      settings := settings.(memoryWrites := memoryWrites);
    }

    method SetGoSlowOnCpu(goSlowOnCpu: int)
      modifies this`settings
      ensures settings == old(settings).(goSlowOnCpu := goSlowOnCpu)
      ensures GetGoSlowOnCpu() <==> goSlowOnCpu != 0
    {
      settings := settings.(goSlowOnCpu := goSlowOnCpu);
    }

    method SetDrawCount(count: int)
      modifies this`settings
      ensures settings == old(settings).(drawCount := count) && GetDrawCount() == count
    {
      settings := settings.(drawCount := count);
    }

    method SetDropFrameInterval(numberOfFramesBetweenDrops: int)
      modifies this`settings
      ensures settings == old(settings).(dropFrameX := numberOfFramesBetweenDrops)
      ensures GetDropFrameInterval() == numberOfFramesBetweenDrops
    {
      settings := settings.(dropFrameX := numberOfFramesBetweenDrops);
    }

    method SetDropFrameCount(numberOfFramesToDrop: int)
      modifies this`settings
      ensures settings == old(settings).(dropFrameCount := numberOfFramesToDrop)
      ensures GetDropFrameCount() == numberOfFramesToDrop
    {
      settings := settings.(dropFrameCount := numberOfFramesToDrop);
    }

    method SetRotateCubes(rotate: bool)
      modifies this`settings
      ensures settings == old(settings).(rotateCubes := rotate) && GetRotateCubes() == rotate
    {
      settings := settings.(rotateCubes := rotate);
    }

    // Setters that request a rebuild when the value changes.

    method SetMemorySize(memorySize: nat)
      modifies this`settings, this`forceReset
      ensures settings == old(settings).(memorySize := memorySize) && GetMemorySize() == memorySize
      ensures forceReset == (old(forceReset) || memorySize != old(settings).memorySize)
    {
      if memorySize != settings.memorySize {
        settings := settings.(memorySize := memorySize);
        forceReset := true;
      }
    }

    method SetCubeCount(count: int)
      modifies this`settings, this`forceReset
      ensures settings == old(settings).(cubeCount := count) && GetCubeCount() == count
      ensures forceReset == (old(forceReset) || count != old(settings).cubeCount)
    {
      if settings.cubeCount != count {
        forceReset := true;
        settings := settings.(cubeCount := count);
      }
    }

    method SetTestOverdraw(testOverdraw: bool)
      modifies this`settings, this`forceReset
      ensures settings == old(settings).(testOverdraw := testOverdraw) && GetTestOverdraw() == testOverdraw
      ensures forceReset == (old(forceReset) || testOverdraw != old(settings).testOverdraw)
    {
      if testOverdraw != settings.testOverdraw {
        settings := settings.(testOverdraw := testOverdraw);
        forceReset := true;
      }
    }

    method SetEnableBlending(enableBlending: bool)
      modifies this`settings, this`forceReset
      ensures settings == old(settings).(enableBlending := enableBlending) && GetEnableBlending() == enableBlending
      ensures forceReset == (old(forceReset) || enableBlending != old(settings).enableBlending)
    {
      if enableBlending != settings.enableBlending {
        settings := settings.(enableBlending := enableBlending);
        forceReset := true;
      }
    }

    method SetUseMSAA(useMSAA: bool)
      modifies this`settings, this`forceReset
      ensures settings == old(settings).(useMSAA := useMSAA) && GetUseMSAA() == useMSAA
      ensures forceReset == (old(forceReset) || useMSAA != old(settings).useMSAA)
    {
      if settings.useMSAA != useMSAA {
        settings := settings.(useMSAA := useMSAA);
        forceReset := true;
      }
    }

    method SetLightCount(lightCount: int)
      modifies this`settings, this`forceReset
      ensures settings == old(settings).(lightCount := lightCount) && GetLightCount() == lightCount
      ensures forceReset == (old(forceReset) || lightCount != old(settings).lightCount)
    {
      if settings.lightCount != lightCount {
        settings := settings.(lightCount := lightCount);
        forceReset := true;
      }
    }

    /**
     * setThreadCore: threadIds[thread % kThreadCount] := core, with C++'s
     * truncating remainder; the slot must exist.
     */
    method SetThreadCore(thread: int, core: int)
      requires settings.threadCount != 0
      requires 0 <= CRem(thread, settings.threadCount) < |threadIds|
      modifies this`threadIds
      ensures threadIds == old(threadIds)[CRem(thread, settings.threadCount) := core]
    {
      threadIds := threadIds[CRem(thread, settings.threadCount) := core];
    }

    // Getters

    function GetNumThreads(): int reads this { settings.threadCount }
    function GetThrashMemory(): bool reads this { settings.thrashMemory }
    function GetMemorySize(): nat reads this { settings.memorySize }
    function GetMemoryReads(): nat reads this { settings.memoryReads }
    function GetMemoryWrites(): nat reads this { settings.memoryWrites }
    /** getGoSlowOnCpu reports whether any CPU work is configured. */
    function GetGoSlowOnCpu(): bool reads this { settings.goSlowOnCpu != 0 }
    function GetCubeCount(): int reads this { settings.cubeCount }
    function GetDrawCount(): int reads this { settings.drawCount }
    function GetTestOverdraw(): bool reads this { settings.testOverdraw }
    function GetEnableBlending(): bool reads this { settings.enableBlending }
    function GetUseMSAA(): bool reads this { settings.useMSAA }
    function GetLightCount(): int reads this { settings.lightCount }
    function GetThreadsCores(): seq<int> reads this { threadIds }
    function GetDropFrameInterval(): int reads this { settings.dropFrameX }
    function GetDropFrameCount(): int reads this { settings.dropFrameCount }
    function GetRotateCubes(): bool reads this { settings.rotateCubes }

    // The mesh

    /**
     * addNormalsToCube, on the fresh base cube createCubes sets up: with
     * lighting on, every face gets vertices of its own carrying its normal;
     * a corner already used by an earlier face is duplicated.
     */
    method AddNormalsToCube()
      requires vertexData == VertexData0() && indexData == IndexData0
      modifies this`vertexData, this`indexData
      ensures settings.lightCount == 0 ==> vertexData == VertexData0() && indexData == IndexData0
      ensures settings.lightCount != 0 ==> FlatShaded(vertexData, indexData)
      ensures settings.lightCount != 0 ==> |vertexData| == 3 * CornerCount
    {
      if settings.lightCount == 0 {
        return;
      }
      var faceCount := |indexData| / IndicesPerFace;
      var normalSet := seq(36, _ => false);
      LitCornersNoneLit(normalSet, CornerCount);
      var j := 0;
      while j < faceCount
        invariant 0 <= j <= faceCount == FaceCount
        invariant Shaded(vertexData, indexData, j, normalSet)
      {
        normalSet := ShadeFace(j, normalSet);
        j := j + 1;
      }
      ShadedVertexCount(vertexData, indexData, normalSet);
    }

    /** One pass of the face loop: its six indices, with a fresh indexremap. */
    method ShadeFace(face: nat, normalSet: seq<bool>) returns (normalSet': seq<bool>)
      requires face < FaceCount && Shaded(vertexData, indexData, face, normalSet)
      modifies this`vertexData, this`indexData
      ensures Shaded(vertexData, indexData, face + 1, normalSet')
    {
      normalSet' := normalSet;
      var offset := face * IndicesPerFace;
      var indexremap: seq<int> := seq(24, _ => -1);
      ghost var seen: set<nat> := {};
      ShadingStarts(vertexData, indexData, face, normalSet);
      var i := offset;
      while i < offset + IndicesPerFace
        invariant Shading(vertexData, indexData, face, i, seen, indexremap, normalSet')
        decreases offset + IndicesPerFace - i
      {
        seen, indexremap, normalSet' := ShadeCorner(face, i, seen, indexremap, normalSet');
        i := i + 1;
      }
      ShadingEnds(vertexData, indexData, face, seen, indexremap, normalSet');
    }

    /** One index of the face loop: remapped, lit in place, or lit on a fresh copy of its corner. */
    method ShadeCorner(face: nat, i: nat, ghost seen: set<nat>, indexremap: seq<int>, normalSet: seq<bool>)
        returns (ghost seen': set<nat>, indexremap': seq<int>, normalSet': seq<bool>)
      requires Shading(vertexData, indexData, face, i, seen, indexremap, normalSet) && i < IndicesPerFace * face + IndicesPerFace
      modifies this`vertexData, this`indexData
      ensures Shading(vertexData, indexData, face, i + 1, seen', indexremap', normalSet')
    {
      ShadingNextCorner(vertexData, indexData, face, i, seen, indexremap, normalSet);
      var oldIndex := indexData[i];
      if indexremap[oldIndex] != -1 {
        StepRemapped(vertexData, indexData, face, i, seen, indexremap, normalSet);
        indexData := indexData[i := indexremap[oldIndex]];
        seen', indexremap', normalSet' := seen, indexremap, normalSet;
      } else if !normalSet[oldIndex] {
        seen', indexremap', normalSet' := LightCorner(face, i, seen, indexremap, normalSet);
      } else {
        seen', indexremap', normalSet' := CopyCorner(face, i, seen, indexremap, normalSet);
      }
    }

    /** An unlit corner: the base vertex takes this face's normal in place. */
    method LightCorner(face: nat, i: nat, ghost seen: set<nat>, indexremap: seq<int>, normalSet: seq<bool>)
        returns (ghost seen': set<nat>, indexremap': seq<int>, normalSet': seq<bool>)
      requires Shading(vertexData, indexData, face, i, seen, indexremap, normalSet) && i < IndicesPerFace * face + IndicesPerFace
      requires indexData[i] < CornerCount && indexremap[indexData[i]] == -1 && !normalSet[indexData[i]]
      modifies this`vertexData
      ensures Shading(vertexData, indexData, face, i + 1, seen', indexremap', normalSet')
    {
      var oldIndex := indexData[i];
      StepFirstUse(vertexData, indexData, face, i, seen, indexremap, normalSet);
      vertexData := vertexData[oldIndex := vertexData[oldIndex].(normalFace := Some(face))];
      seen', indexremap', normalSet' := seen + {oldIndex}, indexremap[oldIndex := oldIndex], normalSet[oldIndex := true];
    }

    /** A corner an earlier face lit: a fresh copy of it takes this face's normal, and the index moves to it. */
    method CopyCorner(face: nat, i: nat, ghost seen: set<nat>, indexremap: seq<int>, normalSet: seq<bool>)
        returns (ghost seen': set<nat>, indexremap': seq<int>, normalSet': seq<bool>)
      requires Shading(vertexData, indexData, face, i, seen, indexremap, normalSet) && i < IndicesPerFace * face + IndicesPerFace
      requires indexData[i] < CornerCount && indexremap[indexData[i]] == -1 && normalSet[indexData[i]]
      modifies this`vertexData, this`indexData
      ensures Shading(vertexData, indexData, face, i + 1, seen', indexremap', normalSet')
    {
      var oldIndex := indexData[i];
      StepDuplicate(vertexData, indexData, face, i, seen, indexremap, normalSet);
      var vertex := VertexData0()[oldIndex].(normalFace := Some(face));
      vertexData := vertexData + [vertex];
      var nextIndex := |vertexData| - 1;
      indexData := indexData[i := nextIndex];
      seen', indexremap', normalSet' := seen + {oldIndex}, indexremap[oldIndex := nextIndex], normalSet[nextIndex := true];
    }

    /**
     * The loop of createCubes: for i in 1..kCubeCount-1, cube i's vertices
     * (copies of vertices 0..vertexCount-1) and its indices shifted by
     * i * vertexCount are appended.
     */
    method ReplicateCubes()
      requires Valid()
      requires forall v :: 0 <= v < |vertexData| ==> vertexData[v].cube == 0
      modifies this`vertexData, this`indexData
      ensures Valid()
      ensures vertexData == ReplicatedVertices(old(vertexData), CubeCopies(settings.cubeCount))
      ensures indexData == ReplicatedIndices(old(indexData), |old(vertexData)|, CubeCopies(settings.cubeCount))
    {
      ghost var cube, cubeIndices := vertexData, indexData;
      var vertexCount := |vertexData|;
      var indexCount := |indexData|;
      ReplicateBase(cube, cubeIndices, vertexCount);
      var i := 1;
      while i < settings.cubeCount
        invariant 1 <= i <= CubeCopies(settings.cubeCount)
        invariant vertexData == ReplicatedVertices(cube, i)
        invariant indexData == ReplicatedIndices(cubeIndices, vertexCount, i)
        invariant Valid()
      {
        ReplicateStep(cube, cubeIndices, vertexCount, i);
        AppendCubeVertices(vertexCount, i);
        AppendCubeIndices(indexCount, i * vertexCount);
        i := i + 1;
      }
    }

    /** The inner vertex loop of createCubes: copies of the first n vertices, placed in cube c. */
    method AppendCubeVertices(n: nat, c: nat)
      requires n <= |vertexData|
      modifies this`vertexData
      ensures vertexData == old(vertexData) + CubeCopy(old(vertexData)[..n], c)
    {
      ghost var before := vertexData;
      var j := 0;
      while j < n
        invariant 0 <= j <= n
        invariant vertexData == before + CubeCopy(before[..n], c)[..j]
      {
        vertexData := vertexData + [vertexData[j].(cube := c)];
        assert CubeCopy(before[..n], c)[..j + 1] == CubeCopy(before[..n], c)[..j] + [before[j].(cube := c)];
        j := j + 1;
      }
      assert CubeCopy(before[..n], c)[..n] == CubeCopy(before[..n], c);
    }

    /** The inner index loop of createCubes: the first n indices plus `offset`, cast to uint16_t. */
    method AppendCubeIndices(n: nat, offset: nat)
      requires Valid() && n <= |indexData|
      modifies this`indexData
      ensures Valid()
      ensures indexData == old(indexData) + ShiftedIndices(old(indexData)[..n], offset)
    {
      ghost var before := indexData;
      var j := 0;
      while j < n
        invariant 0 <= j <= n
        invariant indexData == before + ShiftedIndices(before[..n], offset)[..j]
        invariant Valid()
      {
        indexData := indexData + [Wrap(indexData[j] + offset, UINT16_LIMIT)];
        assert ShiftedIndices(before[..n], offset)[..j + 1] == ShiftedIndices(before[..n], offset)[..j] + [Wrap(before[j] + offset, UINT16_LIMIT)];
        j := j + 1;
      }
      assert ShiftedIndices(before[..n], offset)[..n] == ShiftedIndices(before[..n], offset);
    }

    /**
     * createCubes: the base cube is reset, lit if lighting is on, and
     * replicated kCubeCount times (at least once).
     */
    method CreateCubes()
      modifies this`vertexData, this`indexData
      ensures Valid()
      ensures CubeMesh(vertexData, indexData, settings)
    {
      vertexData := VertexData0();
      indexData := IndexData0;
      AddNormalsToCube();
      ghost var cube, cubeIndices := vertexData, indexData;
      forall k | 0 <= k < |indexData| ensures indexData[k] < UINT16_LIMIT {
        if settings.lightCount == 0 { CornerOfIndex(k); }
      }
      ReplicateCubes();
      assert BuiltFrom(vertexData, indexData, cube, cubeIndices, settings);
    }

    /**
     * initialize: vertexData is cleared and indexData cut back to 36
     * entries; on a compatible device the cubes are built.
     */
    method Initialize(backend: BackendType, shaderVersion: ShaderVersion)
      requires Valid()
      modifies this`vertexData, this`indexData
      ensures Valid()
      ensures !IsDeviceCompatible(backend, shaderVersion) ==>
        vertexData == [] && indexData == Resize(old(indexData), |IndexData0|)
      ensures IsDeviceCompatible(backend, shaderVersion) ==> CubeMesh(vertexData, indexData, settings)
    {
      vertexData := [];
      indexData := Resize(indexData, |IndexData0|);
      if !IsDeviceCompatible(backend, shaderVersion) {
        return;
      }
      CreateCubes();
    }

    /**
     * The reset path of update: nothing on an incompatible device; otherwise
     * a pending reset is cleared and the mesh rebuilt for the current settings.
     */
    method Update(backend: BackendType, shaderVersion: ShaderVersion)
      requires Valid()
      modifies this`vertexData, this`indexData, this`forceReset
      ensures Valid()
      ensures !IsDeviceCompatible(backend, shaderVersion) || !old(forceReset) ==>
        vertexData == old(vertexData) && indexData == old(indexData) && forceReset == old(forceReset)
      ensures IsDeviceCompatible(backend, shaderVersion) ==> !forceReset
      ensures IsDeviceCompatible(backend, shaderVersion) && old(forceReset) ==> CubeMesh(vertexData, indexData, settings)
    {
      if !IsDeviceCompatible(backend, shaderVersion) {
        return;
      }
      if forceReset {
        forceReset := false;
        Initialize(backend, shaderVersion);
      }
    }

    /** setNumLayers (non-Windows builds): numLayers default quads replace the app's quad parameters. */
    method SetNumLayers(numLayers: nat)
      modifies this`quadLayerParams
      ensures quadLayerParams == Some(DefaultQuads(numLayers))
      ensures quadLayerParams.value.NumQuads() == numLayers
    {
      var params := DefaultQuadLayerParams;
      var i := 0;
      while i < numLayers
        invariant 0 <= i <= numLayers
        invariant params == DefaultQuads(i).(sizes := params.sizes) && params.sizes == DefaultQuads(i).sizes
      {
        params := params.(positions := params.positions + [Vec3(0.0, 0.0, 0.0)]);
        params := params.(sizes := params.sizes + [Vec2(1.0, 1.0)]);
        i := i + 1;
      }
      quadLayerParams := Some(params);
    }
  }
}
