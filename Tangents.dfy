/**
 * computeTangent: the whole-scene tangent stream. The pass walks the default
 * scene in pre-order, reads (position, uv) pairs of every suitable primitive in
 * draw order, keeps the last three in a sliding window and, after every third
 * vertex (counted over the whole scene), emits one tangent three times.
 *
 * The values read from the buffers are represented by where they are read
 * (buffer and byte address); the tangent formula is a parameter of the model.
 * Positions enter the window as read, in local space: the world position the
 * pass also computes is never used.
 */
module Tangents {
  import opened Options
  import opened Linear
  import opened Gltf
  import opened Seqs

  /** A value of the window: the initial zero vector, or the element stored at a byte address. */
  datatype Sample = Zero | At(buffer: nat, byteAddr: nat)

  /**
   * One visited vertex: where its position (vec3) and its uv (vec2) are read
   * from. The pass stores the position as read, in the mesh's local space.
   */
  datatype VertexSample = VertexSample(position: Sample, texCoord: Sample)

  /** posloc[0..2] and texloc[0..2] when a tangent is computed; index 0 is the newest vertex. */
  datatype Window = Window(p0: Sample, p1: Sample, p2: Sample, t0: Sample, t1: Sample, t2: Sample)

  /** The tangent formula (edge and uv deltas, normalize, w = 1) is float math and stays abstract. */
  type Formula = Window -> Vec4

  const POSITION_STRIDE: nat := 12   // 3 * sizeof(float)
  const TEXCOORD_STRIDE: nat := 8    // 2 * sizeof(float)

  // ---------------------------------------------------------------------------
  // What the pass visits

  /** The element read for vertex index idx of an attribute stream with the given default stride. */
  function SampleOf(m: Model, a: nat, packed: nat, idx: nat): (r: Sample)
    requires AccessorOk(m, a)
    ensures r == At(BufferOf(m, a), ResolvedOffset(m, a) + StrideOr(ViewOf(m, a).byteStride, packed) * idx)
  {
    At(BufferOf(m, a), ElementAddress(ResolvedOffset(m, a), StrideOr(ViewOf(m, a).byteStride, packed), idx))
  }

  function VertexAt(m: Model, pos: nat, tex: nat, idx: nat): VertexSample
    requires AccessorOk(m, pos) && AccessorOk(m, tex)
  {
    VertexSample(SampleOf(m, pos, POSITION_STRIDE, idx), SampleOf(m, tex, TEXCOORD_STRIDE, idx))
  }

  /** A primitive the pass uses: POSITION (a VEC3) and TEXCOORD_0 (a VEC2) are both present. */
  predicate Suitable(m: Model, p: Primitive)
    requires PrimitiveOk(m, p)
  {
    var pos := FindAttribute(p.attributes, "POSITION");
    var tex := FindAttribute(p.attributes, "TEXCOORD_0");
    pos.Some? && tex.Some? &&
    m.accessors[pos.value].elementType == TYPE_VEC3 && m.accessors[tex.value].elementType == TYPE_VEC2
  }

  /** The vertices of an indexed primitive: vertex DecodeIndex(i) for each i of the index stream. */
  function IndexedSamples(m: Model, pos: nat, tex: nat, s: IndexStream): (r: seq<VertexSample>)
    requires AccessorOk(m, pos) && AccessorOk(m, tex) && StreamFits(m, s)
    ensures |r| == s.count
  {
    seq(s.count, i requires 0 <= i < s.count =>
      VertexAt(m, pos, tex, DecodeIndex(m.buffers[s.buffer].data, s.offset, s.stride, s.width, i)))
  }

  /** The vertices of a non-indexed primitive: vertices 0 .. count-1. */
  function SequentialSamples(m: Model, pos: nat, tex: nat, count: nat): (r: seq<VertexSample>)
    requires AccessorOk(m, pos) && AccessorOk(m, tex)
    ensures |r| == count
  {
    seq(count, i requires 0 <= i => VertexAt(m, pos, tex, i))
  }

  /** The vertices one primitive contributes, in draw order (following its indices when it has some). */
  function PrimitiveSamples(m: Model, p: Primitive): (r: seq<VertexSample>)
    requires PrimitiveOk(m, p) && IndexStreamInBounds(m, p)
  {
    if !Suitable(m, p) then []
    else
      var pos := FindAttribute(p.attributes, "POSITION").value;
      var tex := FindAttribute(p.attributes, "TEXCOORD_0").value;
      if p.indices >= 0 then
        match IndexStreamOf(m, p)
        case None => []
        case Some(s) => IndexedSamples(m, pos, tex, s)
      else
        SequentialSamples(m, pos, tex, m.accessors[pos].count)
  }

  /** When a primitive is skipped and how many vertices it contributes otherwise. */
  lemma PrimitiveSamplesCount(m: Model, p: Primitive)
    requires PrimitiveOk(m, p) && IndexStreamInBounds(m, p)
    ensures !Suitable(m, p) ==> PrimitiveSamples(m, p) == []
    ensures Suitable(m, p) && p.indices >= 0 ==>
      if IndexWidth(m.accessors[p.indices].componentType).None? then PrimitiveSamples(m, p) == []
      else |PrimitiveSamples(m, p)| == m.accessors[p.indices].count
    ensures Suitable(m, p) && p.indices < 0 ==>
      |PrimitiveSamples(m, p)| == m.accessors[FindAttribute(p.attributes, "POSITION").value].count
  {
  }

  /** Indexed primitives read vertex DecodeIndex(i); the others read vertex i. */
  lemma PrimitiveSamplesAt(m: Model, p: Primitive, i: nat)
    requires PrimitiveOk(m, p) && IndexStreamInBounds(m, p) && i < |PrimitiveSamples(m, p)|
    ensures Suitable(m, p)
    ensures var pos := FindAttribute(p.attributes, "POSITION").value;
      var tex := FindAttribute(p.attributes, "TEXCOORD_0").value;
      match IndexStreamOf(m, p)
      case None => PrimitiveSamples(m, p)[i] == VertexAt(m, pos, tex, i)
      case Some(s) =>
        ElementAddress(s.offset, s.stride, i) + s.width <= |m.buffers[s.buffer].data| &&
        PrimitiveSamples(m, p)[i] == VertexAt(m, pos, tex, DecodeIndex(m.buffers[s.buffer].data, s.offset, s.stride, s.width, i))
  {
  }

  /** The first k primitives of mesh mi, concatenated. */
  function MeshSamples(m: Model, mi: nat, k: nat): seq<VertexSample>
    requires Valid(m) && IndexDataInBounds(m) && mi < |m.meshes| && k <= |m.meshes[mi].primitives|
  {
    if k == 0 then []
    else MeshSamples(m, mi, k - 1) + PrimitiveSamples(m, m.meshes[mi].primitives[k - 1])
  }

  /** The vertices of a visited node's mesh (visits always name nodes in range). */
  function NodeSamples(m: Model, v: Visit): seq<VertexSample>
    requires Valid(m) && IndexDataInBounds(m)
  {
    if v.node < |m.nodes| && m.nodes[v.node].mesh >= 0 then
      var mesh := m.nodes[v.node].mesh;
      MeshSamples(m, mesh, |m.meshes[mesh].primitives|)
    else []
  }

  function VisitSamples(m: Model, vs: seq<Visit>): seq<VertexSample>
    requires Valid(m) && IndexDataInBounds(m)
  {
    Flatten(seq(|vs|, k requires 0 <= k < |vs| => NodeSamples(m, vs[k])))
  }

  lemma VisitSamplesAppend(m: Model, a: seq<Visit>, b: seq<Visit>)
    requires Valid(m) && IndexDataInBounds(m)
    ensures VisitSamples(m, a + b) == VisitSamples(m, a) + VisitSamples(m, b)
  {
    assert forall k :: 0 <= k < |a| ==> (a + b)[k] == a[k];
    assert forall k :: 0 <= k < |b| ==> (a + b)[|a| + k] == b[k];
    var sa := seq(|a|, k requires 0 <= k < |a| => NodeSamples(m, a[k]));
    var sb := seq(|b|, k requires 0 <= k < |b| => NodeSamples(m, b[k]));
    var sab := seq(|a + b|, k requires 0 <= k < |a + b| => NodeSamples(m, (a + b)[k]));
    FlattenSplit(sab, sa, sb);
  }

  lemma NodeVisitSamples(m: Model, v: Visit)
    requires Valid(m) && IndexDataInBounds(m)
    ensures VisitSamples(m, [v]) == NodeSamples(m, v)
  {
    var s := seq(1, k requires 0 <= k < 1 => NodeSamples(m, [v][k]));
    assert s == [NodeSamples(m, v)];
    assert s[..0] == [];
    assert Flatten(s) == Flatten(s[..0]) + s[0];
  }

  /** All vertices the pass visits, scene-wide, in the order it visits them. */
  function TangentInput(m: Model, ghost rank: seq<nat>): seq<VertexSample>
    requires Valid(m) && Ranked(m, rank) && IndexDataInBounds(m)
  {
    VisitSamples(m, ScenePreOrder(m, rank))
  }

  // ---------------------------------------------------------------------------
  // The sliding window and the shared counter

  /** nbpos, posloc, texloc and alltangent. */
  datatype TanState = TanState(nbpos: nat, pos: seq<Sample>, tex: seq<Sample>, out: seq<Vec4>)

  const Init: TanState := TanState(0, [Zero, Zero, Zero], [Zero, Zero, Zero], [])

  ghost predicate WindowShaped(s: TanState) { |s.pos| == 3 && |s.tex| == 3 }

  function WindowOf(pos: seq<Sample>, tex: seq<Sample>): Window
    requires |pos| == 3 && |tex| == 3
  {
    Window(pos[0], pos[1], pos[2], tex[0], tex[1], tex[2])
  }

  /** One visited vertex: shift the window, emit three tangents on every third vertex, count. */
  function Step(s: TanState, v: VertexSample, f: Formula): (r: TanState)
    requires WindowShaped(s)
    ensures WindowShaped(r) && r.nbpos == s.nbpos + 1
  {
    var pos := [v.position, s.pos[0], s.pos[1]];
    var tex := [v.texCoord, s.tex[0], s.tex[1]];
    var t := f(WindowOf(pos, tex));
    TanState(s.nbpos + 1, pos, tex, if (s.nbpos + 1) % 3 == 0 then s.out + [t, t, t] else s.out)
  }

  function Feed(s: TanState, vs: seq<VertexSample>, f: Formula): (r: TanState)
    requires WindowShaped(s)
    ensures WindowShaped(r) && r.nbpos == s.nbpos + |vs|
  {
    if |vs| == 0 then s else Step(Feed(s, vs[..|vs| - 1], f), vs[|vs| - 1], f)
  }

  lemma {:induction false} FeedAppend(s: TanState, a: seq<VertexSample>, b: seq<VertexSample>, f: Formula)
    requires WindowShaped(s)
    ensures Feed(s, a + b, f) == Feed(Feed(s, a, f), b, f)
    decreases |b|
  {
    if |b| == 0 {
      assert a + b == a;
    } else {
      assert (a + b)[..|a + b| - 1] == a + b[..|b| - 1];
      FeedAppend(s, a, b[..|b| - 1], f);
    }
  }

  lemma FeedSnoc(s: TanState, a: seq<VertexSample>, i: nat, f: Formula)
    requires WindowShaped(s) && i < |a|
    ensures Feed(s, a[..i + 1], f) == Step(Feed(s, a[..i], f), a[i], f)
  {
    assert a[..i + 1][..i] == a[..i];
  }

  // ---------------------------------------------------------------------------
  // The closed form of the stream

  /** Position (resp. uv) of the k-th most recent vertex, or the initial zero. */
  function Recent(vs: seq<VertexSample>, k: nat): (r: VertexSample)
  {
    if k < |vs| then vs[|vs| - 1 - k] else VertexSample(Zero, Zero)
  }

  /** The window right after visiting vertex j (j >= 2): vertices j, j-1, j-2. */
  function WindowAt(vs: seq<VertexSample>, j: nat): Window
    requires 2 <= j < |vs|
  {
    Window(vs[j].position, vs[j - 1].position, vs[j - 2].position,
           vs[j].texCoord, vs[j - 1].texCoord, vs[j - 2].texCoord)
  }

  /** Output position k lies in a complete group, whose last vertex exists. */
  lemma GroupInRange(k: nat, n: nat)
    requires k < 3 * (n / 3)
    ensures 2 <= 3 * (k / 3) + 2 < n
  {
  }

  /** The tangent stream: for each complete group of three visits, its tangent three times. */
  function Emitted(vs: seq<VertexSample>, f: Formula): (r: seq<Vec4>)
    ensures |r| == 3 * (|vs| / 3)
  {
    seq(3 * (|vs| / 3), k requires 0 <= k < 3 * (|vs| / 3) => GroupInRange(k, |vs|); f(WindowAt(vs, 3 * (k / 3) + 2)))
  }

  lemma EmittedSnoc(vs: seq<VertexSample>, v: VertexSample, f: Formula)
    ensures var n := |vs|;
      Emitted(vs + [v], f) ==
        if (n + 1) % 3 == 0 then var t := f(WindowAt(vs + [v], n)); Emitted(vs, f) + [t, t, t]
        else Emitted(vs, f)
  {
    var n := |vs|;
    var e, e' := Emitted(vs, f), Emitted(vs + [v], f);
    if (n + 1) % 3 == 0 {
      var t := f(WindowAt(vs + [v], n));
      assert |e'| == |e| + 3;
      forall k | 0 <= k < |e'| ensures e'[k] == (e + [t, t, t])[k] {
        if k < |e| {
          assert WindowAt(vs + [v], 3 * (k / 3) + 2) == WindowAt(vs, 3 * (k / 3) + 2);
        } else {
          assert 3 * (k / 3) + 2 == n;
        }
      }
    } else {
      assert |e'| == |e|;
      forall k | 0 <= k < |e'| ensures e'[k] == e[k] {
        assert WindowAt(vs + [v], 3 * (k / 3) + 2) == WindowAt(vs, 3 * (k / 3) + 2);
      }
    }
  }

  /**
   * The state after feeding vs from the initial state: the counter equals the
   * number of visits, the window holds the three most recent visits (zeros
   * before that) and the output is Emitted(vs).
   */
  lemma {:induction false} FeedFromInit(vs: seq<VertexSample>, f: Formula)
    ensures Feed(Init, vs, f) == TanState(|vs|,
      [Recent(vs, 0).position, Recent(vs, 1).position, Recent(vs, 2).position],
      [Recent(vs, 0).texCoord, Recent(vs, 1).texCoord, Recent(vs, 2).texCoord],
      Emitted(vs, f))
    decreases |vs|
  {
    if |vs| > 0 {
      var vs', v := vs[..|vs| - 1], vs[|vs| - 1];
      assert vs == vs' + [v];
      FeedFromInit(vs', f);
      EmittedSnoc(vs', v, f);
      var s' := Feed(Init, vs', f);
      assert Feed(Init, vs, f) == Step(s', v, f);
      assert s'.nbpos == |vs'| && s'.out == Emitted(vs', f);
      assert Recent(vs, 0) == v && Recent(vs, 1) == Recent(vs', 0) && Recent(vs, 2) == Recent(vs', 1);
      var pos := [v.position, s'.pos[0], s'.pos[1]];
      var tex := [v.texCoord, s'.tex[0], s'.tex[1]];
      assert pos == [Recent(vs, 0).position, Recent(vs, 1).position, Recent(vs, 2).position];
      assert tex == [Recent(vs, 0).texCoord, Recent(vs, 1).texCoord, Recent(vs, 2).texCoord];
      ghost var t := f(WindowOf(pos, tex));
      if (|vs'| + 1) % 3 == 0 {
        assert WindowOf(pos, tex) == WindowAt(vs, |vs'|);
        assert Step(s', v, f).out == Emitted(vs', f) + [t, t, t] == Emitted(vs, f);
      } else {
        assert Step(s', v, f).out == Emitted(vs', f) == Emitted(vs, f);
      }
    }
  }

  /**
   * Length and shape of the stream: 3 * floor(V / 3) tangents for V visited
   * vertices, each triple three equal values computed from the window of the
   * triple's last vertex.
   */
  lemma EmittedTriples(vs: seq<VertexSample>, f: Formula)
    ensures |Emitted(vs, f)| == 3 * (|vs| / 3)
    ensures forall q :: 0 <= q && 3 * q + 2 < |vs| ==>
      var out := Emitted(vs, f);
      3 * q + 2 < |out| && out[3 * q] == out[3 * q + 1] == out[3 * q + 2] == f(WindowAt(vs, 3 * q + 2))
  {
    var out := Emitted(vs, f);
    forall q | 0 <= q && 3 * q + 2 < |vs|
      ensures 3 * q + 2 < |out| && out[3 * q] == out[3 * q + 1] == out[3 * q + 2] == f(WindowAt(vs, 3 * q + 2))
    {
      GroupOf(q);
    }
  }

  lemma GroupOf(q: nat)
    ensures (3 * q) / 3 == q && (3 * q + 1) / 3 == q && (3 * q + 2) / 3 == q
  {
  }

  // ---------------------------------------------------------------------------
  // The pass itself

  class TangentBuilder {
    var nbpos: nat
    var posloc: array<Sample>
    var texloc: array<Sample>
    var alltangent: seq<Vec4>

    ghost predicate Valid()
      reads this
    {
      posloc.Length == 3 && texloc.Length == 3 && posloc != texloc
    }

    function State(): (s: TanState)
      reads this, posloc, texloc
      requires Valid()
      ensures WindowShaped(s)
    {
      TanState(nbpos, posloc[..], texloc[..], alltangent)
    }

    constructor ()
      ensures Valid() && State() == Init && fresh(posloc) && fresh(texloc)
    {
      nbpos := 0;
      posloc := new Sample[3](_ => Zero);
      texloc := new Sample[3](_ => Zero);
      alltangent := [];
    }

    /** The body shared by both vertex loops: shift the window, maybe emit, count. */
    method Push(v: VertexSample, f: Formula)
      requires Valid()
      modifies this, posloc, texloc
      ensures Valid() && posloc == old(posloc) && texloc == old(texloc)
      ensures State() == Step(old(State()), v, f)
    {
      posloc[2] := posloc[1];
      posloc[1] := posloc[0];
      posloc[0] := v.position;
      texloc[2] := texloc[1];
      texloc[1] := texloc[0];
      texloc[0] := v.texCoord;
      if (nbpos + 1) % 3 == 0 {
        var tangent := f(Window(posloc[0], posloc[1], posloc[2], texloc[0], texloc[1], texloc[2]));
        alltangent := alltangent + [tangent];
        alltangent := alltangent + [tangent];
        alltangent := alltangent + [tangent];
      }
      nbpos := nbpos + 1;
      assert posloc[..] == [v.position, old(posloc[0]), old(posloc[1])];
      assert texloc[..] == [v.texCoord, old(texloc[0]), old(texloc[1])];
    }

    /** The loop over an index stream. */
    method FeedIndexed(m: Model, pos: nat, tex: nat, s: IndexStream, f: Formula)
      requires Valid() && AccessorOk(m, pos) && AccessorOk(m, tex) && StreamFits(m, s)
      modifies this, posloc, texloc
      ensures Valid() && posloc == old(posloc) && texloc == old(texloc)
      ensures State() == Feed(old(State()), IndexedSamples(m, pos, tex, s), f)
    {
      ghost var start := State();
      ghost var vs := IndexedSamples(m, pos, tex, s);
      var data := m.buffers[s.buffer].data;
      var i := 0;
      while i < s.count
        invariant 0 <= i <= s.count
        invariant Valid() && posloc == old(posloc) && texloc == old(texloc)
        invariant State() == Feed(start, vs[..i], f)
      {
        var index := DecodeIndex(data, s.offset, s.stride, s.width, i);
        FeedSnoc(start, vs, i, f);
        Push(VertexAt(m, pos, tex, index), f);
        i := i + 1;
      }
      assert vs[..i] == vs;
    }

    /** The loop over the position accessor's vertices. */
    method FeedSequential(m: Model, pos: nat, tex: nat, count: nat, f: Formula)
      requires Valid() && AccessorOk(m, pos) && AccessorOk(m, tex)
      modifies this, posloc, texloc
      ensures Valid() && posloc == old(posloc) && texloc == old(texloc)
      ensures State() == Feed(old(State()), SequentialSamples(m, pos, tex, count), f)
    {
      ghost var start := State();
      ghost var vs := SequentialSamples(m, pos, tex, count);
      var i := 0;
      while i < count
        invariant 0 <= i <= count
        invariant Valid() && posloc == old(posloc) && texloc == old(texloc)
        invariant State() == Feed(start, vs[..i], f)
      {
        FeedSnoc(start, vs, i, f);
        Push(VertexAt(m, pos, tex, i), f);
        i := i + 1;
      }
      assert vs[..i] == vs;
    }

    /** The per-primitive part of computeTan, with its skip rules. */
    method VisitPrimitive(m: Model, p: Primitive, f: Formula)
      requires Valid() && PrimitiveOk(m, p) && IndexStreamInBounds(m, p)
      modifies this, posloc, texloc
      ensures Valid() && posloc == old(posloc) && texloc == old(texloc)
      ensures State() == Feed(old(State()), PrimitiveSamples(m, p), f)
    {
      var positionAttr := FindAttribute(p.attributes, "POSITION");
      if positionAttr.None? { return; }
      var pos := positionAttr.value;
      if m.accessors[pos].elementType != TYPE_VEC3 { return; }
      var texAttr := FindAttribute(p.attributes, "TEXCOORD_0");
      if texAttr.None? { return; }
      var tex := texAttr.value;
      if m.accessors[tex].elementType != TYPE_VEC2 { return; }
      if p.indices >= 0 {
        var stream := IndexStreamOf(m, p);
        if stream.None? { return; }   // bad index componentType: skip the primitive
        FeedIndexed(m, pos, tex, stream.value, f);
      } else {
        FeedSequential(m, pos, tex, m.accessors[pos].count, f);
      }
    }

    /** The loop over the primitives of a node's mesh. */
    method VisitMesh(m: Model, mi: nat, f: Formula)
      requires Valid() && Gltf.Valid(m) && IndexDataInBounds(m) && mi < |m.meshes|
      modifies this, posloc, texloc
      ensures Valid() && posloc == old(posloc) && texloc == old(texloc)
      ensures State() == Feed(old(State()), MeshSamples(m, mi, |m.meshes[mi].primitives|), f)
    {
      ghost var start := State();
      var mesh := m.meshes[mi];
      var pIdx := 0;
      while pIdx < |mesh.primitives|
        invariant 0 <= pIdx <= |mesh.primitives|
        invariant Valid() && posloc == old(posloc) && texloc == old(texloc)
        invariant State() == Feed(start, MeshSamples(m, mi, pIdx), f)
      {
        ghost var done := MeshSamples(m, mi, pIdx);
        ghost var next := PrimitiveSamples(m, mesh.primitives[pIdx]);
        VisitPrimitive(m, mesh.primitives[pIdx], f);
        FeedAppend(start, done, next, f);
        assert MeshSamples(m, mi, pIdx + 1) == done + next;
        pIdx := pIdx + 1;
      }
    }

    /** computeTan(nodeIdx, parentMatrix): the node's mesh, then its children, recursively. */
    method ComputeTan(m: Model, ghost rank: seq<nat>, n: nat, parent: Transform, f: Formula)
      requires Valid() && Gltf.Valid(m) && Ranked(m, rank) && IndexDataInBounds(m) && n < |m.nodes|
      modifies this, posloc, texloc
      ensures Valid() && posloc == old(posloc) && texloc == old(texloc)
      ensures State() == Feed(old(State()), VisitSamples(m, NodePreOrder(m, rank, n, parent)), f)
      decreases rank[n], 1
    {
      ghost var start := State();
      var node := m.nodes[n];
      var modelMatrix := LocalToWorld(n, parent);
      ghost var here := [Visit(n, modelMatrix)];
      if node.mesh >= 0 {
        VisitMesh(m, node.mesh, f);
      }
      NodeVisitSamples(m, Visit(n, modelMatrix));
      ComputeTanChildren(m, rank, node.children, modelMatrix, rank[n], f);
      ghost var children := ChildrenPreOrder(m, rank, node.children, modelMatrix, rank[n]);
      assert NodePreOrder(m, rank, n, parent) == here + children;
      VisitSamplesAppend(m, here, children);
      FeedAppend(start, VisitSamples(m, here), VisitSamples(m, children), f);
    }

    /** The loop over a node's children. */
    method ComputeTanChildren(m: Model, ghost rank: seq<nat>, cs: seq<nat>, parent: Transform, ghost bound: nat, f: Formula)
      requires Valid() && Gltf.Valid(m) && Ranked(m, rank) && IndexDataInBounds(m)
      requires forall k :: 0 <= k < |cs| ==> cs[k] < |m.nodes| && rank[cs[k]] < bound
      modifies this, posloc, texloc
      ensures Valid() && posloc == old(posloc) && texloc == old(texloc)
      ensures State() == Feed(old(State()), VisitSamples(m, ChildrenPreOrder(m, rank, cs, parent, bound)), f)
      decreases bound, 0
    {
      ghost var start := State();
      var k := 0;
      while k < |cs|
        invariant 0 <= k <= |cs|
        invariant Valid() && posloc == old(posloc) && texloc == old(texloc)
        invariant State() == Feed(start, VisitSamples(m, ChildrenPreOrder(m, rank, cs[..k], parent, bound)), f)
      {
        ghost var prefix := ChildrenPreOrder(m, rank, cs[..k], parent, bound);
        ghost var subtree := NodePreOrder(m, rank, cs[k], parent);
        ComputeTan(m, rank, cs[k], parent, f);
        ChildrenPreOrderSnoc(m, rank, cs, k, parent, bound);
        VisitSamplesAppend(m, prefix, subtree);
        FeedAppend(start, VisitSamples(m, prefix), VisitSamples(m, subtree), f);
        k := k + 1;
      }
      assert cs[..k] == cs;
    }
  }

  /**
   * computeTangent(model): the tangent stream of the whole default scene (empty
   * when there is no default scene).
   */
  method ComputeTangent(m: Model, ghost rank: seq<nat>, f: Formula) returns (tangents: seq<Vec4>)
    requires Valid(m) && Ranked(m, rank) && IndexDataInBounds(m)
    ensures tangents == Emitted(TangentInput(m, rank), f)
  {
    var b := new TangentBuilder();
    if m.defaultScene >= 0 {
      var roots := m.scenes[m.defaultScene].nodes;
      var k := 0;
      while k < |roots|
        invariant 0 <= k <= |roots|
        invariant b.Valid() && fresh(b.posloc) && fresh(b.texloc)
        invariant b.State() == Feed(Init, VisitSamples(m, RootsPreOrder(m, rank, roots[..k])), f)
      {
        ghost var prefix := RootsPreOrder(m, rank, roots[..k]);
        ghost var subtree := NodePreOrder(m, rank, roots[k], Identity);
        b.ComputeTan(m, rank, roots[k], Identity, f);
        RootsPreOrderSnoc(m, rank, roots, k);
        VisitSamplesAppend(m, prefix, subtree);
        FeedAppend(Init, VisitSamples(m, prefix), VisitSamples(m, subtree), f);
        k := k + 1;
      }
      assert roots[..k] == roots;
    }
    FeedFromInit(TangentInput(m, rank), f);
    tangents := b.alltangent;
  }

}
