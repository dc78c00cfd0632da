/**
 * The in-memory glTF scene the viewer works on (the part of tinygltf's Model
 * that the core reads), its well-formedness conditions, the accessor/bufferView
 * resolution rule, little-endian index decoding, and the pre-order traversal of
 * the default scene that both the tangent pass and the renderer perform.
 */
module Gltf {
  import opened Options
  import opened Linear

  type byte = b: int | 0 <= b < 256

  // Component types (tinygltf uses the OpenGL enumerants).
  const UNSIGNED_BYTE: int := 5121
  const UNSIGNED_SHORT: int := 5123
  const UNSIGNED_INT: int := 5125
  const FLOAT: int := 5126

  // tinygltf stores an accessor's "type" as its number of components.
  const TYPE_VEC2: int := 2
  const TYPE_VEC3: int := 3

  datatype Buffer = Buffer(data: seq<byte>)
  datatype BufferView = BufferView(buffer: int, byteOffset: nat, byteStride: nat, target: int)
  datatype Accessor = Accessor(bufferView: int, byteOffset: nat, componentType: int, count: nat, elementType: int)

  /** One entry of a primitive's attribute map (std::map<std::string, int>). */
  datatype Attribute = Attribute(name: string, accessor: nat)
  datatype Primitive = Primitive(attributes: seq<Attribute>, indices: int, material: int, mode: int)
  datatype Mesh = Mesh(primitives: seq<Primitive>)
  /** A node; its local transform is left abstract (see Transform). */
  datatype Node = Node(mesh: int, children: seq<nat>)
  datatype Scene = Scene(nodes: seq<nat>)

  datatype Texture = Texture(source: int, sampler: int)
  datatype Sampler = Sampler(minFilter: int, magFilter: int, wrapS: int, wrapT: int, wrapR: int)
  datatype Material = Material(
    baseColorFactor: Vec4, baseColorTexture: int,
    metallicFactor: real, roughnessFactor: real, metallicRoughnessTexture: int,
    normalTexture: int, normalScale: real,
    emissiveTexture: int, emissiveFactor: Vec3)

  datatype Model = Model(
    buffers: seq<Buffer>, bufferViews: seq<BufferView>, accessors: seq<Accessor>,
    meshes: seq<Mesh>, nodes: seq<Node>, scenes: seq<Scene>, defaultScene: int,
    materials: seq<Material>, textures: seq<Texture>, samplers: seq<Sampler>)

  // ---------------------------------------------------------------------------
  // Attribute maps

  /** std::string's operator<: lexicographic order on characters. */
  predicate NameLess(a: string, b: string) {
    if |a| == 0 then |b| > 0
    else if |b| == 0 then false
    else if a[0] != b[0] then a[0] < b[0]
    else NameLess(a[1..], b[1..])
  }

  /** The iteration order of a std::map: keys strictly increasing. */
  ghost predicate SortedByName(attrs: seq<Attribute>) {
    forall i, j :: 0 <= i < j < |attrs| ==> NameLess(attrs[i].name, attrs[j].name)
  }

  /** std::map::find: the accessor stored under name, if any. */
  function FindAttribute(attrs: seq<Attribute>, name: string): (r: Option<nat>)
    ensures r.Some? <==> exists i :: 0 <= i < |attrs| && attrs[i].name == name
    ensures r.Some? ==> exists i :: 0 <= i < |attrs| && attrs[i].name == name && attrs[i].accessor == r.value
  {
    if |attrs| == 0 then None
    else if attrs[0].name == name then Some(attrs[0].accessor)
    else FindAttribute(attrs[1..], name)
  }

  lemma {:induction false} NameLessIrreflexive(a: string)
    ensures !NameLess(a, a)
  {
    if |a| > 0 { NameLessIrreflexive(a[1..]); }
  }

  /** In a sorted map every key is unique, so find returns the entry of that key. */
  lemma FindAttributeInSortedMap(attrs: seq<Attribute>, i: nat)
    requires SortedByName(attrs) && i < |attrs|
    ensures FindAttribute(attrs, attrs[i].name) == Some(attrs[i].accessor)
  {
    if i > 0 {
      if attrs[0].name == attrs[i].name {
        NameLessIrreflexive(attrs[0].name);
        assert false;
      }
      assert attrs[1..][i - 1] == attrs[i];
      FindAttributeInSortedMap(attrs[1..], i - 1);
    }
  }

  // ---------------------------------------------------------------------------
  // Well-formedness: every index the core follows must be in range.

  ghost predicate AccessorOk(m: Model, a: nat) {
    && a < |m.accessors|
    && 0 <= m.accessors[a].bufferView < |m.bufferViews|
    && 0 <= m.bufferViews[m.accessors[a].bufferView].buffer < |m.buffers|
  }

  /**
   * A primitive's references are in range. (Its attribute map is also sorted by
   * name, as every std::map is; lemmas that need that say SortedByName.)
   */
  ghost predicate PrimitiveOk(m: Model, p: Primitive) {
    && |p.attributes| > 0
    && (forall i :: 0 <= i < |p.attributes| ==> AccessorOk(m, p.attributes[i].accessor))
    && (p.indices >= 0 ==> AccessorOk(m, p.indices))
  }

  /** The geometry and hierarchy references of the model are in range. */
  ghost predicate Valid(m: Model) {
    && (forall mi, pi :: 0 <= mi < |m.meshes| && 0 <= pi < |m.meshes[mi].primitives| ==>
          PrimitiveOk(m, m.meshes[mi].primitives[pi]))
    && (forall n :: 0 <= n < |m.nodes| ==> m.nodes[n].mesh < |m.meshes|)
    && (forall n, k :: 0 <= n < |m.nodes| && 0 <= k < |m.nodes[n].children| ==> m.nodes[n].children[k] < |m.nodes|)
    && (forall s, k :: 0 <= s < |m.scenes| && 0 <= k < |m.scenes[s].nodes| ==> m.scenes[s].nodes[k] < |m.nodes|)
    && m.defaultScene < |m.scenes|
  }

  /**
   * The node graph is acyclic, witnessed by a rank that strictly decreases from
   * a node to each of its children. The viewer assumes this (it recurses without
   * a visited set) and does not check it.
   */
  ghost predicate Ranked(m: Model, rank: seq<nat>) {
    && |rank| == |m.nodes|
    && forall n, k :: 0 <= n < |m.nodes| && 0 <= k < |m.nodes[n].children| ==>
         m.nodes[n].children[k] < |m.nodes| && rank[m.nodes[n].children[k]] < rank[n]
  }

  // ---------------------------------------------------------------------------
  // Accessor resolution (glTF 2.0 section 3.6: an accessor is a typed view into
  // a bufferView, which is a byte range of a buffer)

  function ViewOf(m: Model, a: nat): BufferView
    requires AccessorOk(m, a)
  {
    m.bufferViews[m.accessors[a].bufferView]
  }

  /** The buffer an accessor's bytes live in. */
  function BufferOf(m: Model, a: nat): (b: nat)
    requires AccessorOk(m, a)
    ensures b < |m.buffers|
  {
    ViewOf(m, a).buffer
  }

  /** The byte offset the viewer computes: accessor.byteOffset + bufferView.byteOffset. */
  function ResolvedOffset(m: Model, a: nat): (r: nat)
    requires AccessorOk(m, a)
    ensures r >= m.accessors[a].byteOffset && r >= ViewOf(m, a).byteOffset
    ensures r - m.accessors[a].byteOffset == ViewOf(m, a).byteOffset
  {
    m.accessors[a].byteOffset + ViewOf(m, a).byteOffset
  }

  /** A declared byte stride, or the tightly packed default when it is 0. */
  function StrideOr(byteStride: nat, packed: nat): (r: nat)
    ensures byteStride != 0 ==> r == byteStride
    ensures byteStride == 0 ==> r == packed
  {
    if byteStride != 0 then byteStride else packed
  }

  // ---------------------------------------------------------------------------
  // Index decoding

  /** Bytes per index for the three index component types; None for any other type. */
  function IndexWidth(componentType: int): (r: Option<nat>)
    ensures r.Some? <==> componentType in {UNSIGNED_BYTE, UNSIGNED_SHORT, UNSIGNED_INT}
    ensures componentType == UNSIGNED_BYTE ==> r == Some(1)
    ensures componentType == UNSIGNED_SHORT ==> r == Some(2)
    ensures componentType == UNSIGNED_INT ==> r == Some(4)
  {
    if componentType == UNSIGNED_BYTE then Some(1)
    else if componentType == UNSIGNED_SHORT then Some(2)
    else if componentType == UNSIGNED_INT then Some(4)
    else None
  }

  function Pow256(n: nat): (r: nat)
    ensures r > 0
  {
    if n == 0 then 1 else 256 * Pow256(n - 1)
  }

  /** The unsigned little-endian value of a byte string (glTF stores data little-endian). */
  function LittleEndian(bytes: seq<byte>): (r: nat)
    ensures r < Pow256(|bytes|)
  {
    if |bytes| == 0 then 0 else bytes[0] + 256 * LittleEndian(bytes[1..])
  }

  /** The n-byte little-endian encoding of v (the inverse of LittleEndian). */
  function EncodeLittleEndian(v: nat, n: nat): (r: seq<byte>)
    ensures |r| == n
  {
    if n == 0 then [] else [v % 256] + EncodeLittleEndian(v / 256, n - 1)
  }

  lemma {:induction false} DecodeEncode(v: nat, n: nat)
    requires v < Pow256(n)
    ensures LittleEndian(EncodeLittleEndian(v, n)) == v
  {
    if n > 0 {
      var e := EncodeLittleEndian(v, n);
      assert e[1..] == EncodeLittleEndian(v / 256, n - 1);
      DecodeEncode(v / 256, n - 1);
    }
  }

  lemma {:induction false} EncodeDecode(bytes: seq<byte>)
    ensures EncodeLittleEndian(LittleEndian(bytes), |bytes|) == bytes
  {
    if |bytes| > 0 {
      var v := LittleEndian(bytes);
      assert v % 256 == bytes[0] && v / 256 == LittleEndian(bytes[1..]);
      EncodeDecode(bytes[1..]);
    }
  }

  /** Byte address of element i of a strided stream. */
  function ElementAddress(offset: nat, stride: nat, i: nat): nat {
    offset + stride * i
  }

  /** Index i of an index stream: `width` little-endian bytes at offset + stride*i. */
  function DecodeIndex(data: seq<byte>, offset: nat, stride: nat, width: nat, i: nat): (r: nat)
    requires ElementAddress(offset, stride, i) + width <= |data|
    ensures r < Pow256(width)
  {
    var at := ElementAddress(offset, stride, i);
    LittleEndian(data[at .. at + width])
  }

  /** Decoding 8/16/32-bit indices, byte by byte. */
  lemma DecodeIndexWidths(data: seq<byte>, offset: nat, stride: nat, i: nat)
    requires ElementAddress(offset, stride, i) + 4 <= |data|
    ensures var at := offset + stride * i;
      var b0: int, b1: int, b2: int, b3: int := data[at], data[at + 1], data[at + 2], data[at + 3];
      && DecodeIndex(data, offset, stride, 1, i) == b0
      && DecodeIndex(data, offset, stride, 2, i) == b0 + 256 * b1
      && DecodeIndex(data, offset, stride, 4, i) == b0 + 256 * b1 + 65536 * b2 + 16777216 * b3
  {
    var at := offset + stride * i;
    var s1, s2, s4 := data[at .. at + 1], data[at .. at + 2], data[at .. at + 4];
    assert LittleEndian(s1[1..]) == 0;
    assert s2[1..][1..] == [];
    assert LittleEndian(s2[1..]) == data[at + 1];
    assert s4[1..][1..][1..][1..] == [];
    assert LittleEndian(s4[1..][1..][1..]) == data[at + 3];
    assert LittleEndian(s4[1..][1..]) == data[at + 2] as int + 256 * data[at + 3] as int;
    assert LittleEndian(s4[1..]) == data[at + 1] as int + 256 * (data[at + 2] as int + 256 * data[at + 3] as int);
  }

  /** The index stream of a primitive, when it has one of the three index types. */
  datatype IndexStream = IndexStream(buffer: nat, offset: nat, stride: nat, width: nat, count: nat)

  function IndexStreamOf(m: Model, p: Primitive): (r: Option<IndexStream>)
    requires p.indices >= 0 ==> AccessorOk(m, p.indices)
    ensures r.Some? <==> p.indices >= 0 && IndexWidth(m.accessors[p.indices].componentType).Some?
    ensures r.Some? ==>
      && r.value.offset == ResolvedOffset(m, p.indices)
      && r.value.stride == StrideOr(ViewOf(m, p.indices).byteStride, r.value.width)
      && Some(r.value.width) == IndexWidth(m.accessors[p.indices].componentType)
      && r.value.count == m.accessors[p.indices].count
  {
    if p.indices < 0 then None
    else
      var a := m.accessors[p.indices];
      match IndexWidth(a.componentType)
      case None => None
      case Some(w) =>
        Some(IndexStream(BufferOf(m, p.indices), ResolvedOffset(m, p.indices),
                         StrideOr(ViewOf(m, p.indices).byteStride, w), w, a.count))
  }

  /** Every index the tangent pass reads lies inside its buffer. */
  ghost predicate StreamFits(m: Model, s: IndexStream) {
    s.buffer < |m.buffers| &&
    forall i :: 0 <= i < s.count ==> ElementAddress(s.offset, s.stride, i) + s.width <= |m.buffers[s.buffer].data|
  }

  ghost predicate IndexStreamInBounds(m: Model, p: Primitive)
    requires p.indices >= 0 ==> AccessorOk(m, p.indices)
  {
    match IndexStreamOf(m, p)
    case None => true
    case Some(s) => StreamFits(m, s)
  }

  ghost predicate IndexDataInBounds(m: Model)
    requires Valid(m)
  {
    forall mi, pi :: 0 <= mi < |m.meshes| && 0 <= pi < |m.meshes[mi].primitives| ==>
      IndexStreamInBounds(m, m.meshes[mi].primitives[pi])
  }

  // ---------------------------------------------------------------------------
  // Pre-order traversal of the default scene

  /**
   * A world matrix, kept symbolic: LocalToWorld(n, parent) stands for
   * getLocalToWorldMatrix(nodes[n], parent), whose definition is not part of this model.
   */
  datatype Transform = Identity | LocalToWorld(node: nat, parent: Transform)

  /** One visited node with the world matrix computed for it. */
  datatype Visit = Visit(node: nat, world: Transform)

  function NodePreOrder(m: Model, ghost rank: seq<nat>, n: nat, parent: Transform): (r: seq<Visit>)
    requires Valid(m) && Ranked(m, rank) && n < |m.nodes|
    ensures |r| > 0 && r[0] == Visit(n, LocalToWorld(n, parent))
    decreases rank[n], |m.nodes[n].children| + 1
  {
    var world := LocalToWorld(n, parent);
    [Visit(n, world)] + ChildrenPreOrder(m, rank, m.nodes[n].children, world, rank[n])
  }

  /** The pre-order visits of the subtrees cs, in order, each child under world matrix parent. */
  function ChildrenPreOrder(m: Model, ghost rank: seq<nat>, cs: seq<nat>, parent: Transform, ghost bound: nat): seq<Visit>
    requires Valid(m) && Ranked(m, rank)
    requires forall k :: 0 <= k < |cs| ==> cs[k] < |m.nodes| && rank[cs[k]] < bound
    decreases bound, |cs|
  {
    if |cs| == 0 then []
    else ChildrenPreOrder(m, rank, cs[..|cs| - 1], parent, bound) + NodePreOrder(m, rank, cs[|cs| - 1], parent)
  }

  function RootsPreOrder(m: Model, ghost rank: seq<nat>, roots: seq<nat>): seq<Visit>
    requires Valid(m) && Ranked(m, rank)
    requires forall k :: 0 <= k < |roots| ==> roots[k] < |m.nodes|
    decreases |roots|
  {
    if |roots| == 0 then []
    else RootsPreOrder(m, rank, roots[..|roots| - 1]) + NodePreOrder(m, rank, roots[|roots| - 1], Identity)
  }

  /** Nodes visited when a frame (or the tangent pass) walks the default scene. */
  function ScenePreOrder(m: Model, ghost rank: seq<nat>): (r: seq<Visit>)
    requires Valid(m) && Ranked(m, rank)
    ensures m.defaultScene < 0 ==> r == []
  {
    if m.defaultScene < 0 then []
    else RootsPreOrder(m, rank, m.scenes[m.defaultScene].nodes)
  }

  /**
   * t is a world matrix built by the traversal for node n: either n is a root of
   * the default scene under the identity, or n is a child of q and t composes
   * n's local matrix with a world matrix built for q.
   */
  ghost predicate WorldChain(m: Model, roots: seq<nat>, n: nat, t: Transform)
    decreases t
  {
    t.LocalToWorld? && t.node == n &&
    match t.parent
    case Identity => n in roots
    case LocalToWorld(q, _) =>
      q < |m.nodes| && n in m.nodes[q].children && WorldChain(m, roots, q, t.parent)
  }

  /** Every visit of a subtree carries a world matrix chained from the subtree root's parent. */
  lemma {:induction false} NodePreOrderChains(m: Model, rank: seq<nat>, roots: seq<nat>, n: nat, parent: Transform)
    requires Valid(m) && Ranked(m, rank) && n < |m.nodes|
    requires WorldChain(m, roots, n, LocalToWorld(n, parent))
    ensures forall v :: v in NodePreOrder(m, rank, n, parent) ==>
      v.node < |m.nodes| && WorldChain(m, roots, v.node, v.world)
    decreases rank[n], |m.nodes[n].children| + 1
  {
    var world := LocalToWorld(n, parent);
    var cs := m.nodes[n].children;
    forall k | 0 <= k < |cs| ensures WorldChain(m, roots, cs[k], LocalToWorld(cs[k], world)) {
      assert cs[k] in m.nodes[n].children;
    }
    ChildrenPreOrderChains(m, rank, roots, n, cs, world, rank[n]);
  }

  lemma {:induction false} ChildrenPreOrderChains(m: Model, rank: seq<nat>, roots: seq<nat>, q: nat, cs: seq<nat>, parent: Transform, bound: nat)
    requires Valid(m) && Ranked(m, rank)
    requires forall k :: 0 <= k < |cs| ==> cs[k] < |m.nodes| && rank[cs[k]] < bound
    requires forall k :: 0 <= k < |cs| ==> WorldChain(m, roots, cs[k], LocalToWorld(cs[k], parent))
    ensures forall v :: v in ChildrenPreOrder(m, rank, cs, parent, bound) ==>
      v.node < |m.nodes| && WorldChain(m, roots, v.node, v.world)
    decreases bound, |cs|
  {
    if |cs| > 0 {
      ChildrenPreOrderChains(m, rank, roots, q, cs[..|cs| - 1], parent, bound);
      NodePreOrderChains(m, rank, roots, cs[|cs| - 1], parent);
    }
  }

  lemma {:induction false} RootsPreOrderChains(m: Model, rank: seq<nat>, roots: seq<nat>, rs: seq<nat>)
    requires Valid(m) && Ranked(m, rank)
    requires forall k :: 0 <= k < |rs| ==> rs[k] < |m.nodes| && rs[k] in roots
    ensures forall v :: v in RootsPreOrder(m, rank, rs) ==>
      v.node < |m.nodes| && WorldChain(m, roots, v.node, v.world)
    decreases |rs|
  {
    if |rs| > 0 {
      RootsPreOrderChains(m, rank, roots, rs[..|rs| - 1]);
      NodePreOrderChains(m, rank, roots, rs[|rs| - 1], Identity);
    }
  }

  /**
   * The traversal's world-matrix rule: every node visited in the default scene
   * carries parent-world x local, where the chain of parents leads back, edge by
   * edge, to a root of the default scene under the identity matrix.
   */
  lemma ScenePreOrderChains(m: Model, rank: seq<nat>)
    requires Valid(m) && Ranked(m, rank) && m.defaultScene >= 0
    ensures forall v :: v in ScenePreOrder(m, rank) ==>
      v.node < |m.nodes| && WorldChain(m, m.scenes[m.defaultScene].nodes, v.node, v.world)
  {
    var roots := m.scenes[m.defaultScene].nodes;
    RootsPreOrderChains(m, rank, roots, roots);
  }

  /** The important composition facts the imperative traversals rely on. */
  lemma ChildrenPreOrderSnoc(m: Model, rank: seq<nat>, cs: seq<nat>, j: nat, parent: Transform, bound: nat)
    requires Valid(m) && Ranked(m, rank) && j < |cs|
    requires forall k :: 0 <= k < |cs| ==> cs[k] < |m.nodes| && rank[cs[k]] < bound
    ensures ChildrenPreOrder(m, rank, cs[..j + 1], parent, bound)
         == ChildrenPreOrder(m, rank, cs[..j], parent, bound) + NodePreOrder(m, rank, cs[j], parent)
  {
    assert cs[..j + 1][..j] == cs[..j];
  }

  lemma RootsPreOrderSnoc(m: Model, rank: seq<nat>, rs: seq<nat>, j: nat)
    requires Valid(m) && Ranked(m, rank) && j < |rs|
    requires forall k :: 0 <= k < |rs| ==> rs[k] < |m.nodes|
    ensures RootsPreOrder(m, rank, rs[..j + 1]) == RootsPreOrder(m, rank, rs[..j]) + NodePreOrder(m, rank, rs[j], Identity)
  {
    assert rs[..j + 1][..j] == rs[..j];
  }
}
