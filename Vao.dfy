/**
 * createVertexArrayObjects and createVertexArrayObjects_T_B: one vertex array
 * object (VAO) per primitive, mesh after mesh, and one VaoRange per mesh saying
 * where its VAOs start and how many there are. Each VAO is represented by the
 * state it records: which buffer feeds each attribute slot, with which size,
 * component type, stride and byte offset, and which element buffer it uses.
 */
module Vao {
  import opened Options
  import opened Linear
  import opened Gltf
  import opened Tangents

  const POSITION_SLOT: nat := 0
  const NORMAL_SLOT: nat := 1
  const TEXCOORD0_SLOT: nat := 2
  const TANGENT_SLOT: nat := 3

  /** sizeof(glm::vec4): the stride of a synthesized tangent buffer. */
  const VEC4_BYTES: nat := 16

  /**
   * A GL buffer object: buffer object i holds model buffer i (createBufferObjects
   * uploads them one to one), or the tangent buffer generated for one VAO.
   */
  datatype Vbo = SceneBuffer(index: nat) | TangentBuffer(vao: nat, contents: seq<Vec4>)

  /** The arguments of glVertexAttribPointer together with the buffer bound at that moment. */
  datatype AttribPointer = AttribPointer(buffer: Vbo, size: int, componentType: int, stride: nat, offset: nat)

  datatype VaoPlan = VaoPlan(attribs: map<nat, AttribPointer>, elementBuffer: Option<Vbo>)

  /** VaoRange{begin, count}: the VAOs of one mesh are begin .. begin + count - 1. */
  datatype VaoRange = VaoRange(begin: nat, count: nat)

  // ---------------------------------------------------------------------------
  // One VAO

  /** The pointer set up for an attribute read through accessor a. */
  function AttribOf(m: Model, a: nat): (r: AttribPointer)
    requires AccessorOk(m, a)
    ensures r.buffer == SceneBuffer(ViewOf(m, a).buffer)
    ensures r.size == m.accessors[a].elementType && r.componentType == m.accessors[a].componentType
    ensures r.stride == ViewOf(m, a).byteStride
    ensures r.offset == m.accessors[a].byteOffset + ViewOf(m, a).byteOffset
  {
    AttribPointer(SceneBuffer(BufferOf(m, a)), m.accessors[a].elementType, m.accessors[a].componentType,
                  ViewOf(m, a).byteStride, ResolvedOffset(m, a))
  }

  /** The pointer to the tangents computed for a primitive without a TANGENT attribute. */
  function SynthesizedTangents(vao: nat, tangents: seq<Vec4>): AttribPointer {
    AttribPointer(TangentBuffer(vao, tangents), 4, FLOAT, VEC4_BYTES, 0)
  }

  /** Slot `slot` is bound exactly when attribute `name` is present, and then through its accessor. */
  ghost predicate SlotFollows(attribs: map<nat, AttribPointer>, m: Model, p: Primitive, name: string, slot: nat)
    requires PrimitiveOk(m, p)
  {
    match FindAttribute(p.attributes, name)
    case None => slot !in attribs
    case Some(a) => slot in attribs && attribs[slot] == AttribOf(m, a)
  }

  /** Bind `slot` when attribute `name` is present; the other slots are unchanged. */
  function BindIfPresent(attribs: map<nat, AttribPointer>, m: Model, p: Primitive, name: string, slot: nat): (r: map<nat, AttribPointer>)
    requires PrimitiveOk(m, p) && slot !in attribs
    ensures SlotFollows(r, m, p, name, slot)
    ensures forall s :: s != slot ==> (s in r <==> s in attribs)
    ensures forall s :: s != slot && s in attribs ==> r[s] == attribs[s]
  {
    match FindAttribute(p.attributes, name)
    case None => attribs
    case Some(a) => attribs[slot := AttribOf(m, a)]
  }

  /** What slot 3 is fed from in the extended builder. */
  function TangentPointer(m: Model, p: Primitive, vao: nat, tangents: seq<Vec4>): (r: AttribPointer)
    requires PrimitiveOk(m, p)
    ensures FindAttribute(p.attributes, "TANGENT").None? ==> r == SynthesizedTangents(vao, tangents)
    ensures FindAttribute(p.attributes, "TANGENT").Some? ==> r == AttribOf(m, FindAttribute(p.attributes, "TANGENT").value)
  {
    match FindAttribute(p.attributes, "TANGENT")
    case Some(a) => AttribOf(m, a)
    case None => SynthesizedTangents(vao, tangents)
  }

  /** A map that agrees with attribs on `slot` follows `name` there too. */
  lemma SlotFollowsFrame(attribs: map<nat, AttribPointer>, r: map<nat, AttribPointer>, m: Model, p: Primitive, name: string, slot: nat)
    requires PrimitiveOk(m, p) && SlotFollows(attribs, m, p, name, slot)
    requires (slot in r <==> slot in attribs) && (slot in attribs ==> r[slot] == attribs[slot])
    ensures SlotFollows(r, m, p, name, slot)
  {
  }

  /** Slots 0, 1 and 2, common to both builders, follow POSITION, NORMAL and TEXCOORD_0. */
  function BaseAttribs(m: Model, p: Primitive): (r: map<nat, AttribPointer>)
    requires PrimitiveOk(m, p)
    ensures SlotFollows(r, m, p, "POSITION", POSITION_SLOT)
    ensures SlotFollows(r, m, p, "NORMAL", NORMAL_SLOT)
    ensures SlotFollows(r, m, p, "TEXCOORD_0", TEXCOORD0_SLOT)
    ensures forall s :: s in r ==> s < TANGENT_SLOT
  {
    var a0 := BindIfPresent(map[], m, p, "POSITION", POSITION_SLOT);
    var a1 := BindIfPresent(a0, m, p, "NORMAL", NORMAL_SLOT);
    SlotFollowsFrame(a0, a1, m, p, "POSITION", POSITION_SLOT);
    var a2 := BindIfPresent(a1, m, p, "TEXCOORD_0", TEXCOORD0_SLOT);
    SlotFollowsFrame(a0, a2, m, p, "POSITION", POSITION_SLOT);
    SlotFollowsFrame(a1, a2, m, p, "NORMAL", NORMAL_SLOT);
    a2
  }

  /** Adding slot 3 leaves slots 0, 1 and 2 following their attributes. */
  lemma TangentSlotKeepsBase(base: map<nat, AttribPointer>, x: AttribPointer, m: Model, p: Primitive)
    requires PrimitiveOk(m, p)
    requires SlotFollows(base, m, p, "POSITION", POSITION_SLOT)
    requires SlotFollows(base, m, p, "NORMAL", NORMAL_SLOT)
    requires SlotFollows(base, m, p, "TEXCOORD_0", TEXCOORD0_SLOT)
    ensures var r := base[TANGENT_SLOT := x];
      && SlotFollows(r, m, p, "POSITION", POSITION_SLOT)
      && SlotFollows(r, m, p, "NORMAL", NORMAL_SLOT)
      && SlotFollows(r, m, p, "TEXCOORD_0", TEXCOORD0_SLOT)
  {
    var r := base[TANGENT_SLOT := x];
    SlotFollowsFrame(base, r, m, p, "POSITION", POSITION_SLOT);
    SlotFollowsFrame(base, r, m, p, "NORMAL", NORMAL_SLOT);
    SlotFollowsFrame(base, r, m, p, "TEXCOORD_0", TEXCOORD0_SLOT);
  }

  /**
   * The attribute slots recorded into VAO `vao` for primitive p: 0, 1 and 2
   * follow POSITION, NORMAL and TEXCOORD_0; only the extended builder sets up
   * slot 3, from TANGENT when present and otherwise from a fresh buffer holding
   * the given tangent stream.
   */
  function AttribsFor(m: Model, p: Primitive, vao: nat, withTangents: bool, tangents: seq<Vec4>): (r: map<nat, AttribPointer>)
    requires PrimitiveOk(m, p)
    ensures SlotFollows(r, m, p, "POSITION", POSITION_SLOT)
    ensures SlotFollows(r, m, p, "NORMAL", NORMAL_SLOT)
    ensures SlotFollows(r, m, p, "TEXCOORD_0", TEXCOORD0_SLOT)
    ensures TANGENT_SLOT in r <==> withTangents
    ensures withTangents ==> r[TANGENT_SLOT] == TangentPointer(m, p, vao, tangents)
    ensures forall s :: s in r ==> s <= TANGENT_SLOT
  {
    var base := BaseAttribs(m, p);
    if withTangents then
      var x := TangentPointer(m, p, vao, tangents);
      TangentSlotKeepsBase(base, x, m, p);
      base[TANGENT_SLOT := x]
    else base
  }

  /** The element buffer: the buffer of the index accessor's view, when the primitive has indices. */
  function ElementBufferFor(m: Model, p: Primitive): (r: Option<Vbo>)
    requires PrimitiveOk(m, p)
    ensures r.Some? <==> p.indices >= 0
    ensures p.indices >= 0 ==> r == Some(SceneBuffer(ViewOf(m, p.indices).buffer))
  {
    if p.indices >= 0 then Some(SceneBuffer(BufferOf(m, p.indices))) else None
  }

  /** The state recorded into VAO `vao` for primitive p. */
  function PlanFor(m: Model, p: Primitive, vao: nat, withTangents: bool, tangents: seq<Vec4>): VaoPlan
    requires PrimitiveOk(m, p)
  {
    VaoPlan(AttribsFor(m, p, vao, withTangents, tangents), ElementBufferFor(m, p))
  }

  // ---------------------------------------------------------------------------
  // The VAO table

  /** Number of primitives of meshes 0 .. i-1. */
  function PrimsBefore(m: Model, i: nat): nat
    requires i <= |m.meshes|
  {
    if i == 0 then 0 else PrimsBefore(m, i - 1) + |m.meshes[i - 1].primitives|
  }

  /** The VAOs of the first k primitives of mesh mi, numbered from `first`. */
  function MeshPlans(m: Model, mi: nat, k: nat, first: nat, withTangents: bool, tangents: seq<Vec4>): (r: seq<VaoPlan>)
    requires Valid(m) && mi < |m.meshes| && k <= |m.meshes[mi].primitives|
    ensures |r| == k
  {
    seq(k, j requires 0 <= j < k => PlanFor(m, m.meshes[mi].primitives[j], first + j, withTangents, tangents))
  }

  lemma MeshPlansSnoc(m: Model, mi: nat, k: nat, first: nat, withTangents: bool, tangents: seq<Vec4>)
    requires Valid(m) && mi < |m.meshes| && k < |m.meshes[mi].primitives|
    ensures MeshPlans(m, mi, k + 1, first, withTangents, tangents)
         == MeshPlans(m, mi, k, first, withTangents, tangents)
            + [PlanFor(m, m.meshes[mi].primitives[k], first + k, withTangents, tangents)]
  {
  }

  /** The VAO list after the first i meshes. */
  function PlansUpTo(m: Model, i: nat, withTangents: bool, tangents: seq<Vec4>): seq<VaoPlan>
    requires Valid(m) && i <= |m.meshes|
  {
    if i == 0 then []
    else PlansUpTo(m, i - 1, withTangents, tangents)
         + MeshPlans(m, i - 1, |m.meshes[i - 1].primitives|, PrimsBefore(m, i - 1), withTangents, tangents)
  }

  /** meshToVertexArrays after the first i meshes. */
  function RangesUpTo(m: Model, i: nat): (r: seq<VaoRange>)
    requires i <= |m.meshes|
    ensures |r| == i
  {
    if i == 0 then [] else RangesUpTo(m, i - 1) + [VaoRange(PrimsBefore(m, i - 1), |m.meshes[i - 1].primitives|)]
  }

  function MeshRanges(m: Model): (r: seq<VaoRange>)
    ensures |r| == |m.meshes|
  {
    RangesUpTo(m, |m.meshes|)
  }

  /** Entry j of the table: begin is the number of primitives before mesh j, count is mesh j's. */
  lemma {:induction false} RangeAt(m: Model, i: nat, j: nat)
    requires i <= |m.meshes| && j < i
    ensures RangesUpTo(m, i)[j] == VaoRange(PrimsBefore(m, j), |m.meshes[j].primitives|)
  {
    if j < i - 1 {
      RangeAt(m, i - 1, j);
    }
  }

  lemma {:induction false} PlansUpToLength(m: Model, i: nat, withTangents: bool, tangents: seq<Vec4>)
    requires Valid(m) && i <= |m.meshes|
    ensures |PlansUpTo(m, i, withTangents, tangents)| == PrimsBefore(m, i)
  {
    if i > 0 {
      PlansUpToLength(m, i - 1, withTangents, tangents);
    }
  }

  lemma {:induction false} PlansUpToPrefix(m: Model, i: nat, j: nat, withTangents: bool, tangents: seq<Vec4>)
    requires Valid(m) && i <= j <= |m.meshes|
    ensures PlansUpTo(m, i, withTangents, tangents) <= PlansUpTo(m, j, withTangents, tangents)
    decreases j
  {
    if i < j {
      PlansUpToPrefix(m, i, j - 1, withTangents, tangents);
    }
  }

  /** The VAO list the builders return for both variants. */
  function VertexArrayObjects(m: Model, withTangents: bool, tangents: seq<Vec4>): seq<VaoPlan>
    requires Valid(m)
  {
    PlansUpTo(m, |m.meshes|, withTangents, tangents)
  }

  /** PrimsBefore is monotone and adds up mesh by mesh. */
  lemma {:induction false} PrimsBeforeMonotone(m: Model, i: nat, j: nat)
    requires i <= j <= |m.meshes|
    ensures PrimsBefore(m, i) <= PrimsBefore(m, j)
    ensures i < j ==> PrimsBefore(m, i) + |m.meshes[i].primitives| <= PrimsBefore(m, j)
    decreases j
  {
    if i < j {
      PrimsBeforeMonotone(m, i, j - 1);
    }
  }

  /** Every entry of the table in closed form. */
  lemma MeshRangesAt(m: Model)
    ensures forall j :: 0 <= j < |m.meshes| ==>
      MeshRanges(m)[j] == VaoRange(PrimsBefore(m, j), |m.meshes[j].primitives|)
  {
    forall j | 0 <= j < |m.meshes|
      ensures MeshRanges(m)[j] == VaoRange(PrimsBefore(m, j), |m.meshes[j].primitives|)
    {
      RangeAt(m, |m.meshes|, j);
    }
  }

  /**
   * VaoRange contiguity: one range per mesh, the first begins at 0, each begins
   * where the previous one ends, the last ends at the total primitive count,
   * which is the length of the VAO list.
   */
  lemma RangesContiguous(m: Model, withTangents: bool, tangents: seq<Vec4>)
    requires Valid(m)
    ensures var r := MeshRanges(m);
      && (|r| > 0 ==> r[0].begin == 0)
      && (forall i :: 0 <= i < |r| ==> r[i].count == |m.meshes[i].primitives|)
      && (forall i :: 0 <= i < |r| - 1 ==> r[i + 1].begin == r[i].begin + r[i].count)
      && (|r| > 0 ==> r[|r| - 1].begin + r[|r| - 1].count == |VertexArrayObjects(m, withTangents, tangents)|)
  {
    MeshRangesAt(m);
    PlansUpToLength(m, |m.meshes|, withTangents, tangents);
  }

  /** VAO v lies in the range of mesh i. */
  predicate InRange(r: VaoRange, v: nat) {
    r.begin <= v < r.begin + r.count
  }

  /** Every VAO lies in the range of exactly one mesh. */
  lemma RangesPartition(m: Model, withTangents: bool, tangents: seq<Vec4>, v: nat)
    requires Valid(m) && v < |VertexArrayObjects(m, withTangents, tangents)|
    ensures exists i :: 0 <= i < |m.meshes| && InRange(MeshRanges(m)[i], v)
    ensures forall i, j ::
      (0 <= i < |m.meshes| && 0 <= j < |m.meshes| &&
       InRange(MeshRanges(m)[i], v) && InRange(MeshRanges(m)[j], v)) ==> i == j
  {
    MeshRangesAt(m);
    PlansUpToLength(m, |m.meshes|, withTangents, tangents);
    var owner := OwningMesh(m, v, |m.meshes|);
    assert InRange(MeshRanges(m)[owner], v);
    forall i, j | 0 <= i < |m.meshes| && 0 <= j < |m.meshes| &&
      InRange(MeshRanges(m)[i], v) && InRange(MeshRanges(m)[j], v)
      ensures i == j
    {
      if i < j { PrimsBeforeMonotone(m, i, j); }
      if j < i { PrimsBeforeMonotone(m, j, i); }
    }
  }

  lemma {:induction false} OwningMesh(m: Model, v: nat, n: nat) returns (i: nat)
    requires n <= |m.meshes| && v < PrimsBefore(m, n)
    ensures i < n && PrimsBefore(m, i) <= v < PrimsBefore(m, i) + |m.meshes[i].primitives|
  {
    if v >= PrimsBefore(m, n - 1) {
      i := n - 1;
    } else {
      i := OwningMesh(m, v, n - 1);
    }
  }

  lemma PlanInOwnMesh(m: Model, withTangents: bool, tangents: seq<Vec4>, mi: nat, k: nat)
    requires Valid(m) && mi < |m.meshes| && k < |m.meshes[mi].primitives|
    ensures var v := PrimsBefore(m, mi) + k;
      v < |PlansUpTo(m, mi + 1, withTangents, tangents)| &&
      PlansUpTo(m, mi + 1, withTangents, tangents)[v] == PlanFor(m, m.meshes[mi].primitives[k], v, withTangents, tangents)
  {
    PlansUpToLength(m, mi, withTangents, tangents);
  }

  /** VAO begin + k of mesh mi is the one set up for primitive k of mesh mi. */
  lemma VaoOfPrimitive(m: Model, withTangents: bool, tangents: seq<Vec4>, mi: nat, k: nat)
    requires Valid(m) && mi < |m.meshes| && k < |m.meshes[mi].primitives|
    ensures var v := MeshRanges(m)[mi].begin + k;
      v < |VertexArrayObjects(m, withTangents, tangents)| &&
      VertexArrayObjects(m, withTangents, tangents)[v] ==
        PlanFor(m, m.meshes[mi].primitives[k], v, withTangents, tangents)
  {
    RangeAt(m, |m.meshes|, mi);
    PlanInOwnMesh(m, withTangents, tangents, mi, k);
    PlansUpToPrefix(m, mi + 1, |m.meshes|, withTangents, tangents);
  }

  // ---------------------------------------------------------------------------
  // The builders

  /** The tangent stream a builder binds: computeTangent's output, when tangents are set up at all. */
  function TangentsFor(m: Model, ghost rank: seq<nat>, tangentFormula: Option<Formula>): seq<Vec4>
    requires Valid(m) && (tangentFormula.Some? ==> Ranked(m, rank) && IndexDataInBounds(m))
  {
    match tangentFormula
    case None => []
    case Some(f) => Emitted(TangentInput(m, rank), f)
  }

  /** One of the attribute blocks of the VAO builders: look `name` up and, when present, point `slot` at its accessor. */
  method EnableAttribute(attribs: map<nat, AttribPointer>, m: Model, p: Primitive, name: string, slot: nat)
    returns (r: map<nat, AttribPointer>)
    requires PrimitiveOk(m, p) && slot !in attribs
    ensures r == BindIfPresent(attribs, m, p, name, slot)
  {
    r := attribs;
    var found := FindAttribute(p.attributes, name);
    if found.Some? {
      r := attribs[slot := AttribOf(m, found.value)];
    }
  }

  /** Set up the VAO of one primitive; tangentFormula is None for the baseline builder. */
  method SetUpVao(m: Model, ghost rank: seq<nat>, p: Primitive, vao: nat, tangentFormula: Option<Formula>)
    returns (plan: VaoPlan)
    requires Valid(m) && PrimitiveOk(m, p)
    requires tangentFormula.Some? ==> Ranked(m, rank) && IndexDataInBounds(m)
    ensures plan == PlanFor(m, p, vao, tangentFormula.Some?, TangentsFor(m, rank, tangentFormula))
  {
    var attribs: map<nat, AttribPointer> := map[];
    attribs := EnableAttribute(attribs, m, p, "POSITION", POSITION_SLOT);
    attribs := EnableAttribute(attribs, m, p, "NORMAL", NORMAL_SLOT);
    attribs := EnableAttribute(attribs, m, p, "TEXCOORD_0", TEXCOORD0_SLOT);
    assert attribs == BaseAttribs(m, p);
    if tangentFormula.Some? {
      var tangent := FindAttribute(p.attributes, "TANGENT");
      if tangent.Some? {
        attribs := attribs[TANGENT_SLOT := AttribOf(m, tangent.value)];
      } else {
        // a fresh buffer holding the whole-scene stream, at offset 0
        var tangents := ComputeTangent(m, rank, tangentFormula.value);
        attribs := attribs[TANGENT_SLOT := SynthesizedTangents(vao, tangents)];
      }
    }
    var elementBuffer: Option<Vbo> := None;
    if p.indices >= 0 {
      elementBuffer := Some(SceneBuffer(BufferOf(m, p.indices)));
    }
    plan := VaoPlan(attribs, elementBuffer);
  }

  /** One step of the primitive loop: appending primitive k's VAO extends the list by one plan. */
  lemma AppendPlan(m: Model, mi: nat, k: nat, first: nat, withTangents: bool, tangents: seq<Vec4>,
                   vaos: seq<VaoPlan>, acc: seq<VaoPlan>, plan: VaoPlan)
    requires Valid(m) && mi < |m.meshes| && k < |m.meshes[mi].primitives|
    requires acc == vaos + MeshPlans(m, mi, k, first, withTangents, tangents)
    requires plan == PlanFor(m, m.meshes[mi].primitives[k], first + k, withTangents, tangents)
    ensures acc + [plan] == vaos + MeshPlans(m, mi, k + 1, first, withTangents, tangents)
  {
    MeshPlansSnoc(m, mi, k, first, withTangents, tangents);
    assert acc + [plan] == vaos + (MeshPlans(m, mi, k, first, withTangents, tangents) + [plan]);
  }

  /** The VAOs of one mesh, appended to the list: begin is where they start. */
  method AppendMeshVaos(m: Model, ghost rank: seq<nat>, mi: nat, begin: nat, tangentFormula: Option<Formula>,
                        vaos: seq<VaoPlan>) returns (vaos': seq<VaoPlan>)
    requires Valid(m) && mi < |m.meshes|
    requires tangentFormula.Some? ==> Ranked(m, rank) && IndexDataInBounds(m)
    ensures vaos' == vaos + MeshPlans(m, mi, |m.meshes[mi].primitives|, begin, tangentFormula.Some?, TangentsFor(m, rank, tangentFormula))
  {
    ghost var withTangents := tangentFormula.Some?;
    ghost var tangents := TangentsFor(m, rank, tangentFormula);
    var mesh := m.meshes[mi];
    vaos' := vaos;
    var pIdx := 0;
    while pIdx < |mesh.primitives|
      invariant 0 <= pIdx <= |mesh.primitives|
      invariant vaos' == vaos + MeshPlans(m, mi, pIdx, begin, withTangents, tangents)
    {
      var plan := SetUpVao(m, rank, mesh.primitives[pIdx], begin + pIdx, tangentFormula);
      AppendPlan(m, mi, pIdx, begin, withTangents, tangents, vaos, vaos', plan);
      vaos' := vaos' + [plan];
      pIdx := pIdx + 1;
    }
  }

  /**
   * The loop shared by both builders: grow the VAO list mesh by mesh and write
   * meshToVertexArrays[i] in place.
   */
  method BuildVaoTable(m: Model, ghost rank: seq<nat>, tangentFormula: Option<Formula>)
    returns (vertexArrayObjects: seq<VaoPlan>, meshToVertexArrays: array<VaoRange>)
    requires Valid(m)
    requires tangentFormula.Some? ==> Ranked(m, rank) && IndexDataInBounds(m)
    ensures fresh(meshToVertexArrays)
    ensures vertexArrayObjects == VertexArrayObjects(m, tangentFormula.Some?, TangentsFor(m, rank, tangentFormula))
    ensures meshToVertexArrays[..] == MeshRanges(m)
  {
    ghost var withTangents := tangentFormula.Some?;
    ghost var tangents := TangentsFor(m, rank, tangentFormula);
    meshToVertexArrays := new VaoRange[|m.meshes|](_ => VaoRange(0, 0));
    vertexArrayObjects := [];
    var i := 0;
    while i < |m.meshes|
      invariant 0 <= i <= |m.meshes|
      invariant vertexArrayObjects == PlansUpTo(m, i, withTangents, tangents)
      invariant meshToVertexArrays[..i] == RangesUpTo(m, i)
    {
      PlansUpToLength(m, i, withTangents, tangents);
      var begin := |vertexArrayObjects|;
      meshToVertexArrays[i] := VaoRange(begin, |m.meshes[i].primitives|);
      assert meshToVertexArrays[..i + 1] == meshToVertexArrays[..i] + [meshToVertexArrays[i]];
      vertexArrayObjects := AppendMeshVaos(m, rank, i, begin, tangentFormula, vertexArrayObjects);
      i := i + 1;
    }
    assert meshToVertexArrays[..] == meshToVertexArrays[..i];
  }

  /** createVertexArrayObjects: POSITION, NORMAL and TEXCOORD_0 only. */
  method CreateVertexArrayObjects(m: Model) returns (vertexArrayObjects: seq<VaoPlan>, meshToVertexArrays: array<VaoRange>)
    requires Valid(m)
    ensures fresh(meshToVertexArrays)
    ensures vertexArrayObjects == VertexArrayObjects(m, false, [])
    ensures meshToVertexArrays[..] == MeshRanges(m)
  {
    vertexArrayObjects, meshToVertexArrays := BuildVaoTable(m, [], None);
  }

  /** createVertexArrayObjects_T_B: also slot 3, from TANGENT or from computeTangent's stream. */
  method CreateVertexArrayObjectsTB(m: Model, ghost rank: seq<nat>, f: Formula)
    returns (vertexArrayObjects: seq<VaoPlan>, meshToVertexArrays: array<VaoRange>)
    requires Valid(m) && Ranked(m, rank) && IndexDataInBounds(m)
    ensures fresh(meshToVertexArrays)
    ensures vertexArrayObjects == VertexArrayObjects(m, true, Emitted(TangentInput(m, rank), f))
    ensures meshToVertexArrays[..] == MeshRanges(m)
  {
    vertexArrayObjects, meshToVertexArrays := BuildVaoTable(m, rank, Some(f));
  }
}
