/**
 * One frame's scene draw (drawNode and the loop over the default scene's roots):
 * the GL commands it issues, recorded as an effect log. Per visited node with a
 * mesh it sets the node's matrices, then per primitive binds the material,
 * binds the primitive's VAO and issues an indexed or non-indexed draw.
 */
module Render {
  import opened Options
  import opened Linear
  import opened Gltf
  import opened Seqs
  import opened Materials
  import opened Vao

  /** glDrawElements(mode, count, type, offset) or glDrawArrays(mode, first, count). */
  datatype DrawCall =
    | DrawElements(mode: int, count: nat, componentType: int, byteOffset: nat)
    | DrawArrays(mode: int, first: nat, count: nat)

  /**
   * One logged step: the matrix uniforms of a node (its modelview, projection
   * and normal matrices derive from the world matrix), a material binding, a
   * glBindVertexArray of the VAO at that position of vertexArrayObjects, a draw.
   */
  datatype Effect =
    | Matrices(world: Transform)
    | Binding(binding: MaterialBinding)
    | VertexArray(vao: nat)
    | Draw(call: DrawCall)

  /** What drawing the default scene needs in range: geometry, textures and each primitive's material. */
  ghost predicate Drawable(m: Model) {
    && Valid(m) && TexturesOk(m)
    && forall mi, pi :: 0 <= mi < |m.meshes| && 0 <= pi < |m.meshes[mi].primitives| ==>
         m.meshes[mi].primitives[pi].material < |m.materials|
  }

  // ---------------------------------------------------------------------------
  // Draw-call selection

  /**
   * An indexed primitive draws its index accessor (count, component type and
   * resolved byte offset); any other draws from vertex 0 as many vertices as the
   * accessor of the first entry of its attribute map holds.
   */
  function DrawCallFor(m: Model, p: Primitive): (r: DrawCall)
    requires PrimitiveOk(m, p)
    ensures r.mode == p.mode
    ensures r.DrawElements? <==> p.indices >= 0
    ensures r.DrawElements? ==>
      r.count == m.accessors[p.indices].count && r.componentType == m.accessors[p.indices].componentType &&
      r.byteOffset == ResolvedOffset(m, p.indices)
    ensures r.DrawArrays? ==> r.first == 0 && r.count == m.accessors[p.attributes[0].accessor].count
  {
    if p.indices >= 0 then
      var a := m.accessors[p.indices];
      DrawElements(p.mode, a.count, a.componentType, ResolvedOffset(m, p.indices))
    else
      DrawArrays(p.mode, 0, m.accessors[p.attributes[0].accessor].count)
  }

  /** An indexed draw reads exactly the index stream the tangent pass decodes. */
  lemma DrawElementsReadsIndexStream(m: Model, p: Primitive)
    requires PrimitiveOk(m, p) && IndexStreamOf(m, p).Some?
    ensures var s := IndexStreamOf(m, p).value;
      DrawCallFor(m, p) == DrawElements(p.mode, s.count, m.accessors[p.indices].componentType, s.offset)
  {
  }

  /**
   * A non-indexed draw takes its count from the attribute whose name is least in
   * std::map order, the one the map's begin() yields.
   */
  lemma DrawArraysCountsLeastName(m: Model, p: Primitive)
    requires PrimitiveOk(m, p) && p.indices < 0 && SortedByName(p.attributes)
    ensures var first := p.attributes[0];
      && (forall i :: 0 <= i < |p.attributes| ==> i == 0 || NameLess(first.name, p.attributes[i].name))
      && FindAttribute(p.attributes, first.name) == Some(first.accessor)
      && DrawCallFor(m, p) == DrawArrays(p.mode, 0, m.accessors[first.accessor].count)
  {
    FindAttributeInSortedMap(p.attributes, 0);
  }

  // ---------------------------------------------------------------------------
  // The effects of a frame

  /** Primitive k of mesh mi: bindMaterial as written, glBindVertexArray(vaoRange.begin + k), the draw. */
  function PrimitiveEffects(m: Model, u: UniformLocations, ranges: seq<VaoRange>, mi: nat, k: nat): (r: seq<Effect>)
    requires Drawable(m) && |ranges| == |m.meshes| && mi < |m.meshes| && k < |m.meshes[mi].primitives|
    ensures |r| == 3
  {
    var p := m.meshes[mi].primitives[k];
    [Binding(BindMaterial(m, u, p.material, ByImageIndex)), VertexArray(ranges[mi].begin + k), Draw(DrawCallFor(m, p))]
  }

  /** The first k primitives of mesh mi, in order. */
  function MeshEffects(m: Model, u: UniformLocations, ranges: seq<VaoRange>, mi: nat, k: nat): seq<Effect>
    requires Drawable(m) && |ranges| == |m.meshes| && mi < |m.meshes| && k <= |m.meshes[mi].primitives|
  {
    if k == 0 then []
    else MeshEffects(m, u, ranges, mi, k - 1) + PrimitiveEffects(m, u, ranges, mi, k - 1)
  }

  /** A visited node: its matrices and its mesh's primitives when it has a mesh, else nothing. */
  function NodeEffects(m: Model, u: UniformLocations, ranges: seq<VaoRange>, v: Visit): seq<Effect>
    requires Drawable(m) && |ranges| == |m.meshes|
  {
    if v.node < |m.nodes| && m.nodes[v.node].mesh >= 0 then
      var mesh := m.nodes[v.node].mesh;
      [Matrices(v.world)] + MeshEffects(m, u, ranges, mesh, |m.meshes[mesh].primitives|)
    else []
  }

  function VisitEffects(m: Model, u: UniformLocations, ranges: seq<VaoRange>, vs: seq<Visit>): seq<Effect>
    requires Drawable(m) && |ranges| == |m.meshes|
  {
    Flatten(seq(|vs|, k requires 0 <= k < |vs| => NodeEffects(m, u, ranges, vs[k])))
  }

  lemma VisitEffectsAppend(m: Model, u: UniformLocations, ranges: seq<VaoRange>, a: seq<Visit>, b: seq<Visit>)
    requires Drawable(m) && |ranges| == |m.meshes|
    ensures VisitEffects(m, u, ranges, a + b) == VisitEffects(m, u, ranges, a) + VisitEffects(m, u, ranges, b)
  {
    assert forall k :: 0 <= k < |a| ==> (a + b)[k] == a[k];
    assert forall k :: 0 <= k < |b| ==> (a + b)[|a| + k] == b[k];
    var sa := seq(|a|, k requires 0 <= k < |a| => NodeEffects(m, u, ranges, a[k]));
    var sb := seq(|b|, k requires 0 <= k < |b| => NodeEffects(m, u, ranges, b[k]));
    var sab := seq(|a + b|, k requires 0 <= k < |a + b| => NodeEffects(m, u, ranges, (a + b)[k]));
    FlattenSplit(sab, sa, sb);
  }

  lemma NodeVisitEffects(m: Model, u: UniformLocations, ranges: seq<VaoRange>, v: Visit)
    requires Drawable(m) && |ranges| == |m.meshes|
    ensures VisitEffects(m, u, ranges, [v]) == NodeEffects(m, u, ranges, v)
  {
    var e := seq(1, k requires 0 <= k < 1 => NodeEffects(m, u, ranges, [v][k]));
    assert e == [NodeEffects(m, u, ranges, v)];
    assert e[..0] == [];
    assert Flatten(e) == Flatten(e[..0]) + e[0];
  }

  /** A node's subtree draws the node itself, then its children's subtrees. */
  lemma NodeEffectsThenChildren(m: Model, u: UniformLocations, ranges: seq<VaoRange>, rank: seq<nat>, n: nat, parent: Transform)
    requires Drawable(m) && Ranked(m, rank) && |ranges| == |m.meshes| && n < |m.nodes|
    ensures var world := LocalToWorld(n, parent);
      VisitEffects(m, u, ranges, NodePreOrder(m, rank, n, parent)) ==
      VisitEffects(m, u, ranges, [Visit(n, world)]) +
      VisitEffects(m, u, ranges, ChildrenPreOrder(m, rank, m.nodes[n].children, world, rank[n]))
  {
    var world := LocalToWorld(n, parent);
    var children := ChildrenPreOrder(m, rank, m.nodes[n].children, world, rank[n]);
    assert NodePreOrder(m, rank, n, parent) == [Visit(n, world)] + children;
    VisitEffectsAppend(m, u, ranges, [Visit(n, world)], children);
  }

  /** Everything one frame's scene draw issues. */
  function FrameEffects(m: Model, u: UniformLocations, ranges: seq<VaoRange>, ghost rank: seq<nat>): seq<Effect>
    requires Drawable(m) && Ranked(m, rank) && |ranges| == |m.meshes|
  {
    VisitEffects(m, u, ranges, ScenePreOrder(m, rank))
  }

  /** Without a default scene nothing is drawn. */
  lemma NothingDrawnWithoutDefaultScene(m: Model, u: UniformLocations, ranges: seq<VaoRange>, rank: seq<nat>)
    requires Drawable(m) && Ranked(m, rank) && |ranges| == |m.meshes| && m.defaultScene < 0
    ensures FrameEffects(m, u, ranges, rank) == []
  {
  }

  /** A mesh's effects come in triples, triple k being primitive k's. */
  lemma {:induction false} MeshEffectsAt(m: Model, u: UniformLocations, ranges: seq<VaoRange>, mi: nat, k: nat)
    requires Drawable(m) && |ranges| == |m.meshes| && mi < |m.meshes| && k <= |m.meshes[mi].primitives|
    ensures |MeshEffects(m, u, ranges, mi, k)| == 3 * k
    ensures forall j :: 0 <= j < k ==>
      MeshEffects(m, u, ranges, mi, k)[3 * j .. 3 * j + 3] == PrimitiveEffects(m, u, ranges, mi, j)
  {
    if k > 0 {
      MeshEffectsAt(m, u, ranges, mi, k - 1);
      var prefix := MeshEffects(m, u, ranges, mi, k - 1);
      var all := MeshEffects(m, u, ranges, mi, k);
      assert all == prefix + PrimitiveEffects(m, u, ranges, mi, k - 1);
      forall j | 0 <= j < k
        ensures all[3 * j .. 3 * j + 3] == PrimitiveEffects(m, u, ranges, mi, j)
      {
        if j < k - 1 {
          assert all[3 * j .. 3 * j + 3] == prefix[3 * j .. 3 * j + 3];
        } else {
          assert all[3 * j .. 3 * j + 3] == all[|prefix|..];
        }
      }
    }
  }

  /**
   * With the ranges the VAO builder wrote, primitive k of mesh mi binds the VAO
   * that was set up for that very primitive, just before its draw call.
   */
  lemma MeshDrawsUseOwnVao(m: Model, u: UniformLocations, withTangents: bool, tangents: seq<Vec4>, mi: nat, k: nat)
    requires Drawable(m) && mi < |m.meshes| && k < |m.meshes[mi].primitives|
    ensures var ranges := MeshRanges(m);
      var es := MeshEffects(m, u, ranges, mi, |m.meshes[mi].primitives|);
      var p := m.meshes[mi].primitives[k];
      var vaos := VertexArrayObjects(m, withTangents, tangents);
      && 3 * k + 2 < |es|
      && es[3 * k] == Binding(BindMaterial(m, u, p.material, ByImageIndex))
      && es[3 * k + 1].VertexArray? && es[3 * k + 2] == Draw(DrawCallFor(m, p))
      && es[3 * k + 1].vao < |vaos| && vaos[es[3 * k + 1].vao] == PlanFor(m, p, es[3 * k + 1].vao, withTangents, tangents)
  {
    var ranges := MeshRanges(m);
    var n := |m.meshes[mi].primitives|;
    MeshEffectsAt(m, u, ranges, mi, n);
    var es := MeshEffects(m, u, ranges, mi, n);
    assert es[3 * k .. 3 * k + 3] == PrimitiveEffects(m, u, ranges, mi, k);
    assert es[3 * k] == es[3 * k .. 3 * k + 3][0];
    assert es[3 * k + 1] == es[3 * k .. 3 * k + 3][1] == VertexArray(ranges[mi].begin + k);
    assert es[3 * k + 2] == es[3 * k .. 3 * k + 3][2];
    VaoOfPrimitive(m, withTangents, tangents, mi, k);
  }

  // ---------------------------------------------------------------------------
  // normaltexturecheck

  /** No logged material binding reported a missing normal map. */
  ghost predicate KeepsNormalCheck(es: seq<Effect>) {
    forall i :: 0 <= i < |es| && es[i].Binding? ==> !es[i].binding.normalMapAbsent
  }

  /**
   * Drawing a mesh clears normaltexturecheck exactly when one of its primitives
   * has a material without a normal texture and the program has uNormalTexture.
   */
  lemma MeshClearsNormalCheck(m: Model, u: UniformLocations, ranges: seq<VaoRange>, mi: nat)
    requires Drawable(m) && |ranges| == |m.meshes| && mi < |m.meshes|
    ensures var prims := m.meshes[mi].primitives;
      !KeepsNormalCheck(MeshEffects(m, u, ranges, mi, |prims|)) <==>
      exists k :: 0 <= k < |prims| && LacksNormalMap(m, u, prims[k])
  {
    var prims := m.meshes[mi].primitives;
    var es := MeshEffects(m, u, ranges, mi, |prims|);
    MeshEffectsAt(m, u, ranges, mi, |prims|);
    if !KeepsNormalCheck(es) {
      var i :| 0 <= i < |es| && es[i].Binding? && es[i].binding.normalMapAbsent;
      PrimitiveBindingAt(m, u, ranges, mi, i);
    }
    if exists k :: 0 <= k < |prims| && LacksNormalMap(m, u, prims[k]) {
      var k :| 0 <= k < |prims| && LacksNormalMap(m, u, prims[k]);
      PrimitiveBindingAt(m, u, ranges, mi, 3 * k);
    }
  }

  /** A material binding bindMaterial reports as lacking a normal map. */
  ghost predicate LacksNormalMap(m: Model, u: UniformLocations, p: Primitive) {
    0 <= p.material < |m.materials| && u.normalTexture >= 0 && m.materials[p.material].normalTexture < 0
  }

  /** Effect i of a mesh's effects belongs to primitive i / 3; the first of each triple binds its material. */
  lemma PrimitiveBindingAt(m: Model, u: UniformLocations, ranges: seq<VaoRange>, mi: nat, i: nat)
    requires Drawable(m) && |ranges| == |m.meshes| && mi < |m.meshes|
    requires i < |MeshEffects(m, u, ranges, mi, |m.meshes[mi].primitives|)|
    requires |MeshEffects(m, u, ranges, mi, |m.meshes[mi].primitives|)| == 3 * |m.meshes[mi].primitives|
    requires forall j :: 0 <= j < |m.meshes[mi].primitives| ==>
      MeshEffects(m, u, ranges, mi, |m.meshes[mi].primitives|)[3 * j .. 3 * j + 3] == PrimitiveEffects(m, u, ranges, mi, j)
    ensures var es := MeshEffects(m, u, ranges, mi, |m.meshes[mi].primitives|);
      es[i].Binding? <==> i % 3 == 0
    ensures var es := MeshEffects(m, u, ranges, mi, |m.meshes[mi].primitives|);
      var p := m.meshes[mi].primitives[i / 3];
      es[i].Binding? ==> es[i].binding.normalMapAbsent == LacksNormalMap(m, u, p)
  {
    var es := MeshEffects(m, u, ranges, mi, |m.meshes[mi].primitives|);
    var k := i / 3;
    assert es[3 * k .. 3 * k + 3] == PrimitiveEffects(m, u, ranges, mi, k);
    assert es[i] == es[3 * k .. 3 * k + 3][i - 3 * k];
  }

  // ---------------------------------------------------------------------------
  // drawNode

  class Renderer {
    /** The GL commands issued so far. */
    var log: seq<Effect>

    constructor ()
      ensures log == []
    {
      log := [];
    }

    /** The loop over a node's mesh primitives. */
    method DrawMesh(m: Model, u: UniformLocations, ranges: seq<VaoRange>, mi: nat)
      requires Drawable(m) && |ranges| == |m.meshes| && mi < |m.meshes|
      modifies this
      ensures log == old(log) + MeshEffects(m, u, ranges, mi, |m.meshes[mi].primitives|)
    {
      var mesh := m.meshes[mi];
      var vaoRange := ranges[mi];
      var i := 0;
      while i < |mesh.primitives|
        invariant 0 <= i <= |mesh.primitives|
        invariant log == old(log) + MeshEffects(m, u, ranges, mi, i)
      {
        var vao := vaoRange.begin + i;
        var primitive := mesh.primitives[i];
        log := log + [Binding(BindMaterial(m, u, primitive.material, ByImageIndex))];
        log := log + [VertexArray(vao)];
        if primitive.indices >= 0 {
          var accessor := m.accessors[primitive.indices];
          var bufferView := m.bufferViews[accessor.bufferView];
          var byteOffset := accessor.byteOffset + bufferView.byteOffset;
          log := log + [Draw(DrawElements(primitive.mode, accessor.count, accessor.componentType, byteOffset))];
        } else {
          var accessorIdx := primitive.attributes[0].accessor;
          log := log + [Draw(DrawArrays(primitive.mode, 0, m.accessors[accessorIdx].count))];
        }
        i := i + 1;
      }
    }

    /** The part of drawNode for the node itself: its matrices and its mesh, when it has one. */
    method DrawVisit(m: Model, u: UniformLocations, ranges: seq<VaoRange>, n: nat, world: Transform)
      requires Drawable(m) && |ranges| == |m.meshes| && n < |m.nodes|
      modifies this
      ensures log == old(log) + VisitEffects(m, u, ranges, [Visit(n, world)])
    {
      var node := m.nodes[n];
      if node.mesh >= 0 {
        log := log + [Matrices(world)];
        DrawMesh(m, u, ranges, node.mesh);
      }
      NodeVisitEffects(m, u, ranges, Visit(n, world));
    }

    /** drawNode(nodeIdx, parentMatrix): the node's mesh, then its children, recursively. */
    method DrawNode(m: Model, u: UniformLocations, ranges: seq<VaoRange>, ghost rank: seq<nat>, n: nat, parent: Transform)
      requires Drawable(m) && Ranked(m, rank) && |ranges| == |m.meshes| && n < |m.nodes|
      modifies this
      ensures log == old(log) + VisitEffects(m, u, ranges, NodePreOrder(m, rank, n, parent))
      decreases rank[n], 1
    {
      var modelMatrix := LocalToWorld(n, parent);
      DrawVisit(m, u, ranges, n, modelMatrix);
      DrawChildren(m, u, ranges, rank, m.nodes[n].children, modelMatrix, rank[n]);
      NodeEffectsThenChildren(m, u, ranges, rank, n, parent);
    }

    /** The loop over a node's children. */
    method DrawChildren(m: Model, u: UniformLocations, ranges: seq<VaoRange>, ghost rank: seq<nat>,
                        cs: seq<nat>, parent: Transform, ghost bound: nat)
      requires Drawable(m) && Ranked(m, rank) && |ranges| == |m.meshes|
      requires forall k :: 0 <= k < |cs| ==> cs[k] < |m.nodes| && rank[cs[k]] < bound
      modifies this
      ensures log == old(log) + VisitEffects(m, u, ranges, ChildrenPreOrder(m, rank, cs, parent, bound))
      decreases bound, 0
    {
      var k := 0;
      while k < |cs|
        invariant 0 <= k <= |cs|
        invariant log == old(log) + VisitEffects(m, u, ranges, ChildrenPreOrder(m, rank, cs[..k], parent, bound))
      {
        ghost var prefix := ChildrenPreOrder(m, rank, cs[..k], parent, bound);
        ghost var subtree := NodePreOrder(m, rank, cs[k], parent);
        DrawNode(m, u, ranges, rank, cs[k], parent);
        ChildrenPreOrderSnoc(m, rank, cs, k, parent, bound);
        VisitEffectsAppend(m, u, ranges, prefix, subtree);
        k := k + 1;
      }
      assert cs[..k] == cs;
    }

    /** The loop over the default scene's root nodes, each drawn under the identity. */
    method DrawRoots(m: Model, u: UniformLocations, ranges: seq<VaoRange>, ghost rank: seq<nat>, roots: seq<nat>)
      requires Drawable(m) && Ranked(m, rank) && |ranges| == |m.meshes|
      requires forall k :: 0 <= k < |roots| ==> roots[k] < |m.nodes|
      modifies this
      ensures log == old(log) + VisitEffects(m, u, ranges, RootsPreOrder(m, rank, roots))
    {
      var k := 0;
      while k < |roots|
        invariant 0 <= k <= |roots|
        invariant log == old(log) + VisitEffects(m, u, ranges, RootsPreOrder(m, rank, roots[..k]))
      {
        ghost var prefix := RootsPreOrder(m, rank, roots[..k]);
        ghost var subtree := NodePreOrder(m, rank, roots[k], Identity);
        DrawNode(m, u, ranges, rank, roots[k], Identity);
        RootsPreOrderSnoc(m, rank, roots, k);
        VisitEffectsAppend(m, u, ranges, prefix, subtree);
        k := k + 1;
      }
      assert roots[..k] == roots;
    }

    /** Draw the default scene, if any: drawNode(root, identity) for each of its root nodes. */
    method DrawScene(m: Model, u: UniformLocations, ranges: seq<VaoRange>, ghost rank: seq<nat>)
      requires Drawable(m) && Ranked(m, rank) && |ranges| == |m.meshes|
      modifies this
      ensures log == old(log) + FrameEffects(m, u, ranges, rank)
    {
      if m.defaultScene >= 0 {
        DrawRoots(m, u, ranges, rank, m.scenes[m.defaultScene].nodes);
      } else {
        NothingDrawnWithoutDefaultScene(m, u, ranges, rank);
      }
    }
  }
}
