# gltf-viewer core, modelled in Dafny

This project models the load-time resource building and the per-frame scene
draw of the glTF viewer (`apps/gltf-viewer/ViewerApplication.cpp`), together
with the cube used to draw its point lights (`apps/gltf-viewer/Cube.cpp`). It
covers:

- **Scene data** (`Gltf.dfy`). A glTF 2.0 model holds buffers, buffer views,
  accessors, meshes of primitives, nodes, scenes, textures, samplers and
  materials. The module also resolves accessors and decodes index buffers
  (little-endian, 1, 2 or 4 bytes). It defines the pre-order walk over the
  default scene that both `computeTangent` and `drawNode` perform, and which
  world-matrix chain each visit carries.
- **Tangent synthesis** (`Tangents.dfy`). `computeTangent` runs as a class.
  Its three-entry `posloc`/`texloc` window is an array and its shared vertex
  counter `nbpos` is a field. Every method is proved against a stream function
  `Feed` over the vertices visited in scene order. A closed form shows the
  result: `3 * (V / 3)` tangents for `V` visited vertices, each computed from
  the window of the last vertex of its triple and repeated three times.
- **VAO builders** (`Vao.dfy`). `createVertexArrayObjects` and
  `createVertexArrayObjects_T_B` build one VAO per primitive, mesh after mesh.
  A VAO is modelled by the state it records: one pointer per attribute slot
  (buffer, size, component type, stride and offset) plus the element buffer.
  Tangents come from the `TANGENT` attribute or from a freshly computed
  tangent buffer. The `meshToVertexArrays` table is an array of `VaoRange`,
  proved contiguous and a partition of the VAO list.
- **Textures and materials** (`Materials.dfy`). `createTextureObjects` fills in
  the default sampler and filter fallbacks and decides when to generate
  mipmaps. `bindMaterial` is a value that records each texture unit and
  uniform it sets. It takes the way a channel's texture object is looked up:
  `ByImageIndex` is the code as written, and `ByTextureIndex` is the corrected
  lookup (see "## Findings").
- **Scene draw** (`Render.dfy`). `drawNode` and the loop over the scene roots
  run on a renderer whose effect log records, in order, matrix uploads,
  material bindings, VAO bindings and draw calls. A frame's log is proved equal
  to the effects of the pre-order walk. The material bindings in the log are
  the code's own, `ByImageIndex`.
- **GUI state** (`Ui.dfy`):
  - the light Off/On buttons with their shadow copies (a class over arrays),
    and the colour and intensity controls that also write those values;
  - the normal-map toggle;
  - the spotlight cutoff sliders, linked and individual;
  - the default camera computed from the scene bounds;
  - the camera-controller switch.
- **Cube** (`CubeMesh.dfy`). `Cube::build` emits 36 vertices, six per face. The
  module also models the loop in `run()` that recentres the cube.

`Linear.dfy` (vectors over reals) and `Options.dfy` are shared helpers.

Float values are reals. Vertex data the tangent pass reads is represented by
where it is read: buffer and byte address. The tangent formula (edge and uv
deltas, then `glm::normalize`) is a function parameter. The node local-to-world
matrix is kept symbolic (`Transform`), a chain of node indices ending in the
identity. Acyclicity of the node graph is an assumption of the source. It is a
`rank` witness here: a ghost sequence that strictly decreases from a node to
each of its children.

Two behaviours of the code worth noting:

- Switching the camera controller back to Trackball resets the camera to the
  default view instead of keeping the current pose (lines 975-982).
- The tangent pass stores local positions in its window. The world position it
  computes on lines 257 and 288 is never used.

## Model

| member | source | states |
|---|---|---|
| Gltf.FindAttribute | apps/gltf-viewer/ViewerApplication.cpp:95-96 | `attributes.find(name)` yields an accessor exactly when some entry has that name, and the accessor is that entry's |
| Gltf.FindAttributeInSortedMap | apps/gltf-viewer/ViewerApplication.cpp:95-96 | in a map sorted by name, looking up an entry's own name yields that entry's accessor |
| Gltf.BufferOf | apps/gltf-viewer/ViewerApplication.cpp:97-100 | the buffer behind an accessor's buffer view is in range |
| Gltf.ResolvedOffset | apps/gltf-viewer/ViewerApplication.cpp:110 | the resolved byte offset is the accessor's offset plus its buffer view's offset |
| Gltf.StrideOr | apps/gltf-viewer/ViewerApplication.cpp:203 | a nonzero byteStride is used as is; zero means tightly packed (the element size) |
| Gltf.IndexWidth | apps/gltf-viewer/ViewerApplication.cpp:228-239 | only unsigned byte, short and int index types are accepted, 1, 2 and 4 bytes wide; any other type has no width |
| Gltf.LittleEndian | apps/gltf-viewer/ViewerApplication.cpp:243-254 | an n-byte index value is below 256^n |
| Gltf.EncodeLittleEndian | apps/gltf-viewer/ViewerApplication.cpp:243-254 | encoding a value into n bytes yields n bytes |
| Gltf.DecodeEncode | apps/gltf-viewer/ViewerApplication.cpp:243-254 | decoding the n-byte encoding of any value below 256^n gives back that value |
| Gltf.EncodeDecode | apps/gltf-viewer/ViewerApplication.cpp:243-254 | re-encoding decoded bytes gives back the bytes |
| Gltf.DecodeIndex | apps/gltf-viewer/ViewerApplication.cpp:243-254 | index i, read from the width bytes at offset + stride * i, lies below 256^width |
| Gltf.DecodeIndexWidths | apps/gltf-viewer/ViewerApplication.cpp:244-254 | 1-, 2- and 4-byte indices are b0, b0 + 256 b1 and b0 + 256 b1 + 65536 b2 + 16777216 b3 of the bytes at offset + stride * i |
| Gltf.IndexStreamOf | apps/gltf-viewer/ViewerApplication.cpp:220-239 | an index stream exists iff the primitive has indices of an accepted type; it has the resolved offset, the stride (defaulting to the width), the width and the accessor's count |
| Gltf.NodePreOrder | apps/gltf-viewer/ViewerApplication.cpp:865-869 | a node's subtree walk starts with the node itself, carrying its local-to-world matrix |
| Gltf.ScenePreOrder | apps/gltf-viewer/ViewerApplication.cpp:916-921 | without a default scene nothing is visited |
| Gltf.NodePreOrderChains | apps/gltf-viewer/ViewerApplication.cpp:865-913 | each visit in a subtree is in range and carries a matrix that is the chain of ancestors down from a root |
| Gltf.ChildrenPreOrderChains | apps/gltf-viewer/ViewerApplication.cpp:910-912 | children are visited with the parent's world matrix as their parent matrix, so the chain property carries over |
| Gltf.RootsPreOrderChains | apps/gltf-viewer/ViewerApplication.cpp:916-921 | roots start from the identity matrix, so every visit's matrix is a chain ending at one of the roots |
| Gltf.ScenePreOrderChains | apps/gltf-viewer/ViewerApplication.cpp:916-921 | every visit of the default scene carries the world matrix of its ancestor chain from one of the scene's roots |
| Gltf.ChildrenPreOrderSnoc | apps/gltf-viewer/ViewerApplication.cpp:910-912 | the children loop after child j is the walk before it followed by child j's subtree |
| Gltf.RootsPreOrderSnoc | apps/gltf-viewer/ViewerApplication.cpp:918-920 | the roots loop after root j is the walk before it followed by root j's subtree from the identity |
| Tangents.SampleOf | apps/gltf-viewer/ViewerApplication.cpp:200-203 | vertex idx of an attribute is read in the accessor's buffer at resolved offset + stride * idx, the stride defaulting to the packed size |
| Tangents.IndexedSamples | apps/gltf-viewer/ViewerApplication.cpp:243-258 | an indexed primitive contributes one vertex per index |
| Tangents.SequentialSamples | apps/gltf-viewer/ViewerApplication.cpp:285-289 | a non-indexed primitive contributes `count` vertices |
| Tangents.PrimitiveSamplesCount | apps/gltf-viewer/ViewerApplication.cpp:191-241 | a primitive without POSITION (VEC3) or TEXCOORD_0 (VEC2), or with a bad index type, contributes nothing; otherwise it contributes as many vertices as its index accessor has (indexed) or its POSITION accessor has (non-indexed) |
| Tangents.PrimitiveSamplesAt | apps/gltf-viewer/ViewerApplication.cpp:243-289 | vertex i of an indexed primitive is the one the decoded index i names, with the index read in bounds; otherwise it is vertex i |
| Tangents.VisitSamplesAppend | apps/gltf-viewer/ViewerApplication.cpp:317-323 | the vertices of consecutive visits are the vertices of each visit, concatenated |
| Tangents.Step | apps/gltf-viewer/ViewerApplication.cpp:260-282 | one vertex keeps a three-entry window and increments the counter |
| Tangents.Feed | apps/gltf-viewer/ViewerApplication.cpp:243-313 | feeding a vertex sequence increments the counter by its length |
| Tangents.FeedAppend | apps/gltf-viewer/ViewerApplication.cpp:170-173 | counter, window and output are shared across primitives and nodes: feeding a then b is feeding a + b |
| Tangents.Emitted | apps/gltf-viewer/ViewerApplication.cpp:267-281 | V visited vertices yield 3 * (V / 3) tangents |
| Tangents.EmittedSnoc | apps/gltf-viewer/ViewerApplication.cpp:267-282 | one more vertex adds three equal tangents when the counter reaches a multiple of three, and nothing otherwise |
| Tangents.FeedFromInit | apps/gltf-viewer/ViewerApplication.cpp:170-173 | from the zeroed start, the counter equals the vertices seen, the window holds the three most recent ones (zeros before that) and the output is the stream Emitted |
| Tangents.EmittedTriples | apps/gltf-viewer/ViewerApplication.cpp:267-281 | tangents come in triples of equal values; triple q is the formula applied to the window of vertices 3q+2, 3q+1 and 3q |
| Tangents.TangentBuilder.constructor | apps/gltf-viewer/ViewerApplication.cpp:170-173 | the counter starts at 0, the window at zero vectors and the output empty |
| Tangents.TangentBuilder.Push | apps/gltf-viewer/ViewerApplication.cpp:260-282 | the in-place shift of posloc/texloc, the emission and the counter increment give exactly the Step state |
| Tangents.TangentBuilder.FeedIndexed | apps/gltf-viewer/ViewerApplication.cpp:243-283 | the index loop leaves the state fed with the primitive's indexed vertices |
| Tangents.TangentBuilder.FeedSequential | apps/gltf-viewer/ViewerApplication.cpp:285-313 | the count loop leaves the state fed with vertices 0 .. count-1 |
| Tangents.TangentBuilder.VisitPrimitive | apps/gltf-viewer/ViewerApplication.cpp:189-313 | the skip rules and the two loops feed exactly the primitive's contributed vertices |
| Tangents.TangentBuilder.VisitMesh | apps/gltf-viewer/ViewerApplication.cpp:186-188 | the primitive loop feeds the mesh's primitives in order |
| Tangents.TangentBuilder.ComputeTan | apps/gltf-viewer/ViewerApplication.cpp:181-320 | computeTan(node, parent) feeds the vertices of the node's subtree walk |
| Tangents.TangentBuilder.ComputeTanChildren | apps/gltf-viewer/ViewerApplication.cpp:317-319 | the children loop feeds the children's subtrees in order |
| Tangents.ComputeTangent | apps/gltf-viewer/ViewerApplication.cpp:169-327 | the returned tangents are the stream Emitted over every vertex of the default scene, in walk order |
| Vao.AttribOf | apps/gltf-viewer/ViewerApplication.cpp:95-112 | an attribute pointer reads the scene buffer of the accessor's view, with the accessor's size and component type, the view's stride and offset accessor.byteOffset + bufferView.byteOffset |
| Vao.BindIfPresent | apps/gltf-viewer/ViewerApplication.cpp:91-114 | a slot is bound exactly when the attribute is present, through its accessor, and no other slot changes |
| Vao.EnableAttribute | apps/gltf-viewer/ViewerApplication.cpp:91-146 | the per-attribute block of the builder records the same slot binding as BindIfPresent |
| Vao.BaseAttribs | apps/gltf-viewer/ViewerApplication.cpp:91-146 | slots 0, 1 and 2 follow POSITION, NORMAL and TEXCOORD_0, and no other slot is set |
| Vao.TangentPointer | apps/gltf-viewer/ViewerApplication.cpp:414-444 | slot 3 reads the TANGENT accessor when present; otherwise it reads a new buffer holding the computed tangents as vec4 floats, stride 16, offset 0 |
| Vao.AttribsFor | apps/gltf-viewer/ViewerApplication.cpp:358-445 | slots 0-2 follow their attributes, slot 3 is set exactly in the tangent variant and then by TangentPointer, and no slot beyond 3 is set |
| Vao.ElementBufferFor | apps/gltf-viewer/ViewerApplication.cpp:148-160 | an element buffer is recorded exactly for indexed primitives: the scene buffer of the index accessor's view |
| Vao.SetUpVao | apps/gltf-viewer/ViewerApplication.cpp:353-460 | the state recorded into a primitive's VAO is PlanFor, with computeTangent's output as the tangent stream |
| Vao.MeshPlans | apps/gltf-viewer/ViewerApplication.cpp:83-86 | a mesh's first k primitives get k VAOs |
| Vao.MeshPlansSnoc | apps/gltf-viewer/ViewerApplication.cpp:83-86 | VAO first + k is set up for primitive k |
| Vao.AppendMeshVaos | apps/gltf-viewer/ViewerApplication.cpp:81-161 | the primitive loop appends exactly the mesh's VAOs, numbered from the mesh's begin |
| Vao.RangesUpTo | apps/gltf-viewer/ViewerApplication.cpp:74-80 | after i meshes the table has i entries |
| Vao.MeshRanges | apps/gltf-viewer/ViewerApplication.cpp:67 | the table has one entry per mesh |
| Vao.RangeAt | apps/gltf-viewer/ViewerApplication.cpp:77-80 | entry j begins at the number of primitives of the meshes before j and counts mesh j's primitives |
| Vao.MeshRangesAt | apps/gltf-viewer/ViewerApplication.cpp:77-80 | every entry of the final table in that closed form |
| Vao.PlansUpToLength | apps/gltf-viewer/ViewerApplication.cpp:83 | after i meshes the VAO list holds one VAO per primitive of those meshes |
| Vao.PlansUpToPrefix | apps/gltf-viewer/ViewerApplication.cpp:74-83 | later meshes only append to the VAO list |
| Vao.PrimsBeforeMonotone | apps/gltf-viewer/ViewerApplication.cpp:77-80 | begins never decrease, and mesh i's range ends at or before any later begin |
| Vao.RangesContiguous | apps/gltf-viewer/ViewerApplication.cpp:74-86 | the ranges start at 0, each begins where the previous ends, and the last ends at the length of the VAO list |
| Vao.RangesPartition | apps/gltf-viewer/ViewerApplication.cpp:74-86 | every VAO lies in exactly one mesh's range |
| Vao.OwningMesh | apps/gltf-viewer/ViewerApplication.cpp:77-80 | the mesh whose range holds a given VAO index, found |
| Vao.PlanInOwnMesh | apps/gltf-viewer/ViewerApplication.cpp:86-88 | VAO begin + k is already set up for primitive k once its mesh is done |
| Vao.VaoOfPrimitive | apps/gltf-viewer/ViewerApplication.cpp:86-88 | in the final list, VAO meshToVertexArrays[mi].begin + k is the one set up for primitive k of mesh mi |
| Vao.BuildVaoTable | apps/gltf-viewer/ViewerApplication.cpp:64-166 | the builder returns exactly the VAO list of both variants and fills the new meshToVertexArrays array with the table |
| Vao.CreateVertexArrayObjects | apps/gltf-viewer/ViewerApplication.cpp:64-166 | createVertexArrayObjects: VAOs without a tangent slot, and the mesh ranges |
| Vao.CreateVertexArrayObjectsTB | apps/gltf-viewer/ViewerApplication.cpp:329-466 | createVertexArrayObjects_T_B: VAOs whose computed tangents are computeTangent's stream, and the mesh ranges |
| Materials.SamplerFor | apps/gltf-viewer/ViewerApplication.cpp:491 | a texture without a sampler uses the default sampler, otherwise its own |
| Materials.ParamsFor | apps/gltf-viewer/ViewerApplication.cpp:492-500 | unset (-1) filters fall back to GL_LINEAR, set ones are kept, wraps are copied, and mipmaps are generated iff the minification filter is a mipmap filter |
| Materials.DefaultSamplerParams | apps/gltf-viewer/ViewerApplication.cpp:471-476 | a texture without a sampler gets linear filters, repeat wraps and no mipmaps |
| Materials.TextureSetupFor | apps/gltf-viewer/ViewerApplication.cpp:482-486 | texture object i holds texture i's source image, which exists |
| Materials.CreateTextureObjects | apps/gltf-viewer/ViewerApplication.cpp:468-504 | one texture object per texture, object i set up by TextureSetupFor(i) |
| Materials.ChannelTextureAsWritten | apps/gltf-viewer/ViewerApplication.cpp:694-699 | as written, a channel with a texture that has an image binds textureObjects[texture.source] |
| Materials.ChannelTextureAsWrittenShowsAnotherImage | apps/gltf-viewer/ViewerApplication.cpp:697 | with two textures whose images are swapped, texture 0 binds the object that holds image 0 instead of its own image 1 |
| Materials.ChannelTextureAsWrittenOutOfRange | apps/gltf-viewer/ViewerApplication.cpp:697 | a texture whose image index is past the last texture makes the lookup read past textureObjects |
| Materials.ChannelTexture | apps/gltf-viewer/ViewerApplication.cpp:694-702 | corrected channel choice: the channel texture's own object when it has an image, and the fallback otherwise |
| Materials.ChannelTextureShowsItsImage | apps/gltf-viewer/ViewerApplication.cpp:694-702 | the corrected choice binds an object in range that holds the channel texture's own image |
| Materials.ChannelObject | apps/gltf-viewer/ViewerApplication.cpp:694-702 | a channel binds a texture object iff its texture exists and has an image; the object is `texture.source` as written (`ByImageIndex`) and the texture index as corrected (`ByTextureIndex`); otherwise the fallback |
| Materials.BindMaterial | apps/gltf-viewer/ViewerApplication.cpp:679-799 | with `ByImageIndex` as written, with `ByTextureIndex` corrected, and in both: unit 0 iff uBaseColorTexture >= 0, unit 1 iff uMetallicRoughnessTexture > 0, unit 2 iff uEmissiveTexture > 0, unit 3 iff uNormalTexture >= 0; each factor iff its location >= 0; the normal scale is set iff the material has a normal texture, and the normal map is reported absent iff it has none (with uNormalTexture present) |
| Materials.DefaultMaterialBinding | apps/gltf-viewer/ViewerApplication.cpp:764-798 | without a material: white base colour texture, texture 0 on the other units, all factors 1, and the normal-map state left alone |
| Materials.MaterialChannels | apps/gltf-viewer/ViewerApplication.cpp:689-762 | with a material, under either lookup, each unit binds its channel's texture (ChannelObject) (white for base colour and normal, texture 0 for metallic-roughness and emissive when missing) and the factors and normal scale are the material's own |
| Materials.BindMaterialAsWrittenShowsAnotherImage | apps/gltf-viewer/ViewerApplication.cpp:694-699 | as written, a material whose base colour is texture 0 (image 1) in `SwappedTextures` binds texture object 1, which holds image 0; corrected, it binds object 0, which holds image 1 |
| Materials.BoundObjectsShowMaterialImages | apps/gltf-viewer/ViewerApplication.cpp:689-762 | corrected (`ByTextureIndex`): every texture object a binding names is in range and holds the image of the material channel's texture |
| Render.DrawCallFor | apps/gltf-viewer/ViewerApplication.cpp:896-906 | indexed primitives use glDrawElements with the index accessor's count, type and resolved offset; others use glDrawArrays from 0 with the first attribute's count, both in the primitive's mode |
| Render.DrawElementsReadsIndexStream | apps/gltf-viewer/ViewerApplication.cpp:896-901 | an indexed draw reads the same index stream (count and offset) that the tangent pass decodes |
| Render.DrawArraysCountsLeastName | apps/gltf-viewer/ViewerApplication.cpp:902-905 | a non-indexed draw counts the attribute with the least name in map order, the one begin() yields |
| Render.PrimitiveEffects | apps/gltf-viewer/ViewerApplication.cpp:889-906 | each primitive issues exactly three effects (MeshDrawsUseOwnVao says which); the binding is bindMaterial as written |
| Render.VisitEffectsAppend | apps/gltf-viewer/ViewerApplication.cpp:910-912 | the effects of consecutive visits are concatenated |
| Render.NodeEffectsThenChildren | apps/gltf-viewer/ViewerApplication.cpp:865-912 | a node's subtree draws the node, then its children's subtrees with its world matrix as their parent |
| Render.NothingDrawnWithoutDefaultScene | apps/gltf-viewer/ViewerApplication.cpp:916 | with no default scene a frame draws nothing |
| Render.MeshEffectsAt | apps/gltf-viewer/ViewerApplication.cpp:888-907 | a mesh's log is three effects per primitive, in primitive order |
| Render.MeshDrawsUseOwnVao | apps/gltf-viewer/ViewerApplication.cpp:886-907 | with the builder's ranges, primitive k binds its material as written (`ByImageIndex`), then the VAO built for that same primitive, then issues its draw |
| Render.MeshClearsNormalCheck | apps/gltf-viewer/ViewerApplication.cpp:715-719 | drawing a mesh reports a missing normal map iff one of its primitives has a material without a normal texture, with uNormalTexture present |
| Render.PrimitiveBindingAt | apps/gltf-viewer/ViewerApplication.cpp:888-893 | in a mesh's log the material bindings are exactly the effects at positions divisible by three, each for primitive i / 3 |
| Render.Renderer.constructor | apps/gltf-viewer/ViewerApplication.cpp:802-806 | the log starts empty |
| Render.Renderer.DrawMesh | apps/gltf-viewer/ViewerApplication.cpp:886-907 | the primitive loop appends exactly the mesh's effects |
| Render.Renderer.DrawVisit | apps/gltf-viewer/ViewerApplication.cpp:868-908 | one visited node appends exactly the effects of that single visit: its matrix upload and its mesh, if it has one |
| Render.Renderer.DrawNode | apps/gltf-viewer/ViewerApplication.cpp:865-913 | drawNode appends the effects of the node's subtree walk |
| Render.Renderer.DrawChildren | apps/gltf-viewer/ViewerApplication.cpp:910-912 | the children loop appends the children's subtrees in order |
| Render.Renderer.DrawRoots | apps/gltf-viewer/ViewerApplication.cpp:918-920 | the roots loop appends each root's subtree from the identity matrix |
| Render.Renderer.DrawScene | apps/gltf-viewer/ViewerApplication.cpp:915-921 | one frame appends exactly FrameEffects, the effects of the default scene's walk |
| Ui.Darkness | apps/gltf-viewer/ViewerApplication.cpp:1095-1104 | four zero vectors |
| Ui.Off | apps/gltf-viewer/ViewerApplication.cpp:1094-1106 | Off zeroes every light value and saves each previous value in its shadow copy |
| Ui.On | apps/gltf-viewer/ViewerApplication.cpp:1107-1114 | On restores every light value from its shadow copy and keeps the shadows |
| Ui.Buttons | apps/gltf-viewer/ViewerApplication.cpp:1091-1114 | Off wins over On; neither leaves the state unchanged |
| Ui.OnAfterOffRestores | apps/gltf-viewer/ViewerApplication.cpp:1094-1114 | Off then On, with no other light control used in between, gives back the lights as they were |
| Ui.OffTwiceForgets | apps/gltf-viewer/ViewerApplication.cpp:1094-1106 | pressing Off twice overwrites the shadows with zeros, so a later On stays dark |
| Ui.OnAtStartIsNoOp | apps/gltf-viewer/ViewerApplication.cpp:622-646 | the initial values are their own shadows, so On before any Off changes nothing |
| Ui.EditLightColour | apps/gltf-viewer/ViewerApplication.cpp:1019-1021 | the directional colour edit sets the intensity to colour times factor and leaves its shadow, and everything else, alone |
| Ui.EditLightIntensity | apps/gltf-viewer/ViewerApplication.cpp:1022-1025 | the directional intensity slider sets the intensity and its shadow to colour times factor, and nothing else |
| Ui.EditSpot | apps/gltf-viewer/ViewerApplication.cpp:1063-1066 | the spotlight colour edit or slider sets the spotlight intensity and its shadow to colour times factor, and nothing else |
| Ui.EditCube | apps/gltf-viewer/ViewerApplication.cpp:1039-1050 | a cube's colour edit or intensity slider sets that cube's intensity (colour times level), its shown colour (scaled by level over 50, or over 20 for the slider) and both shadows; other cubes and lights are unchanged |
| Ui.OnRevertsLightColourEdit | apps/gltf-viewer/ViewerApplication.cpp:1019-1021 | On undoes a directional colour edit, since the edit leaves the shadow alone |
| Ui.LightColourEditWhileOffIsLost | apps/gltf-viewer/ViewerApplication.cpp:1019-1021 | a directional colour edit made while the lights are off is lost: On brings back the lighting from before Off |
| Ui.ShadowedEditsWhileOffShow | apps/gltf-viewer/ViewerApplication.cpp:1022-1066 | the directional intensity, spotlight and cube edits made while the lights are off are what On shows |
| Ui.LightRig.State | apps/gltf-viewer/ViewerApplication.cpp:622-646 | the rig's fields and arrays read as a well-shaped light state |
| Ui.LightRig.constructor | apps/gltf-viewer/ViewerApplication.cpp:622-646 | the lights start at the initial intensities and colours, with shadows equal to them |
| Ui.LightRig.SwitchOff | apps/gltf-viewer/ViewerApplication.cpp:1094-1106 | the in-place Off branch yields the state Off describes |
| Ui.LightRig.SwitchOn | apps/gltf-viewer/ViewerApplication.cpp:1107-1114 | the in-place On branch yields the state On describes |
| Ui.LightRig.Switch | apps/gltf-viewer/ViewerApplication.cpp:1094-1114 | one frame's buttons yield the state Buttons describes |
| Ui.LightRig.LightColourEdited | apps/gltf-viewer/ViewerApplication.cpp:1019-1021 | the in-place colour edit yields the state EditLightColour describes |
| Ui.LightRig.LightIntensityEdited | apps/gltf-viewer/ViewerApplication.cpp:1022-1025 | the in-place intensity slider yields the state EditLightIntensity describes |
| Ui.LightRig.SpotEdited | apps/gltf-viewer/ViewerApplication.cpp:1063-1066 | the in-place spotlight edit yields the state EditSpot describes |
| Ui.LightRig.CubeEdited | apps/gltf-viewer/ViewerApplication.cpp:1039-1050 | the in-place cube edit yields the state EditCube describes |
| Ui.NormalMapToggle | apps/gltf-viewer/ViewerApplication.cpp:1117-1134 | the normal-map buttons act only while normaltexturecheck holds, _Off_ winning over _On_; no click keeps the flag |
| Ui.NormalMapToggleIsBinary | apps/gltf-viewer/ViewerApplication.cpp:672 | a flag that is 0 or 1 (it starts at 1) stays 0 or 1 |
| Ui.BothCutoffs | apps/gltf-viewer/ViewerApplication.cpp:1073-1078 | the linked slider sets the cutoff to its value and the outer cutoff to 1.1 times it, and both individual sliders follow |
| Ui.BothCutoffsOrdered | apps/gltf-viewer/ViewerApplication.cpp:1073-1078 | right after the linked slider, on its range, the cutoff does not exceed the outer cutoff (strictly below past 0) and the outer cutoff stays at most 198 |
| Ui.CutoffSlider | apps/gltf-viewer/ViewerApplication.cpp:1067-1069 | the cutoff slider sets the cutoff (and its slider value) and leaves the outer cutoff alone |
| Ui.OuterCutoffSlider | apps/gltf-viewer/ViewerApplication.cpp:1070-1072 | the outer cutoff slider sets the outer cutoff (and its slider value) and leaves the cutoff alone |
| Ui.CutoffPanel | apps/gltf-viewer/ViewerApplication.cpp:1067-1078 | the three cutoff sliders of a frame in panel order: a moved linked slider overrides the other two; otherwise a moved individual slider's value is kept; no slider moved leaves the state unchanged |
| Ui.CutoffPanelOrderedAfterBoth | apps/gltf-viewer/ViewerApplication.cpp:1067-1078 | a frame in which the linked slider moved ends with cutoff <= outer cutoff <= 198, whatever the individual sliders did |
| Ui.OuterCutoffSliderInverts | apps/gltf-viewer/ViewerApplication.cpp:1070-1072 | the individual sliders can invert the soft edge: outer cutoff 10 after the linked slider at 100 leaves cutoff 100 > outer cutoff 10 |
| Ui.DefaultCamera | apps/gltf-viewer/ViewerApplication.cpp:614-620 | the camera looks at the box centre with up +y, from centre + diagonal when diag.z > 0, otherwise from centre + 2 (diag x up) |
| Ui.DefaultCameraSideView | apps/gltf-viewer/ViewerApplication.cpp:617 | the side view is level with the centre and perpendicular to the diagonal, and degenerates to the centre iff the box is flat in x and in z |
| Ui.SideViewOffset | apps/gltf-viewer/ViewerApplication.cpp:617 | the side view's offset from the centre is (-2 diag.z, 0, 2 diag.x) |
| Ui.AddOffsetMoves | apps/gltf-viewer/ViewerApplication.cpp:617 | adding an offset moves a point by exactly that offset, and leaves it in place iff the offset is zero |
| Ui.DefaultCameraFrontView | apps/gltf-viewer/ViewerApplication.cpp:617 | the front view sits one diagonal from the centre and never on it |
| Ui.SwitchController | apps/gltf-viewer/ViewerApplication.cpp:972-990 | choosing Trackball resets to the default camera with label 0; choosing First Person keeps the current camera with label 1 |
| Ui.SwitchControllerLabel | apps/gltf-viewer/ViewerApplication.cpp:992-997 | the "Current cam" label always names the controller in use |
| Ui.SwitchRoundTripResetsPose | apps/gltf-viewer/ViewerApplication.cpp:975-988 | First Person keeps the pose; switching back to Trackball lands on the default camera whatever the pose was |
| CubeMesh.FaceVertices | apps/gltf-viewer/Cube.cpp:17-226 | each face emits six vertices |
| CubeMesh.FacesUpTo | apps/gltf-viewer/Cube.cpp:17-226 | the first n faces emit 6n vertices |
| CubeMesh.CubeVertices | apps/gltf-viewer/Cube.cpp:228 | the cube has 36 vertices |
| CubeMesh.FaceVertexFacts | apps/gltf-viewer/Cube.cpp:17-226 | every vertex of face k has face k's normal, lies on its plane, is a cube corner and has texture coordinates in {0, 1} |
| CubeMesh.FacesUpToAt | apps/gltf-viewer/Cube.cpp:17-226 | vertex 6k + j of the data is vertex j of face k |
| CubeMesh.CubeFaceGrouping | apps/gltf-viewer/Cube.cpp:9-10 | vertex i belongs to face i / 6, with that face's normal and plane (front, back, right, left, top, bottom) |
| CubeMesh.FaceCornersListed | apps/gltf-viewer/Cube.cpp:17-226 | the corners on a face's plane are the four listed corners of that face |
| CubeMesh.PositionsListed | apps/gltf-viewer/Cube.cpp:17-226 | a face's six vertices use exactly its four listed corners |
| CubeMesh.SquareCornersCount | apps/gltf-viewer/Cube.cpp:17-226 | a face of nonzero size has four distinct corners |
| CubeMesh.FaceUsesItsFourCorners | apps/gltf-viewer/Cube.cpp:17-226 | each face's two triangles cover exactly the four corners on its plane |
| CubeMesh.FaceTriangles | apps/gltf-viewer/Cube.cpp:17-226 | both triangles of a face wind so that their cross product is size^2 times the face normal |
| CubeMesh.PushFront | apps/gltf-viewer/Cube.cpp:17-49 | the front face appends its six vertices |
| CubeMesh.PushBack | apps/gltf-viewer/Cube.cpp:50-87 | the back face appends its six vertices |
| CubeMesh.PushRight | apps/gltf-viewer/Cube.cpp:88-122 | the right face appends its six vertices |
| CubeMesh.PushLeft | apps/gltf-viewer/Cube.cpp:123-158 | the left face appends its six vertices |
| CubeMesh.PushTop | apps/gltf-viewer/Cube.cpp:159-192 | the top face appends its six vertices |
| CubeMesh.PushBottom | apps/gltf-viewer/Cube.cpp:193-226 | the bottom face appends its six vertices |
| CubeMesh.Cube.Build | apps/gltf-viewer/Cube.cpp:12-230 | build stores the 36 cube vertices, face by face, and a vertex count of 36 that equals the number stored |
| CubeMesh.Cube.constructor | apps/gltf-viewer/Cube.hpp:17-19 | a new cube holds the built vertices |
| CubeMesh.CornerVertex | apps/gltf-viewer/Cube.cpp:17-226 | every corner of the cube is the position of some vertex |
| CubeMesh.RecenterAsWritten | apps/gltf-viewer/ViewerApplication.cpp:590-592 | as written, the loop moves x by -0.5 and y by -1, and leaves z alone |
| CubeMesh.RecenterAsWrittenMissesOrigin | apps/gltf-viewer/ViewerApplication.cpp:589-592 | as written, the unit cube ends up entirely at y <= 0 and z <= 0, with vertex 0 at (-0.5, -1, 0), not centred at the origin |
| CubeMesh.Recenter | apps/gltf-viewer/ViewerApplication.cpp:589-592 | corrected: each position moves by minus the unit cube's centre (0.5, 0.5, -0.5), and normal and uv are kept |
| CubeMesh.RecenteredCubeCorners | apps/gltf-viewer/ViewerApplication.cpp:589-592 | corrected: the unit cube's vertices lie at +-0.5 on every axis |
| CubeMesh.RecenteredCubeIsSymmetric | apps/gltf-viewer/ViewerApplication.cpp:589-592 | corrected: the recentred cube is symmetric about the origin (every vertex's opposite is a vertex) |
| CubeMesh.RecenteredCubeVertices | apps/gltf-viewer/ViewerApplication.cpp:583-594 | as written: the copy loop yields one vertex per cube vertex, in order, each moved by RecenterAsWritten |

## Left out

- OpenGL, GLFW and ImGui calls, shader compilation, uniform lookups, file I/O and console messages are not modelled. GL names are positions in the model's lists. Uniform locations are a parameter (`UniformLocations`). Button clicks and slider values are parameters.
- Floats are modelled as reals: no rounding, no NaN. The 1.1 cutoff factor is exactly 11/10.
- The tangent formula (edge and uv deltas, the division, `glm::normalize`) is float math. It is a parameter `Formula` of the window. A zero uv determinant, which divides by zero in the source, is therefore not modelled.
- Vertex positions and uvs are identified by buffer and byte address, not by the floats stored there. Reads that go past a buffer's end are excluded by `IndexDataInBounds`, a precondition that the source neither checks nor guarantees.
- Index reads through unaligned pointer casts are modelled as little-endian byte decoding.
- `getLocalToWorldMatrix` is kept symbolic (`Transform`). So is the matrix arithmetic of drawNode: the modelview, projection and normal matrices appear as one `Matrices(world)` effect. `computeSceneBounds` is not part of this model (the bounds are parameters of `DefaultCamera`). `utils/cameras.cpp` is not part of this model; only the controller switch and its camera hand-off are.
- Node acyclicity is a precondition witnessed by `rank`. The source recurses without checking it.
- `createBufferObjects` is reduced to "buffer object i holds model buffer i" (`Vbo.SceneBuffer`).
- The `assert`s on `bufferView.target` are dropped. `assert(texture.source >= 0)` and the in-range references are preconditions (`TexturesOk`, `Valid`).
- Gltf.PrimitiveOk: requires every primitive to have at least one attribute, which the source does not check. glTF 2.0 forbids an empty `attributes` object; only the non-indexed draw (line 903, `begin(primitive.attributes)`) depends on it.
- The order in which GL calls are issued inside one VAO, or inside one material binding, and the active texture unit are not modelled. The model records which state each VAO and each binding ends up with.
- Vao.TangentPointer: each computed tangent buffer holds the whole scene's tangent stream and is bound from offset 0 for every primitive without TANGENT. This is what the source does. The model does not claim that the tangents line up with that primitive's vertices.
- GLsizei and int conversions, and overflow of `nbpos`, are not modelled; counts are unbounded.
- uActiveNormal and normaltexturecheck are modelled per binding (`normalMapAbsent`) and by `NormalMapToggle`. The per-frame upload of ActiveNormalMap (line 809) is not modelled as an effect.
- The colour and intensity controls that write the Off/On values are modelled (`EditLightColour`, `EditLightIntensity`, `EditSpot`, `EditCube`), with the new colours and slider values as parameters. The other GUI controls are not modelled: the light direction sliders (1003-1009), the light-from-camera checkbox, the cube choice (1029-1037) and position sliders (1051-1053), the attenuation slider (1079-1081), the cursor-driven spotlight and the clipboard export. They only copy values into variables that the Off/On buttons and the model's other state do not touch.
- Ui.SwitchController: re-clicking the already selected radio button, and a user-supplied camera (`m_hasUserCamera`, lines 611-613), are not modelled. The switch is given the value selected after the click.
- The upload of the light cube (`initVbocube`, `initVaocube`), the cube lights' uniform uploads and the render-to-image path are not modelled.
- The shadow-copy flow of the light buttons is modelled. The "Light" header collapsing the buttons is not.

## Findings

| source | as written | input that shows it | evidently intended | confidence | as-written member | corrected member |
|---|---|---|---|---|---|---|
| apps/gltf-viewer/ViewerApplication.cpp:697 (also 712, 739, 752) | `bindMaterial` binds `textureObjects[texture.source]`. textureObjects has one entry per texture, while `source` is an image index. | Two textures whose images are swapped (`SwappedTextures`): texture 0 shows image 0 instead of image 1. A texture with `source` 1 in a one-texture model reads past the vector. | bind `textureObjects[textureIndex]`, the object made for the channel's texture | not executed | Materials.ChannelTextureAsWritten | Materials.ChannelTexture |
| apps/gltf-viewer/ViewerApplication.cpp:590-592 | The recentring code subtracts 0.5 from `position[1]` twice and never changes `position[2]`. | The unit cube: vertex 0 (the origin corner) moves to (-0.5, -1, 0), and every vertex ends at y <= 0 and z <= 0. | centre the cube on (0, 0, 0): subtract 0.5 from x and y and add 0.5 to z (the cube spans z in [-1, 0]) | not executed | CubeMesh.RecenterAsWritten | CubeMesh.Recenter |

The scene draw (`Render`) and the recentring loop (`CubeMesh.RecenteredCubeVertices`) follow the code as written; `BindMaterial(..., ByTextureIndex)` and `Recenter` are the corrected behaviours, with their intended properties proved in `Materials` and `CubeMesh`.
