/**
 * Texture objects and material binding: the sampler parameters createTextureObjects
 * sets on each texture object, and the choice bindMaterial makes, for one
 * material index, of the texture bound to each of the four texture units and of
 * the factor uniforms.
 */
module Materials {
  import opened Options
  import opened Linear
  import opened Gltf

  // OpenGL enumerants used by the sampler fallback.
  const GL_LINEAR: int := 9729
  const GL_NEAREST_MIPMAP_NEAREST: int := 9984
  const GL_LINEAR_MIPMAP_NEAREST: int := 9985
  const GL_NEAREST_MIPMAP_LINEAR: int := 9986
  const GL_LINEAR_MIPMAP_LINEAR: int := 9987
  const GL_REPEAT: int := 10497

  /** tinygltf's value for an unset filter. */
  const UNSET_FILTER: int := -1

  /** The sampler a texture gets when it names none. */
  const DefaultSampler: Sampler := Sampler(GL_LINEAR, GL_LINEAR, GL_REPEAT, GL_REPEAT, GL_REPEAT)

  /** The four minification filters that sample mipmap levels. */
  predicate IsMipmapFilter(filter: int) {
    filter == GL_NEAREST_MIPMAP_NEAREST || filter == GL_NEAREST_MIPMAP_LINEAR ||
    filter == GL_LINEAR_MIPMAP_NEAREST || filter == GL_LINEAR_MIPMAP_LINEAR
  }

  /** The texture records createTextureObjects and bindMaterial follow are in range. */
  ghost predicate TexturesOk(m: Model) {
    && (forall t :: 0 <= t < |m.textures| ==> m.textures[t].source >= 0 && m.textures[t].sampler < |m.samplers|)
    && (forall k :: 0 <= k < |m.materials| ==>
          && m.materials[k].baseColorTexture < |m.textures|
          && m.materials[k].metallicRoughnessTexture < |m.textures|
          && m.materials[k].normalTexture < |m.textures|
          && m.materials[k].emissiveTexture < |m.textures|)
  }

  // ---------------------------------------------------------------------------
  // createTextureObjects

  /** The glTexParameteri values set on one texture object, and whether glGenerateMipmap runs. */
  datatype TexParams = TexParams(minFilter: int, magFilter: int, wrapS: int, wrapT: int, wrapR: int, mipmaps: bool)

  /** What texture object i holds: the image it was filled from and its parameters. */
  datatype TextureSetup = TextureSetup(image: int, params: TexParams)

  /** The texture's own sampler, or the default one when its sampler index is negative. */
  function SamplerFor(m: Model, t: Texture): (s: Sampler)
    requires t.sampler < |m.samplers|
    ensures t.sampler >= 0 ==> s == m.samplers[t.sampler]
    ensures t.sampler < 0 ==> s == DefaultSampler
  {
    if t.sampler >= 0 then m.samplers[t.sampler] else DefaultSampler
  }

  /** Unset filters fall back to GL_LINEAR; wraps pass through; mipmaps follow the minification filter. */
  function ParamsFor(s: Sampler): (r: TexParams)
    ensures r.minFilter != UNSET_FILTER && r.magFilter != UNSET_FILTER
    ensures s.minFilter != UNSET_FILTER ==> r.minFilter == s.minFilter
    ensures s.magFilter != UNSET_FILTER ==> r.magFilter == s.magFilter
    ensures s.minFilter == UNSET_FILTER ==> r.minFilter == GL_LINEAR
    ensures s.magFilter == UNSET_FILTER ==> r.magFilter == GL_LINEAR
    ensures (r.wrapS, r.wrapT, r.wrapR) == (s.wrapS, s.wrapT, s.wrapR)
    ensures r.mipmaps <==> IsMipmapFilter(r.minFilter)
  {
    TexParams(
      if s.minFilter != UNSET_FILTER then s.minFilter else GL_LINEAR,
      if s.magFilter != UNSET_FILTER then s.magFilter else GL_LINEAR,
      s.wrapS, s.wrapT, s.wrapR,
      IsMipmapFilter(s.minFilter))
  }

  /** A texture without a sampler is linearly filtered, repeats in every direction and has no mipmaps. */
  lemma DefaultSamplerParams(m: Model, t: Texture)
    requires t.sampler < 0
    ensures ParamsFor(SamplerFor(m, t)) == TexParams(GL_LINEAR, GL_LINEAR, GL_REPEAT, GL_REPEAT, GL_REPEAT, false)
  {
  }

  /** The setup of texture object i, the object created for m.textures[i]. */
  function TextureSetupFor(m: Model, i: nat): (r: TextureSetup)
    requires TexturesOk(m) && i < |m.textures|
    ensures r.image == m.textures[i].source && r.image >= 0
  {
    TextureSetup(m.textures[i].source, ParamsFor(SamplerFor(m, m.textures[i])))
  }

  /** createTextureObjects: one texture object per texture, in texture order. */
  method CreateTextureObjects(m: Model) returns (textureObjects: seq<TextureSetup>)
    requires TexturesOk(m)
    ensures |textureObjects| == |m.textures|
    ensures forall i :: 0 <= i < |m.textures| ==> textureObjects[i] == TextureSetupFor(m, i)
  {
    textureObjects := [];
    var i := 0;
    while i < |m.textures|
      invariant 0 <= i <= |m.textures|
      invariant |textureObjects| == i
      invariant forall j :: 0 <= j < i ==> textureObjects[j] == TextureSetupFor(m, j)
    {
      var texture := m.textures[i];
      var sampler := if texture.sampler >= 0 then m.samplers[texture.sampler] else DefaultSampler;
      var minFilter := if sampler.minFilter != UNSET_FILTER then sampler.minFilter else GL_LINEAR;
      var magFilter := if sampler.magFilter != UNSET_FILTER then sampler.magFilter else GL_LINEAR;
      var mipmaps := false;
      if IsMipmapFilter(sampler.minFilter) {
        mipmaps := true;
      }
      textureObjects := textureObjects +
        [TextureSetup(texture.source, TexParams(minFilter, magFilter, sampler.wrapS, sampler.wrapT, sampler.wrapR, mipmaps))];
      i := i + 1;
    }
  }

  // ---------------------------------------------------------------------------
  // bindMaterial

  /** Uniform locations bindMaterial tests (a negative location is absent from the program). */
  datatype UniformLocations = UniformLocations(
    baseColorTexture: int, baseColorFactor: int, metallicFactor: int, roughnessFactor: int,
    metallicRoughnessTexture: int, emissiveTexture: int, emissiveFactor: int, normalTexture: int)

  /**
   * A texture bound to a unit: the white 1x1 texture, texture name 0, or
   * textureObjects[i] (the object createTextureObjects made for m.textures[i]).
   */
  datatype TextureName = White | NoTexture | TextureObject(index: nat)

  /**
   * The effect of one bindMaterial call: per texture unit (0 base colour,
   * 1 metallic-roughness, 2 emissive, 3 normal) the texture bound there, if the
   * unit is touched; the factor uniforms set; whether the normal scale is set;
   * and whether uActiveNormal is zeroed and normaltexturecheck cleared.
   */
  datatype MaterialBinding = MaterialBinding(
    unit0: Option<TextureName>, unit1: Option<TextureName>, unit2: Option<TextureName>, unit3: Option<TextureName>,
    baseColorFactor: Option<Vec4>, metallicFactor: Option<real>, roughnessFactor: Option<real>,
    emissiveFactor: Option<Vec3>, normalScale: Option<real>, normalMapAbsent: bool)

  /**
   * The texture of one material channel, as bindMaterial computes it: the
   * channel's texture must exist and have an image, else the fallback is bound.
   * bindMaterial indexes textureObjects (one per texture) by the texture's image
   * index, which names another texture's object, or none, whenever the two
   * numberings differ.
   */
  function ChannelTextureAsWritten(m: Model, textureIndex: int, fallback: TextureName): (r: TextureName)
    requires textureIndex < |m.textures| && !fallback.TextureObject?
    ensures r.TextureObject? <==> textureIndex >= 0 && m.textures[textureIndex].source >= 0
    ensures r.TextureObject? ==> r.index == m.textures[textureIndex].source
    ensures !r.TextureObject? ==> r == fallback
  {
    if textureIndex >= 0 && m.textures[textureIndex].source >= 0 then TextureObject(m.textures[textureIndex].source)
    else fallback
  }

  /** The corrected channel choice: the object created for the channel's own texture. */
  function ChannelTexture(m: Model, textureIndex: int, fallback: TextureName): (r: TextureName)
    requires textureIndex < |m.textures| && !fallback.TextureObject?
    ensures r.TextureObject? <==> textureIndex >= 0 && m.textures[textureIndex].source >= 0
    ensures r.TextureObject? ==> r.index == textureIndex
    ensures !r.TextureObject? ==> r == fallback
  {
    if textureIndex >= 0 && m.textures[textureIndex].source >= 0 then TextureObject(textureIndex)
    else fallback
  }

  /** The corrected choice shows the channel texture's own image. */
  lemma ChannelTextureShowsItsImage(m: Model, textureIndex: int, fallback: TextureName, textureObjects: seq<TextureSetup>)
    requires TexturesOk(m) && textureIndex < |m.textures| && !fallback.TextureObject?
    requires |textureObjects| == |m.textures|
    requires forall i :: 0 <= i < |m.textures| ==> textureObjects[i] == TextureSetupFor(m, i)
    requires ChannelTexture(m, textureIndex, fallback).TextureObject?
    ensures var i := ChannelTexture(m, textureIndex, fallback).index;
      i < |textureObjects| && textureObjects[i].image == m.textures[textureIndex].source
  {
  }

  /** Two textures whose image indices are swapped. */
  const SwappedTextures: Model := Model([], [], [], [], [], [], -1, [], [Texture(1, -1), Texture(0, -1)], [])

  /** As written, texture 0 (image 1) binds the object of texture 1, which holds image 0. */
  lemma ChannelTextureAsWrittenShowsAnotherImage()
    ensures TexturesOk(SwappedTextures)
    ensures ChannelTextureAsWritten(SwappedTextures, 0, White) == TextureObject(1)
    ensures TextureSetupFor(SwappedTextures, 1).image == 0 != SwappedTextures.textures[0].source
  {
  }

  /** As written, a texture whose image index is past the last texture reads past textureObjects. */
  lemma ChannelTextureAsWrittenOutOfRange()
    ensures var m := Model([], [], [], [], [], [], -1, [], [Texture(1, -1)], []);
      TexturesOk(m) && ChannelTextureAsWritten(m, 0, White) == TextureObject(1) && 1 >= |m.textures|
  {
  }

  /**
   * How bindMaterial finds the object of a channel's texture: by the texture's
   * image index, as the code does, or by the texture index, as intended.
   */
  datatype ObjectIndexing = ByImageIndex | ByTextureIndex

  /** The texture a channel binds under the given indexing. */
  function ChannelObject(m: Model, textureIndex: int, fallback: TextureName, ix: ObjectIndexing): (r: TextureName)
    requires textureIndex < |m.textures| && !fallback.TextureObject?
    ensures r.TextureObject? <==> textureIndex >= 0 && m.textures[textureIndex].source >= 0
    ensures r.TextureObject? && ix == ByImageIndex ==> r.index == m.textures[textureIndex].source
    ensures r.TextureObject? && ix == ByTextureIndex ==> r.index == textureIndex
    ensures !r.TextureObject? ==> r == fallback
  {
    match ix
    case ByImageIndex => ChannelTextureAsWritten(m, textureIndex, fallback)
    case ByTextureIndex => ChannelTexture(m, textureIndex, fallback)
  }

  /** A uniform that is set only when its location is present. */
  function OnlyIf<T>(present: bool, x: T): (r: Option<T>)
    ensures r.Some? <==> present
    ensures r.Some? ==> r.value == x
  {
    if present then Some(x) else None
  }

  /**
   * bindMaterial(materialIndex). With ByImageIndex this is the code as written;
   * ByTextureIndex gives the corrected binding.
   */
  function BindMaterial(m: Model, u: UniformLocations, materialIndex: int, ix: ObjectIndexing): (r: MaterialBinding)
    requires TexturesOk(m) && materialIndex < |m.materials|
    // a texture unit or factor is touched exactly when its uniform is present
    // (the metallic-roughness and emissive texture locations are compared with > 0)
    ensures r.unit0.Some? <==> u.baseColorTexture >= 0
    ensures r.unit1.Some? <==> u.metallicRoughnessTexture > 0
    ensures r.unit2.Some? <==> u.emissiveTexture > 0
    ensures r.unit3.Some? <==> u.normalTexture >= 0
    ensures r.baseColorFactor.Some? <==> u.baseColorFactor >= 0
    ensures r.metallicFactor.Some? <==> u.metallicFactor >= 0
    ensures r.roughnessFactor.Some? <==> u.roughnessFactor >= 0
    ensures r.emissiveFactor.Some? <==> u.emissiveFactor >= 0
    // the normal map is reported missing exactly when a material without one is bound
    ensures r.normalMapAbsent <==> materialIndex >= 0 && u.normalTexture >= 0 && m.materials[materialIndex].normalTexture < 0
    ensures r.normalScale.Some? <==> materialIndex >= 0 && u.normalTexture >= 0 && m.materials[materialIndex].normalTexture >= 0
  {
    if materialIndex >= 0 then
      var mat := m.materials[materialIndex];
      MaterialBinding(
        OnlyIf(u.baseColorTexture >= 0, ChannelObject(m, mat.baseColorTexture, White, ix)),
        OnlyIf(u.metallicRoughnessTexture > 0, ChannelObject(m, mat.metallicRoughnessTexture, NoTexture, ix)),
        OnlyIf(u.emissiveTexture > 0, ChannelObject(m, mat.emissiveTexture, NoTexture, ix)),
        OnlyIf(u.normalTexture >= 0, ChannelObject(m, mat.normalTexture, White, ix)),
        OnlyIf(u.baseColorFactor >= 0, mat.baseColorFactor),
        OnlyIf(u.metallicFactor >= 0, mat.metallicFactor),
        OnlyIf(u.roughnessFactor >= 0, mat.roughnessFactor),
        OnlyIf(u.emissiveFactor >= 0, mat.emissiveFactor),
        OnlyIf(u.normalTexture >= 0 && mat.normalTexture >= 0, mat.normalScale),
        u.normalTexture >= 0 && mat.normalTexture < 0)
    else
      MaterialBinding(
        OnlyIf(u.baseColorTexture >= 0, White),
        OnlyIf(u.metallicRoughnessTexture > 0, NoTexture),
        OnlyIf(u.emissiveTexture > 0, NoTexture),
        OnlyIf(u.normalTexture >= 0, NoTexture),
        OnlyIf(u.baseColorFactor >= 0, Vec4(1.0, 1.0, 1.0, 1.0)),
        OnlyIf(u.metallicFactor >= 0, 1.0),
        OnlyIf(u.roughnessFactor >= 0, 1.0),
        OnlyIf(u.emissiveFactor >= 0, Vec3(1.0, 1.0, 1.0)),
        None,
        false)
  }

  /** Some(x) when the unit, or uniform, is touched at all. */
  predicate BoundTo<T(==)>(o: Option<T>, x: T) { o.Some? ==> o.value == x }

  /**
   * The default material: white base colour texture, the other units bound to
   * texture 0, all factors one, and the normal-map state left alone.
   */
  lemma DefaultMaterialBinding(m: Model, u: UniformLocations, materialIndex: int, ix: ObjectIndexing)
    requires TexturesOk(m) && materialIndex < |m.materials| && materialIndex < 0
    ensures var r := BindMaterial(m, u, materialIndex, ix);
      && BoundTo(r.unit0, White) && BoundTo(r.unit1, NoTexture)
      && BoundTo(r.unit2, NoTexture) && BoundTo(r.unit3, NoTexture)
      && BoundTo(r.baseColorFactor, Vec4(1.0, 1.0, 1.0, 1.0))
      && BoundTo(r.metallicFactor, 1.0) && BoundTo(r.roughnessFactor, 1.0)
      && BoundTo(r.emissiveFactor, Vec3(1.0, 1.0, 1.0))
      && r.normalScale.None? && !r.normalMapAbsent
  {
  }

  /**
   * A real material: each channel binds the object of its own texture when it has
   * one with an image, and otherwise white (base colour, normal) or texture 0
   * (metallic-roughness, emissive); its factors are the material's own.
   */
  lemma MaterialChannels(m: Model, u: UniformLocations, materialIndex: int, ix: ObjectIndexing)
    requires TexturesOk(m) && 0 <= materialIndex < |m.materials|
    ensures var r := BindMaterial(m, u, materialIndex, ix);
      var mat := m.materials[materialIndex];
      && BoundTo(r.unit0, ChannelObject(m, mat.baseColorTexture, White, ix))
      && BoundTo(r.unit1, ChannelObject(m, mat.metallicRoughnessTexture, NoTexture, ix))
      && BoundTo(r.unit2, ChannelObject(m, mat.emissiveTexture, NoTexture, ix))
      && BoundTo(r.unit3, ChannelObject(m, mat.normalTexture, White, ix))
      && BoundTo(r.baseColorFactor, mat.baseColorFactor)
      && BoundTo(r.metallicFactor, mat.metallicFactor) && BoundTo(r.roughnessFactor, mat.roughnessFactor)
      && BoundTo(r.emissiveFactor, mat.emissiveFactor)
      && BoundTo(r.normalScale, mat.normalScale)
  {
  }

  /** If unit binding o names a texture object, it is the object of channel texture c, which holds c's image. */
  ghost predicate ShowsChannelImage(m: Model, textureObjects: seq<TextureSetup>, o: Option<TextureName>, c: int) {
    o.Some? && o.value.TextureObject? ==>
      0 <= c < |m.textures| && o.value.index == c && c < |textureObjects| &&
      textureObjects[c].image == m.textures[c].source
  }

  /**
   * Corrected: every texture object a binding names is in range and holds the
   * image its material channel refers to.
   */
  lemma BoundObjectsShowMaterialImages(m: Model, u: UniformLocations, materialIndex: int, textureObjects: seq<TextureSetup>)
    requires TexturesOk(m) && 0 <= materialIndex < |m.materials|
    requires |textureObjects| == |m.textures|
    requires forall i :: 0 <= i < |m.textures| ==> textureObjects[i] == TextureSetupFor(m, i)
    ensures var r := BindMaterial(m, u, materialIndex, ByTextureIndex);
      var mat := m.materials[materialIndex];
      && ShowsChannelImage(m, textureObjects, r.unit0, mat.baseColorTexture)
      && ShowsChannelImage(m, textureObjects, r.unit1, mat.metallicRoughnessTexture)
      && ShowsChannelImage(m, textureObjects, r.unit2, mat.emissiveTexture)
      && ShowsChannelImage(m, textureObjects, r.unit3, mat.normalTexture)
  {
  }

  /** SwappedTextures with one material whose base colour is texture 0. */
  const SwappedMaterial: Model := SwappedTextures.(materials := [Material(Vec4(1.0, 1.0, 1.0, 1.0), 0, 1.0, 1.0, -1, -1, 1.0, -1, Vec3(0.0, 0.0, 0.0))])

  /** Every uniform location present. */
  const AllUniforms: UniformLocations := UniformLocations(1, 1, 1, 1, 1, 1, 1, 1)

  /**
   * As written, binding that material puts the object of texture 1, which holds
   * image 0, on unit 0, although its base colour texture shows image 1; the
   * corrected binding puts texture 0's own object there.
   */
  lemma BindMaterialAsWrittenShowsAnotherImage()
    ensures TexturesOk(SwappedMaterial)
    ensures BindMaterial(SwappedMaterial, AllUniforms, 0, ByImageIndex).unit0 == Some(TextureObject(1))
    ensures TextureSetupFor(SwappedMaterial, 1).image != SwappedMaterial.textures[0].source
    ensures BindMaterial(SwappedMaterial, AllUniforms, 0, ByTextureIndex).unit0 == Some(TextureObject(0))
    ensures TextureSetupFor(SwappedMaterial, 0).image == SwappedMaterial.textures[0].source
  {
  }
}
