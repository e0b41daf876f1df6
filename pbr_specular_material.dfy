/**
 * The specular-glossiness PBR material (vox.render/material/pbr_specular_material.cpp):
 * a specular colour and a glossiness kept in one uniform block that every
 * scalar setter re-uploads, and an optional specular-glossiness texture whose
 * presence toggles the HAS_SPECULARGLOSSINESSMAP shader define.
 *
 * The material's shader data is modelled by what the material hands to it:
 * the uploaded blocks by property name, the texture bound under each texture
 * property, and the macro collection its defines go to.
 */
module PbrSpecularMaterials {
  import opened Wrappers
  import opened MacroNames
  import opened ShaderMacros

  datatype Color = Color(r: real, g: real, b: real, a: real)

  /** PBRSpecularData: the uniform block. */
  datatype SpecularData = SpecularData(specularColor: Color, glossiness: real)

  /** The block's declared defaults: opaque white, glossiness 1. */
  const DefaultData: SpecularData := SpecularData(Color(1.0, 1.0, 1.0, 1.0), 1.0)

  /** A sampled 2D texture, by identity; a null texture is None. */
  datatype Texture = Texture(id: nat)

  /** The property names the material uploads under. */
  const SpecularProp: string := "u_pbrSpecularData"
  const TextureProp: string := "_specularGlossinessTexture"
  const SamplerProp: string := "_specularGlossinessSampler"

  /** The shader files the constructor loads. */
  const VertexShader: string := "base/blinn-phong.vert"
  const FragmentShader: string := "base/pbr.frag"

  /** A texture handed to setSampledTexture, with the sampler property it is sampled through. */
  datatype TextureBinding = TextureBinding(samplerProp: string, texture: Option<Texture>)

  /** What the material has handed to its shader data. */
  datatype ShaderData = ShaderData(blocks: map<string, SpecularData>, textures: map<string, TextureBinding>, macros: map<string, real>)

  /** The material's own fields together with its shader data. */
  datatype MaterialState = MaterialState(data: SpecularData, texture: Option<Texture>, shader: ShaderData)

  /** The define that says a specular-glossiness texture is bound. */
  function MapKey(): string {
    Key(HasSpecularglossinessmap)
  }

  /** The uploaded block is the material's current data. */
  predicate Synced(s: MaterialState) {
    SpecularProp in s.shader.blocks && s.shader.blocks[SpecularProp] == s.data
  }

  /** The define is present exactly when a texture is set. */
  predicate DefineMatchesTexture(s: MaterialState) {
    MapKey() in s.shader.macros <==> s.texture.Some?
  }

  /** setData(prop, data): the block stored under prop is replaced. */
  function Uploaded(shader: ShaderData, prop: string, d: SpecularData): (r: ShaderData)
    ensures prop in r.blocks && r.blocks[prop] == d
    ensures forall p :: p != prop ==> (p in r.blocks <==> p in shader.blocks)
    ensures forall p :: p != prop && p in shader.blocks ==> r.blocks[p] == shader.blocks[p]
    ensures r.textures == shader.textures && r.macros == shader.macros
  {
    shader.(blocks := shader.blocks[prop := d])
  }

  /**
   * The constructor: default data, no texture, and the default block
   * uploaded into the shader data the base material set up.
   */
  function Created(base: ShaderData): (s: MaterialState)
    ensures s.data == DefaultData && s.texture == None
    ensures Synced(s)
    ensures s.shader.textures == base.textures && s.shader.macros == base.macros
    ensures MapKey() !in base.macros ==> DefineMatchesTexture(s)
  {
    MaterialState(DefaultData, None, Uploaded(base, SpecularProp, DefaultData))
  }

  /** setSpecularColor: only the colour changes, and the whole block is re-uploaded. */
  function WithSpecularColor(s: MaterialState, c: Color): (r: MaterialState)
    ensures r.data.specularColor == c && r.data.glossiness == s.data.glossiness
    ensures r.texture == s.texture && r.shader.textures == s.shader.textures && r.shader.macros == s.shader.macros
    ensures Synced(r)
  {
    var d := s.data.(specularColor := c);
    MaterialState(d, s.texture, Uploaded(s.shader, SpecularProp, d))
  }

  /** setGlossiness: only the glossiness changes, and the whole block is re-uploaded. */
  function WithGlossiness(s: MaterialState, g: real): (r: MaterialState)
    ensures r.data.glossiness == g && r.data.specularColor == s.data.specularColor
    ensures r.texture == s.texture && r.shader.textures == s.shader.textures && r.shader.macros == s.shader.macros
    ensures Synced(r)
  {
    var d := s.data.(glossiness := g);
    MaterialState(d, s.texture, Uploaded(s.shader, SpecularProp, d))
  }

  /**
   * setSpecularGlossinessTexture: the texture is stored and bound, and the
   * define is added for a texture and removed for null; no other macro and
   * no block changes.
   */
  function WithTexture(s: MaterialState, t: Option<Texture>): (r: MaterialState)
    ensures r.texture == t && r.data == s.data && r.shader.blocks == s.shader.blocks
    ensures TextureProp in r.shader.textures && r.shader.textures[TextureProp] == TextureBinding(SamplerProp, t)
    ensures DefineMatchesTexture(r)
    ensures forall k :: k != MapKey() ==> (k in r.shader.macros <==> k in s.shader.macros)
    ensures forall k :: k != MapKey() && k in s.shader.macros ==> r.shader.macros[k] == s.shader.macros[k]
  {
    var macros := if t.Some? then Enabled(s.shader.macros, MapKey(), FlagValue) else Disabled(s.shader.macros, MapKey());
    var textures := s.shader.textures[TextureProp := TextureBinding(SamplerProp, t)];
    MaterialState(s.data, t, s.shader.(textures := textures, macros := macros))
  }

  class PbrSpecularMaterial {
    /** `_pbrSpecularData`. */
    var data: SpecularData
    /** `_specularGlossinessTexture`. */
    var texture: Option<Texture>
    /** The material's shaderData, as far as this class writes to it. */
    var shaderData: ShaderData
    /** vertex_source_ and fragment_source_, by the file each is loaded from. */
    const vertexSource: string
    const fragmentSource: string

    function State(): MaterialState
      reads this
    {
      MaterialState(data, texture, shaderData)
    }

    /** PBRSpecularMaterial(device, name); base is the shader data the base material leaves. */
    constructor (base: ShaderData)
      ensures State() == Created(base)
      ensures vertexSource == VertexShader && fragmentSource == FragmentShader
    {
      vertexSource := VertexShader;
      fragmentSource := FragmentShader;
      data := DefaultData;
      texture := None;
      shaderData := base.(blocks := base.blocks[SpecularProp := DefaultData]);
    }

    /** specularColor(). */
    function SpecularColor(): (c: Color)
      reads this
      ensures c == State().data.specularColor
    {
      data.specularColor
    }

    /** glossiness(). */
    function Glossiness(): (g: real)
      reads this
      ensures g == State().data.glossiness
    {
      data.glossiness
    }

    /** specularGlossinessTexture(). */
    function SpecularGlossinessTexture(): (t: Option<Texture>)
      reads this
      ensures t == State().texture
    {
      texture
    }

    method SetSpecularColor(c: Color)
      modifies this
      ensures State() == WithSpecularColor(old(State()), c)
      ensures SpecularColor() == c
    {
      data := data.(specularColor := c);
      shaderData := shaderData.(blocks := shaderData.blocks[SpecularProp := data]);
    }

    method SetGlossiness(g: real)
      modifies this
      ensures State() == WithGlossiness(old(State()), g)
      ensures Glossiness() == g
    {
      data := data.(glossiness := g);
      shaderData := shaderData.(blocks := shaderData.blocks[SpecularProp := data]);
    }

    method SetSpecularGlossinessTexture(t: Option<Texture>)
      modifies this
      ensures State() == WithTexture(old(State()), t)
      ensures SpecularGlossinessTexture() == t
    {
      texture := t;
      shaderData := shaderData.(textures := shaderData.textures[TextureProp := TextureBinding(SamplerProp, t)]);
      if t.Some? {
        shaderData := shaderData.(macros := shaderData.macros[MapKey() := FlagValue]);
      } else {
        shaderData := shaderData.(macros := shaderData.macros - {MapKey()});
      }
    }
  }

  // ---------------------------------------------------------------------------
  // Properties

  /** A material that starts synced and has the define right keeps both through any setter. */
  lemma SettersKeepInvariants(s: MaterialState, c: Color, g: real, t: Option<Texture>)
    requires Synced(s) && DefineMatchesTexture(s)
    ensures Synced(WithSpecularColor(s, c)) && DefineMatchesTexture(WithSpecularColor(s, c))
    ensures Synced(WithGlossiness(s, g)) && DefineMatchesTexture(WithGlossiness(s, g))
    ensures Synced(WithTexture(s, t)) && DefineMatchesTexture(WithTexture(s, t))
  {
  }

  /** Once a texture has been set (or cleared), the define agrees with the texture from then on. */
  lemma DefineFollowsTexture(s: MaterialState, t: Option<Texture>, c: Color, g: real)
    ensures DefineMatchesTexture(WithGlossiness(WithSpecularColor(WithTexture(s, t), c), g))
    ensures MapKey() in WithTexture(s, t).shader.macros <==> t != None
  {
  }

  /** Setting the colour twice keeps only the last colour. */
  lemma ColorLastWriteWins(s: MaterialState, c1: Color, c2: Color)
    ensures WithSpecularColor(WithSpecularColor(s, c1), c2) == WithSpecularColor(s, c2)
  {
    var p := WithSpecularColor(WithSpecularColor(s, c1), c2).shader.blocks;
    var q := WithSpecularColor(s, c2).shader.blocks;
    assert p.Keys == q.Keys;
  }

  /** Setting the glossiness twice keeps only the last glossiness. */
  lemma GlossinessLastWriteWins(s: MaterialState, g1: real, g2: real)
    ensures WithGlossiness(WithGlossiness(s, g1), g2) == WithGlossiness(s, g2)
  {
    var p := WithGlossiness(WithGlossiness(s, g1), g2).shader.blocks;
    var q := WithGlossiness(s, g2).shader.blocks;
    assert p.Keys == q.Keys;
  }

  /** Setting the texture twice keeps only the last texture, its binding and its define state. */
  lemma TextureLastWriteWins(s: MaterialState, t1: Option<Texture>, t2: Option<Texture>)
    ensures WithTexture(WithTexture(s, t1), t2) == WithTexture(s, t2)
  {
    var a := WithTexture(WithTexture(s, t1), t2).shader;
    var b := WithTexture(s, t2).shader;
    assert a.macros.Keys == b.macros.Keys;
    assert a.textures.Keys == b.textures.Keys;
  }

  /** The two scalar setters are independent: applying them in either order gives the same material. */
  lemma ScalarSettersCommute(s: MaterialState, c: Color, g: real)
    ensures WithGlossiness(WithSpecularColor(s, c), g) == WithSpecularColor(WithGlossiness(s, g), c)
  {
    var p := WithGlossiness(WithSpecularColor(s, c), g).shader.blocks;
    var q := WithSpecularColor(WithGlossiness(s, g), c).shader.blocks;
    assert p.Keys == q.Keys;
  }
}
