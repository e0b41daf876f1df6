/**
 * The WGSL fragment-shader functor of the PBR material
 * (vox.render/shaderlib/functors/wgsl_pbr_frag.cpp): it appends the PBR
 * lighting code to a shader source, choosing fragments by which built-in
 * macros are enabled. fmt::format is modelled as concatenation with the
 * substituted input-struct name.
 */
module PbrFragments {
  import opened MacroNames
  import opened ShaderMacros

  /** One line the functor can append, named after what it computes. */
  datatype Fragment =
    Geometry
    | Material
    | ReflectedLight
    | DotNv
    | DirectRadiance
    | ShIrradiance
    | ShIntensity
    | AmbientIrradiance
    | AmbientPi
    | IndirectDiffuse
    | Radiance
    | IndirectSpecular
    | AmbientOcclusion
    | OccludeDiffuse
    | OccludeSpecular
    | EmissiveRadiance
    | EmissiveColor
    | EmissiveTexture
    | TotalRadiance
    | TotalIndirectDiffuse
    | TotalDirectSpecular
    | TotalIndirectSpecular
    | TotalEmissive

  /** The WGSL text of a fragment, with its trailing newline, for the input-struct name `input`. */
  function Text(f: Fragment, input: string): string {
    match f
    case Geometry => "var geometry = GeometricContext(" + input + ".v_pos, getNormal(), normalize(u_cameraPos - " + input + ".v_pos));\n"
    case Material => "var material = getPhysicalMaterial(u_baseColor, u_metal, u_roughness, u_specularColor, u_glossiness, u_alphaCutoff);\n"
    case ReflectedLight => "var reflectedLight = ReflectedLight( vec3<f32>(0.0, 0.0, 0.0), vec3<f32>(0.0, 0.0, 0.0), vec3<f32>(0.0, 0.0, 0.0), vec3<f32>(0.0, 0.0, 0.0) );\n"
    case DotNv => "var dotNV = saturate( dot( geometry.normal, geometry.viewDir ) );\n"
    case DirectRadiance => "addTotalDirectRadiance(geometry, material, reflectedLight);\n"
    case ShIrradiance => "var irradiance = getLightProbeIrradiance(u_env_sh, geometry.normal);\n"
    case ShIntensity => "irradiance *= u_envMapLight.diffuseIntensity;\n"
    case AmbientIrradiance => "var irradiance = u_envMapLight.diffuse * u_envMapLight.diffuseIntensity;\n"
    case AmbientPi => "irradiance *= PI;\n"
    case IndirectDiffuse => "reflectedLight.indirectDiffuse += irradiance * BRDF_Diffuse_Lambert( material.diffuseColor );\n"
    case Radiance => "var radiance = getLightProbeRadiance( geometry, material.roughness, int(u_envMapLight.mipMapLevel), u_envMapLight.specularIntensity);\n"
    case IndirectSpecular => "reflectedLight.indirectSpecular += radiance * envBRDFApprox(material.specularColor, material.roughness, dotNV );\n"
    case AmbientOcclusion => "var ambientOcclusion = (textureSample(u_occlusionTexture, u_occlusionSampler, " + input + ".v_uv).r - 1.0) * u_occlusionStrength + 1.0;\n"
    case OccludeDiffuse => "reflectedLight.indirectDiffuse = reflectedLight.indirectDiffuse * ambientOcclusion;\n"
    case OccludeSpecular => "reflectedLight.indirectSpecular = reflectedLight.indirectSpecular * computeSpecularOcclusion(ambientOcclusion, material.roughness, dotNV);\n"
    case EmissiveRadiance => "var emissiveRadiance = u_emissiveColor;\n"
    case EmissiveColor => "var emissiveColor = textureSample(u_emissiveTexture, u_emissiveSampler, " + input + ".v_uv);\n"
    case EmissiveTexture => "emissiveRadiance *= emissiveColor.rgb;\n"
    case TotalRadiance => "var totalRadiance =    reflectedLight.directDiffuse +\n"
    case TotalIndirectDiffuse => "                        reflectedLight.indirectDiffuse +\n"
    case TotalDirectSpecular => "                        reflectedLight.directSpecular +\n"
    case TotalIndirectSpecular => "                        reflectedLight.indirectSpecular +\n"
    case TotalEmissive => "                        emissiveRadiance;\n"
  }


  /** The fragments whose text names the input struct: the `.v_pos` and `.v_uv` accesses. */
  predicate UsesInput(f: Fragment) {
    f.Geometry? || f.AmbientOcclusion? || f.EmissiveColor?
  }

  /** The text of every fragment for the input-struct name `input`. */
  function TextOf(input: string): Fragment -> string {
    f => Text(f, input)
  }

  /** The fragments joined into one text, in order. */
  function Render(frags: seq<Fragment>, text: Fragment -> string): string
    decreases |frags|
  {
    if frags == [] then "" else Render(frags[..|frags| - 1], text) + text(frags[|frags| - 1])
  }

  /** String concatenation is associative. */
  lemma AppendAssociates(a: string, b: string, c: string)
    ensures (a + b) + c == a + (b + c)
  {
  }

  /** Appending one fragment's text renders it after the others. */
  lemma {:induction false} RenderSnoc(frags: seq<Fragment>, f: Fragment, text: Fragment -> string)
    ensures Render(frags + [f], text) == Render(frags, text) + text(f)
  {
    assert (frags + [f])[..|frags|] == frags;
  }

  /** Rendering distributes over concatenation. */
  lemma {:induction false} RenderConcat(a: seq<Fragment>, b: seq<Fragment>, text: Fragment -> string)
    ensures Render(a + b, text) == Render(a, text) + Render(b, text)
    decreases |b|
  {
    if b == [] {
      assert a + b == a;
    } else {
      var init := b[..|b| - 1];
      RenderConcat(a, init, text);
      assert (a + b)[..|a + b| - 1] == a + init;
      AppendAssociates(Render(a, text), Render(init, text), text(b[|b| - 1]));
    }
  }

  /** One `+=` of a fragment's text extends the rendering by that fragment. */
  lemma Step(base: string, frags: seq<Fragment>, f: Fragment, text: Fragment -> string)
    ensures base + Render(frags, text) + text(f) == base + Render(frags + [f], text)
  {
    RenderSnoc(frags, f, text);
    AppendAssociates(base, Render(frags, text), text(f));
  }

  // One, two, three or five consecutive appends render the corresponding fragment list.

  lemma Render1(base: string, a: Fragment, text: Fragment -> string)
    ensures base + text(a) == base + Render([a], text)
  {
    assert base + Render([], text) == base;
    Step(base, [], a, text);
    assert [] + [a] == [a];
  }

  lemma Render2(base: string, a: Fragment, b: Fragment, text: Fragment -> string)
    ensures base + text(a) + text(b) == base + Render([a, b], text)
  {
    Render1(base, a, text);
    Step(base, [a], b, text);
    assert [a] + [b] == [a, b];
  }

  lemma Render3(base: string, a: Fragment, b: Fragment, c: Fragment, text: Fragment -> string)
    ensures base + text(a) + text(b) + text(c) == base + Render([a, b, c], text)
  {
    Render2(base, a, b, text);
    Step(base, [a, b], c, text);
    assert [a, b] + [c] == [a, b, c];
  }

  lemma Render4(base: string, a: Fragment, b: Fragment, c: Fragment, d: Fragment, text: Fragment -> string)
    ensures base + text(a) + text(b) + text(c) + text(d) == base + Render([a, b, c, d], text)
  {
    Render3(base, a, b, c, text);
    Step(base, [a, b, c], d, text);
    assert [a, b, c] + [d] == [a, b, c, d];
  }

  lemma Render5(base: string, a: Fragment, b: Fragment, c: Fragment, d: Fragment, e: Fragment, text: Fragment -> string)
    ensures base + text(a) + text(b) + text(c) + text(d) + text(e) == base + Render([a, b, c, d, e], text)
  {
    Render4(base, a, b, c, d, text);
    Step(base, [a, b, c, d], e, text);
    assert [a, b, c, d] + [e] == [a, b, c, d, e];
  }

  /** The opening lines, which do not depend on any macro: geometry, material, reflected light, dotNV, direct radiance. */
  const Prelude: seq<Fragment> := [Geometry, Material, ReflectedLight, DotNv, DirectRadiance]

  /** IBL diffuse: spherical-harmonics irradiance under HAS_SH, the ambient term otherwise, then the Lambert term. */
  function DiffuseFragments(hasSh: bool): seq<Fragment> {
    if hasSh then [ShIrradiance, ShIntensity, IndirectDiffuse] else [AmbientIrradiance, AmbientPi, IndirectDiffuse]
  }

  /** IBL specular, which does not depend on any macro. */
  const Specular: seq<Fragment> := [Radiance, IndirectSpecular]

  /** Occlusion: applied under HAS_OCCLUSIONMAP, to the specular term too under HAS_SPECULAR_ENV. */
  function OcclusionFragments(hasOcclusion: bool, hasSpecularEnv: bool): seq<Fragment> {
    if !hasOcclusion then []
    else if hasSpecularEnv then [AmbientOcclusion, OccludeDiffuse, OccludeSpecular]
    else [AmbientOcclusion, OccludeDiffuse]
  }

  /** Emissive: the base radiance always, modulated by the texture under HAS_EMISSIVEMAP. */
  function EmissiveFragments(hasEmissive: bool): seq<Fragment> {
    if hasEmissive then [EmissiveRadiance, EmissiveColor, EmissiveTexture] else [EmissiveRadiance]
  }

  /** The closing totalRadiance statement, five lines. */
  const Totals: seq<Fragment> := [TotalRadiance, TotalIndirectDiffuse, TotalDirectSpecular, TotalIndirectSpecular, TotalEmissive]

  /** Every fragment the functor appends, in order, for the given macro presences. */
  function PbrFragments(hasSh: bool, hasOcclusion: bool, hasSpecularEnv: bool, hasEmissive: bool): seq<Fragment> {
    Prelude + DiffuseFragments(hasSh) + Specular + OcclusionFragments(hasOcclusion, hasSpecularEnv)
    + EmissiveFragments(hasEmissive) + Totals
  }

  /** Six consecutive sections render their concatenation. */
  lemma RenderSections(source: string, p: seq<Fragment>, d: seq<Fragment>, s: seq<Fragment>, o: seq<Fragment>, e: seq<Fragment>, t: seq<Fragment>, text: Fragment -> string)
    ensures source + Render(p, text) + Render(d, text) + Render(s, text) + Render(o, text) + Render(e, text) + Render(t, text)
         == source + Render(p + d + s + o + e + t, text)
  {
    RenderConcat(p, d, text);
    RenderConcat(p + d, s, text);
    RenderConcat(p + d + s, o, text);
    RenderConcat(p + d + s + o, e, text);
    RenderConcat(p + d + s + o + e, t, text);
    var rp, rd, rs, ro, re, rt := Render(p, text), Render(d, text), Render(s, text), Render(o, text), Render(e, text), Render(t, text);
    AppendAssociates(source, rp, rd);
    AppendAssociates(source, rp + rd, rs);
    AppendAssociates(source, rp + rd + rs, ro);
    AppendAssociates(source, rp + rd + rs + ro, re);
    AppendAssociates(source, rp + rd + rs + ro + re, rt);
  }

  class WgslPbrFrag {
    /** `_input`: the name of the vertex-output struct the fragment reads. */
    const input: string
    /** `_output`: stored but never read by the functor. */
    const output: string

    constructor (input: string, output: string)
      ensures this.input == input && this.output == output
    {
      this.input, this.output := input, output;
    }

    /**
     * operator()(source, macros): `result` is the new value of the in-out
     * `source`. The text is only extended, and what is added depends on the
     * input name and on the presence of four macros, never on a macro's value.
     */
    method Apply(source: string, macros: ShaderMacroCollection) returns (result: string)
      ensures source <= result
      ensures result == source + Render(PbrFragments(macros.ContainsInternal(HasSh), macros.ContainsInternal(HasOcclusionmap),
                                                     macros.ContainsInternal(HasSpecularEnv), macros.ContainsInternal(HasEmissivemap)),
                                        TextOf(input))
    {
      result := DirectLight(source);
      result := IblDiffuse(result, macros.ContainsInternal(HasSh));
      result := IblSpecular(result);
      result := Occlusion(result, macros.ContainsInternal(HasOcclusionmap), macros.ContainsInternal(HasSpecularEnv));
      result := Emissive(result, macros.ContainsInternal(HasEmissivemap));
      result := Total(result);
      RenderSections(source, Prelude, DiffuseFragments(macros.ContainsInternal(HasSh)), Specular,
                     OcclusionFragments(macros.ContainsInternal(HasOcclusionmap), macros.ContainsInternal(HasSpecularEnv)),
                     EmissiveFragments(macros.ContainsInternal(HasEmissivemap)), Totals, TextOf(input));
    }

    /** The opening lines up to the direct radiance, appended to text. */
    method DirectLight(text: string) returns (text': string)
      ensures text' == text + Render(Prelude, TextOf(input))
    {
      text' := text + Text(Geometry, input);
      text' := text' + Text(Material, input);
      text' := text' + Text(ReflectedLight, input);
      text' := text' + Text(DotNv, input);
      text' := text' + Text(DirectRadiance, input);
      Render5(text, Geometry, Material, ReflectedLight, DotNv, DirectRadiance, TextOf(input));
    }

    /** The IBL diffuse block, appended to text. */
    method IblDiffuse(text: string, hasSh: bool) returns (text': string)
      ensures text' == text + Render(DiffuseFragments(hasSh), TextOf(input))
    {
      if hasSh {
        text' := text + Text(ShIrradiance, input);
        text' := text' + Text(ShIntensity, input);
      } else {
        text' := text + Text(AmbientIrradiance, input);
        text' := text' + Text(AmbientPi, input);
      }
      text' := text' + Text(IndirectDiffuse, input);
      if hasSh {
        Render3(text, ShIrradiance, ShIntensity, IndirectDiffuse, TextOf(input));
      } else {
        Render3(text, AmbientIrradiance, AmbientPi, IndirectDiffuse, TextOf(input));
      }
    }

    /** The IBL specular block, appended to text. */
    method IblSpecular(text: string) returns (text': string)
      ensures text' == text + Render(Specular, TextOf(input))
    {
      text' := text + Text(Radiance, input);
      text' := text' + Text(IndirectSpecular, input);
      Render2(text, Radiance, IndirectSpecular, TextOf(input));
    }

    /** The occlusion block, appended to text. */
    method Occlusion(text: string, hasOcclusion: bool, hasSpecularEnv: bool) returns (text': string)
      ensures text' == text + Render(OcclusionFragments(hasOcclusion, hasSpecularEnv), TextOf(input))
    {
      text' := text;
      if hasOcclusion {
        text' := text' + Text(AmbientOcclusion, input);
        text' := text' + Text(OccludeDiffuse, input);
        if hasSpecularEnv {
          text' := text' + Text(OccludeSpecular, input);
          Render3(text, AmbientOcclusion, OccludeDiffuse, OccludeSpecular, TextOf(input));
        } else {
          Render2(text, AmbientOcclusion, OccludeDiffuse, TextOf(input));
        }
      }
    }

    /** The emissive block, appended to text. */
    method Emissive(text: string, hasEmissive: bool) returns (text': string)
      ensures text' == text + Render(EmissiveFragments(hasEmissive), TextOf(input))
    {
      text' := text + Text(EmissiveRadiance, input);
      if hasEmissive {
        text' := text' + Text(EmissiveColor, input);
        text' := text' + Text(EmissiveTexture, input);
        Render3(text, EmissiveRadiance, EmissiveColor, EmissiveTexture, TextOf(input));
      } else {
        Render1(text, EmissiveRadiance, TextOf(input));
      }
    }

    /** The closing totalRadiance statement, appended to text. */
    method Total(text: string) returns (text': string)
      ensures text' == text + Render(Totals, TextOf(input))
    {
      text' := text + Text(TotalRadiance, input);
      text' := text' + Text(TotalIndirectDiffuse, input);
      text' := text' + Text(TotalDirectSpecular, input);
      text' := text' + Text(TotalIndirectSpecular, input);
      text' := text' + Text(TotalEmissive, input);
      Render5(text, TotalRadiance, TotalIndirectDiffuse, TotalDirectSpecular, TotalIndirectSpecular, TotalEmissive, TextOf(input));
    }

  }

  // ---------------------------------------------------------------------------
  // Properties of the emitted fragments

  /** A fragment is emitted iff one of the six sections emits it. */
  lemma InSections(f: Fragment, hasSh: bool, hasOcclusion: bool, hasSpecularEnv: bool, hasEmissive: bool)
    ensures f in PbrFragments(hasSh, hasOcclusion, hasSpecularEnv, hasEmissive) <==>
      f in Prelude || f in DiffuseFragments(hasSh) || f in Specular || f in OcclusionFragments(hasOcclusion, hasSpecularEnv)
      || f in EmissiveFragments(hasEmissive) || f in Totals
  {
  }

  /** Exactly one of the two irradiance definitions is emitted, chosen by HAS_SH. */
  lemma OneIrradiance(hasSh: bool, hasOcclusion: bool, hasSpecularEnv: bool, hasEmissive: bool)
    ensures ShIrradiance in PbrFragments(hasSh, hasOcclusion, hasSpecularEnv, hasEmissive) <==> hasSh
    ensures AmbientIrradiance in PbrFragments(hasSh, hasOcclusion, hasSpecularEnv, hasEmissive) <==> !hasSh
  {
    InSections(ShIrradiance, hasSh, hasOcclusion, hasSpecularEnv, hasEmissive);
    InSections(AmbientIrradiance, hasSh, hasOcclusion, hasSpecularEnv, hasEmissive);
  }

  /** The occlusion lines appear iff HAS_OCCLUSIONMAP; the specular-occlusion line iff HAS_SPECULAR_ENV as well. */
  lemma OcclusionPresence(hasSh: bool, hasOcclusion: bool, hasSpecularEnv: bool, hasEmissive: bool)
    ensures AmbientOcclusion in PbrFragments(hasSh, hasOcclusion, hasSpecularEnv, hasEmissive) <==> hasOcclusion
    ensures OccludeDiffuse in PbrFragments(hasSh, hasOcclusion, hasSpecularEnv, hasEmissive) <==> hasOcclusion
    ensures OccludeSpecular in PbrFragments(hasSh, hasOcclusion, hasSpecularEnv, hasEmissive) <==> hasOcclusion && hasSpecularEnv
  {
    InSections(AmbientOcclusion, hasSh, hasOcclusion, hasSpecularEnv, hasEmissive);
    InSections(OccludeDiffuse, hasSh, hasOcclusion, hasSpecularEnv, hasEmissive);
    InSections(OccludeSpecular, hasSh, hasOcclusion, hasSpecularEnv, hasEmissive);
  }

  /**
   * The emissive-texture lines appear iff HAS_EMISSIVEMAP, and the
   * emissiveRadiance declaration always comes right before them.
   */
  lemma EmissivePresence(hasSh: bool, hasOcclusion: bool, hasSpecularEnv: bool, hasEmissive: bool)
    ensures EmissiveColor in PbrFragments(hasSh, hasOcclusion, hasSpecularEnv, hasEmissive) <==> hasEmissive
    ensures EmissiveTexture in PbrFragments(hasSh, hasOcclusion, hasSpecularEnv, hasEmissive) <==> hasEmissive
    ensures var frags, k := PbrFragments(hasSh, hasOcclusion, hasSpecularEnv, hasEmissive), 10 + |OcclusionFragments(hasOcclusion, hasSpecularEnv)|;
      k < |frags| && frags[k] == EmissiveRadiance &&
      (hasEmissive ==> k + 2 < |frags| && frags[k + 1] == EmissiveColor && frags[k + 2] == EmissiveTexture)
  {
    InSections(EmissiveColor, hasSh, hasOcclusion, hasSpecularEnv, hasEmissive);
    InSections(EmissiveTexture, hasSh, hasOcclusion, hasSpecularEnv, hasEmissive);
  }

  /** The unconditional opening lines come first and the totalRadiance block last, in every configuration. */
  lemma FixedFrame(hasSh: bool, hasOcclusion: bool, hasSpecularEnv: bool, hasEmissive: bool)
    ensures var frags := PbrFragments(hasSh, hasOcclusion, hasSpecularEnv, hasEmissive);
      |frags| >= 15 && frags[..5] == Prelude && frags[|frags| - 5..] == Totals
  {
    var frags := PbrFragments(hasSh, hasOcclusion, hasSpecularEnv, hasEmissive);
    assert frags[..5] == Prelude;
    assert frags[|frags| - 5..] == Totals;
  }

  /** Apart from the three sampling lines, no fragment's text mentions the input-struct name. */
  lemma InputOnlyInAccesses(f: Fragment, a: string, b: string)
    ensures !UsesInput(f) ==> Text(f, a) == Text(f, b)
  {
    match f
    case Geometry =>
    case AmbientOcclusion =>
    case EmissiveColor =>
    case _ =>
  }

  /** A rendering of fragments that do not read the input struct is the same for every input name. */
  lemma {:induction false} RenderIgnoresInput(frags: seq<Fragment>, a: string, b: string)
    requires forall i :: 0 <= i < |frags| ==> !UsesInput(frags[i])
    ensures Render(frags, TextOf(a)) == Render(frags, TextOf(b))
    decreases |frags|
  {
    if frags != [] {
      RenderIgnoresInput(frags[..|frags| - 1], a, b);
      InputOnlyInAccesses(frags[|frags| - 1], a, b);
    }
  }

  /** The emitted text is the same for two collections that agree on the four macros it tests. */
  lemma OnlyPresenceMatters(input: string, m1: ShaderMacroCollection, m2: ShaderMacroCollection)
    requires m1.ContainsInternal(HasSh) == m2.ContainsInternal(HasSh)
    requires m1.ContainsInternal(HasOcclusionmap) == m2.ContainsInternal(HasOcclusionmap)
    requires m1.ContainsInternal(HasSpecularEnv) == m2.ContainsInternal(HasSpecularEnv)
    requires m1.ContainsInternal(HasEmissivemap) == m2.ContainsInternal(HasEmissivemap)
    ensures PbrFragments(m1.ContainsInternal(HasSh), m1.ContainsInternal(HasOcclusionmap), m1.ContainsInternal(HasSpecularEnv), m1.ContainsInternal(HasEmissivemap))
         == PbrFragments(m2.ContainsInternal(HasSh), m2.ContainsInternal(HasOcclusionmap), m2.ContainsInternal(HasSpecularEnv), m2.ContainsInternal(HasEmissivemap))
  {
  }
}
