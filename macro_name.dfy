/**
 * The engine's built-in shader macros (vox.render/shader/internal_macro_name.h):
 * a contiguous enumeration starting at 0, closed by TOTAL_COUNT.
 *
 * Naming convention of the header: HAS_ names a resource, OMIT_ an omitted
 * resource, NEED_ a shader operation, IS_ a control-flow switch, and a
 * _COUNT suffix an integer constant; every other macro is a plain flag.
 */
module MacroNames {
  import opened Wrappers

  /** enum MacroName, in declaration order. */
  datatype MacroName =
    HasUv
    | HasNormal
    | HasTangent
    | HasVertexcolor
    | HasBlendshape
    | HasBlendshapeTexture
    | HasBlendshapeNormal
    | HasBlendshapeTangent
    | HasSkin
    | HasJointTexture
    | JointsCount
    | NeedAlphaCutoff
    | NeedWorldpos
    | NeedTilingoffset
    | HasDiffuseTexture
    | HasSpecularTexture
    | HasEmissiveTexture
    | HasNormalTexture
    | OmitNormal
    | HasBaseTexture
    | HasBaseColormap
    | HasEmissivemap
    | HasOcclusionmap
    | HasSpecularglossinessmap
    | HasMetalroughnessmap
    | IsMetallicWorkflow
    | DirectLightCount
    | PointLightCount
    | SpotLightCount
    | HasSh
    | HasSpecularEnv
    | HasDiffuseEnv
    | HasParticleTexture
    | NeedRotateToVelocity
    | NeedUseOriginColor
    | NeedScaleByLifeTime
    | NeedFadeIn
    | NeedFadeOut
    | Is2d
    | ShadowMapCount
    | CubeShadowMapCount
    | TotalCount

  /** The index of TOTAL_COUNT, one past the last real macro. */
  const TotalCountIndex: nat := 41

  /** The enumerator's value. */
  function Index(m: MacroName): (i: nat)
    ensures i <= TotalCountIndex
    ensures i == TotalCountIndex <==> m == TotalCount
  {
    match m
    case HasUv => 0
    case HasNormal => 1
    case HasTangent => 2
    case HasVertexcolor => 3
    case HasBlendshape => 4
    case HasBlendshapeTexture => 5
    case HasBlendshapeNormal => 6
    case HasBlendshapeTangent => 7
    case HasSkin => 8
    case HasJointTexture => 9
    case JointsCount => 10
    case NeedAlphaCutoff => 11
    case NeedWorldpos => 12
    case NeedTilingoffset => 13
    case HasDiffuseTexture => 14
    case HasSpecularTexture => 15
    case HasEmissiveTexture => 16
    case HasNormalTexture => 17
    case OmitNormal => 18
    case HasBaseTexture => 19
    case HasBaseColormap => 20
    case HasEmissivemap => 21
    case HasOcclusionmap => 22
    case HasSpecularglossinessmap => 23
    case HasMetalroughnessmap => 24
    case IsMetallicWorkflow => 25
    case DirectLightCount => 26
    case PointLightCount => 27
    case SpotLightCount => 28
    case HasSh => 29
    case HasSpecularEnv => 30
    case HasDiffuseEnv => 31
    case HasParticleTexture => 32
    case NeedRotateToVelocity => 33
    case NeedUseOriginColor => 34
    case NeedScaleByLifeTime => 35
    case NeedFadeIn => 36
    case NeedFadeOut => 37
    case Is2d => 38
    case ShadowMapCount => 39
    case CubeShadowMapCount => 40
    case TotalCount => 41
  }

  /** The enumerator with value i. */
  function FromIndex(i: nat): (m: MacroName)
    requires i <= TotalCountIndex
  {
    if i == 0 then HasUv
    else if i == 1 then HasNormal
    else if i == 2 then HasTangent
    else if i == 3 then HasVertexcolor
    else if i == 4 then HasBlendshape
    else if i == 5 then HasBlendshapeTexture
    else if i == 6 then HasBlendshapeNormal
    else if i == 7 then HasBlendshapeTangent
    else if i == 8 then HasSkin
    else if i == 9 then HasJointTexture
    else if i == 10 then JointsCount
    else if i == 11 then NeedAlphaCutoff
    else if i == 12 then NeedWorldpos
    else if i == 13 then NeedTilingoffset
    else if i == 14 then HasDiffuseTexture
    else if i == 15 then HasSpecularTexture
    else if i == 16 then HasEmissiveTexture
    else if i == 17 then HasNormalTexture
    else if i == 18 then OmitNormal
    else if i == 19 then HasBaseTexture
    else if i == 20 then HasBaseColormap
    else if i == 21 then HasEmissivemap
    else if i == 22 then HasOcclusionmap
    else if i == 23 then HasSpecularglossinessmap
    else if i == 24 then HasMetalroughnessmap
    else if i == 25 then IsMetallicWorkflow
    else if i == 26 then DirectLightCount
    else if i == 27 then PointLightCount
    else if i == 28 then SpotLightCount
    else if i == 29 then HasSh
    else if i == 30 then HasSpecularEnv
    else if i == 31 then HasDiffuseEnv
    else if i == 32 then HasParticleTexture
    else if i == 33 then NeedRotateToVelocity
    else if i == 34 then NeedUseOriginColor
    else if i == 35 then NeedScaleByLifeTime
    else if i == 36 then NeedFadeIn
    else if i == 37 then NeedFadeOut
    else if i == 38 then Is2d
    else if i == 39 then ShadowMapCount
    else if i == 40 then CubeShadowMapCount
    else TotalCount
  }

  /** The enumerator's spelling in the header. */
  function Name(m: MacroName): string {
    match m
    case HasUv => "HAS_UV"
    case HasNormal => "HAS_NORMAL"
    case HasTangent => "HAS_TANGENT"
    case HasVertexcolor => "HAS_VERTEXCOLOR"
    case HasBlendshape => "HAS_BLENDSHAPE"
    case HasBlendshapeTexture => "HAS_BLENDSHAPE_TEXTURE"
    case HasBlendshapeNormal => "HAS_BLENDSHAPE_NORMAL"
    case HasBlendshapeTangent => "HAS_BLENDSHAPE_TANGENT"
    case HasSkin => "HAS_SKIN"
    case HasJointTexture => "HAS_JOINT_TEXTURE"
    case JointsCount => "JOINTS_COUNT"
    case NeedAlphaCutoff => "NEED_ALPHA_CUTOFF"
    case NeedWorldpos => "NEED_WORLDPOS"
    case NeedTilingoffset => "NEED_TILINGOFFSET"
    case HasDiffuseTexture => "HAS_DIFFUSE_TEXTURE"
    case HasSpecularTexture => "HAS_SPECULAR_TEXTURE"
    case HasEmissiveTexture => "HAS_EMISSIVE_TEXTURE"
    case HasNormalTexture => "HAS_NORMAL_TEXTURE"
    case OmitNormal => "OMIT_NORMAL"
    case HasBaseTexture => "HAS_BASE_TEXTURE"
    case HasBaseColormap => "HAS_BASE_COLORMAP"
    case HasEmissivemap => "HAS_EMISSIVEMAP"
    case HasOcclusionmap => "HAS_OCCLUSIONMAP"
    case HasSpecularglossinessmap => "HAS_SPECULARGLOSSINESSMAP"
    case HasMetalroughnessmap => "HAS_METALROUGHNESSMAP"
    case IsMetallicWorkflow => "IS_METALLIC_WORKFLOW"
    case DirectLightCount => "DIRECT_LIGHT_COUNT"
    case PointLightCount => "POINT_LIGHT_COUNT"
    case SpotLightCount => "SPOT_LIGHT_COUNT"
    case HasSh => "HAS_SH"
    case HasSpecularEnv => "HAS_SPECULAR_ENV"
    case HasDiffuseEnv => "HAS_DIFFUSE_ENV"
    case HasParticleTexture => "HAS_PARTICLE_TEXTURE"
    case NeedRotateToVelocity => "NEED_ROTATE_TO_VELOCITY"
    case NeedUseOriginColor => "NEED_USE_ORIGIN_COLOR"
    case NeedScaleByLifeTime => "NEED_SCALE_BY_LIFE_TIME"
    case NeedFadeIn => "NEED_FADE_IN"
    case NeedFadeOut => "NEED_FADE_OUT"
    case Is2d => "IS_2D"
    case ShadowMapCount => "SHADOW_MAP_COUNT"
    case CubeShadowMapCount => "CUBE_SHADOW_MAP_COUNT"
    case TotalCount => "TOTAL_COUNT"
  }
  /** Whether a spelling carries the `_COUNT` suffix of an integer-valued macro. */
  predicate IsCountName(s: string) {
    var n := |s|;
    n >= 6 && s[n - 6] == '_' && s[n - 5] == 'C' && s[n - 4] == 'O' && s[n - 3] == 'U' && s[n - 2] == 'N' && s[n - 1] == 'T'
  }

  // ---------------------------------------------------------------------------
  // Properties

  /** The enumeration starts at 0 with HAS_UV. */
  lemma FirstIsHasUv()
    ensures Index(HasUv) == 0 && FromIndex(0) == HasUv
  {
  }

  /** FromIndexOfIndex for the values 0 to 6. */
  lemma FromIndexOfIndexPart0(m: MacroName)
    requires 0 <= Index(m) < 7
    ensures FromIndex(Index(m)) == m
  {
    match m
    case HasUv =>
    case HasNormal =>
    case HasTangent =>
    case HasVertexcolor =>
    case HasBlendshape =>
    case HasBlendshapeTexture =>
    case HasBlendshapeNormal =>
    case _ =>
  }

  /** FromIndexOfIndex for the values 7 to 13. */
  lemma FromIndexOfIndexPart1(m: MacroName)
    requires 7 <= Index(m) < 14
    ensures FromIndex(Index(m)) == m
  {
    match m
    case HasBlendshapeTangent =>
    case HasSkin =>
    case HasJointTexture =>
    case JointsCount =>
    case NeedAlphaCutoff =>
    case NeedWorldpos =>
    case NeedTilingoffset =>
    case _ =>
  }

  /** FromIndexOfIndex for the values 14 to 20. */
  lemma FromIndexOfIndexPart2(m: MacroName)
    requires 14 <= Index(m) < 21
    ensures FromIndex(Index(m)) == m
  {
    match m
    case HasDiffuseTexture =>
    case HasSpecularTexture =>
    case HasEmissiveTexture =>
    case HasNormalTexture =>
    case OmitNormal =>
    case HasBaseTexture =>
    case HasBaseColormap =>
    case _ =>
  }

  /** FromIndexOfIndex for the values 21 to 27. */
  lemma FromIndexOfIndexPart3(m: MacroName)
    requires 21 <= Index(m) < 28
    ensures FromIndex(Index(m)) == m
  {
    match m
    case HasEmissivemap =>
    case HasOcclusionmap =>
    case HasSpecularglossinessmap =>
    case HasMetalroughnessmap =>
    case IsMetallicWorkflow =>
    case DirectLightCount =>
    case PointLightCount =>
    case _ =>
  }

  /** FromIndexOfIndex for the values 28 to 34. */
  lemma FromIndexOfIndexPart4(m: MacroName)
    requires 28 <= Index(m) < 35
    ensures FromIndex(Index(m)) == m
  {
    match m
    case SpotLightCount =>
    case HasSh =>
    case HasSpecularEnv =>
    case HasDiffuseEnv =>
    case HasParticleTexture =>
    case NeedRotateToVelocity =>
    case NeedUseOriginColor =>
    case _ =>
  }

  /** FromIndexOfIndex for the values 35 to 41. */
  lemma FromIndexOfIndexPart5(m: MacroName)
    requires 35 <= Index(m) < 42
    ensures FromIndex(Index(m)) == m
  {
    match m
    case NeedScaleByLifeTime =>
    case NeedFadeIn =>
    case NeedFadeOut =>
    case Is2d =>
    case ShadowMapCount =>
    case CubeShadowMapCount =>
    case TotalCount =>
    case _ =>
  }
  /** FromIndex inverts Index. */
  lemma FromIndexOfIndex(m: MacroName)
    ensures FromIndex(Index(m)) == m
  {
    var i := Index(m);
    if i < 7 { FromIndexOfIndexPart0(m); }
    else if i < 14 { FromIndexOfIndexPart1(m); }
    else if i < 21 { FromIndexOfIndexPart2(m); }
    else if i < 28 { FromIndexOfIndexPart3(m); }
    else if i < 35 { FromIndexOfIndexPart4(m); }
    else { FromIndexOfIndexPart5(m); }
  }

  /** Index inverts FromIndex: the values 0..TOTAL_COUNT are contiguous. */
  lemma IndexOfFromIndex(i: nat)
    requires i <= TotalCountIndex
    ensures Index(FromIndex(i)) == i
  {
  }

  /** Enumerators are distinct. */
  lemma IndexInjective(a: MacroName, b: MacroName)
    ensures Index(a) == Index(b) ==> a == b
  {
    FromIndexOfIndex(a);
    FromIndexOfIndex(b);
  }

  /** TOTAL_COUNT is the number of real macros: every other value is below it. */
  lemma TotalCountBounds(m: MacroName)
    ensures m != TotalCount <==> Index(m) < Index(TotalCount)
  {
  }

  /** The enumerators that hold an integer constant, TOTAL_COUNT included. */
  predicate IsCountKind(m: MacroName) {
    m.JointsCount? || m.DirectLightCount? || m.PointLightCount? || m.SpotLightCount? ||
    m.ShadowMapCount? || m.CubeShadowMapCount? || m.TotalCount?
  }

  /** CountMacros for the values 0 to 6. */
  lemma CountMacrosPart0(m: MacroName)
    requires 0 <= Index(m) < 7
    ensures IsCountKind(m) <==> IsCountName(Name(m))
  {
    match m
    case HasUv =>
    case HasNormal =>
    case HasTangent =>
    case HasVertexcolor =>
    case HasBlendshape =>
    case HasBlendshapeTexture =>
    case HasBlendshapeNormal =>
    case _ =>
  }

  /** CountMacros for the values 7 to 13. */
  lemma CountMacrosPart1(m: MacroName)
    requires 7 <= Index(m) < 14
    ensures IsCountKind(m) <==> IsCountName(Name(m))
  {
    match m
    case HasBlendshapeTangent =>
    case HasSkin =>
    case HasJointTexture =>
    case JointsCount =>
    case NeedAlphaCutoff =>
    case NeedWorldpos =>
    case NeedTilingoffset =>
    case _ =>
  }

  /** CountMacros for the values 14 to 20. */
  lemma CountMacrosPart2(m: MacroName)
    requires 14 <= Index(m) < 21
    ensures IsCountKind(m) <==> IsCountName(Name(m))
  {
    match m
    case HasDiffuseTexture =>
    case HasSpecularTexture =>
    case HasEmissiveTexture =>
    case HasNormalTexture =>
    case OmitNormal =>
    case HasBaseTexture =>
    case HasBaseColormap =>
    case _ =>
  }

  /** CountMacros for the values 21 to 27. */
  lemma CountMacrosPart3(m: MacroName)
    requires 21 <= Index(m) < 28
    ensures IsCountKind(m) <==> IsCountName(Name(m))
  {
    match m
    case HasEmissivemap =>
    case HasOcclusionmap =>
    case HasSpecularglossinessmap =>
    case HasMetalroughnessmap =>
    case IsMetallicWorkflow =>
    case DirectLightCount =>
    case PointLightCount =>
    case _ =>
  }

  /** CountMacros for the values 28 to 34. */
  lemma CountMacrosPart4(m: MacroName)
    requires 28 <= Index(m) < 35
    ensures IsCountKind(m) <==> IsCountName(Name(m))
  {
    match m
    case SpotLightCount =>
    case HasSh =>
    case HasSpecularEnv =>
    case HasDiffuseEnv =>
    case HasParticleTexture =>
    case NeedRotateToVelocity =>
    case NeedUseOriginColor =>
    case _ =>
  }

  /** CountMacros for the values 35 to 41. */
  lemma CountMacrosPart5(m: MacroName)
    requires 35 <= Index(m) < 42
    ensures IsCountKind(m) <==> IsCountName(Name(m))
  {
    match m
    case NeedScaleByLifeTime =>
    case NeedFadeIn =>
    case NeedFadeOut =>
    case Is2d =>
    case ShadowMapCount =>
    case CubeShadowMapCount =>
    case TotalCount =>
    case _ =>
  }

  /** Exactly the count kinds, TOTAL_COUNT included, carry the `_COUNT` suffix. */
  lemma CountMacros(m: MacroName)
    ensures IsCountKind(m) <==> IsCountName(Name(m))
  {
    var i := Index(m);
    if i < 7 { CountMacrosPart0(m); }
    else if i < 14 { CountMacrosPart1(m); }
    else if i < 21 { CountMacrosPart2(m); }
    else if i < 28 { CountMacrosPart3(m); }
    else if i < 35 { CountMacrosPart4(m); }
    else { CountMacrosPart5(m); }
  }
}
