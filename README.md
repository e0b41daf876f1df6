# DigitalArche core, modelled in Dafny

This project models the engine logic at the centre of the DigitalArche
rendering/animation engine and proves properties of the model. The C++
code works by mutating objects, and the model keeps that form. Each such
entity is a Dafny `class` whose methods change its fields. Every method's
`ensures` ties the new state to a pure function of the old state, and the
properties are proved as lemmas about those functions.

| file | module | what it models |
|---|---|---|
| `region.dfy` | `Regions` | The inclusive integer voxel box `Region`: its derived width, voxel count, centre and stride; inclusive point and region containment with a boundary; validity; the corner setters; `shift`/`shrink`; the free `intersects` |
| `animator_clip.dfy` | `AnimatorClips` | One animation clip (`AnimatorClip` / `AnimatorState`): the time ratio, wrapped into [0,1) when looping and clamped to [0,1] otherwise; the previous ratio; `_update`, which advances by dt·speed/duration and samples; `reset`; resizing the joint buffers |
| `animator_blending.dfy` | `AnimatorBlendings` | The orchestrator: it adds clips sized to the skeleton, and in `update` advances every clip once, splits their locals into normal and additive layers in clip order, and runs the blend job once |
| `track_triggering.dfy` | `TrackTriggering` | The iterator of the track-triggering job: identity, the end sentinel, the default iterator, post-increment, dereference, and the rising/falling edge rule for a threshold and a traversal direction |
| `macro_name.dfy` | `MacroNames` | The contiguous `MacroName` enumeration: indices, the `TOTAL_COUNT` bound, spellings, and the `_COUNT` naming convention |
| `shader_macros.dfy` | `ShaderMacros` | `ShaderMacroCollection`, a map from macro key to constant: `contains`, `macroConstant`, both `enableMacro` overloads, `disableMacro`, `unionCollection` |
| `pbr_frag.dfy` | `PbrFragments` | `WGSLPbrFrag::operator()`, which appends WGSL fragments chosen by four macros; the text is specified exactly, fragment by fragment |
| `pbr_specular_material.dfy` | `PbrSpecularMaterials` | `PBRSpecularMaterial`: the specular colour and glossiness block; the specular-glossiness texture, and the define that follows it |
| `surface_set.dfy` | `SurfaceSets` | `SurfaceSet3`: the surface list, its unbounded sub-list, the lazily rebuilt BVH's bookkeeping, and the `isBounded`/`isValidGeometry`/`isInsideLocal` scans |
| `buffer_mesh.dfy` | `BufferMeshes` | `BufferMesh`: the instance count, vertex-buffer slots padded with empty entries, and the index-buffer binding |
| `drag_scalars.dfy` | `DragScalars` | `DragMultipleScalars`: the constructor's fill and the in-place clamp step on a fixed-size array |
| `depth_state.dfy` | `DepthStates` | `DepthState::platformApply`, a guarded write into a depth-stencil descriptor |
| `min_mesh_node.dfy` | `MinMeshNodes` | `MinMeshCoordinatesNode`: three output pins, and `evaluate`, which dispatches on a pin id |
| `wrappers.dfy` | `Wrappers` | `Option`, which models `std::optional` and values that may be null |

Modelling conventions:

- Integers are unbounded. C++ `/ 2` on a signed width rounds toward zero, and is written out as `Regions.TruncHalf`.
- `float`/`double` values are `real`.
- Strings are `seq<char>`.
- A GPU texture or buffer is modelled by its identity.
- Collaborators whose code is not part of this model become parameters:
  - a clip's sampling job writes a given `sample`;
  - loading an animation yields a `loaded` flag and a duration;
  - a surface's `isInside(point)` answer is a function `inside`;
  - pin ids are passed to the node's constructor.

The comment on `intersects` (vox.geometry/region.h:598-600) says regions that
merely touch do not intersect. With bounds that include their end
coordinates, two regions with a common face share voxels. The code counts
them as intersecting, and regions whose faces are one voxel apart as not
intersecting. The model follows the code (`Regions.SharedFaceIntersects`, `Regions.AdjacentDoNotIntersect`).

## Model

| member | source | states |
|---|---|---|
| Regions.TruncHalf | vox.geometry/region.h:390-397 | the centre's half-width rounds toward zero: the doubled result is w or differs from it by one, toward zero, for either sign |
| Regions.Region.Default | vox.geometry/region.h:375-379 | the default region has both corners at the origin, width 0, voxels 1 per axis, centre 0 and stride 0 |
| Regions.Region.constructor | vox.geometry/region.h:390-397 | the corners are the six given coordinates; width = maxs − mins, voxels = width + 1, centre = mins + width/2 (truncated) and stride = voxels.x · voxels.y |
| Regions.Region.Uniform | vox.geometry/region.h:368-370 | equals the six-coordinate region with every lower coordinate lo and every upper coordinate hi |
| Regions.Region.Update | vox.geometry/region.h:194 | keeps both corners and recomputes every derived field as the constructor does (assumed: the body is not shown) |
| Regions.Region.Equal | vox.geometry/region.h:405-408 | true exactly when both corners agree; the derived fields are not compared |
| Regions.Region.NotEqual | vox.geometry/region.h:416-418 | exactly the negation of Equal |
| Regions.Region.ContainsPoint | vox.geometry/region.h:443-446 | a point is contained iff each coordinate passes the per-axis test; each test is inclusive and narrowed on both sides by the boundary (region.h:466-468, 488-490, 510-512) |
| Regions.Region.ContainsPointInX | vox.geometry/region.h:466-468 | x passes iff it is at least boundary voxels from both x faces; a passing x lies within the inclusive bounds |
| Regions.Region.ContainsPointInY | vox.geometry/region.h:488-490 | y passes iff it is at least boundary voxels from both y faces; a passing y lies within the inclusive bounds |
| Regions.Region.ContainsPointInZ | vox.geometry/region.h:510-512 | z passes iff it is at least boundary voxels from both z faces; a passing z lies within the inclusive bounds |
| Regions.Region.ContainsRegion | vox.geometry/region.h:521-524 | for a valid reg: contained with boundary b iff both of reg's corners are contained with boundary b |
| Regions.Region.IsValid | vox.geometry/region.h:526-528 | valid iff the region contains its own lower corner |
| Regions.Intersects | vox.geometry/region.h:601-612 | when two valid regions intersect, the point made of the larger lower coordinates lies in both |
| Regions.Region.SetLowerX | vox.geometry/region.h:323-326 | only the lower x changes; the upper corner is kept and the derived fields are recomputed |
| Regions.Region.SetLowerY | vox.geometry/region.h:331-334 | only the lower y changes; the upper corner is kept and the derived fields are recomputed |
| Regions.Region.SetLowerZ | vox.geometry/region.h:339-342 | only the lower z changes; the upper corner is kept and the derived fields are recomputed |
| Regions.Region.SetUpperX | vox.geometry/region.h:347-350 | only the upper x changes; the lower corner is kept and the derived fields are recomputed |
| Regions.Region.SetUpperY | vox.geometry/region.h:355-358 | only the upper y changes; the lower corner is kept and the derived fields are recomputed |
| Regions.Region.SetUpperZ | vox.geometry/region.h:363-366 | only the upper z changes; the lower corner is kept and the derived fields are recomputed |
| Regions.Region.ShiftLowerCorner | vox.geometry/region.h:545-550 | the amount is added to the lower corner only |
| Regions.Region.ShiftUpperCorner | vox.geometry/region.h:557-562 | the amount is added to the upper corner only |
| Regions.Region.Shift | vox.geometry/region.h:535-538 | the same amount is added to both corners, so width and voxel counts are unchanged |
| Regions.Region.ShrinkBy | vox.geometry/region.h:587-596 | each lower coordinate grows and each upper one drops by that axis's amount, so each width drops by twice the amount |
| Regions.Region.Shrink | vox.geometry/region.h:569-578 | the same as ShrinkBy with one amount on all three axes: each width drops by 2a |
| Regions.DefaultIsNotDerived | vox.geometry/region.h:375-379 | the default region's stride 0 differs from voxels.x · voxels.y = 1, so the constructor's derived-field relation is not an invariant of every region |
| Regions.EqualRegionsAgree | vox.geometry/region.h:405-408 | two equal regions whose derived fields are up to date agree on width, voxels, centre and stride |
| Regions.CenterInside | vox.geometry/region.h:390-397 | the centre of a valid, up-to-date region lies inside it |
| Regions.BoundaryNarrows | vox.geometry/region.h:466-512 | a larger boundary accepts fewer points: containment with b2 implies containment with any b1 ≤ b2 |
| Regions.ContainsCorners | vox.geometry/region.h:443-446 | a valid region contains both its corners (the bounds are inclusive) |
| Regions.ValidIffNonEmpty | vox.geometry/region.h:526-528 | isValid holds iff the region contains at least one point |
| Regions.ContainsItself | vox.geometry/region.h:521-524 | every region contains itself with boundary 0 |
| Regions.ContainsRegionSound | vox.geometry/region.h:521-524 | if outer contains reg with boundary b, every point of reg is in outer with boundary b |
| Regions.ContainsRegionComplete | vox.geometry/region.h:521-524 | a valid reg whose two corners are in outer with boundary b is contained in outer with boundary b |
| Regions.IntersectsSymmetric | vox.geometry/region.h:601-612 | intersects(a, b) equals intersects(b, a) |
| Regions.IntersectsIffCommonPoint | vox.geometry/region.h:601-612 | two valid regions intersect iff they share a point |
| Regions.AdjacentDoNotIntersect | vox.geometry/region.h:601-612 | regions separated on x (a's upper x + 1 = b's lower x) do not intersect |
| Regions.SharedFaceIntersects | vox.geometry/region.h:598-612 | valid regions sharing an x face count as intersecting, whatever the comment says |
| AnimatorClips.Resized | vox.render/animation/animator_state.cpp:51-54 | std::vector::resize: length n, the old prefix is kept and new elements are value-initialised |
| AnimatorClips.Wrap | vox.render/animation/animator_state.cpp:80-83 | r − floor(r) lies in [0,1), differs from r by an integer, and is the identity on [0,1) |
| AnimatorClips.Clamp01 | vox.render/animation/animator_state.cpp:84-86 | the result is in [0,1]; it is r inside the interval, 0 below it and 1 above it |
| AnimatorClips.NextRatio | vox.render/animation/animator_state.cpp:78-88 | the stored ratio, wrapped or clamped, always lies in the unit interval |
| AnimatorClips.NewClip | vox.render/animation/animator_clip.h:21-30 | a new clip is valid, playing and looping, with ratio 0 and no locals |
| AnimatorClips.WithNumSoaJoints | vox.render/animation/animator_state.cpp:51-54 | the locals and the sampling output that views them have length exactly n; validity is kept |
| AnimatorClips.WithNumJoints | vox.render/animation/animator_state.cpp:56-58 | the sampling context is sized to n and the locals are untouched; validity is kept |
| AnimatorClips.AnimatorClip.constructor | vox.render/animation/animator_state.cpp:15-21 | blend mode Normal, speed 1, play and loop on, both ratios 0, empty buffers; the animation is bound iff it was loaded (animator_clip.h:17-30, 76-81) |
| AnimatorClips.AnimatorClip.TimeRatio | vox.render/animation/animator_state.cpp:90 | the time ratio of a valid clip lies in [0,1] (animator_clip.h:76-78) |
| AnimatorClips.AnimatorClip.PreviousTimeRatio | vox.render/animation/animator_state.cpp:92 | the previous ratio of a valid clip lies in [0,1] |
| AnimatorClips.AnimatorClip.SetTimeRatio | vox.render/animation/animator_state.cpp:78-88 | the old ratio becomes the previous ratio; the new one is r − floor(r) when looping, else r clamped to [0,1] |
| AnimatorClips.AnimatorClip.Update | vox.render/animation/animator_state.cpp:60-76 | the new state is Advanced(old state): the ratio advances by dt·speed/duration only while playing; the sampler runs at the new ratio only when an animation is bound |
| AnimatorClips.AnimatorClip.Reset | vox.render/animation/animator_state.cpp:94-98 | both ratios become 0, speed 1 and play on; everything else, loop included, is kept |
| AnimatorClips.AnimatorClip.SetNumSoaJoints | vox.render/animation/animator_state.cpp:51-54 | the new state resizes the locals and the sampling output to n |
| AnimatorClips.AnimatorClip.SetNumJoints | vox.render/animation/animator_state.cpp:56-58 | the new state resizes the sampling context to n |
| AnimatorClips.WrapIdempotent | vox.render/animation/animator_state.cpp:80-83 | wrapping twice is wrapping once |
| AnimatorClips.WrapExamples | vox.render/animation/animator_state.cpp:80-86 | 1.25 wraps to 0.25, −0.25 wraps to 0.75, and 1.25 clamps to 1 |
| AnimatorClips.WrapUnique | vox.render/animation/animator_state.cpp:80-83 | the wrapped ratio is the only value in [0,1) that differs from r by an integer |
| AnimatorClips.AdvancedKeepsValid | vox.render/animation/animator_state.cpp:60-76 | an update keeps the clip valid, records the old ratio as previous, and leaves the ratio in [0,1] |
| AnimatorClips.AdvancedSamplesTimeRatio | vox.render/animation/animator_state.cpp:72-75 | the sampling ratio equals the new time ratio; the sampler runs, and writes the locals, iff an animation is bound |
| AnimatorClips.PausedKeepsRatio | vox.render/animation/animator_state.cpp:60-71 | while paused, previous becomes the current ratio and the ratio is kept, except that a looping ratio of exactly 1 wraps to 0 |
| AnimatorClips.PlayingLoopAdvances | vox.render/animation/animator_state.cpp:61-64 | while playing and looping, the new ratio is the advanced target modulo 1 |
| AnimatorClips.AdvancedKeepsSettings | vox.render/animation/animator_state.cpp:60-76 | an update does not change the blend mode, speed, play, loop, the buffer sizes, the duration or the bound animation |
| AnimatorBlendings.AdvancedAll | vox.render/animation/animator_blending.cpp:29-30 | every clip is advanced exactly once, with the same dt and its own sample, in list position |
| AnimatorBlendings.AnimatorBlending.constructor | vox.render/animation/animator_blending.cpp:11-15 | the blended output has one element per SoA joint of the skeleton; the rest pose is the skeleton's; there are no clips or layers yet |
| AnimatorBlendings.AnimatorBlending.AddAnimatorClip | vox.render/animation/animator_blending.cpp:17-23 | exactly one clip is appended at the end: a new clip whose locals are sized to the SoA joint count and whose context is sized to the joint count; its index is returned |
| AnimatorBlendings.AnimatorBlending.Update | vox.render/animation/animator_blending.cpp:25-43 | the clips become AdvancedAll(old clips); layers and additive layers are exactly the normal and the other clips' locals, in clip order; one blend run is recorded after both |
| AnimatorBlendings.AnimatorBlending.SetThreshold | vox.render/animation/animator_blending.cpp:45-47 | threshold() returns the value last set |
| AnimatorBlendings.AnimatorBlending.Threshold | vox.render/animation/animator_blending.cpp:45 | the blend job's threshold; AnimatorBlendings.AnimatorBlending.SetThreshold states that it returns the value last set |
| AnimatorBlendings.LayerCounts | vox.render/animation/animator_blending.cpp:25-39 | the two layer lists together have exactly one entry per clip |
| AnimatorBlendings.NormalLayerMembership | vox.render/animation/animator_blending.cpp:34-35 | a locals buffer is a normal layer iff some Normal clip has it |
| AnimatorBlendings.AdditiveLayerMembership | vox.render/animation/animator_blending.cpp:36-37 | a locals buffer is an additive layer iff some non-Normal clip has it |
| AnimatorBlendings.AllNormal | vox.render/animation/animator_blending.cpp:33-38 | with only Normal clips, the layers are all the clips' locals in order and there are no additive layers |
| AnimatorBlendings.AppendClip | vox.render/animation/animator_blending.cpp:33-38 | appending a clip appends its locals to exactly one of the two lists, chosen by its blend mode |
| AnimatorBlendings.AddedClipFits | vox.render/animation/animator_blending.cpp:17-22 | an added clip fits the skeleton, blends normally, starts at ratio 0, and has locals of the skeleton's SoA size |
| AnimatorBlendings.AdvancedAllKeepsModes | vox.render/animation/animator_blending.cpp:29-38 | advancing keeps every clip fitted to the skeleton and keeps the number of normal layers |
| AnimatorBlendings.SameModesSameNormalCount | vox.render/animation/animator_blending.cpp:33-38 | clip lists with the same blend modes position by position have equally many normal layers |
| TrackTriggering.TrackTriggeringJob.constructor | vox.animation/runtime/track_triggering_job.h:38-53 | the job holds the given from, to and threshold |
| TrackTriggering.TrackTriggeringJob.End | vox.animation/runtime/track_triggering_job.h:115-117 | end() is the iterator with job this, outer 0 and inner −2 |
| TrackTriggering.IteratorValue.Equal | vox.animation/runtime/track_triggering_job.h:95-97 | equal iff the two iterators agree on everything but the current edge (job, outer, inner) |
| TrackTriggering.IteratorValue.NotEqual | vox.animation/runtime/track_triggering_job.h:92-94 | not equal iff the two iterators differ somewhere other than the current edge |
| TrackTriggering.TrackTriggeringJob.Backward | vox.animation/runtime/track_triggering_job.h:38-44 | the job runs backward iff from > to; its effect on the reported edges is stated by TrackTriggering.BackwardSwapsEdges |
| TrackTriggering.ReportedEdge | vox.animation/runtime/track_triggering_job.h:38-53 | forward traversal reports the crossing of a then b; backward traversal reports the crossing of b then a |
| TrackTriggering.DefaultIterator | vox.animation/runtime/track_triggering_job.h:79 | the default iterator has a null job, outer 0 and inner 0 |
| TrackTriggering.Deref | vox.animation/runtime/track_triggering_job.h:100-107 | dereferencing an iterator that is not at end yields its current edge |
| TrackTriggering.Iterator.constructor | vox.animation/runtime/track_triggering_job.h:79 | a new iterator holds the default iterator state |
| TrackTriggering.Iterator.PostIncrement | vox.animation/runtime/track_triggering_job.h:85-89 | returns the state as it was before the step; the iterator then holds the stepped state |
| TrackTriggering.CrossingEdge | vox.animation/runtime/track_triggering_job.h:48-53 | consecutive values a then b cross threshold t rising iff a ≤ t < b, falling iff b ≤ t < a, and not at all iff both are on the same side |
| TrackTriggering.NotEqualIsNegation | vox.animation/runtime/track_triggering_job.h:92-94 | != is exactly the negation of == |
| TrackTriggering.EqualIsEquivalence | vox.animation/runtime/track_triggering_job.h:95-97 | == is reflexive, symmetric and transitive, and ignores the current edge |
| TrackTriggering.EndIdentity | vox.animation/runtime/track_triggering_job.h:95-97 | two end() iterators of one job are equal; those of different jobs are not; iterators of different jobs are never equal |
| TrackTriggering.DefaultIsNotEnd | vox.animation/runtime/track_triggering_job.h:79 | a default iterator differs from every job's end() |
| TrackTriggering.ReversedCrossing | vox.animation/runtime/track_triggering_job.h:48-53 | swapping the two values turns a rising crossing into a falling one and back |
| TrackTriggering.BackwardSwapsEdges | vox.animation/runtime/track_triggering_job.h:38-46 | forward traversal reports the crossing as is; backward traversal (from > to) reports a rising crossing as falling and a falling one as rising |
| MacroNames.Index | vox.render/shader/internal_macro_name.h:18-76 | every index is at most TOTAL_COUNT's, and only TOTAL_COUNT has that index |
| MacroNames.FromIndex | vox.render/shader/internal_macro_name.h:18-76 | the enumerator at each position 0..41; MacroNames.FromIndexOfIndex and MacroNames.IndexOfFromIndex prove it inverse to Index |
| MacroNames.Name | vox.render/shader/internal_macro_name.h:18-76 | each enumerator's C++ spelling, used as its macro key; MacroNames.CountMacros relates it to the `_COUNT` convention |
| MacroNames.FirstIsHasUv | vox.render/shader/internal_macro_name.h:19 | HAS_UV has index 0 |
| MacroNames.FromIndexOfIndex | vox.render/shader/internal_macro_name.h:18-76 | the enumerators are consecutive: mapping an enumerator to its index and back gives the enumerator |
| MacroNames.IndexOfFromIndex | vox.render/shader/internal_macro_name.h:18-76 | every index from 0 to TOTAL_COUNT names exactly one enumerator |
| MacroNames.IndexInjective | vox.render/shader/internal_macro_name.h:18-76 | distinct enumerators have distinct indices |
| MacroNames.TotalCountBounds | vox.render/shader/internal_macro_name.h:73-75 | every real macro's index is below TOTAL_COUNT |
| MacroNames.CountMacros | vox.render/shader/internal_macro_name.h:12-17 | a macro is of the integer-constant kind iff its spelling ends in `_COUNT` |
| ShaderMacros.Enabled | vox.render/shader/shader_macro_collection.h:45-53 | the key maps to the value; every other key keeps its presence and value |
| ShaderMacros.Disabled | vox.render/shader/shader_macro_collection.h:55-59 | the key is absent; every other key keeps its presence and value |
| ShaderMacros.ConstantIn | vox.render/shader/shader_macro_collection.h:39 | there is a constant iff the key is present, and it is the stored value |
| ShaderMacros.Union | vox.render/shader/shader_macro_collection.h:30-32 | the keys are those of either side; each value comes from a side that has the key |
| ShaderMacros.ShaderMacroCollection.constructor | vox.render/shader/shader_macro_collection.h:87 | a new collection is empty |
| ShaderMacros.ShaderMacroCollection.Contains | vox.render/shader/shader_macro_collection.h:37 | true iff the key has a constant |
| ShaderMacros.ShaderMacroCollection.MacroConstant | vox.render/shader/shader_macro_collection.h:39 | the stored value when present, none otherwise |
| ShaderMacros.ShaderMacroCollection.EnableMacro | vox.render/shader/shader_macro_collection.h:45 | the key becomes present; the map changes only at that key |
| ShaderMacros.ShaderMacroCollection.EnableMacroValue | vox.render/shader/shader_macro_collection.h:53 | the key's constant becomes v; the map changes only at that key |
| ShaderMacros.ShaderMacroCollection.DisableMacro | vox.render/shader/shader_macro_collection.h:59 | the key becomes absent; the map changes only at that key |
| ShaderMacros.ShaderMacroCollection.ContainsInternal | vox.render/shader/shader_macro_collection.h:62 | the MacroName overload agrees with the string overload on the macro's key |
| ShaderMacros.ShaderMacroCollection.InternalConstant | vox.render/shader/shader_macro_collection.h:64 | the MacroName overload agrees with the string overload on the macro's key |
| ShaderMacros.ShaderMacroCollection.EnableInternal | vox.render/shader/shader_macro_collection.h:70 | the macro becomes present; nothing else changes |
| ShaderMacros.ShaderMacroCollection.EnableInternalValue | vox.render/shader/shader_macro_collection.h:78 | the macro's constant becomes v; nothing else changes |
| ShaderMacros.ShaderMacroCollection.DisableInternal | vox.render/shader/shader_macro_collection.h:84 | the macro becomes absent; nothing else changes |
| ShaderMacros.ShaderMacroCollection.UnionCollection | vox.render/shader/shader_macro_collection.h:30-32 | the result holds the union of both inputs as they were before the call |
| ShaderMacros.DisableAfterEnable | vox.render/shader/shader_macro_collection.h:45-59 | disabling a key just enabled gives the same map as disabling it at once |
| ShaderMacros.ReenableReplaces | vox.render/shader/shader_macro_collection.h:47-53 | re-enabling replaces the value: the last value wins |
| ShaderMacros.DisableIdempotent | vox.render/shader/shader_macro_collection.h:55-59 | disabling twice is disabling once, and disabling an absent key changes nothing |
| ShaderMacros.DistinctEnablesCommute | vox.render/shader/shader_macro_collection.h:87 | enabling two different keys gives the same map in either order |
| ShaderMacros.EnableDisableCommute | vox.render/shader/shader_macro_collection.h:87 | enabling one key and disabling another gives the same map in either order |
| ShaderMacros.UnionContains | vox.render/shader/shader_macro_collection.h:30-32 | the union contains a key iff either input does |
| ShaderMacros.UnionIdentities | vox.render/shader/shader_macro_collection.h:30-32 | the empty collection is a unit on both sides, and a collection united with itself is unchanged |
| ShaderMacros.UnionDisjointCommutes | vox.render/shader/shader_macro_collection.h:30-32 | the union of collections with no common key does not depend on the order |
| PbrFragments.Text | vox.render/shaderlib/functors/wgsl_pbr_frag.cpp:17-60 | the WGSL text of each fragment, with the input name substituted where the source formats it in; PbrFragments.InputOnlyInAccesses states where the name can matter |
| PbrFragments.Render | vox.render/shaderlib/functors/wgsl_pbr_frag.cpp:16-61 | the texts of a fragment list, concatenated in order; PbrFragments.RenderSnoc and PbrFragments.RenderConcat state how it composes |
| PbrFragments.PbrFragments | vox.render/shaderlib/functors/wgsl_pbr_frag.cpp:16-61 | the fragments operator() emits for four macro presences, in order; its properties are PbrFragments.OneIrradiance, PbrFragments.OcclusionPresence, PbrFragments.EmissivePresence and PbrFragments.FixedFrame |
| PbrFragments.RenderSnoc | vox.render/shaderlib/functors/wgsl_pbr_frag.cpp:16-61 | rendering one more fragment appends its text |
| PbrFragments.RenderConcat | vox.render/shaderlib/functors/wgsl_pbr_frag.cpp:16-61 | rendering two fragment lists one after the other appends their texts |
| PbrFragments.WgslPbrFrag.constructor | vox.render/shaderlib/functors/wgsl_pbr_frag.cpp:11-14 | the functor keeps the input and output structure names |
| PbrFragments.WgslPbrFrag.Apply | vox.render/shaderlib/functors/wgsl_pbr_frag.cpp:16-61 | the source is a prefix of the result; the result is the source followed by the fragments PbrFragments picks from the presence of HAS_SH, HAS_OCCLUSIONMAP, HAS_SPECULAR_ENV and HAS_EMISSIVEMAP, rendered with the input name |
| PbrFragments.WgslPbrFrag.DirectLight | vox.render/shaderlib/functors/wgsl_pbr_frag.cpp:17-23 | appends the geometry, material, reflected-light, dotNV and direct-radiance lines, in that order |
| PbrFragments.WgslPbrFrag.IblDiffuse | vox.render/shaderlib/functors/wgsl_pbr_frag.cpp:26-33 | appends the SH or the ambient irradiance line, whichever HAS_SH selects, and then the indirect diffuse line |
| PbrFragments.WgslPbrFrag.IblSpecular | vox.render/shaderlib/functors/wgsl_pbr_frag.cpp:36-37 | appends the two specular IBL lines |
| PbrFragments.WgslPbrFrag.Occlusion | vox.render/shaderlib/functors/wgsl_pbr_frag.cpp:40-46 | appends the occlusion lines when the occlusion map is present, with the specular-occlusion line when the specular environment is present too |
| PbrFragments.WgslPbrFrag.Emissive | vox.render/shaderlib/functors/wgsl_pbr_frag.cpp:49-53 | appends the emissiveRadiance declaration, then the emissive texture lines when the emissive map is present |
| PbrFragments.WgslPbrFrag.Total | vox.render/shaderlib/functors/wgsl_pbr_frag.cpp:56-60 | appends the totalRadiance block |
| PbrFragments.OneIrradiance | vox.render/shaderlib/functors/wgsl_pbr_frag.cpp:26-32 | the SH irradiance appears iff HAS_SH does, and the ambient one iff it does not: exactly one of the two |
| PbrFragments.OcclusionPresence | vox.render/shaderlib/functors/wgsl_pbr_frag.cpp:40-46 | the occlusion lines appear iff the occlusion map is present; the specular-occlusion line iff it and the specular environment both are |
| PbrFragments.EmissivePresence | vox.render/shaderlib/functors/wgsl_pbr_frag.cpp:49-53 | the emissive texture lines appear iff the emissive map is present, right after the always-emitted emissiveRadiance declaration |
| PbrFragments.FixedFrame | vox.render/shaderlib/functors/wgsl_pbr_frag.cpp:17-23 | whatever the macros, the output starts with the five direct-light fragments and ends with the five totalRadiance fragments (lines 56-60) |
| PbrFragments.InputOnlyInAccesses | vox.render/shaderlib/functors/wgsl_pbr_frag.cpp:17-51 | only the fragments that read `.v_pos`/`.v_uv` depend on the input name |
| PbrFragments.RenderIgnoresInput | vox.render/shaderlib/functors/wgsl_pbr_frag.cpp:11-14 | fragments that do not read the input render the same under any input name |
| PbrFragments.OnlyPresenceMatters | vox.render/shaderlib/functors/wgsl_pbr_frag.cpp:26-50 | two macro collections that agree on the presence of the four macros give the same fragments; no constant is read |
| PbrSpecularMaterials.Uploaded | vox.render/material/pbr_specular_material.cpp:17 | uploading records the whole data block under its property name and touches nothing else |
| PbrSpecularMaterials.Created | vox.render/material/pbr_specular_material.cpp:40-48 | a new material has the default data (white colour, glossiness 1) uploaded and no texture (pbr_specular_material.h:17-20, 53); when the base shader data lacks HAS_SPECULARGLOSSINESSMAP, the define agrees with the texture from the start |
| PbrSpecularMaterials.WithSpecularColor | vox.render/material/pbr_specular_material.cpp:15-18 | only the colour changes, and the whole block is re-uploaded |
| PbrSpecularMaterials.WithGlossiness | vox.render/material/pbr_specular_material.cpp:22-25 | only the glossiness changes, and the whole block is re-uploaded |
| PbrSpecularMaterials.WithTexture | vox.render/material/pbr_specular_material.cpp:29-38 | the texture and its sampler binding are stored; HAS_SPECULARGLOSSINESSMAP is present iff a texture is set; no other define changes |
| PbrSpecularMaterials.PbrSpecularMaterial.constructor | vox.render/material/pbr_specular_material.cpp:40-48 | the state is Created, with the blinn-phong vertex and the pbr fragment shader |
| PbrSpecularMaterials.PbrSpecularMaterial.SpecularColor | vox.render/material/pbr_specular_material.cpp:13 | returns the stored colour |
| PbrSpecularMaterials.PbrSpecularMaterial.Glossiness | vox.render/material/pbr_specular_material.cpp:20 | returns the stored glossiness |
| PbrSpecularMaterials.PbrSpecularMaterial.SpecularGlossinessTexture | vox.render/material/pbr_specular_material.cpp:27 | returns the stored texture |
| PbrSpecularMaterials.PbrSpecularMaterial.SetSpecularColor | vox.render/material/pbr_specular_material.cpp:15-18 | the new state is WithSpecularColor of the old one, and specularColor() returns the new colour |
| PbrSpecularMaterials.PbrSpecularMaterial.SetGlossiness | vox.render/material/pbr_specular_material.cpp:22-25 | the new state is WithGlossiness of the old one, and glossiness() returns the new value |
| PbrSpecularMaterials.PbrSpecularMaterial.SetSpecularGlossinessTexture | vox.render/material/pbr_specular_material.cpp:29-38 | the new state is WithTexture of the old one, and the getter returns the texture just set |
| PbrSpecularMaterials.SettersKeepInvariants | vox.render/material/pbr_specular_material.cpp:13-38 | every setter keeps the uploaded block equal to the data, and keeps the define in step with the texture |
| PbrSpecularMaterials.DefineFollowsTexture | vox.render/material/pbr_specular_material.cpp:29-38 | after setting a texture t, the define is present iff t is non-null, and later scalar setters keep that |
| PbrSpecularMaterials.ColorLastWriteWins | vox.render/material/pbr_specular_material.cpp:13-18 | the last colour set is the one kept |
| PbrSpecularMaterials.GlossinessLastWriteWins | vox.render/material/pbr_specular_material.cpp:20-25 | the last glossiness set is the one kept |
| PbrSpecularMaterials.TextureLastWriteWins | vox.render/material/pbr_specular_material.cpp:27-38 | the last texture set decides the texture, its binding and the define |
| PbrSpecularMaterials.ScalarSettersCommute | vox.render/material/pbr_specular_material.cpp:15-25 | each scalar setter writes only its own field, so the two commute |
| SurfaceSets.Unbounded | vox.geometry/surface_set3.cpp:15-23 | the unbounded list only holds unbounded members of the surfaces |
| SurfaceSets.Bounded | vox.geometry/surface_set3.cpp:206-212 | the BVH items are bounded members of the surfaces |
| SurfaceSets.SurfaceSet3.Empty | vox.geometry/surface_set3.cpp:13 | no surfaces; the BVH is to be built |
| SurfaceSets.SurfaceSet3.constructor | vox.geometry/surface_set3.cpp:15-23 | the surfaces are the given ones, the unbounded list is their unbounded sub-list in order, and the BVH is invalidated |
| SurfaceSets.SurfaceSet3.Copy | vox.geometry/surface_set3.cpp:25-28 | both lists are copied, the copy is consistent if the original is, and its BVH is invalidated |
| SurfaceSets.SurfaceSet3.IsBounded | vox.geometry/surface_set3.cpp:35-45 | true iff the set is non-empty and every surface is bounded |
| SurfaceSets.SurfaceSet3.IsValidGeometry | vox.geometry/surface_set3.cpp:47-57 | true iff the set is non-empty and every surface has valid geometry |
| SurfaceSets.SurfaceSet3.NumberOfSurfaces | vox.geometry/surface_set3.cpp:59 | the number of surfaces |
| SurfaceSets.SurfaceSet3.SurfaceAt | vox.geometry/surface_set3.cpp:61 | the i-th surface |
| SurfaceSets.SurfaceSet3.AddSurface | vox.geometry/surface_set3.cpp:63-69 | the surface is appended, and also appended to the unbounded list iff it is unbounded; the BVH is invalidated and the lists stay consistent |
| SurfaceSets.SurfaceSet3.IsInsideLocal | vox.geometry/surface_set3.cpp:190-198 | true iff some surface reports the point inside; an empty set contains nothing |
| SurfaceSets.SurfaceSet3.InvalidateBvh | vox.geometry/surface_set3.cpp:200 | sets the flag and changes nothing else |
| SurfaceSets.SurfaceSet3.BuildBvh | vox.geometry/surface_set3.cpp:202-215 | when invalidated, rebuilds from exactly the bounded surfaces in order; otherwise leaves the BVH alone; the flag is clear afterwards |
| SurfaceSets.SurfaceSet3.UpdateQueryEngine | vox.geometry/surface_set3.cpp:30-33 | always rebuilds the BVH from the bounded surfaces |
| SurfaceSets.UnboundedConcat | vox.geometry/surface_set3.cpp:15-23 | the unbounded sub-list of a concatenation is the concatenation of the sub-lists |
| SurfaceSets.BoundedConcat | vox.geometry/surface_set3.cpp:206-212 | the bounded sub-list of a concatenation is the concatenation of the sub-lists |
| SurfaceSets.PartitionIsPermutation | vox.geometry/surface_set3.cpp:206-212 | the BVH items and the unbounded list together are a permutation of the surfaces |
| SurfaceSets.UnboundedMembership | vox.geometry/surface_set3.cpp:63-69 | a surface is in the unbounded list iff it is one of the surfaces and is unbounded |
| SurfaceSets.AllBoundedIffNoUnbounded | vox.geometry/surface_set3.cpp:35-45 | every surface is bounded iff the unbounded list is empty |
| SurfaceSets.AddSurfaceAgreesWithConstructor | vox.geometry/surface_set3.cpp:15-23 | adding surfaces one by one keeps the same unbounded list as constructing from all of them (lines 63-69) |
| BufferMeshes.Empties | vox.render/mesh/buffer_mesh.cpp:37-39 | n empty slots |
| BufferMeshes.Padded | vox.render/mesh/buffer_mesh.cpp:47-50 | the list is extended with empty slots up to length n, and only when it is shorter; existing slots are kept |
| BufferMeshes.StoredAll | vox.render/mesh/buffer_mesh.cpp:51-55 | buffer k is at slot first + k, and every other slot is unchanged |
| BufferMeshes.BufferMesh.InstanceCount | vox.render/mesh/buffer_mesh.cpp:10-12 | returns the stored instance count |
| BufferMeshes.BufferMesh.SetInstanceCount | vox.render/mesh/buffer_mesh.cpp:14-16 | instanceCount() returns the value last set; nothing else changes |
| BufferMeshes.BufferMesh.PadTo | vox.render/mesh/buffer_mesh.cpp:47-50 | the slot list becomes Padded(old list, n) |
| BufferMeshes.BufferMesh.SetVertexBufferBinding | vox.render/mesh/buffer_mesh.cpp:34-42 | corrected padding (see Findings): slot index holds the buffer, existing slots are kept, and the new slots stay empty |
| BufferMeshes.BufferMesh.SetVertexBufferBindings | vox.render/mesh/buffer_mesh.cpp:44-56 | pads to first + |bs| and stores bs[k] at slot first + k |
| BufferMeshes.BufferMesh.SetIndexBufferBinding | vox.render/mesh/buffer_mesh.cpp:58-60 | stores a binding with exactly that buffer and format |
| BufferMeshes.BufferMesh.SetOptionalIndexBufferBinding | vox.render/mesh/buffer_mesh.cpp:62-64 | stores the optional binding; none clears it |
| BufferMeshes.AsWrittenMissesSlot | vox.render/mesh/buffer_mesh.cpp:36-41 | as written, the padding of a list no longer than index stops at length index, so slot index does not exist |
| BufferMeshes.AsWrittenEmptyMesh | vox.render/mesh/buffer_mesh.cpp:36-41 | on an empty mesh with index 0 the written padding adds nothing, so no slot 0 exists |
| BufferMeshes.CorrectedPaddingHasSlot | vox.render/mesh/buffer_mesh.cpp:34-42 | padding to index + 1 always provides slot index, and never gives fewer slots than the written padding |
| BufferMeshes.SingleIsMultiOfOne | vox.render/mesh/buffer_mesh.cpp:34-56 | the corrected single-slot setter equals the multi-slot setter with a one-element list |
| BufferMeshes.PaddingComposes | vox.render/mesh/buffer_mesh.cpp:47-50 | padding twice pads to the larger length |
| BufferMeshes.MultiSetFrame | vox.render/mesh/buffer_mesh.cpp:47-55 | after the multi-set, existing slots outside the written range are untouched and new slots outside it stay empty |
| DragScalars.Clamped | vox.render/ui/widgets/drags/drag_multiple_scalars.h:50-55 | every value lies in [lo, hi]; values in range are unchanged, values below become lo, and values above become hi |
| DragScalars.RaisedMax | vox.render/ui/widgets/drags/drag_multiple_scalars.h:47-48 | max is raised to min when below it, and kept otherwise |
| DragScalars.DragMultipleScalars.constructor | vox.render/ui/widgets/drags/drag_multiple_scalars.h:33-43 | the array has _Size ≥ 2 elements, all equal to the given value; the other settings are stored (line 20) |
| DragScalars.DragMultipleScalars.ClampStep | vox.render/ui/widgets/drags/drag_multiple_scalars.h:47-55 | min is unchanged, max is raised to min if needed, and the array becomes the clamped old array; other fields are unchanged |
| DragScalars.Step | vox.render/ui/widgets/drags/drag_multiple_scalars.h:47-55 | after the step, min ≤ max and every value lies between them |
| DragScalars.ClampedIdempotent | vox.render/ui/widgets/drags/drag_multiple_scalars.h:50-55 | clamping twice into one interval is clamping once |
| DragScalars.StepIdempotent | vox.render/ui/widgets/drags/drag_multiple_scalars.h:46-55 | running the clamp step twice gives the same bounds and array as running it once |
| DragScalars.InRangeUnchanged | vox.render/ui/widgets/drags/drag_multiple_scalars.h:50-55 | bounds and values that are already in order are left unchanged |
| DepthStates.Applied | vox.render/shader/state/depth_state.cpp:10-18 | when enabled, the compare function and the write flag are written; when disabled, the descriptor is unchanged; no other field is ever written |
| DepthStates.DepthStencilState.constructor | vox.render/shader/state/depth_state.cpp:10 | the descriptor holds the given fields |
| DepthStates.DepthState.constructor | vox.render/shader/state/depth_state.cpp:11-16 | the state holds the given enabled flag, compare function and write flag |
| DepthStates.DepthState.PlatformApply | vox.render/shader/state/depth_state.cpp:10-18 | a non-null descriptor becomes Applied(its old fields); a null one is left alone |
| DepthStates.ApplyIdempotent | vox.render/shader/state/depth_state.cpp:10-18 | applying twice is applying once |
| DepthStates.LastApplyWins | vox.render/shader/state/depth_state.cpp:11-16 | the last enabled state applied decides both depth fields |
| DepthStates.AppliedMatchesState | vox.render/shader/state/depth_state.cpp:11-16 | the descriptor ends up carrying the state's values iff the state is enabled or they were there already |
| MinMeshNodes.FirstMatch | editor/node_editor/nodes/min_mesh_coordinates_node.cpp:22-28 | the first of the three pins, in order 0, 1, 2, whose id matches; none when no pin matches |
| MinMeshNodes.NodeEditorPin.constructor | editor/node_editor/nodes/min_mesh_coordinates_node.cpp:12-17 | the pin has the given id and kind |
| MinMeshNodes.MinMeshCoordinatesNode.PinIds | editor/node_editor/nodes/min_mesh_coordinates_node.cpp:22-27 | the output pins' ids, in order |
| MinMeshNodes.MinMeshCoordinatesNode.constructor | editor/node_editor/nodes/min_mesh_coordinates_node.cpp:12-17 | exactly three fresh output pins, in order |
| MinMeshNodes.MinMeshCoordinatesNode.Evaluate | editor/node_editor/nodes/min_mesh_coordinates_node.cpp:19-29 | the coordinate of the first matching pin (minX, minY or minZ), or an empty output; a function of the node, so nothing is modified |
| MinMeshNodes.DistinctPinsAnswerTheirAxis | editor/node_editor/nodes/min_mesh_coordinates_node.cpp:19-27 | with distinct ids, asking pin k gives coordinate k |
| MinMeshNodes.ForeignPinEmpty | editor/node_editor/nodes/min_mesh_coordinates_node.cpp:28 | an id that matches no pin yields an empty output |
| MinMeshNodes.EvaluateShape | editor/node_editor/nodes/min_mesh_coordinates_node.cpp:19-29 | every answer has at most one value, and a value is one of the three coordinates |

## Left out

- Regions.Region.Update: the body of `update()` is not shown. It is assumed to recompute width, voxels, centre and stride as the six-coordinate constructor does.
- Regions.Region.Default: the default region does not satisfy `Derived()`, because its stride is 0. So `Derived()` is not a class invariant: each setter, shift and shrink promises it afterwards, and none requires it beforehand.
- Region: these are left out because their bodies are not shown: the `Point3I` constructor, `accumulate`, `cropTo`, `grow`, `moveInto`, `setLowerCorner`/`setUpperCorner`, the `Point3I` overloads of `containsPoint`, and the operators `+=`/`-=`.
- Region: also left out are the float `containsPoint*` overloads, `_pivot` (float floor), `getRandomPosition` (random numbers), and `toString`/`logRegion` (text output).
- Regions: coordinates are unbounded integers. Overflow of the 64-bit signed coordinates is not modelled.
- AnimatorClips.AnimatorClip.Update: it requires a positive duration while playing. The source divides by the duration and does not guard a zero one.
- AnimatorClips: `loadAnimation` is modelled by its outcome only (a `loaded` flag and a duration), because file and archive I/O is outside the model.
- AnimatorClips: the move constructor and the empty move assignment are left out. Values are copied by value in the model.
- AnimatorClips: `SamplingJob::Run` is an external collaborator and is modelled only by the sample it writes and the ratio it is given.
- AnimatorBlendings.AnimatorBlending.AddAnimatorClip: it returns the new clip's index, not a reference to it. A reference into a vector needs aliasing, which the value model does not have.
- AnimatorBlendings.AnimatorBlending.Update: a blending holding a playing clip of duration 0 is outside the model. A failed load produces such a clip, because every new clip plays. The source divides by the duration there (animator_state.cpp:64), which gives a non-finite ratio that real arithmetic cannot represent; the other clips' behaviour in that frame is therefore not covered either.
- AnimatorBlendings.AnimatorBlending.AddAnimatorClip: earlier clips are assumed to survive the append intact. If `_clips` is a `std::vector`, a growing `emplace_back` moves them through the move constructor. `AnimatorClip`'s move constructor is only declared (animator_clip.h:35). The analogous `AnimatorState` one (animator_state.cpp:23-27) keeps only the time ratio and the animation, and would leave a moved clip with empty locals and default settings. The container type is not part of this model.
- AnimatorBlendings: `BlendingJob::Run` (quaternion and SoA blending) is recorded only as the layers and threshold it receives.
- TrackTriggering: `Validate`, `Run` and `Iterator::operator++` are only declared. TrackTriggering.Iterator.PostIncrement therefore takes the stepped state as a parameter, and the keyframe scan is not modelled.
- TrackTriggering.CrossingEdge: it states the documented threshold rule for two consecutive values. How `Run` interpolates between keyframes is not modelled.
- ShaderMacros: keys are the macros' spellings (`Name`), not `size_t` hashes. Hash collisions and `_internalMacroHashValue` are not modelled.
- ShaderMacros: `hash()` is only declared, so it is left out.
- ShaderMacros: the collection's method bodies are not part of this model; only the header's declarations and comments are. Three behaviours are taken from the header's documentation and the `std::map` storage: enabling overwrites an existing entry, disabling erases it, and `unionCollection` replaces `result`'s earlier contents with the union.
- ShaderMacros.ShaderMacroCollection.EnableMacro: the value-less overload stores the constant 1.0 as a placeholder. The model's contract only promises presence, and its value is not part of what is promised.
- ShaderMacros.ShaderMacroCollection.UnionCollection: the right operand's value wins on a shared key. The source does not say which side wins, so `Union`'s contract promises only that the value comes from one of the two sides.
- PbrFragments: `fmt::format` is modelled as concatenation with the substituted input name. The WGSL text is carried as literals, so the model does not check that it is valid WGSL.
- PbrFragments: the `_output` name is stored but never used, as in the source.
- PbrSpecularMaterials: `ShaderData` is modelled as a record of which block, texture binding and define were handed over. The GPU upload itself, and the base material's state, are left out.
- PbrSpecularMaterials: `ShaderManager::LoadShader` is modelled by the shader path it is asked for.
- SurfaceSets: closest-point, normal, intersection and bounding-box queries, and the BVH class itself, are left out. They depend on double-precision geometry that is not part of this model, and the BVH is modelled by the list it was built from.
- SurfaceSets: the `Builder` and the transform/normal-flip arguments are left out.
- SurfaceSets.SurfaceSet3.Empty: the header's initial value of `_bvhInvalidated` is not shown. It is taken to be true, as every other constructor sets it.
- BufferMeshes: the base-class stores `_setVertexBufferBinding`/`_setIndexBufferBinding` are not shown. The vertex store is taken to write the slot in place.
- BufferMeshes.BufferMesh.constructor: no BufferMesh constructor or field initialiser is part of this model. The initial state (no vertex slots and no index binding) is assumed, so the constructor has no row above.
- BufferMeshes: the getters and `setVertexLayouts` are left out, because they only forward to the mesh base class.
- DragScalars: the element type T is modelled as `real`.
- DragScalars: the ImGui drag call and the value-changed event are outside the model.
- DepthStates: the descriptor's many other fields are represented by the format, the stencil masks and the depth bias.
- MinMeshNodes: pin-id allocation in the pin constructor is outside the model, so the ids are parameters.
- MinMeshNodes: `onRender` (ImGui drawing) is left out.

## Findings

| source | as written | input that shows it | evidently intended | confidence | as-written member | corrected member |
|---|---|---|---|---|---|---|
| vox.render/mesh/buffer_mesh.cpp:34-42 | `setVertexBufferBinding(buffer, index)` pads the slot list with empty entries only while its length is below `index`, so the list ends at length `index` and slot `index` still does not exist when it is stored into | an empty mesh and index 0: no padding happens, and slot 0 is written past the end | pad to length index + 1, as `reserve(index + 1)` and the multi-buffer setter (lines 44-56) do | medium, not executed; the base-class store is not shown and could append | BufferMeshes.AsWrittenMissesSlot | BufferMeshes.BufferMesh.SetVertexBufferBinding |
