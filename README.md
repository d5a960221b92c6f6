# MicroVerse decision logic in Dafny

This project models the C# decision logic of MicroVerse, a Unity terrain
tool, and of the `SplineInstantiate` component of Unity Splines that
MicroVerse ships with. The terrain arithmetic itself runs in GPU shaders;
what is modelled is the layer around it:

- the `MicroVerse` update controller: pending invalidations and their kind,
  the modifying flag and its finished event, the once-per-frame update,
  the choice between explicit and child terrains, terrain-layer
  reconciliation, the occlusion buffer size, and the ping-pong buffer swaps
  that composite stamps into height and splat maps;
- `SplineInstantiate`: the offset bit flags of `Vector3Offset`, forward and
  up axis de-aliasing, spacing validation, the probability total and the
  weighted prefab choice, and the instance-cache clear rule;
- `FilterSet`: the 32-slot texture-weight table, the SDF distance ranges,
  the one-shot serialisation migration and the shader keyword order;
- `FalloffFilter`: the keyword and parameter choice for the effective
  falloff type, where a parent override's filter wins;
- the stamps `HeightStamp` (version migration, keywords, bounds),
  `ClearStamp` (the `layerIndex` counter and clear-map protocol on the
  vegetation pass records), `CopyStamp` (saving textures to bytes and lazy,
  idempotent unpacking) and `SplinePath` (its bounds cache with a zero
  sentinel, the per-terrain renderer memo, layer enquiry and the results of
  its passes);
- the editor's content browser: which collections and ads are listed, the
  tab filter, the display order and the per-tab selection memory;
- the MicroSplat layer sync of the MicroVerse inspector: adding missing
  layers, dropping unused ones, sorting by name with the per-texture
  property rows carried along, and the in-sync test.

Engine objects (terrains, terrain layers, render textures, game objects,
splines) are Dafny classes compared by identity. Floats are `real`.
Compile-time defines (the splines and vegetation packages) are `bool`
parameters. Values the program draws from `Random.Range`, reads from the
editor UI, or obtains from Unity or MicroSplat calls whose code is not part
of this model are parameters of the operations that use them. Exceptions
the C# code would throw (a null dereference, an index out of range, a
missing dictionary key, a dictionary key added twice) are modelled as `Failure` results of a `Result`
type or as an `Option<Error>` result of the method that throws
(`wrappers.dfy`); the state such a method leaves is the state at the
throw.

Files: `wrappers.dfy` (Option, Result, error kinds), `engine.dfy` (engine
objects, vectors, `Bounds`), `sequences.dfy` (filtering, de-duplication,
ordinal string order, a stable insertion sort with its permutation and
ordering proofs), and one file per modelled C# file.

## Model

| member | source | states |
|---|---|---|
| MicroVerseMain.MicroVerse.constructor | com.jbooth.microverse/Scripts/MicroVerse.cs:131-133 | a new controller starts with no pending update, kind All and every flag and counter clear |
| MicroVerseMain.MicroVerse.Terrains | com.jbooth.microverse/Scripts/MicroVerse.cs:25-44 | the terrain list is the explicit list when it is non-empty and has no null entry, otherwise the child list; it holds no null while the controller is valid |
| MicroVerseMain.MicroVerse.SyncTerrainList | com.jbooth.microverse/Scripts/MicroVerse.cs:79-119 | a usable explicit list is kept and the child list is left alone; otherwise the child list becomes the terrains found under the object |
| MicroVerseMain.MicroVerse.Invalidate | com.jbooth.microverse/Scripts/MicroVerse.cs:140-150 | an update is pending afterwards; the first request sets the kind, a repeat of the same kind keeps it, two different kinds widen to All |
| MicroVerseMain.MicroVerse.SetModifyingTerrain | com.jbooth.microverse/Scripts/MicroVerse.cs:222-234 | the flag takes the new value and OnFinishedUpdating fires exactly when it goes from true to false |
| MicroVerseMain.MicroVerse.OnEnable | com.jbooth.microverse/Scripts/MicroVerse.cs:193-208 | the next run is marked as the first one (so EndPipeline reads every heightmap back); outside play mode the terrain list is re-synced, in play mode it is kept |
| MicroVerseMain.MicroVerse.Modify | com.jbooth.microverse/Scripts/MicroVerse.cs:362-711 | disabled or without terrains nothing changes, terrains included, and nothing is thrown; otherwise one pipeline run: the begin and cancel events fire once each, height is marked unsynced, the terrain list re-synced and the terrain layers assigned (with layer synchronisation every terrain holds the sorted distinct list of all requested layers; without, each terrain holds the distinct layers of the modifiers whose bounds meet it); the run throws exactly the exception PipelineError names for the re-synced list (IndexOutOfRange for an empty list, which happens exactly for a stale child list and no children; ArgumentException for a terrain listed twice; KeyNotFound for a neighbour outside the list), and then the flag stays up, no finished event fires, firstUpdate and the heightmaps are untouched and the run is not counted; otherwise the run is counted, heightmaps are read back on the first run only, and without vegetation the flag ends false and OnFinishedUpdating fires twice; the update request, the explicit list, the enabled flag and the save-back request never change |
| MicroVerseMain.MicroVerse.RunPipeline | com.jbooth.microverse/Scripts/MicroVerse.cs:374-711 | the running branch of Modify: begin and cancel events, height unsynced, list re-synced, layers assigned; the exception PipelineError names for the re-synced list is thrown exactly when there is one, with the flag left up and no finished event or run counted; otherwise the completed run's counter, heightmap and flag effects |
| MicroVerseMain.MicroVerse.AssignTerrainLayers | com.jbooth.microverse/Scripts/MicroVerse.cs:437-462 | the layer step leaves the controller untouched and the terrains holding the synchronised list or their own in-bounds layers, as the flag chooses |
| MicroVerseMain.MicroVerse.LayersAndEnd | com.jbooth.microverse/Scripts/MicroVerse.cs:437-711 | after the layer step, the exception PipelineError names for the list (the empty list read at line 504, the second occlusionDatas.Add of a repeated terrain at line 527, the seam pass's neighbour lookup at lines 622-655) is thrown before the end, leaving the flag up with no finished event; otherwise the run is counted, the terrains keep what the layer step set, the heightmaps are read back on the first run only, and without vegetation the flag drops with two finished events |
| MicroVerseMain.AssignInBoundsLayers | com.jbooth.microverse/Scripts/MicroVerse.cs:443-462 | every terrain of the list ends up holding, duplicates removed, exactly the layers the modifiers whose bounds meet its bounds ask for, in the order asked |
| MicroVerseMain.CollectInBoundsLayers | com.jbooth.microverse/Scripts/MicroVerse.cs:448-458 | the list built for one terrain is the concatenation, in modifier order, of what each modifier in bounds appends |
| MicroVerseMain.InquireInBoundsIsFilteredInquiry | com.jbooth.microverse/Scripts/MicroVerse.cs:452-458 | asking only the modifiers whose bounds meet the terrain is the same as asking the in-bounds subsequence of the modifiers |
| MicroVerseMain.InquireInBoundsWithin | com.jbooth.microverse/Scripts/MicroVerse.cs:452-458 | a layer a modifier in bounds asks for is among the layers all the modifiers ask for |
| MicroVerseMain.InquireOneWithin | com.jbooth.microverse/Scripts/MicroVerse.cs:299-305 | a layer asked for one terrain is among the layers asked for the whole terrain list |
| MicroVerseMain.InBoundsLayersWithinSyncedList | com.jbooth.microverse/Scripts/MicroVerse.cs:437-461 | the two layer steps agree: every non-null layer a terrain gets without synchronisation is in the list synchronisation would give all terrains |
| MicroVerseMain.MicroVerse.BeginPipeline | com.jbooth.microverse/Scripts/MicroVerse.cs:374-383 | the modifying flag goes up without a finished event, the cancel and begin events fire once, height is unsynced and the terrain list re-synced; the run is not yet counted |
| MicroVerseMain.MicroVerse.EndPipeline | com.jbooth.microverse/Scripts/MicroVerse.cs:695-711 | the run is counted; the first update syncs every terrain heightmap once and clears firstUpdate; without vegetation the flag drops and the finished event fires twice |
| MicroVerseMain.MicroVerse.RequestHeightSaveback | com.jbooth.microverse/Scripts/MicroVerse.cs:242-258 | out of sync: the request is cleared, the list re-synced and every terrain's heightmap read back in order; already in sync: nothing changes; the height is in sync afterwards either way, and no other controller field changes |
| MicroVerseMain.MicroVerse.Update | com.jbooth.microverse/Scripts/MicroVerse.cs:152-176 | in play mode a pending request is cleared and Modify runs at most once per frame: without a pending request nothing changes; with one, a disabled or terrain-less controller changes nothing else, and otherwise the state is that of one pipeline run (events, flags, first-run read-back, re-synced list, assigned layers) and Modify's exception, as PipelineError names it, is passed on; in edit mode nothing is thrown, the request stays, a pending save-back request is served with RequestHeightSaveback's effect and without one nothing changes |
| MicroVerseMain.MicroVerse.LateUpdate | com.jbooth.microverse/Scripts/MicroVerse.cs:177-191 | the modifying flag drops, raising OnFinishedUpdating once, unless the spawn processor is still busy; nothing else changes |
| MicroVerseMain.MicroVerse.SanatizeTerrainLayers | com.jbooth.microverse/Scripts/MicroVerse.cs:296-328 | every terrain ends up holding the sorted distinct non-null layer list the modifiers ask for; the terrains are reassigned exactly when one of them held a different list, and are untouched otherwise |
| MicroVerseMain.AnyLayersMismatch | com.jbooth.microverse/Scripts/MicroVerse.cs:309-316 | true exactly when some terrain does not already hold the given list |
| MicroVerseMain.AssignLayers | com.jbooth.microverse/Scripts/MicroVerse.cs:318-324 | every terrain holds the given list afterwards |
| MicroVerseMain.NonNullTerrains | com.jbooth.microverse/Scripts/MicroVerse.cs:299 | the same terrains, in order, once the list is known to hold no null |
| MicroVerseMain.PipelineError | com.jbooth.microverse/Scripts/MicroVerse.cs:504-662 | the pipeline throws IndexOutOfRange exactly for an empty list; on a non-empty list ArgumentException exactly when some terrain is listed twice; on a non-empty duplicate-free list KeyNotFound exactly when some listed terrain has a non-null neighbour that is not listed; and nothing exactly when the list is non-empty, duplicate-free and closed under neighbours |
| MicroVerseMain.DoTerrainLayersMatch | com.jbooth.microverse/Scripts/MicroVerse.cs:279-289 | true exactly when the two layer arrays are equal slot by slot (same length, same object in every slot) |
| MicroVerseMain.NonNullLayers | com.jbooth.microverse/Scripts/MicroVerse.cs:306 | removing nulls keeps every non-null layer and adds nothing |
| MicroVerseMain.SortedLayerSetProperties | com.jbooth.microverse/Scripts/MicroVerse.cs:306-307 | the synchronised layer list has no duplicate, is in ascending name order, and holds exactly the non-null layers asked for |
| MicroVerseMain.CollectSortedLayers | com.jbooth.microverse/Scripts/MicroVerse.cs:298-307 | the collection loop asks every modifier about every terrain, in order, then removes nulls, duplicates and sorts by name |
| MicroVerseMain.AppendInquiries | com.jbooth.microverse/Scripts/MicroVerse.cs:301-304 | the inner loop appends every modifier's layers for one terrain, in modifier order |
| MicroVerseMain.CallModifiers | com.jbooth.microverse/Scripts/MicroVerse.cs:909-917 | a call log names one modifier per call |
| MicroVerseMain.PingPong | com.jbooth.microverse/Scripts/MicroVerse.cs:909-917 | exactly the in-bounds modifiers are applied, in order, each reading the current front buffer and writing the back one; the buffers swap exactly when a stamp reports a write, and the result is the final front buffer |
| MicroVerseMain.LastWriterOwnsResult | com.jbooth.microverse/Scripts/MicroVerse.cs:909-923 | after the chain the front buffer is the one the last writing stamp wrote into, or the original front buffer when no stamp wrote |
| MicroVerseMain.BuffersArePermuted | com.jbooth.microverse/Scripts/MicroVerse.cs:915-916 | the two buffers only ever change places |
| MicroVerseMain.GenerateHeightmap | com.jbooth.microverse/Scripts/MicroVerse.cs:889-923 | height stamps run in list order; the returned and the released texture are the two temporaries, distinct, and the returned one is the last written (rt1 when nothing wrote) |
| MicroVerseMain.GenerateSplatmaps | com.jbooth.microverse/Scripts/MicroVerse.cs:737-809 | nothing is produced exactly when there are no texture modifiers, the terrain has no layers or the modifiers report no layer entry; otherwise the in-bounds stamps run in reverse list order, swapping index and weight maps together |
| MicroVerseMain.OcclusionSize | com.jbooth.microverse/Scripts/MicroVerse.cs:504-515 | the occlusion size is the larger of heightmap resolution minus one and splatmap resolution, clamped to 512..1024 |
| SplineInstantiateModel.OffsetSpaceValue | com.unity.splines/Runtime/SplineInstantiate.cs:27-41 | an offset space casts to the same integer as an instance space exactly when they are the same named space (Object matches none) |
| SplineInstantiateModel.Vector3Offset.constructor | com.unity.splines/Runtime/SplineInstantiate.cs:44-62 | a fresh offset has no setup flag, zero range, no random axis and the Spline offset space |
| SplineInstantiateModel.Vector3Offset.GetNextOffset | com.unity.splines/Runtime/SplineInstantiate.cs:67-78 | zero when the offset flag is off; otherwise every component lies in the min/max range and is min on each axis that is not randomised |
| SplineInstantiateModel.Vector3Offset.CheckMinMaxValidity | com.unity.splines/Runtime/SplineInstantiate.cs:80-85 | afterwards min <= max on every axis, max is the componentwise maximum of min and the old max, a valid max component is kept, and nothing else changes |
| SplineInstantiateModel.Vector3Offset.CheckMinMax | com.unity.splines/Runtime/SplineInstantiate.cs:87-94 | the range is repaired and the offset flag is set exactly when max is non-zero; the other setup bits are unchanged |
| SplineInstantiateModel.Vector3Offset.CheckCustomSpace | com.unity.splines/Runtime/SplineInstantiate.cs:96-102 | the custom-space flag is set exactly when the offset space differs from the instance space as integers; the other bits and fields are unchanged |
| SplineInstantiateModel.Vector3Offset.SetMin | com.unity.splines/Runtime/SplineInstantiate.cs:295-303 | the minimum of the range is the new value, the range is repaired and the offset flag recomputed |
| SplineInstantiateModel.Vector3Offset.SetMax | com.unity.splines/Runtime/SplineInstantiate.cs:315-323 | the maximum becomes the larger of the new value and min per axis, and the offset flag is recomputed |
| SplineInstantiateModel.Vector3Offset.SetSpace | com.unity.splines/Runtime/SplineInstantiate.cs:333-341 | the offset space is the new value and the custom-space flag follows it |
| SplineInstantiateModel.DrawBelowTotalPicksAnItem | com.unity.splines/Runtime/SplineInstantiate.cs:970-987 | with non-negative weights, every draw in [0, total weight of items with a prefab) picks some item with a prefab |
| SplineInstantiateModel.SplineInstantiate.constructor | com.unity.splines/Runtime/SplineInstantiate.cs:180-214 | the serialized defaults: spacing distance, Spline space, spacing (1, 1), up Y, forward Z, auto-refresh on, maxProbability 1, seed 0, no instances |
| SplineInstantiateModel.SplineInstantiate.ValidateSpacing | com.unity.splines/Runtime/SplineInstantiate.cs:562-575 | the minimum spacing is at least 0.1; the maximum is at least 0.1 and at least the minimum, except that linear distance sets it to the minimum; valid settings are left alone |
| SplineInstantiateModel.SplineInstantiate.SetMinSpacing | com.unity.splines/Runtime/SplineInstantiate.cs:220-232 | the minimum spacing becomes the new value raised to 0.1; the maximum becomes the old maximum raised to 0.1 and to the new minimum, or equals the minimum under linear distance; 0.1 <= min <= max afterwards and no other setting changes |
| SplineInstantiateModel.SplineInstantiate.SetMaxSpacing | com.unity.splines/Runtime/SplineInstantiate.cs:234-246 | the minimum is kept (raised to 0.1); the maximum becomes the new value raised to 0.1 and to the minimum, or equals the minimum under linear distance; 0.1 <= min <= max afterwards and no other setting changes |
| SplineInstantiateModel.SplineInstantiate.ValidateAxis | com.unity.splines/Runtime/SplineInstantiate.cs:582-586 | afterwards forward is neither up nor its opposite; a forward axis that was acceptable is kept, one that was not moves to the next axis |
| SplineInstantiateModel.SplineInstantiate.SetForwardAxis | com.unity.splines/Runtime/SplineInstantiate.cs:272-281 | the forward axis is never along or against up afterwards: an acceptable value is taken as given, one along or against up moves to the next axis, and no other setting changes |
| SplineInstantiateModel.SplineInstantiate.SetMaxProbability | com.unity.splines/Runtime/SplineInstantiate.cs:478-489 | the value is stored; the instance cache becomes dirty exactly when the value changed (or already was dirty) |
| SplineInstantiateModel.SplineInstantiate.SetSeed | com.unity.splines/Runtime/SplineInstantiate.cs:495-503 | the seed is stored, the instance cache is always marked dirty, and no other setting changes |
| SplineInstantiateModel.SplineInstantiate.Randomize | com.unity.splines/Runtime/SplineInstantiate.cs:651-658 | a new seed (the caller's draw), the cache dirty and the spline marked for regeneration; no other setting changes |
| SplineInstantiateModel.SplineInstantiate.UndoRedoPerformed | com.unity.splines/Runtime/SplineInstantiate.cs:534-538 | undo or redo marks both the instance cache and the spline dirty and changes nothing else |
| SplineInstantiateModel.SplineInstantiate.OnEnable | com.unity.splines/Runtime/SplineInstantiate.cs:509-518 | a zero seed becomes the instance id; any other seed is kept |
| SplineInstantiateModel.SplineInstantiate.OnValidate | com.unity.splines/Runtime/SplineInstantiate.cs:540-560 | spacing validated (the minimum raised to 0.1, the maximum raised to 0.1 and the minimum, or equal to the minimum under linear distance), spline dirty iff auto-refresh, the three offset ranges repaired with their minimums, spaces and random flags kept, and maxProbability becomes the summed weight of the items with a prefab, dirtying the cache only when it changes; method, space, axes, seed, items, instances and container are unchanged |
| SplineInstantiateModel.SplineInstantiate.GetPrefabIndex | com.unity.splines/Runtime/SplineInstantiate.cs:970-987 | the index is the first item with a prefab whose cumulative weight exceeds the draw, or 0 when no item is picked |
| SplineInstantiateModel.SplineInstantiate.ChooseItem | com.unity.splines/Runtime/SplineInstantiate.cs:915-917 | a single item is always chosen; otherwise the weighted choice applies |
| SplineInstantiateModel.SplineInstantiate.SetDirty | com.unity.splines/Runtime/SplineInstantiate.cs:613-616 | the instance cache is marked dirty and no other field changes |
| SplineInstantiateModel.SplineInstantiate.TryClearCache | com.unity.splines/Runtime/SplineInstantiate.cs:618-646 | the cache is clean afterwards; when it was dirty or held a destroyed instance, every instance is destroyed, last first, and the list is emptied; otherwise the instances are left alone; only the dirty flag, the instances and the destroyed record may change |
| SplineInstantiateModel.SplineInstantiate.HoldsDestroyedInstance | com.unity.splines/Runtime/SplineInstantiate.cs:620-630 | true exactly when the cache holds a destroyed (null) instance |
| SplineInstantiateModel.SplineInstantiate.DestroyInstances | com.unity.splines/Runtime/SplineInstantiate.cs:632-640 | every cached instance is destroyed once, from the last to the first |
| SplineInstantiateModel.SplineInstantiate.Clear | com.unity.splines/Runtime/SplineInstantiate.cs:603-607 | every instance is destroyed, last first, and the cache is empty and clean; no field other than those three changes |
| SplineInstantiateModel.SplineInstantiate.OnSplineChanged | com.unity.splines/Runtime/SplineInstantiate.cs:989-993 | a change to the container's main spline sets the spline-dirty flag to the auto-refresh setting; any other change leaves it alone; no other field changes |
| FilterSetModel.NewFilter | com.jbooth.microverse/Scripts/FilterSet.cs:43-54 | a new filter is disabled, has full weight and takes the given range and smoothness |
| FilterSetModel.LastMatchIsLastFilter | com.jbooth.microverse/Scripts/FilterSet.cs:81-87 | the weight found for a layer is that of the last texture filter naming it, and none is found exactly when no filter names it |
| FilterSetModel.FilterKeywordsAreOrderedSelection | com.jbooth.microverse/Scripts/FilterSet.cs:236-259 | the filter keywords are exactly the enabled ones, in the fixed order height, slope, angle, curvature, texture |
| FilterSetModel.FilterKeywordPresence | com.jbooth.microverse/Scripts/FilterSet.cs:236-259 | each filter keyword is present exactly when its filter is enabled, and none appears twice |
| FilterSetModel.Unclamped | com.jbooth.microverse/Scripts/FilterSet.cs:286-291 | a maximum of 255 or more is replaced by the minimum; a smaller maximum is kept |
| FilterSetModel.PrepareSDFFilterAsWrittenFailsWithoutParent | com.jbooth.microverse/Scripts/FilterSet.cs:304-306 | as written, a positive minimum parent distance on a stamp whose transform has no parent dereferences the null parent |
| FilterSetModel.PrepareSDFFilter | com.jbooth.microverse/Scripts/FilterSet.cs:276-318 | each distance range is set, scaled by ratio and with an unclamped maximum, exactly when it is non-zero (the parent range only with a parent whose spawner returns an SDF), and _SDFClamp is 1 or 0 |
| FilterSetModel.PrepareSDFFilterAgreement | com.jbooth.microverse/Scripts/FilterSet.cs:304-316 | the code as written fails exactly when the minimum parent distance is positive and there is no parent, and agrees with the corrected version everywhere else |
| FilterSetModel.FilterSet.constructor | com.jbooth.microverse/Scripts/FilterSet.cs:21-72 | the field initialisers: Global falloff, weight 1, version 0, the four filter ranges and smoothnesses, all filters off, otherTextureWeight 1, no texture filters |
| FilterSetModel.FilterSet.OnAfterDeserialize | com.jbooth.microverse/Scripts/FilterSet.cs:12-20 | data at version 0 has its slope range and smoothness scaled by 1.57894736842 once; the version is 1 afterwards, so a second call changes nothing |
| FilterSetModel.FilterSet.CurvatureMapIffKeyword | com.jbooth.microverse/Scripts/FilterSet.cs:62 | a curvature map is needed exactly when the material keywords PrepareMaterial sets contain _CURVATUREFILTER |
| FilterSetModel.CurvatureKeywordNotFalloff | com.jbooth.microverse/Scripts/FilterSet.cs:236-259 | no falloff keyword is the curvature filter keyword, so that keyword comes only from the curvature filter |
| FilterSetModel.FilterSet.GetTextureWeights | com.jbooth.microverse/Scripts/FilterSet.cs:74-90 | a 32-entry table whose slot i is one minus the weight of the last filter naming layer i, or one minus otherTextureWeight; a filter naming a layer at index 32 or beyond fails with an index out of range |
| FilterSetModel.FilterSet.PrepareMaterialKeywords | com.jbooth.microverse/Scripts/FilterSet.cs:144-266 | the keyword list starts with the falloff filter's keywords, followed by the enabled filter keywords in the fixed order |
| FalloffFilterModel.ChannelValue | com.jbooth.microverse/Scripts/FalloffFilter.cs:27-33 | a texture channel is passed to the shader as 0 to 3 (R to A) |
| FalloffFilterModel.DefaultFalloffFilter | com.jbooth.microverse/Scripts/FalloffFilter.cs:35-52 | the field initialisers: Global type, no texture, channel R, texture params (1, 0), rotation-scale (0, 1, 0, 0), falloff range (0.8, 1) |
| FalloffFilterModel.EffectiveFilter | com.jbooth.microverse/Scripts/FalloffFilter.cs:65-70 | the filter used is a parent FalloffOverride's filter when there is one, and this filter otherwise |
| FalloffFilterModel.PrepareMaterial | com.jbooth.microverse/Scripts/FalloffFilter.cs:63-113 | easing and noise are prepared exactly when the effective type is not Global; at most one keyword is added; Global sets nothing; no keyword is added exactly for Global or for a spline area without an area; any falloff vector is the effective filter's range |
| FalloffFilterModel.PrepareMaterialFollowsTable | com.jbooth.microverse/Scripts/FalloffFilter.cs:79-112 | the keyword added is the one the effective type selects (Box, Range, Texture, the spline area with the splines define, the range keyword without it), with the falloff vector and texture binding that go with it |
| FalloffFilterModel.AsWrittenDiffersOnlyUnderOverride | com.jbooth.microverse/Scripts/FalloffFilter.cs:106-111 | the code as written and the corrected code differ exactly without the splines define, outside the Box/Range/Texture types, when exactly one of this filter and the effective filter is a spline area |
| FalloffFilterModel.GlobalOverrideGetsRangeKeyword | com.jbooth.microverse/Scripts/FalloffFilter.cs:106-111 | as written, a Global override above a spline-area filter without the splines define still adds _USEFALLOFFRANGE and the override's range; the corrected code adds nothing |
| HeightStampModel.CombineModeValue | com.jbooth.microverse/Scripts/Stamps/HeightStamp.cs:11-22 | the integer handed to the shader is the mode's position in declaration order, 0 to 8, so different modes give different integers |
| HeightStampModel.ShapeKeywords | com.jbooth.microverse/Scripts/Stamps/HeightStamp.cs:186-196 | _TWIST is present exactly when twist is non-zero and comes first, _EROSION exactly when erosion is non-zero |
| HeightStampModel.HeightStamp.constructor | com.jbooth.microverse/Scripts/Stamps/HeightStamp.cs:24-47 | the field initialisers: no stamp texture, mode Max, no twist or erosion, erosion size 4, remap (0, 1), identity scale/offset, version 0 |
| HeightStampModel.HeightStamp.OnEnable | com.jbooth.microverse/Scripts/Stamps/HeightStamp.cs:48-70 | y becomes 0 exactly for a version-0 Max stamp or a version-1 stamp that is neither Override nor Max; x and z are kept, the version becomes 2, and enabling again changes nothing |
| HeightStampModel.HeightStamp.GetBounds | com.jbooth.microverse/Scripts/Stamps/HeightStamp.cs:87-104 | with the splines define, when the effective (override's) type is a spline area and this falloff has an area, the area's bounds; otherwise the transform's bounds |
| HeightStampModel.HeightStamp.PrepareMaterial | com.jbooth.microverse/Scripts/Stamps/HeightStamp.cs:161-199 | the stamp texture is clamped exactly for scale/offset (1,1,0,0) and repeats otherwise; the falloff keywords come first, then _TWIST and _EROSION when set; _HeightRemap times the real height is (y, y + scale.y); _CombineMode is the mode's integer |
| HeightStampModel.HeightStamp.ApplyHeightStamp | com.jbooth.microverse/Scripts/Stamps/HeightStamp.cs:131-147 | the keyword list is rebuilt from the falloff and shape keywords, the stamp always reports a write, the texture wrap mode and the material setup (falloff, height remap, combine mode, twist, erosion) are those PrepareMaterial promises, and no other stamp setting changes |
| HeightStampModel.HeightStamp.ApplyHeightStampAbsolute | com.jbooth.microverse/Scripts/Stamps/HeightStamp.cs:111-129 | as ApplyHeightStamp with _ABSOLUTEHEIGHT first in the keyword list: always reports a write, gives the PrepareMaterial wrap mode and material setup, and changes no other stamp setting |
| VegetationData.TreeData.constructor | com.jbooth.microverse.vegetation/Scripts/Modifiers.cs:19-46 | a tree pass record holds the given terrain and buffers, with layerIndex 0 |
| VegetationData.DetailData.constructor | com.jbooth.microverse.vegetation/Scripts/Modifiers.cs:61-87 | a detail pass record holds the given terrain and buffers, with layerIndex 0 |
| ClearStampModel.ClearStamp.constructor | com.jbooth.microverse.vegetation/Scripts/ClearStamp.cs:17-22 | a new clear stamp clears both trees and details and has no texture weights yet |
| ClearStampModel.ClearStamp.NoSdfParticipation | com.jbooth.microverse.vegetation/Scripts/ClearStamp.cs:58-73 | every SDF query of a clear stamp is false, OccludesOthers included, and it has no SDF |
| ClearStampModel.ClearStamp.QueriesFollowSettings | com.jbooth.microverse.vegetation/Scripts/ClearStamp.cs:26-29 | NeedTreeClear and NeedDetailClear follow the clear settings, and a curvature map is needed exactly when the clear pass's keywords contain _CURVATUREFILTER |
| ClearStampModel.ClearStamp.GetBounds | com.jbooth.microverse.vegetation/Scripts/ClearStamp.cs:36-56 | the effective (override's) falloff type decides: a spline area with an area gives the area's bounds (splines define), Global gives the box of size 99999 x 999999 x 99999 at the origin, anything else the transform's bounds |
| ClearStampModel.ClearStamp.PrepareClearPass | com.jbooth.microverse.vegetation/Scripts/ClearStamp.cs:99-105 | the pass starts with _RECONSTRUCTNORMAL; the texture weights fail exactly when a filter matches a layer past the 32 slots, otherwise the weights are those of the terrain's layers and the filter set's keywords follow |
| ClearStampModel.ClearStamp.ApplyTreeClear | com.jbooth.microverse.vegetation/Scripts/ClearStamp.cs:95-115 | off: nothing changes; on: _RECONSTRUCTNORMAL and the filter keywords, the weights of the terrain's layers, a fresh clear map and layerIndex + 1, with _LayerIndex the old counter; the other buffers are kept; the index and null-map errors the C# code throws stop the pass unchanged |
| ClearStampModel.ClearStamp.StampTreeClearMap | com.jbooth.microverse.vegetation/Scripts/ClearStamp.cs:108-114 | the tree clear map is replaced by a new texture and the counter moves on by one, after _LayerIndex takes its old value; a missing clear map is a null reference and changes nothing |
| ClearStampModel.ClearStamp.ApplyDetailClear | com.jbooth.microverse.vegetation/Scripts/ClearStamp.cs:117-138 | the same protocol as ApplyTreeClear on the detail record and its clear map, switched by clearDetails |
| ClearStampModel.ClearStamp.StampDetailClearMap | com.jbooth.microverse.vegetation/Scripts/ClearStamp.cs:131-137 | the detail clear map is replaced by a new texture and the counter moves on by one; a missing clear map is a null reference and changes nothing |
| ClearStampModel.ClearStamp.ApplyTreeStamp | com.jbooth.microverse.vegetation/Scripts/ClearStamp.cs:141-144 | layerIndex moves on by exactly one and nothing else in the record changes |
| ClearStampModel.ClearStamp.ApplyDetailStamp | com.jbooth.microverse.vegetation/Scripts/ClearStamp.cs:176-179 | layerIndex moves on by exactly one and nothing else in the record changes |
| CopyStampModel.UnpackedKeepsOrLoads | com.jbooth.microverse/Scripts/CopyStamp.cs:129-153 | an unpack step never replaces an existing texture, and creates one, of the stored size and bytes, exactly when the texture is missing and the bytes are non-empty |
| CopyStampModel.UnpackedIdempotent | com.jbooth.microverse/Scripts/CopyStamp.cs:127-158 | unpacking a second time changes nothing |
| CopyStampModel.RawData | com.jbooth.microverse/Scripts/CopyStamp.cs:113-115 | the stored bytes are null exactly for a null texture, and are the texture's raw data otherwise |
| CopyStampModel.SavedTextureRoundTrip | com.jbooth.microverse/Scripts/CopyStamp.cs:101-158 | a texture with data saved by Create and rebuilt by Unpack has the same size and bytes, and a null texture stays null |
| CopyStampModel.TreeCopyData.constructor | com.jbooth.microverse/Scripts/CopyStamp.cs:10-19 | a tree copy record starts with no textures and the given prototypes, bytes and size |
| CopyStampModel.TreeCopyData.Unpack | com.jbooth.microverse/Scripts/CopyStamp.cs:21-39 | the position and random maps are each loaded from their bytes only when missing, and nothing else changes |
| CopyStampModel.Layer.constructor | com.jbooth.microverse/Scripts/CopyStamp.cs:62-63 | a new detail layer has no texture and no bytes and carries the given prototype |
| CopyStampModel.FindPrototype | com.jbooth.microverse/Scripts/CopyStamp.cs:57-61 | the position found is that of the first layer whose prototype equals the argument, and none is found exactly when no layer's does |
| CopyStampModel.DetailCopyData.constructor | com.jbooth.microverse/Scripts/CopyStamp.cs:53 | the detail layer list starts empty |
| CopyStampModel.DetailCopyData.FindOrCreateLayer | com.jbooth.microverse/Scripts/CopyStamp.cs:55-66 | returns the first layer with an equal prototype and leaves the list alone; otherwise appends exactly one new layer for that prototype and returns it; either way a second call finds that same layer |
| CopyStampModel.DetailCopyData.Unpack | com.jbooth.microverse/Scripts/CopyStamp.cs:68-82 | every layer's texture is unpacked from its own bytes, independently of the others, and bytes, prototypes and sizes are kept |
| CopyStampModel.CopyStamp.Create | com.jbooth.microverse/Scripts/CopyStamp.cs:101-124 | null bytes exactly for a null texture; the height size is set only with a height map, the index/weight size (from the index map) only when both maps exist; no texture is loaded yet |
| CopyStampModel.CopyStamp.UnpackMaps | com.jbooth.microverse/Scripts/CopyStamp.cs:129-153 | the height, index and weight maps are each loaded from their bytes only when missing |
| CopyStampModel.CopyStamp.Unpack | com.jbooth.microverse/Scripts/CopyStamp.cs:127-158 | the maps are unpacked, and the tree and detail data are unpacked exactly when present; the stored bytes, sizes, layers and height renormalisation never change, nor the tree prototypes, bytes and size, nor each detail layer's prototype, bytes and size |
| ContentBrowserModel.ContentTypeValue | com.jbooth.microverse/Scripts/Editor/ContentCollection.cs:9-16 | content types are numbered Height = 0 up to Audio = 4 |
| ContentBrowserModel.TabValue | com.jbooth.microverse/Scripts/Editor/ContentBrowser.cs:38-45 | a tab's number is its position in toolbar order, Height = 0 up to Audio = 4, so it identifies the tab |
| ContentBrowserModel.TabContentType | com.jbooth.microverse/Scripts/Editor/ContentBrowser.cs:536-578 | the tab filter keeps, for each tab, the content type with the tab's own number, so no two tabs keep the same type |
| ContentBrowserModel.ContentListMembership | com.jbooth.microverse/Scripts/Editor/ContentBrowser.cs:477-515 | a collection is listed exactly when it was loaded and no ad with its id and a missing required object blocks it; an ad is listed exactly when it was loaded and its object is missing or no surviving collection provides it; nothing else is listed |
| ContentBrowserModel.FilterMembership | com.jbooth.microverse/Scripts/Editor/ContentBrowser.cs:488-503 | removing the entries that fail a test keeps exactly the entries that pass it |
| ContentBrowserModel.HasContentForAd | com.jbooth.microverse/Scripts/Editor/ContentBrowser.cs:388-399 | true exactly when some collection shares the ad's non-empty id or its non-empty pack name |
| ContentBrowserModel.IsBlocked | com.jbooth.microverse/Scripts/Editor/ContentBrowser.cs:491-501 | true exactly when some ad has the collection's non-empty id and requires an object that is not installed |
| ContentBrowserModel.SplitContent | com.jbooth.microverse/Scripts/Editor/ContentBrowser.cs:477-485 | the loaded assets are split into the ads and the collections, each in loaded order |
| ContentBrowserModel.RemoveBlocked | com.jbooth.microverse/Scripts/Editor/ContentBrowser.cs:488-503 | the RemoveAt and i-- loop leaves exactly the unblocked collections, in their order |
| ContentBrowserModel.AddAds | com.jbooth.microverse/Scripts/Editor/ContentBrowser.cs:505-515 | the listed ads are appended, in order, after the surviving collections |
| ContentBrowserModel.BuildContentList | com.jbooth.microverse/Scripts/Editor/ContentBrowser.cs:469-515 | the list before the tab filter is the surviving collections followed by the listed ads |
| ContentBrowserModel.TabContentProperties | com.jbooth.microverse/Scripts/Editor/ContentBrowser.cs:536-578 | after the tab filter an item is present exactly when it was listed and has the tab's number |
| ContentBrowserModel.FilterForTab | com.jbooth.microverse/Scripts/Editor/ContentBrowser.cs:536-578 | the RemoveAt and i-- loop leaves exactly the items of the tab's content type, in order |
| ContentBrowserModel.DisplayLeIsTotalPreorder | com.jbooth.microverse/Scripts/Editor/ContentBrowser.cs:589 | the display order (type name descending, then pack name ascending) is total and transitive |
| ContentBrowserModel.LexLeCommonPrefix | com.jbooth.microverse/Scripts/Editor/ContentBrowser.cs:589 | a shared prefix does not change the order of two names |
| ContentBrowserModel.AdNameSortsFirst | com.jbooth.microverse/Scripts/Editor/ContentBrowser.cs:589 | the ad type name sorts strictly before the collection type name, so descending order puts collections first |
| ContentBrowserModel.OrderForDisplayProperties | com.jbooth.microverse/Scripts/Editor/ContentBrowser.cs:589 | the displayed list is a permutation of the tab's list with every installed collection before every ad and each group in pack-name order |
| ContentBrowserModel.OldSelection | com.jbooth.microverse/Scripts/Editor/ContentBrowser.cs:516-533 | the old tab's remembered item is read only when the tab changed and the old tab has one |
| ContentBrowserModel.OldSelectionAsWrittenThrows | com.jbooth.microverse/Scripts/Editor/ContentBrowser.cs:530-533 | the dictionary indexer throws exactly when the tab changed and the old tab had no selection, and otherwise gives the same item as the tolerant lookup |
| ContentBrowserModel.FirstTabChangeThrows | com.jbooth.microverse/Scripts/Editor/ContentBrowser.cs:530-533 | a new browser with no remembered selection throws on its first tab change |
| ContentBrowserModel.LastSamePackProperties | com.jbooth.microverse/Scripts/Editor/ContentBrowser.cs:580-586 | the carried-over item is absent exactly when no listed item has the old item's pack name and author; otherwise it is the last listed item that has them |
| ContentBrowserModel.CarryOver | com.jbooth.microverse/Scripts/Editor/ContentBrowser.cs:580-586 | the loop leaves the tab's memory at the last item matching the old selection, or untouched when none matches |
| ContentBrowserModel.PickSelection | com.jbooth.microverse/Scripts/Editor/ContentBrowser.cs:629-654 | a clicked item becomes the tab's selection, and a tab with none afterwards gets the first displayed item |
| ContentBrowserModel.Selections | com.jbooth.microverse/Scripts/Editor/ContentBrowser.cs:516-654 | one OnGUI pass changes only the current tab's memory; a non-empty list always leaves the tab a selection; a click on a displayed item makes it the tab's selection |
| ContentBrowserModel.SelectionRules | com.jbooth.microverse/Scripts/Editor/ContentBrowser.cs:516-654 | without a click, an item with the old tab's pack and author is taken over (the last such listed item); failing that, a tab without a selection gets the first displayed item and a tab with one keeps it |
| ContentBrowserModel.CreateInstance | com.jbooth.microverse/Scripts/Editor/ContentBrowser.cs:96-188 | an instance is made exactly when the selection is a collection, the index lies inside its array, the entry exists, and it has a prefab or, on the height tab, a stamp whose texture loads; a prefab wins and is copied with the default scale exactly on the height, texture and vegetation tabs; a stamp object carries the entry's stamp and is auto-scaled exactly when shift was held |
| ContentBrowserModel.CreateInstanceGuardOffByOne | com.jbooth.microverse/Scripts/Editor/ContentBrowser.cs:100-104 | the guard as written fails exactly at the index equal to the array length and agrees with the corrected guard elsewhere |
| ContentBrowserModel.ListAndSelect | com.jbooth.microverse/Scripts/Editor/ContentBrowser.cs:467-654 | one pass displays the ordered tab list of the content list and leaves the selections the selection rules give |
| ContentBrowserModel.ContentBrowser.constructor | com.jbooth.microverse/Scripts/Editor/ContentBrowser.cs:70-92 | a new window is on the Height tab with nothing loaded, listed or selected |
| ContentBrowserModel.ContentBrowser.OnGUI | com.jbooth.microverse/Scripts/Editor/ContentBrowser.cs:467-654 | assets are loaded once, the toolbar's tab is taken, and the list and remembered selections are those of one pass; the shown item is the tab's remembered one |
| SplinePathModel.SplineRenderer.constructor | com.jbooth.microverse.splines/Scripts/Stamps/SplinePath.cs:104 | a renderer is a new object made for one terrain |
| SplinePathModel.OcclusionData.constructor | com.jbooth.microverse.splines/Scripts/Stamps/SplinePath.cs:165 | the occlusion record holds the given terrain and placement mask |
| SplinePathModel.WithMax | com.jbooth.microverse.splines/Scripts/Stamps/SplinePath.cs:340 | setting the maximum corner keeps the minimum corner |
| SplinePathModel.WithMin | com.jbooth.microverse.splines/Scripts/Stamps/SplinePath.cs:341 | setting the minimum corner keeps the maximum corner |
| SplinePathModel.SplineBounds | com.jbooth.microverse.splines/Scripts/Stamps/SplinePath.cs:337-341 | one spline's box always spans -100000 to 100000 in height, and horizontally is its local box grown by expand and moved to world space |
| SplinePathModel.ComputedBoundsAreNotZero | com.jbooth.microverse.splines/Scripts/Stamps/SplinePath.cs:332-365 | computed bounds are never the zero bounds that mean "not cached", so a filled cache is never recomputed |
| SplinePathModel.EncapsulateContains | com.jbooth.microverse.splines/Scripts/Stamps/SplinePath.cs:349 | the encapsulated box holds both boxes and keeps the common height band |
| SplinePathModel.ContainsTransitive | com.jbooth.microverse.splines/Scripts/Stamps/SplinePath.cs:342-350 | containment of boxes is transitive |
| SplinePathModel.ContainmentOfAll | com.jbooth.microverse.splines/Scripts/Stamps/SplinePath.cs:342-350 | after any number of loop steps the running box is in the height band and holds the main spline's box and the box of every spline seen so far |
| SplinePathModel.ComputeBounds | com.jbooth.microverse.splines/Scripts/Stamps/SplinePath.cs:333-352 | no container or no main spline gives the far-away unit box; otherwise the result is in the full height band and holds the main spline's box and the box of every spline of the container |
| SplinePathModel.SplinePath.constructor | com.jbooth.microverse.splines/Scripts/Stamps/SplinePath.cs:15-71 | the field initialisers: widths 1, smoothness 2, height, splat, tree and detail work on, no layers, no renderers and the empty bounds cache |
| SplinePathModel.SplinePath.ExpandAmount | com.jbooth.microverse.splines/Scripts/Stamps/SplinePath.cs:358-360 | the grow amount is the largest of the two widths and the two smoothness values |
| SplinePathModel.SplinePath.GetBounds | com.jbooth.microverse.splines/Scripts/Stamps/SplinePath.cs:354-365 | the bounds are computed only when the cache is empty; afterwards the cache is filled, a filled cache is returned unchanged, and no setting changes |
| SplinePathModel.SplinePath.GetSplineRenderer | com.jbooth.microverse.splines/Scripts/Stamps/SplinePath.cs:92-112 | a memoised renderer is returned as is; otherwise a fresh renderer is made and memoised exactly when the terrain's bounds meet the spline's, which empties the bounds cache; otherwise null and the memo is unchanged |
| SplinePathModel.SplinePath.UpdateSplineSDFs | com.jbooth.microverse.splines/Scripts/Stamps/SplinePath.cs:114-127 | the memo is emptied; with a spline and a controller the terrain list is re-synced and a terrain gets a fresh renderer exactly when it is one of the controller's terrains and meets the spline's bounds; no other controller field changes |
| SplinePathModel.SplinePath.OnEnable | com.jbooth.microverse.splines/Scripts/Stamps/SplinePath.cs:74-81 | a missing container is replaced by the one on the same object; a present container is kept |
| SplinePathModel.SplinePath.ApplyHeightStamp | com.jbooth.microverse.splines/Scripts/Stamps/SplinePath.cs:164-214 | the pass writes exactly when there is a spline, a renderer for the terrain and height modification is on; tree or detail clearing with a renderer replaces the occlusion mask by a new one and otherwise the mask stays; the renderer lookup keeps every earlier memo entry, adds at most this terrain's, and empties or fills the bounds cache as GetSplineRenderer does; the channel indices are kept |
| SplinePathModel.SplinePath.ApplyTextureStamp | com.jbooth.microverse.splines/Scripts/Stamps/SplinePath.cs:216-257 | the pass writes exactly when there is a layer, splat painting is on, the terrain has a renderer and the layer is on the terrain; the channel indices are the layers' positions on the terrain and are kept when no renderer is consulted or found; the renderer lookup keeps every earlier memo entry, adds at most this terrain's, and empties or fills the bounds cache as GetSplineRenderer does |
| SplinePathModel.SplinePath.ActiveSplineOnChanged | com.jbooth.microverse.splines/Scripts/Stamps/SplinePath.cs:385-397 | a change to one of the container's own splines rebuilds the renderers (fresh, one for each of the controller's re-synced terrains that meets the spline's bounds) and invalidates the controller with kind All; any other spline changes nothing; without a container the loop dereferences null; apart from the list and the request no controller field changes |
| SplinePathModel.SplinePath.InqTerrainLayers | com.jbooth.microverse.splines/Scripts/Stamps/SplinePath.cs:399-406 | the stamp reports its main layer then its embankment layer, each only when set, and never a null |
| MicroSplatSync.TextureEntry.constructor | com.jbooth.microverse/Scripts/Editor/MicroVerseEditor.cs:168 | an entry holds the given terrain layer |
| MicroSplatSync.PropData.constructor | com.jbooth.microverse/Scripts/Editor/MicroVerseEditor.cs:186-211 | new property data has no row written |
| MicroSplatSync.TextureArrayConfig.constructor | com.jbooth.microverse/Scripts/Editor/MicroVerseEditor.cs:252-253 | a configuration holds the given three entry lists and has had no layer added |
| MicroSplatSync.TextureArrayConfig.AddTerrainLayer | com.jbooth.microverse/Scripts/Editor/MicroVerseEditor.cs:260 | one new entry for the layer is appended to the first list; the earlier entries and the other lists stay |
| MicroSplatSync.EntryLayers | com.jbooth.microverse/Scripts/Editor/MicroVerseEditor.cs:177-179 | the layers of a list of entries, slot by slot |
| MicroSplatSync.IsInConfig | com.jbooth.microverse/Scripts/Editor/MicroVerseEditor.cs:175-183 | true exactly when some entry of the first list is for the layer |
| MicroSplatSync.NewLayersProperties | com.jbooth.microverse/Scripts/Editor/MicroVerseEditor.cs:256-262 | after the first loop every wanted layer is in the configuration; each addition is a wanted layer the configuration lacked, and none is added twice |
| MicroSplatSync.NewLayersOfDistinct | com.jbooth.microverse/Scripts/Editor/MicroVerseEditor.cs:243-262 | for a duplicate-free wanted list the additions are exactly the unknown layers, in the wanted order |
| MicroSplatSync.AddIfMissing | com.jbooth.microverse/Scripts/Editor/MicroVerseEditor.cs:258-261 | the configuration gains one entry, for the layer, exactly when it had none for it; the old entries and the other lists stay |
| MicroSplatSync.AddMissingLayers | com.jbooth.microverse/Scripts/Editor/MicroVerseEditor.cs:256-262 | the first list becomes the old entries followed by one entry per addition, and the other lists stay |
| MicroSplatSync.RecordsProperties | com.jbooth.microverse/Scripts/Editor/MicroVerseEditor.cs:265-279 | the sort records are exactly those of the slots whose layer is wanted |
| MicroSplatSync.Sources | com.jbooth.microverse/Scripts/Editor/MicroVerseEditor.cs:292 | the rebuilt first list holds the record entries in record order |
| MicroSplatSync.SortedRecordsMembers | com.jbooth.microverse/Scripts/Editor/MicroVerseEditor.cs:265-281 | after the sort the records are still exactly those of the wanted slots, now ordered by layer name |
| MicroSplatSync.RebuildProperties | com.jbooth.microverse/Scripts/Editor/MicroVerseEditor.cs:265-295 | the rebuilt first list is a name-ordered arrangement of exactly the old entries whose layer is wanted, each new slot's property row is the row of that entry's old slot, and rows past the list keep their values |
| MicroSplatSync.RowsFollowEntries | com.jbooth.microverse/Scripts/Editor/MicroVerseEditor.cs:272-273 | property rows move with their entries to the entries' new slots |
| MicroSplatSync.WriteRowsProperties | com.jbooth.microverse/Scripts/Editor/MicroVerseEditor.cs:287-291 | row i is written with the i-th record's values, and no other row changes |
| MicroSplatSync.SortConfig | com.jbooth.microverse/Scripts/Editor/MicroVerseEditor.cs:264-295 | the three lists are rebuilt from the name-sorted records, absent secondary lists stay absent, and with property data the rows are rewritten from the records |
| MicroSplatSync.CollectRecords | com.jbooth.microverse/Scripts/Editor/MicroVerseEditor.cs:265-279 | the record loop builds one record per wanted slot, with its property row only when there is property data and its secondary entries only where they exist |
| MicroSplatSync.RewriteSlots | com.jbooth.microverse/Scripts/Editor/MicroVerseEditor.cs:283-295 | the rewrite loop rebuilds the lists in record order and writes row i from the i-th record |
| MicroSplatSync.MatchAndSortTerrainLayers | com.jbooth.microverse/Scripts/Editor/MicroVerseEditor.cs:252-297 | afterwards every slot holds a wanted layer, every wanted layer has a slot and the slots are in layer-name order; the additions are the unknown wanted layers, each once |
| MicroSplatSync.AllWantedSlotted | com.jbooth.microverse/Scripts/Editor/MicroVerseEditor.cs:256-295 | every wanted layer, present after the additions, keeps an entry through the rebuild |
| MicroSplatSync.RebuildFacts | com.jbooth.microverse/Scripts/Editor/MicroVerseEditor.cs:265-295 | the rebuilt list holds wanted layers only, every kept entry, in name order, with or without property data |
| MicroSplatSync.InSync | com.jbooth.microverse/Scripts/Editor/MicroVerseEditor.cs:328-337 | the loop's result is true exactly when nothing was collected, or the configuration has as many slots as collected layers, holding them in order |
| MicroSplatSync.RemoveUnusedNeverShown | com.jbooth.microverse/Scripts/Editor/MicroVerseEditor.cs:346 | the condition for the remove-unused button contradicts the in-sync test, so the button never shows |
| MicroSplatSync.SyncedConfigIsInSync | com.jbooth.microverse/Scripts/Editor/MicroVerseEditor.cs:213-250 | once the configuration holds each wanted layer in one slot, in name order, and no two wanted layers share a name, the inspector finds it in sync |
| MicroSplatSync.SortedUniqueEqual | com.jbooth.microverse/Scripts/Editor/MicroVerseEditor.cs:281 | two name-sorted duplicate-free lists of the same layers with distinct names are equal |
| MicroSplatSync.FirstSlotIsFirstWanted | com.jbooth.microverse/Scripts/Editor/MicroVerseEditor.cs:281 | the first slot holds the first wanted layer |
| MicroSplatSync.TailsStillMatch | com.jbooth.microverse/Scripts/Editor/MicroVerseEditor.cs:281 | dropping the common first layer keeps the two lists matched |
| MicroSplatSync.InspectorInSync | com.jbooth.microverse/Scripts/Editor/MicroVerseEditor.cs:314-354 | the terrain list is re-synced, the wanted layers collected, the in-sync result is that of the test, and the remove-unused button never shows |
| MicroSplatSync.SyncMicroSplat | com.jbooth.microverse/Scripts/Editor/MicroVerseEditor.cs:213-250 | nothing without a controller or without terrains; the first Modify's exception, as PipelineError names it for the re-synced list, is passed on exactly when there is one and ends the sync; otherwise the configuration afterwards holds exactly the wanted layers, each with a slot, in name order, and, when the controller is enabled, every terrain holds exactly the wanted layer list after the second Modify |
| MicroSplatSync.MatchAndResync | com.jbooth.microverse/Scripts/Editor/MicroVerseEditor.cs:233-250 | after matching the configuration and modifying again on the list the first Modify accepted (so the second cannot throw), the configuration holds exactly the wanted layers in name order and, when enabled, every terrain holds the wanted list; the explicit list is unchanged |
| Sequences.Filter | com.jbooth.microverse/Scripts/MicroVerse.cs:299-306 | the removal keeps only entries that pass the test, every passing entry is kept, and the list never grows |
| Sequences.Reverse | com.unity.splines/Runtime/SplineInstantiate.cs:632-640 | a back-to-front walk visits entry \|s\|-1-i at step i |
| Sequences.Distinct | com.jbooth.microverse/Scripts/MicroVerse.cs:307 | Distinct keeps every value, only values of the input, and each once |
| Sequences.NoDuplicatesIffSingleCounts | com.jbooth.microverse/Scripts/MicroVerse.cs:307 | a list has no repeated value exactly when every value occurs at most once in its multiset |
| Sequences.PermutationKeepsNoDuplicates | com.jbooth.microverse/Scripts/MicroVerse.cs:307 | reordering a duplicate-free list (OrderBy after Distinct) keeps it duplicate-free |
| Sequences.LexLeTotal | com.jbooth.microverse/Scripts/Editor/MicroVerseEditor.cs:281 | any two names are ordered one way or the other |
| Sequences.LexLeTransitive | com.jbooth.microverse/Scripts/Editor/MicroVerseEditor.cs:281 | the name order is transitive |
| Sequences.LexLeAntisymmetric | com.jbooth.microverse/Scripts/Editor/MicroVerseEditor.cs:281 | names ordered both ways are equal |
| Sequences.LexLeIsTotalPreorder | com.jbooth.microverse/Scripts/MicroVerse.cs:307 | the name order used by OrderBy and the comparison sorts is a total preorder |
| Sequences.InsertPermutes | com.jbooth.microverse/Scripts/Editor/ContentBrowser.cs:589 | inserting into a list adds exactly that one element |
| Sequences.SortByPermutes | com.jbooth.microverse/Scripts/Editor/ContentBrowser.cs:589 | sorting is a permutation of its input |
| Sequences.InsertSorted | com.jbooth.microverse/Scripts/Editor/ContentBrowser.cs:589 | inserting into a sorted list keeps it sorted |
| Sequences.SortBySorted | com.jbooth.microverse/Scripts/Editor/ContentBrowser.cs:589 | under a total preorder the sorted list is ordered by key |
| Sequences.IndexOf | com.jbooth.microverse.splines/Scripts/Stamps/SplinePath.cs:228-232 | the channel index is -1 exactly when the layer is absent, and otherwise the position of its first occurrence |

## Left out

- A terrain's four neighbours are fixed fields; `SetNeighbors` and Unity's automatic terrain connection are engine work outside this model.
- Exceptions inside code outside this model (`MapGen`, the spawn processor, `MaskData`, the modifiers' own `Initialize` and `Dispose`) are not modelled; Modify's exceptions are those of its own code: the empty list, a repeated terrain and a neighbour missing from the list.
- GPU work: every `Graphics.Blit`, render-target set-up, shader parameter upload, the height-seam compute dispatch, `RasterizeSplatMaps` texture copies and the whole of `SplineRenderer`; a stamp's effect on a buffer is a boolean, because the arithmetic lives in shaders that are not part of this model.
- Floating point: floats are exact reals, so NaN, rounding and underflow are not modelled; the migration factor 1.57894736842 is the exact decimal.
- Unity's approximate `Vector3` and `Vector4` equality is modelled as exact equality, including the identity scale/offset test that chooses the clamp wrap mode (HeightStamp.cs:171), and the non-zero magnitude test of `CheckMinMax` as `max != (0, 0, 0)`, which is the same test over the reals.
- The `Vector3Offset` setup flags are an 8-bit vector rather than a 32-bit enum; only bits 0 and 1 are used, so the values are the same.
- String order: `OrderBy` on names and `CompareTo` are modelled by one ordinal lexicographic order, not culture-aware comparison; `List.Sort`, which is unstable, is modelled by a stable sort, so the relative order of two layers with equal names is not modelled.
- Null strings are not modelled; names and ids are always strings, with "" for empty.
- `Noise` and `Easing` keyword preparation are foreign calls: for `FalloffFilter.PrepareMaterial` the model records only whether they run; the noise keywords and weight parameters that `FilterSet.PrepareMaterial` sets through them are not modelled at all.
- `DetailPrototype.Equals` and the tree prototype comparison are modelled as equality of prototype values; the fields Unity compares are not modelled.
- `TerrainUtil.ComputeTerrainBounds` is a parameter; `TerrainUtil.FindTextureChannelIndex` is modelled as the first index of the layer in the terrain's layer array.
- HeightStampModel.HeightStamp.PrepareMaterial: requires a non-zero terrain height, because the C# code divides by it and a zero height has no real-valued result; `ApplyHeightStamp` and `ApplyHeightStampAbsolute` inherit the requirement.
- The base `Stamp.OnEnable` (which `SplinePath.OnEnable` overrides without calling), the editor and spline event subscriptions of the `OnEnable` methods, `RenderTexture.ReleaseTemporary`, `HeightStamp.Initialize` and `ClearStamp.Initialize` are not modelled; they are engine plumbing outside the decision logic.
- MicroSplat's `AddTerrainLayer` is modelled as appending one entry; `CompileConfig`, `FindOrCreatePropTex` and the property texture's revision bookkeeping are MicroSplat code that is not part of this model.
- MicroSplatSync.SyncMicroSplat: the first terrain is assumed to carry a `MicroSplatTerrain` component; the C# code would dereference a null component otherwise, and its property data is a parameter.
- MicroSplatSync.AddMissingLayers: does not state that the appended entries are new objects; `AddIfMissing` states it for each step.
- SplinePathModel.SplinePath.UpdateSplineSDFs: the exact set of terrains that get a renderer is stated only when the bounds cache agrees with the current settings; with a stale cache the C# code consults the stale bounds and the model states only that every renderer belongs to one of the controller's terrains.
- MicroVerseMain.MicroVerse.Modify: the texture modifiers it consults are a list parameter (the C# code gathers them with `GetComponentsInChildren`, inactive ones included when MicroSplat is in use); the terrain-bounds intersection is a parameter `inBounds`; the `OnTerrainLayersChanged` event is not recorded, although `SanatizeTerrainLayers` returns the list it is raised with.
- `MicroVerse.instance` is a parameter rather than a global singleton, and Unity events (`OnFinishedUpdating` and the like) are counters.
- Content browser: window drawing, drag and drop, the Download button, and `ContentCollection.GetContents` preview rendering are UI work; the static `tab` is a field of one window. Of `CreateInstance` the model keeps which instance is made and which scaling branch it takes; the scale values, the terrain-bounds computation, the new stamp's combine mode and falloff defaults, the forced global falloff on shift, the vegetation seeds, the parenting under the controller and its `Invalidate` call are engine object work that is not modelled, and whether the stamp texture loads is a parameter.
- `SplineInstantiate.UpdateInstances` placement (spline evaluation, rotations and spacing along the curve) and the NaN branches of `ValidateSpacing` are left out; they depend on Unity maths and float NaN.
- The vegetation spawn processor (`CancelModify`, and the `ApplyTrees`, `ApplyDetails`, `ApplyObjects` and `CheckDone` calls in `Update`) is code outside this model; only the flag and event protocol around it is modelled.
- SplineInstantiateModel.SplineInstantiate.Randomize: the new seed is a caller input; the model does not constrain it to the integer range `Random.Range` draws from.
- `SaveBackToTerrain` and the terrain-data write-back it triggers are engine I/O.
- SplinePathModel.SplinePath.ApplyTextureStamp: unlike the height pass it does not test for a null container, so the renderer's `Render` would be handed null; what the renderer does then is GPU code outside this model, and the model makes the renderer as usual.
- The light-scattering render feature and the Enviro API handler are render-pipeline and plugin glue with no decision logic, and are not modelled.

## Findings

Each row below is modelled twice: once as written, with a lemma that exhibits the discrepancy, and once as evidently intended. The rest of the model is built on the corrected halves, so the Model table rows of the members listed here state the intended behaviour, not the code as written:

- `FilterSetModel.PrepareSDFFilter` (the parent test guarding both ranges) is the SDF filter step that `FilterSetModel.PrepareSDFFilterAgreement` relates to the as-written code.
- `FalloffFilterModel.PrepareMaterial` (the spline-area branch testing the effective filter type) underlies `FalloffFilterModel.PrepareMaterialFollowsTable`, `FilterSetModel.FilterSet.PrepareMaterialKeywords` (and through it `ClearStampModel.ClearStamp.PrepareClearPass`, `ClearStampModel.ClearStamp.ApplyTreeClear`, `ClearStampModel.ClearStamp.StampTreeClearMap` and `ClearStampModel.ClearStamp.ApplyDetailClear`), `HeightStampModel.HeightStamp.PrepareMaterial`, `HeightStampModel.HeightStamp.ApplyHeightStamp` and `HeightStampModel.HeightStamp.ApplyHeightStampAbsolute`.
- `ContentBrowserModel.CreateInstance` (the guard rejecting the index equal to the length) is the only instance-creation model.
- `ContentBrowserModel.OldSelection` (the old tab's selection looked up without throwing) underlies `ContentBrowserModel.Selections`, `ContentBrowserModel.SelectionRules`, `ContentBrowserModel.ListAndSelect` and `ContentBrowserModel.ContentBrowser.OnGUI`.

| source | as written | input that shows it | evidently intended | confidence | as-written member | corrected member |
|---|---|---|---|---|---|---|
| com.jbooth.microverse/Scripts/FilterSet.cs:304-317 | `minParent > 0 \|\| maxParent > 0 && parent != null` binds as `minParent > 0 \|\| (maxParent > 0 && parent != null)` | a positive minimum parent distance on a stamp with no parent spawner: the parent is dereferenced while null | the parent test guards both range tests: `(minParent > 0 \|\| maxParent > 0) && parent != null` | not executed | FilterSetModel.PrepareSDFFilterAsWritten, FilterSetModel.PrepareSDFFilterAsWrittenFailsWithoutParent | FilterSetModel.PrepareSDFFilter (with FilterSetModel.PrepareSDFFilterAgreement) |
| com.jbooth.microverse/Scripts/FalloffFilter.cs:106-111 | without the splines define the spline-area branch tests this filter's own type, not the effective one | a filter of type SplineArea under a Global override, built without the splines define, gets `_USEFALLOFFRANGE` and the override's range, although Global sets nothing | the branch tests the effective filter's type like every other branch | not executed | FalloffFilterModel.PrepareMaterialAsWritten, FalloffFilterModel.GlobalOverrideGetsRangeKeyword | FalloffFilterModel.PrepareMaterial (with FalloffFilterModel.AsWrittenDiffersOnlyUnderOverride) |
| com.jbooth.microverse/Scripts/Editor/ContentBrowser.cs:100-104 | the guard rejects `selectedIdx > contents.Length` | `selectedIdx == contents.Length` passes the guard and the array access is out of range | reject `selectedIdx >= contents.Length` | not executed | ContentBrowserModel.CreateInstanceAsWritten, ContentBrowserModel.CreateInstanceGuardOffByOne | ContentBrowserModel.CreateInstance |
| com.jbooth.microverse/Scripts/Editor/ContentBrowser.cs:530-533 | `selectedTabItems[oldTab]` reads the dictionary with the throwing indexer | switching away from a tab that has no remembered selection: a tab change in the first pass of a new window, or away from a tab whose list is empty | a lookup that tolerates a missing key (`TryGetValue` or `GetValueOrDefault`, as used at line 646) | not executed | ContentBrowserModel.OldSelectionAsWritten, ContentBrowserModel.OldSelectionAsWrittenThrows, ContentBrowserModel.FirstTabChangeThrows | ContentBrowserModel.OldSelection |
