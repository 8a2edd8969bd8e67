# prboom2 (dsda-doom) sequential cores in Dafny

This project models seven small sequential cores of the prboom2 / dsda-doom
engine and proves what each of them promises.

- **Sound channels** (`s_sound.dfy`, module `SoundChannels`). This is the
  Heretic/Hexen channel allocator of `s_sound.c`. It covers:
  - a fixed pool of 32 channel records;
  - per-sfx concurrency limits with priority eviction (`S_StopSoundInfo`);
  - refreshing a looping sound in place;
  - the "one sound per non-player emitter" rule;
  - the ambient-channel guard;
  - the free-channel search with its rotating eviction cursor
    (`Raven_S_getChannel`);
  - the lowest-score scan and the tag-name lookup.

  The pool is a class over an `array<Channel>` with `numChannels`, `AmbChan`
  and the static `sndcount`. Each scan is a loop proved against a recursive
  specification function or against a quantified first-hit or least-score
  characterisation.
- **Extra-wad directory validation** (`wadtbl.dfy`, module `WadTable`). This
  is `ReadPWADTable` over a byte buffer: the 12-byte `IWAD`/`PWAD` header, the
  in-place little-endian rewrite of its two fields (proved to leave the bytes
  as they were), the directory bound test and the per-entry test.
- **Demo feature bitset** (`features.dfy`, module `Features`). This is the
  64-bit `used_features` mask with its track, reset, read and merge
  operations. Its 8-byte little-endian serialisation is proved to be an
  exact encoding in both directions.
- **Build mode** (`build.dfy`, module `Build`). It models:
  - the FIFO replay queue;
  - the one-shot build command armed for a tic;
  - the order in which `dsda_ReadBuildCmd` chooses a tic's command;
  - the refresh that captures the prior command;
  - the read-and-clear frame-advance flag.
- **Brute-force termination** (`brute_force.dfy`, module `BruteForce`). It
  models:
  - condition operators over a world oracle;
  - the best-result comparison;
  - the all-conditions-reached rule, which never succeeds with a target
    enabled;
  - the volume-bounded end of the search, which on success hands the found
    commands to the build queue.

  As written, `dsda_BFEvaluateTarget` drops its comparison and nothing in the
  file marks the target evaluated. So with a target enabled the search can
  only end in failure, and `UnevaluatedTargetNeverSucceeds` states this.
- **SNDINFO loader** (`sndinfo.dfy`, module `SndInfo`). `dsda_LoadSndInfo` is
  modelled over the lump's token list. It covers:
  - the `$ARCHIVEPATH` and `$MAP` directives;
  - tag-to-lump assignment to the first matching entry;
  - `?` names meaning "default";
  - skipping one token after an unknown tag;
  - the closing fix-up, after which no name is empty.

  A missing token where the scanner must get one is a failure outcome.
- **Frame interpolation** (`r_fps.dfy`, module `Interpolation`). This is the
  save / interpolate / restore cycle over sector and side fields with the
  per-entry `oldipos` and `bakipos` slots, plus the mapping from thinkers to
  interpolation entries. `FixedMul` is a function parameter. The restore is
  proved to undo the interpolation whatever `FixedMul` computes.

`wrappers.dfy` holds the shared `Option` type.

## Model

| member | source | states |
|---|---|---|
| SoundChannels.FirstIndex | prboom2/src/s_sound.c:273-285 | the index of the first channel a scan condition hits, or -1 exactly when none does; every channel before it misses |
| SoundChannels.ScanStopMeaning | prboom2/src/s_sound.c:239-253 | the `S_StopSoundInfo` scan counts the channels playing the sfx from a real emitter. Its candidate is -1 iff none qualifies; otherwise it qualifies, has minimal priority among qualifying channels, and no later non-looping instance has the same priority |
| SoundChannels.UnderLimitStopsNothing | prboom2/src/s_sound.c:232-256 | an unlimited sfx (-1), or one below its limit, stops no channel and lets the request through |
| SoundChannels.AtLimitVictim | prboom2/src/s_sound.c:239-265 | at the limit, the stopped channel is a qualifying instance of least priority (a looping one only if strictly below the request); none is stopped, and the request is refused, exactly when none qualifies |
| SoundChannels.RefusalStopsNothing | prboom2/src/s_sound.c:258-265 | a refusal stops no channel |
| SoundChannels.AdvanceCursor | prboom2/src/s_sound.c:323-325 | the advanced cursor is 0 or a valid channel index |
| SoundChannels.RotatingVictim | prboom2/src/s_sound.c:327-335 | the rotating scan's find has priority at most the request; it is -1 exactly when every channel visited from the starting step outranks the request |
| SoundChannels.RotationSteps | prboom2/src/s_sound.c:327-335 | the find is reached at some step, and every step before it visits a channel that outranks the request |
| SoundChannels.RotatingVictimMeaning | prboom2/src/s_sound.c:327-338 | the rotation from the cursor visits every channel: the eviction fails exactly when all channels outrank the request, and every channel passed over before the find outranks it |
| SoundChannels.GetSoundID | prboom2/src/s_sound.c:349-361 | the first index whose tag name equals the name exactly, and 0 when none does |
| SoundChannels.ChannelPool.constructor | prboom2/src/s_sound.c:128-139 | zeroed static channels, `AmbChan` -1, `sndcount` 0, and the configured channel count |
| SoundChannels.ChannelPool.Init | prboom2/src/s_sound.c:128-133 | `S_Init` clears `AmbChan`, sets the channel count and touches no channel |
| SoundChannels.ChannelPool.Stop | prboom2/src/s_sound.c:135-149 | `S_Stop`/`S_Start` clear `AmbChan` only |
| SoundChannels.ChannelPool.StopChannel | prboom2/src/s_sound.c:182-186 | `AmbChan` becomes -1 iff it was -1 or `cnum`; no channel record changes |
| SoundChannels.ScoreOrdersByPriority | prboom2/src/s_sound.c:193-196 | one channel scores below another exactly when its priority is lower, so the score is the priority |
| SoundChannels.ChannelPool.LowestScoreChannel | prboom2/src/s_sound.c:193-216 | the first channel of least score below INT_MAX (ties to the lowest index); -1 iff there is none, in particular with no channels |
| SoundChannels.ChannelPool.StopSoundInfo | prboom2/src/s_sound.c:225-266 | the result is true iff the sfx is unlimited, below its limit or has a qualifying instance; the only state change is `S_StopChannel` on the scan's victim |
| SoundChannels.ChannelPool.FindRefresh | prboom2/src/s_sound.c:273-285 | the first active channel playing the same looping sound from the same emitter for a looping request, or -1 |
| SoundChannels.ChannelPool.FindOriginChannel | prboom2/src/s_sound.c:290-301 | outside a level or for the display player's mobj, nothing (`numChannels`); otherwise the first channel of the same emitter, or `numChannels` |
| SoundChannels.ChannelPool.FindInactive | prboom2/src/s_sound.c:314-316 | the first inactive channel, or `numChannels` iff all are active |
| SoundChannels.ChannelPool.FindReplaceable | prboom2/src/s_sound.c:327-338 | equals the rotating specification; -1 iff every channel outranks the request; otherwise an in-range channel the request reaches |
| SoundChannels.ChannelPool.FreeSearch | prboom2/src/s_sound.c:303-344 | the ambient guard refuses and changes nothing. Otherwise: the first inactive channel; else the cursor advances modulo `numChannels`, and the rotating find is stopped and returned, or -1 |
| SoundChannels.ChannelPool.RavenGetChannel | prboom2/src/s_sound.c:268-345 | stage by stage: (1) refresh only that channel's `loop_timeout` and return -1; (2) refusal by the sfx limit; (3) reuse of the emitter's channel; (4) the free search. Every result is -1 or in `[0, numChannels)`, and no channel record changes except by a refresh |
| WadTable.Int32Bytes | prboom2/src/wadtbl.c:56-57 | the four bytes a field's value is stored as |
| WadTable.DecodeEncode | prboom2/src/wadtbl.c:56-57 | decoding the stored bytes gives the value back |
| WadTable.EncodeDecode | prboom2/src/wadtbl.c:56-57 | storing a field's decoded value restores the field's own bytes, so the `LittleLong` rewrite is the identity on a little-endian host |
| WadTable.SwapHeader | prboom2/src/wadtbl.c:56-57 | returns `numlumps` and `infotableofs` as signed little-endian values and leaves the buffer byte for byte as it was |
| WadTable.CheckEntries | prboom2/src/wadtbl.c:62-72 | the loop ends at `numlumps` iff the count is non-negative and every entry starts at or after 0 and ends at or before the directory |
| WadTable.ReadPWADTable | prboom2/src/wadtbl.c:43-79 | the result is the buffer exactly when it is non-null, holds more than 12 bytes, starts with `IWAD`/`PWAD`, its directory fits and every lump lies before the directory; otherwise null. The buffer's bytes are unchanged |
| WadTable.DirectoryWrapAdmitsOutside | prboom2/src/wadtbl.c:58-60 | the as-written 32-bit test admits directories that lie outside the buffer |
| WadTable.DirectoryFitsMeaning | prboom2/src/wadtbl.c:58-63 | the corrected test implies the as-written one and puts every entry inside the buffer; it rejects only inputs whose directory lies outside the buffer |
| WadTable.LumpWrapAdmitsOutside | prboom2/src/wadtbl.c:65-67 | the wrapping `filepos + size` test admits a lump ending past the directory |
| WadTable.LumpInsideMeaning | prboom2/src/wadtbl.c:65-67 | the exact test accepts exactly lumps in `[0, infotableofs]` and agrees with the as-written test when the sum does not overflow |
| Features.FeatureBit | prboom2/src/dsda/features.c:28 | `FEATURE_BIT(f)` records feature f and no other |
| Features.HasUnion | prboom2/src/dsda/features.c:31-43 | or-ing masks records exactly the features of either |
| Features.UnionAdds | prboom2/src/dsda/features.c:42-44 | the or of two masks records exactly the features of either, feature by feature |
| Features.EmptyHasNone | prboom2/src/dsda/features.c:35 | the zero mask records no feature |
| Features.FeatureLog.constructor | prboom2/src/dsda/features.c:26 | the static mask starts at 0 |
| Features.FeatureLog.TrackFeature | prboom2/src/dsda/features.c:30-32 | sets feature f and keeps every other feature as it was |
| Features.FeatureLog.ResetFeatures | prboom2/src/dsda/features.c:34-36 | afterwards no feature is recorded (the mask is 0) |
| Features.FeatureLog.UsedFeatures | prboom2/src/dsda/features.c:38-40 | returns the mask and changes nothing |
| Features.FeatureLog.MergeFeatures | prboom2/src/dsda/features.c:42-44 | the new mask records exactly the features of the old mask or the source |
| Features.MergeIdempotent | prboom2/src/dsda/features.c:42-44 | merging the same mask again changes nothing |
| Features.FeatureBytesValue | prboom2/src/dsda/features.c:46-55 | the 8 serialised bytes read back little-endian give the source mask |
| Features.FeatureBytesOfValue | prboom2/src/dsda/features.c:46-55 | any 8 bytes are the serialisation of their little-endian value |
| Features.CopyFeatures2 | prboom2/src/dsda/features.c:46-55 | writes exactly `result[0..7]` with the serialisation, leaving the rest of the array unchanged |
| Build.ReadSource | prboom2/src/dsda/build.c:124-134 | a non-empty queue first; then an active brute force (command untouched); then the build command on its tic; else the pending command |
| Build.BuildCmdDeliveredOnce | prboom2/src/dsda/build.c:129-131 | a disarmed build command (tic -1) is never chosen at a real tic |
| Build.RefreshCapturesOncePerTic | prboom2/src/dsda/build.c:155-161 | after a capture at a tic, the refresh condition fails at that tic |
| Build.BuildState.constructor | prboom2/src/dsda/build.c:41-48 | initial statics: build command tic -1, replace source on, empty queue, flags off |
| Build.BuildState.BuildMode | prboom2/src/dsda/build.c:93-95 | reports build mode without changing it |
| Build.BuildState.QueueBuildCommands | prboom2/src/dsda/build.c:97-106 | both depths become n and the remaining queue is a copy of the first n commands |
| Build.BuildState.PopCommandQueue | prboom2/src/dsda/build.c:108-114 | yields the oldest queued command `cmds[original_depth - depth]`, the rest stays queued in order, depth drops by one, and skip mode is left exactly when the queue empties |
| Build.BuildState.ExitSkipMode | prboom2/src/dsda/build.c:113 | skip mode is off afterwards |
| Build.BuildState.BuildPlayback | prboom2/src/dsda/build.c:116-118 | true iff the source is not replaced |
| Build.BuildState.CopyBuildCmd | prboom2/src/dsda/build.c:120-122 | returns the build command |
| Build.BuildState.ReadBuildCmd | prboom2/src/dsda/build.c:124-137 | per `ReadSource`: pops the queue, keeps the command, delivers and disarms the build command, or takes the pending command; nothing else changes |
| Build.BuildState.ChangeBuildCommand | prboom2/src/dsda/build.c:84-91 | the build command replaces the source and is armed for the previous tic |
| Build.BuildState.EnterBuildMode | prboom2/src/dsda/build.c:139-149 | build mode and frame advance are both on |
| Build.BuildState.RefreshBuildMode | prboom2/src/dsda/build.c:151-164 | when the capture condition holds, the prior command becomes the overwritten and build command, stamped with the previous tic, and the source is not replaced; otherwise only demo playback clears replace-source |
| Build.BuildState.AdvanceFrame | prboom2/src/dsda/build.c:166-176 | returns the pending advance (always true in skip mode) and leaves the flag cleared |
| BruteForce.AttributeValue | prboom2/src/dsda/brute_force.c:137-186 | a misc attribute has no numeric value and reads 0, as the `default:` case |
| BruteForce.MiscConditionReached | prboom2/src/dsda/brute_force.c:229-242 | a line skip holds iff the activation count equals the secondary value, a line activation iff it exceeds it; a numeric attribute never holds as a misc condition |
| BruteForce.LackItemIsNotHaveItem | prboom2/src/dsda/brute_force.c:235-238 | lack-item is the negation of have-item |
| BruteForce.ConditionReached | prboom2/src/dsda/brute_force.c:244-268 | an unknown operator never holds |
| BruteForce.ComparisonsComplement | prboom2/src/dsda/brute_force.c:252-264 | the six operators pair up as exact complements (`<`/`>=`, `<=`/`>`, `==`/`!=`), and `<=` is `<` or `==` |
| BruteForce.DistanceExact | prboom2/src/dsda/brute_force.c:276 | the computed acap distance is the exact distance whenever the difference fits an `int` without being INT_MIN; at INT_MIN it is negative |
| BruteForce.NewBestResult | prboom2/src/dsda/brute_force.c:270-284 | always true for an unevaluated target, and never for an unknown limit |
| BruteForce.NewBestIsStrict | prboom2/src/dsda/brute_force.c:274-283 | for an evaluated target, "new best" is a strict order: the best never beats itself, and beating a value that beats the best beats the best |
| BruteForce.CountReached | prboom2/src/dsda/brute_force.c:297-299 | the count is at most the number of conditions |
| BruteForce.CountReachedAll | prboom2/src/dsda/brute_force.c:297-301 | the count equals the number of conditions iff every condition holds |
| BruteForce.EvaluateOutcome | prboom2/src/dsda/brute_force.c:333-341 | the search goes on iff conditions are not reached and the volume is below its maximum; it succeeds iff conditions are reached, or at the limit with an enabled, evaluated target |
| BruteForce.BruteForceState.constructor | prboom2/src/dsda/brute_force.c:72-116 | zeroed statics: no conditions, no target, search off and not ended |
| BruteForce.BruteForceState.BruteForceActive | prboom2/src/dsda/brute_force.c:311-313 | reports the search mode |
| BruteForce.BruteForceState.BruteForceEnded | prboom2/src/dsda/brute_force.c:118-120 | reports whether the search ended |
| BruteForce.BruteForceState.EvaluateTarget | prboom2/src/dsda/brute_force.c:286-292 | computes whether the target's value is a new best and drops the answer: the search state, the target included, stays as it was |
| BruteForce.BruteForceState.ConditionsReached | prboom2/src/dsda/brute_force.c:286-309 | true iff every condition holds and the target is disabled; target evaluation changes nothing |
| BruteForce.BruteForceState.EndBF | prboom2/src/dsda/brute_force.c:122-135 | the search is ended and off. On success the build queue holds exactly `bf_result[0..bf_depth)`; on failure skip mode is left and the queue is untouched |
| BruteForce.BruteForceState.EvaluateBruteForce | prboom2/src/dsda/brute_force.c:327-342 | off the search depth neither the search state nor the build queue changes. At the depth the volume grows by exactly one; on continue the queue is untouched, on success it holds `bf_result[0..bf_depth)`, on failure skip mode is left with the queue untouched, as `EvaluateOutcome` decides |
| BruteForce.BruteForceState.UpdateBruteForce | prboom2/src/dsda/brute_force.c:315-325 | restores the key frame at the search depth and stores the current frame at every other |
| BruteForce.UnevaluatedTargetNeverSucceeds | prboom2/src/dsda/brute_force.c:286-341 | with a target enabled but never evaluated, an evaluation never ends in success |
| BruteForce.VolumeBoundEnds | prboom2/src/dsda/brute_force.c:331-336 | once the volume reaches its maximum the search does not go on, so it ends after at most `bf_volume_max - bf_volume` more attempts |
| SndInfo.DirectiveArgs | prboom2/src/dsda/sndinfo.c:40-48 | a directive consumes one more token iff it is `$ARCHIVEPATH` and two iff it is `$MAP` (both case-insensitive); any other directive consumes none |
| SndInfo.DirectiveCaseInsensitive | prboom2/src/dsda/sndinfo.c:41-43 | two tokens equal up to letter case consume the same number of arguments |
| SndInfo.NameFor | prboom2/src/dsda/sndinfo.c:55-58 | the stored name is the token, or "default" exactly when the token starts with `?` |
| SndInfo.FindTag | prboom2/src/dsda/sndinfo.c:51-52 | the first entry whose tag equals the token exactly, or the table size when there is none |
| SndInfo.Parse | prboom2/src/dsda/sndinfo.c:39-66 | the token loop keeps the table's size |
| SndInfo.AssignmentTouchesFirstMatch | prboom2/src/dsda/sndinfo.c:51-64 | a tag and its name token update only the first entry with that tag; an unknown tag discards exactly one token and changes nothing |
| SndInfo.ParseOnlyAssignsTokens | prboom2/src/dsda/sndinfo.c:39-66 | loading keeps the size and tag names, and every resulting name was there before, is a token of the stream, or is "default" |
| SndInfo.FixNames | prboom2/src/dsda/sndinfo.c:70-72 | afterwards no name is empty, every tag and every non-empty name is kept, and an empty name becomes "default" |
| SndInfo.FixNamesMeaning | prboom2/src/dsda/sndinfo.c:70-72 | a second fix-up changes nothing |
| SndInfo.FindTagIndex | prboom2/src/dsda/sndinfo.c:51-62 | the inner loop stops at `FindTag` |
| SndInfo.ParseTokens | prboom2/src/dsda/sndinfo.c:39-66 | the in-place token loop leaves the table and outcome that `Parse` specifies |
| SndInfo.FixEmptyNames | prboom2/src/dsda/sndinfo.c:70-72 | the in-place loop leaves the table `FixNames` specifies |
| SndInfo.LoadSndInfo | prboom2/src/dsda/sndinfo.c:29-73 | outside Hexen the table is untouched. A fatal script error leaves the table as parsed so far; a clean load is the parse followed by the fix-up |
| SndInfo.LoadLeavesNoEmptyName | prboom2/src/dsda/sndinfo.c:70-72 | after a successful load no sound effect has an empty name |
| Interpolation.SlotCount | prboom2/src/r_fps.c:204-227 | floor and ceiling entries use one slot, panning entries two, an unrecognised type none |
| Interpolation.State | prboom2/src/r_fps.c:150-170 | the snapshot has the shape of the addressed sector or side |
| Interpolation.WithSlots | prboom2/src/r_fps.c:177-194 | writing an entry's slots keeps the snapshot's shape |
| Interpolation.Saved | prboom2/src/r_fps.c:152-237 | a saved pair takes the entry's used slots from the value and keeps the others |
| Interpolation.SlotsRoundTrip | prboom2/src/r_fps.c:173-196 | written slots read back as written, and writing the slots already held changes nothing |
| Interpolation.LerpEndpoints | prboom2/src/r_fps.c:232-238 | with a FixedMul exact at 0 and FRACUNIT, ratio 0 draws the previous tic's value and FRACUNIT the current one |
| Interpolation.RestoreUndoesInterpolation | prboom2/src/r_fps.c:173-238 | restoring the backup after an interpolation gives back the object's fields exactly, whatever FixedMul computes |
| Interpolation.InterpolationGetData | prboom2/src/r_fps.c:250-306 | an unrecognised thinker yields no entry; an elevator yields a floor and a ceiling entry on its sector and is the only thinker with a second entry; plats and floors yield a floor entry; ceilings and doors a ceiling entry |
| Interpolation.Interpolator.constructor | prboom2/src/r_fps.c:76-79 | a table of the given entries with fresh slot arrays |
| Interpolation.Interpolator.CopyInterpToOld | prboom2/src/r_fps.c:148-171 | `oldipos[i]` takes the entry's current field(s); other slots and all sectors and sides are unchanged |
| Interpolation.Interpolator.CopyBakToInterp | prboom2/src/r_fps.c:173-196 | the entry's field(s) take `bakipos[i]`; every other field of the object is kept |
| Interpolation.Interpolator.DoAnInterpolation | prboom2/src/r_fps.c:198-248 | `bakipos[i]` takes the current field(s) first, then each field becomes `old + FixedMul(cur - old, ratio)`. Other fields, other backups and `oldipos` are unchanged; an unrecognised entry changes nothing |

## Left out

- The sound mixer, resampler, panning and sample cache: none of them is part of this model.
- `S_getChannel` (a stub returning -1), the empty `S_Start*Sound` functions, `S_ResetSfxVolume` and the float attenuation and volume fields: the allocator does not use them.
- SoundChannels.ChannelPool.constructor: `numChannels` is a parameter at most 32. `S_Init` reads it from the configuration without a range check, so this is a precondition.
- SoundChannels.GetSoundID: the table is a sequence of tag names. A NULL `tagname` (a crash in `strcmp`) is not modelled.
- Sound effects and emitters are compared by identity (`Sfx.id`, `Mobj(id)`). `gamestate == GS_LEVEL` and the display player's mobj are parameters.
- WadTable.ReadPWADTable: the host is little-endian, so `LittleLong` is the identity and the in-place rewrite leaves the bytes unchanged. On a big-endian host the header bytes would be reversed in place; that is not modelled.
- WadTable.ReadPWADTable: the directory and lump tests are the corrected ones listed under Findings. The as-written 32-bit arithmetic is modelled beside them.
- Features.FeatureLog.TrackFeature: feature numbers outside 0..63 are excluded by the type. In C those shifts are undefined.
- Build: `dsda_JoinDemo`, `dsda_JoinDemoCmd`, `dsda_JumpToLogicTicFrom`, `dsda_ApplyPauseMode` and `dsda_RefreshExHudCommandDisplay` belong to other modules and are not modelled. `dsda_CopyPendingCmd` and `dsda_CopyPriorCmd` become parameters.
- Build: skip mode is a flag in the build state, because its owner (`skip.c`) is not part of this model. `forward50` and the other movement limits depend on the unseen player-class table and are left out.
- Build.BuildState.QueueBuildCommands: the `Z_Malloc`/`Z_Free` of the queue become a value copy.
- BruteForce: the attribute, item and line readers (`dsda_BFAttribute`, `dsda_BFHaveItem`, `lines[]`) are the `World` oracle. `lprintf` and the key-frame store and restore are not modelled; `UpdateBruteForce` returns which key frame it would store or restore.
- BruteForce.NewBestResult: the acap difference and `abs` use two's-complement 32-bit wrap (`Wrap32`, `CAbs`), which C leaves undefined.
- BruteForce.BruteForceState.EvaluateBruteForce: `bf_volume` is unbounded rather than `long long`.
- SndInfo.LoadSndInfo: the scanner is a list of tokens, and the lump opening and closing are not modelled. `SC_MustGetNumber` takes any token: its numeric check is in the scanner, which is not part of this model.
- SndInfo.LoadSndInfo: a fatal script error stops the load. The engine would exit at that point.
- SndInfo.LoadSndInfo: outside Hexen the ambient-sound loader runs instead; it is not part of this model.
- Interpolation: `FixedMul` is a function parameter, and the 32-bit wrap of `cur - old` and of the sum is not modelled. `gld_UpdateSplitData` is a renderer call and is not modelled.
- Interpolation: `R_InterpolateView` and the code that builds and updates the interpolation list are not part of this model.
- Interpolation.InterpolationGetData: a scroller's `affectee` is required to index the level's sides or sectors.

## Findings

| source | as written | input that shows it | evidently intended | confidence | as-written member | corrected member |
|---|---|---|---|---|---|---|
| prboom2/src/wadtbl.c:58-60 | `infotableofs + numlumps * sizeof(filelump_t)` is computed in `unsigned int`, so the bound test wraps modulo 2^32 | `numlumps = 0x10000000`, `infotableofs = 12`, `size = 13`: the length wraps to 0 and the test passes, although the directory needs 2^32 bytes. Also `infotableofs = -16`, `numlumps = 1`, which makes the loop read 16 bytes before the buffer | accept only a directory that lies inside the buffer | not executed; high | WadTable.DirectoryWrapAdmitsOutside | WadTable.DirectoryFitsMeaning |
| prboom2/src/wadtbl.c:67 | `filepos + size` is an `int` sum that can overflow, wrapping on common targets | `filepos = 1`, `size = 0x7fffffff`, `infotableofs = 12`: the sum wraps negative, so a lump ending 2^31 bytes past the directory is accepted | compare the exact end of the lump with the directory offset | not executed; medium | WadTable.LumpWrapAdmitsOutside | WadTable.LumpInsideMeaning |
