# Audio playback bookkeeping and export helpers, in Dafny

This project models two sequential cores of a presentation application.

**Audio playback bookkeeping** (`src/frontend/components/helpers/audio.ts`). The player keeps
a registry of playing entries keyed by file path (or device id), a remembered "unmuted"
volume, the `volume` and `gain` stores, the active playlist with its session song list, and
an `isCrossfading` flag. The model is the class `AudioEngine.Engine`, whose fields are those
stores. Its methods are specified by the pure rules of `AudioModel`:

- `playAudio`: restart or toggle an existing key at once, or, once `getAnalyser` has
  resolved, insert a new entry with a display name and its volume;
- `updateVolume`: mute toggle, rounding to hundredths, effective per-entry volume;
- `playlistNext` / `getSongs`: next song with wrap-around, session list reused or regenerated;
- `checkCrossfade`: the "near the end" test;
- the finish filter of `getPlayingAudio`: loop, playlist advance, pause in place, remove.

`playAudio` is asynchronous: a new key gets its entry only after `await getAnalyser`. The
model splits the call at that await. `Engine.PlayAudio` is the part before it and reports
whether the call is still waiting. `Engine.CompletePlayAudio` is the continuation, and
`Engine.PlayAudioToEnd` runs both back to back. A playlist advance stops at the same await
and returns the song left waiting (`AudioModel.AwaitedSong`). The finish filter
(`AudioFinish`) therefore computes its host notification over a registry that does not yet
hold the song a playlist advance started; the awaited songs are returned beside the kept keys.

`AudioLevels` models the level merge (`mergeAudio`, `getHighestNumber`) and the merge of
output videos into the mix list (`getPlayingOutputVideos`). Both are imperative loops checked
against prefix-recursive specification functions.

**Export helpers** (`src/electron/data/export.ts`). `ExportFiles` covers:

- the unique-name search of `writeFile` (`path`, `path_1`, `path_2`, … over a finite set of existing paths);
- the routing in `startExport`;
- the `"Unnamed"` default of `exportJSON`;
- the once-per-session folder opening of `doneWritingFile`, as the class `ExportSession`.

`SlidesText` models `getSlidesText`: layout order with children, group headers, line and
item text, the `"]\n"` separator, the single-pass `"\n\n\n"` replacement and the trim.

Volume and gain are whole numbers of hundredths, which is what `Number(x.toFixed(2))` stores.
Media volumes, gain node values, channel levels and play positions are `real`. They are only
multiplied, added (`currentTime + crossfade + 0.1` in `checkCrossfade`) and compared, all
exactly.

Foreign calls become parameters or sets:

- what `getAnalyser` returns (`None` when it fails);
- the new media handle;
- the shuffle function (only `AudioModel.RegeneratedSession` requires it to permute);
- the set of paths `doesPathExist` accepts;
- the dialog path;
- the exports folder of `getDataFolder`.

## Model

| member | source | states |
|---|---|---|
| AudioModel.LastIndexOf | src/frontend/components/helpers/audio.ts:44 | the index found holds the character, and no later index does |
| AudioModel.DisplayName | src/frontend/components/helpers/audio.ts:44 | a name without a dot is kept; otherwise the result is the prefix before the last dot, and no dot follows it |
| AudioModel.Round2 | src/frontend/components/helpers/audio.ts:109-110 | the stored hundredths are within half a hundredth of the value; halves round away from zero |
| AudioModel.RoundHundredths | src/frontend/components/helpers/audio.ts:109-110 | rounding a value that already is whole hundredths keeps it |
| AudioModel.RequestedValue | src/frontend/components/helpers/audio.ts:104-107 | an explicit value is used as given; the mute toggle asks for 0 exactly when the volume is non-zero |
| AudioModel.UpdateScalars | src/frontend/components/helpers/audio.ts:102-111 | `"local"` writes nothing; otherwise exactly one of gain or volume is written, with the requested value rounded to hundredths, and only the mute toggle may change the remembered volume |
| AudioModel.UnmutedStaysNonZero | src/frontend/components/helpers/audio.ts:100-107 | the remembered unmuted volume never becomes zero |
| AudioModel.MuteThenUnmute | src/frontend/components/helpers/audio.ts:104-107 | muting a non-zero volume stores 0 and remembers the volume; toggling again restores it |
| AudioModel.ApplyVolume | src/frontend/components/helpers/audio.ts:116-121 | a gain-capable entry gets `volume × (mediaVolume or 1) × (gain or 1)` on its gain node and its media is untouched; any other entry gets `volume × (mediaVolume or 1)` on its media volume; name and flags are kept |
| AudioModel.HeardVolumeInUnitRange | src/frontend/components/helpers/audio.ts:116-121 | with scalars and per-media overrides in [0, 1], the effective volume is in [0, 1] |
| AudioModel.Rewound | src/frontend/components/helpers/audio.ts:15-17 | only the play position goes back to 0; flags, analyser, duration and volume are kept |
| AudioModel.Toggled | src/frontend/components/helpers/audio.ts:20-28 | the paused flag flips and the media is paused or played to match; position and volume are kept |
| AudioModel.Started | src/frontend/components/helpers/audio.ts:43-64 | the new entry is unpaused and playing, named by DisplayName, `mic` exactly when a stream was given, seeked only for `startAt > 0`; a gain node carries `localVolume × (gain or 1)`, otherwise the media volume is `localVolume`; under a crossfade the media volume is 0 |
| AudioModel.PlayNow | src/frontend/components/helpers/audio.ts:13-31 | the synchronous part: same keys; an existing key is rewound (no `pauseIfPlaying`) or toggled; every other entry is unchanged; a new key is not inserted yet |
| AudioModel.AddEntry | src/frontend/components/helpers/audio.ts:38-64 | after the await: without an analyser the registry is unchanged; with one the key maps to the Started entry and every other entry is unchanged |
| AudioModel.AfterPlay | src/frontend/components/helpers/audio.ts:12-64 | a whole call adds at most the key itself and leaves every other entry unchanged |
| AudioModel.PlayExistingKey | src/frontend/components/helpers/audio.ts:13-31 | an existing key never gets a second entry; without `pauseIfPlaying` only `currentTime` goes back to 0; with it `paused` flips and play/pause follows the new flag; other keys are unchanged |
| AudioModel.PlayNewKey | src/frontend/components/helpers/audio.ts:38-64 | a new key is inserted only when an analyser was obtained; the entry is unpaused and playing, named by DisplayName, `mic` exactly when a stream was given, seeked only for `startAt > 0`, silent under a crossfade; its gain node holds `localVolume × (gain or 1)`, and without a gain node and crossfade its media volume is `localVolume`; other keys are unchanged |
| AudioModel.FindIndex | src/frontend/components/helpers/audio.ts:171 | the result is -1 exactly when the key is absent; otherwise it is the first index holding the key |
| AudioModel.NextSong | src/frontend/components/helpers/audio.ts:171-175 | a chosen song is a non-empty member of the session list, and a list whose first song is non-empty always yields one |
| AudioModel.NextAfterPrevious | src/frontend/components/helpers/audio.ts:171-175 | after the song at index i that is not the last, the next one is `songs[i+1]` |
| AudioModel.NextWrapsToFirst | src/frontend/components/helpers/audio.ts:171-175 | after the last song, or after an unknown song, the first song is chosen |
| AudioModel.NextSpecific | src/frontend/components/helpers/audio.ts:171-175 | with a specific song that is in the list, that song is chosen |
| AudioModel.NextSongExample | src/frontend/components/helpers/audio.ts:171-175 | `[A,B,C]` gives A→B, C→A, and unknown→A |
| AudioModel.SessionSongs | src/frontend/components/helpers/audio.ts:185-201 | the stored list is reused when a previous song is given and a list is stored; a missing playlist gives the empty list |
| AudioModel.StoredSongs | src/frontend/components/helpers/audio.ts:185-201 | the stored list is left as it is when reused or when the playlist is missing; otherwise what is stored is the session list |
| AudioModel.RegeneratedSession | src/frontend/components/helpers/audio.ts:185-201 | when `shuffleArray` permutes: without a previous song or a stored list, the session list is a permutation of the playlist's songs, equal to them in order unless the mode is `"shuffle"`, and it is what gets stored |
| AudioModel.Chosen | src/frontend/components/helpers/audio.ts:165-175 | a chosen song requires an active playlist id and is a member of the session list |
| AudioModel.Advance | src/frontend/components/helpers/audio.ts:164-183 | up to the await of the `playAudio` it starts: with no active playlist id nothing changes; no entry is added or removed and an existing one is at most rewound; the playlist id is kept; `isCrossfading` becomes set exactly when a song is chosen under a non-zero crossfade (or it was set) |
| AudioModel.AwaitedSong | src/frontend/components/helpers/audio.ts:182 | the song left waiting for its analyser is the chosen song exactly when it had no entry |
| AudioModel.AdvanceStops | src/frontend/components/helpers/audio.ts:168-176 | when no song is chosen only the session list is stored and nothing is awaited |
| AudioModel.AdvancePlays | src/frontend/components/helpers/audio.ts:177-182 | a chosen song becomes active, is rewound if it had an entry, and is awaited otherwise |
| AudioModel.AdvanceChoosesSessionSong | src/frontend/components/helpers/audio.ts:164-183 | the song made active is the one NextSong picks from the session list; an existing one is rewound at once, a new one leaves the registry unchanged and is awaited; with no song, the registry and the active song are unchanged |
| AudioModel.AdvanceThenAddEntry | src/frontend/components/helpers/audio.ts:164-183 | the advance followed by the awaited continuation gives the registry of `playAudio(next, false, 0, false, crossfade)` run to its end |
| AudioModel.CrossfadeDuration | src/frontend/components/helpers/audio.ts:312-327 | the result is 0 or the crossfade; it is the crossfade exactly when the crossfade is non-zero, there is an active track with an entry, and `currentTime + crossfade + 0.1 ≥ duration` |
| AudioModel.FinishPolicy | src/frontend/components/helpers/audio.ts:337-364 | only an unpaused entry whose position reached its duration is handled; a looped one is restarted; otherwise the active track advances the playlist, and any other entry is paused in place exactly when `clearMediaOnFinish === false` |
| AudioModel.Restarted | src/frontend/components/helpers/audio.ts:338-340 | a looped entry plays again from 0, keeps its paused flag, and is kept exactly when unpaused with a non-zero volume |
| AudioModel.RewoundKeepsStatus | src/frontend/components/helpers/audio.ts:16 | rewinding an entry (as a playlist advance does to an existing key) does not change whether it is kept, leaves it unfinished when its duration is positive, and is idempotent |
| AudioFinish.FinishOutcome | src/frontend/components/helpers/audio.ts:337-367 | one filter step, case by case: an unfinished entry leaves the state unchanged; a finished looped entry is restarted; a finished active playlist track is deleted and the playlist advances (the only case that leaves a song awaited); any other finished entry is paused in place when `clearMediaOnFinish` is explicitly false and deleted otherwise. Across cases: only the visited entry is restarted, paused or removed, every other is kept or rewound; the entry is kept exactly when present and eligible afterwards, and dropped only when not eligible or finished without an audible loop; the host is told exactly when a finished entry outside the playlist was paused or removed and no media plays; an awaited song has no entry |
| AudioFinish.FilterPlayingFacts | src/frontend/components/helpers/audio.ts:329-369 | over any visiting order of distinct keys: no entry is added; unvisited keys are at most rewound; `kept` lists, once each, exactly the visited keys present and eligible at the end; a visited key not kept could be dropped; a notified key is paused or gone; an awaited song has no entry |
| AudioFinish.FilterWithoutPlaylist | src/frontend/components/helpers/audio.ts:329-369 | with no active playlist, over any order of distinct keys: unvisited and unfinished entries are untouched; each visited finished entry is restarted if it loops, else paused in place when `clearMediaOnFinish` is explicitly false and deleted otherwise; the active playlist and crossfade flag are unchanged; no song is awaited |
| AudioFinish.FilterKeepsPlaying | src/frontend/components/helpers/audio.ts:337-367 | every visited, eligible entry that has not reached its end is kept; so is every finished, looped entry with a non-zero volume; a notified key is never kept |
| AudioEngine.Engine.constructor | src/frontend/components/helpers/audio.ts:100 | an empty registry, no active playlist, not crossfading, and a remembered volume of 1 |
| AudioEngine.Engine.PlayAudio | src/frontend/components/helpers/audio.ts:13-38 | the registry becomes PlayNow of the old one, and the call is left waiting exactly for a new key |
| AudioEngine.Engine.CompletePlayAudio | src/frontend/components/helpers/audio.ts:40-64 | the registry becomes AddEntry of the registry at that time, under the current mix |
| AudioEngine.Engine.PlayAudioToEnd | src/frontend/components/helpers/audio.ts:12-64 | the registry becomes AfterPlay of the old one |
| AudioEngine.Engine.UpdateVolume | src/frontend/components/helpers/audio.ts:101-128 | the stores become UpdateScalars of the old ones, every entry gets ApplyVolume under the new mix, the keys are unchanged, and the remembered volume stays non-zero |
| AudioEngine.Engine.GetSongs | src/frontend/components/helpers/audio.ts:185-202 | returns SessionSongs and stores StoredSongs in the active playlist |
| AudioEngine.Engine.PlaylistNext | src/frontend/components/helpers/audio.ts:164-183 | the registry, active playlist and crossfade flag become Advance of the old state, and the song returned as awaited is AwaitedSong |
| AudioEngine.Engine.CheckCrossfade | src/frontend/components/helpers/audio.ts:312-327 | returns CrossfadeDuration; when it is non-zero the playlist advances from the active track with that crossfade, and otherwise nothing changes |
| AudioEngine.Engine.FinishStep | src/frontend/components/helpers/audio.ts:333-367 | the new state, keep, notify and awaited song are FinishOutcome of the old state, so the step follows the finish rule case by case |
| AudioEngine.Engine.GetPlayingAudio | src/frontend/components/helpers/audio.ts:329-369 | for an order listing every registry key once, the new state and the kept, notified and awaited lists are FilterPlaying of the old state over that order |
| AudioLevels.Highest | src/frontend/components/helpers/audio.ts:420-422 | the result is one of the numbers and no number exceeds it |
| AudioLevels.Lefts | src/frontend/components/helpers/audio.ts:294-303 | one left level per audible source, as many as right levels |
| AudioLevels.Rights | src/frontend/components/helpers/audio.ts:294-303 | at most one right level per source |
| AudioLevels.MergedLevel | src/frontend/components/helpers/audio.ts:305-306 | `{0, 0}` when nothing was collected; otherwise each channel is one of the collected levels and none exceeds it |
| AudioLevels.MergeAudio | src/frontend/components/helpers/audio.ts:290-309 | the loop computes MergedLevel of the sources |
| AudioLevels.LeftsRightsMembers | src/frontend/components/helpers/audio.ts:294-303 | a level is collected exactly when it belongs to an audible source (left above 0 or right above 0) |
| AudioLevels.MergedLevelIsMaximum | src/frontend/components/helpers/audio.ts:299-306 | each merged channel is at least that channel of every audible source and equals one of them; the result is {0,0} when no source is audible; it is audible iff some source is |
| AudioLevels.MergedLevelExample | src/frontend/components/helpers/audio.ts:290-309 | sources {0.2,0.1} and {0.5,0.05} merge to {0.5,0.1} |
| AudioLevels.MatchIndex | src/frontend/components/helpers/audio.ts:397 | -1 exactly when no element is an output entry with that id; otherwise the first such index |
| AudioLevels.MergeVideo | src/frontend/components/helpers/audio.ts:397-409 | merging one video changes the list's length by at most one |
| AudioLevels.OutputVideos | src/frontend/components/helpers/audio.ts:393 | keeps exactly the videos whose location is `"output"` |
| AudioLevels.MergeVideos | src/frontend/components/helpers/audio.ts:396-410 | merging n videos changes the list's length by at most n |
| AudioLevels.MergeOutputVideo | src/frontend/components/helpers/audio.ts:396-410 | the splice/overwrite/push callback computes MergeVideo |
| AudioLevels.GetPlayingOutputVideos | src/frontend/components/helpers/audio.ts:392-413 | the result is MergeVideos of the list and the output videos |
| AudioLevels.Others | src/frontend/components/helpers/audio.ts:397 | exactly the elements that are not the output entry with the id; never longer than the list |
| AudioLevels.MergeVideoEffect | src/frontend/components/helpers/audio.ts:397-409 | present and paused: removed; present and playing: only `channels` overwritten; absent and playing: appended; absent and paused: ignored; in each case every other element is kept in order, and the elements before the counterpart stay in place |
| AudioLevels.MergeVideoIdempotent | src/frontend/components/helpers/audio.ts:397-409 | merging the same video twice gives the same list as merging it once |
| AudioLevels.MergedVideoPresent | src/frontend/components/helpers/audio.ts:397-409 | after merging a playing output video, the list holds an output entry with its id and its channels |
| ExportFiles.NatToString | src/electron/data/export.ts:192 | a number prints as a non-empty run of digits, one digit exactly below 10 |
| ExportFiles.NatToStringInjective | src/electron/data/export.ts:192 | different numbers print differently |
| ExportFiles.Suffix | src/electron/data/export.ts:192 | the suffix is empty exactly for 0 |
| ExportFiles.Candidate | src/electron/data/export.ts:192 | a candidate starts with the base path and ends with the extension; the first is exactly base plus extension |
| ExportFiles.CandidateInjective | src/electron/data/export.ts:192 | different numbers give different candidate paths |
| ExportFiles.Candidates | src/electron/data/export.ts:190-193 | the first n attempts contain every candidate numbered below n and at most n paths |
| ExportFiles.CandidatesMembers | src/electron/data/export.ts:190-193 | the first n candidates are exactly the candidates numbered below n |
| ExportFiles.CandidatesCount | src/electron/data/export.ts:190-193 | the first n candidates are n distinct paths |
| ExportFiles.WriteFilePath | src/electron/data/export.ts:186-195 | the path written is candidate `number`, it is not an existing path, every smaller-numbered candidate exists, and the number never exceeds the count of existing paths |
| ExportFiles.CustomJsonExtension | src/electron/data/export.ts:15-18 | `TEMPLATE` maps to `.fstemplate`, `THEME` to `.fstheme`, and there is none for any other channel |
| ExportFiles.StartExport | src/electron/data/export.ts:20-43 | no path and a cancelled dialog: nothing happens; `TEMPLATE`/`THEME`: JSON export; other channels except `GENERATE`: nothing; `GENERATE`: PDF, TXT or project by type; the dialog's path is announced exactly when it was used; the export folder is derived from the path used |
| ExportFiles.DefaultName | src/electron/data/export.ts:115 | never empty; a non-empty name is kept; an empty one becomes `"Unnamed"` |
| ExportFiles.ExportJsonPath | src/electron/data/export.ts:114-116 | the file written is in the folder under the defaulted name, not an existing path, with every smaller-numbered candidate existing |
| ExportFiles.CompletionAsWritten | src/electron/data/export.ts:47-56 | as written: the folder opens exactly on the first success of a session, which alerts `"export.exported"`; every other completion alerts `err` as it is |
| ExportFiles.SecondSuccessLosesMessage | src/electron/data/export.ts:47-56 | as written, a successful write after the first one in a session sends no message |
| ExportFiles.CompletionRule | src/electron/data/export.ts:47-56 | the alert is `"export.exported"` on success and the error otherwise; the folder is opened exactly on a success while not yet opened; the flag is then set |
| ExportFiles.OpensOncePerSession | src/electron/data/export.ts:45-56 | over any sequence of completions, the flag is set iff it was set already or some write succeeded, and the folder opens once exactly when it was not opened and some write succeeded, else never |
| ExportFiles.ExportSession.constructor | src/electron/data/export.ts:46 | a session starts with the folder not opened |
| ExportFiles.ExportSession.DoneWritingFile | src/electron/data/export.ts:47-57 | the alert, the folder opening and the new flag are CompletionRule of the error and the old flag |
| SlidesText.ChildSlides | src/electron/data/export.ts:138-141 | one looked-up slide per child id, in order (a missing child stays missing) |
| SlidesText.ExpandMembers | src/electron/data/export.ts:131-142 | every present slide of the layout is listed, and every listed slide is a slide of the show |
| SlidesText.ExpandAppend | src/electron/data/export.ts:131-142 | expanding a concatenation of layout entries concatenates the expansions |
| SlidesText.ExpandOne | src/electron/data/export.ts:132-141 | a present slide is immediately followed by its children |
| SlidesText.ExpandSkipsMissing | src/electron/data/export.ts:132-133 | a layout entry whose slide is missing contributes nothing, children included |
| SlidesText.LineText | src/electron/data/export.ts:150-157 | a line without text contributes nothing; a line with text contributes text ending in a newline |
| SlidesText.ItemsTextEmpty | src/electron/data/export.ts:147-160 | the items contribute no text exactly when none of them has `lines` |
| SlidesText.AfterSlide | src/electron/data/export.ts:163 | the result never ends with `"]\n"`, starts with the text and is at most one character longer |
| SlidesText.SlideText | src/electron/data/export.ts:144-163 | the text before the slide is kept, and the result never ends with `"]\n"` |
| SlidesText.AfterSlideBreaksHeader | src/electron/data/export.ts:163 | exactly one newline is added when the text ends with `"]\n"`, none otherwise, so the result no longer ends with it |
| SlidesText.SlideTextExtends | src/electron/data/export.ts:144-163 | a slide appends its header and its items' text to the text before it, plus one newline exactly when that ends with `"]\n"`; a group whose items have no lines yields `"[group]\n\n"` |
| SlidesText.AccumulatedFails | src/electron/data/export.ts:144-164 | the rendering fails exactly when some slide in the list is missing |
| SlidesText.ItemsTextAppend | src/electron/data/export.ts:147-160 | the text of a concatenation of items is the concatenation of their texts |
| SlidesText.ReplaceTriple | src/electron/data/export.ts:166 | the replacement never lengthens the text |
| SlidesText.ReplaceTripleKeepsText | src/electron/data/export.ts:166 | every character other than a newline is kept, in order |
| SlidesText.ReplaceTripleNoTriple | src/electron/data/export.ts:166 | a text without three newlines in a row is unchanged |
| SlidesText.ReplaceTripleShrinks | src/electron/data/export.ts:166 | the text gets shorter exactly when it holds three newlines in a row |
| SlidesText.ShrinksAt | src/electron/data/export.ts:166 | a text with three newlines at some position gets shorter |
| SlidesText.FourNewlinesLeaveThree | src/electron/data/export.ts:166 | a single left-to-right pass turns four newlines into three |
| SlidesText.LeadCount | src/electron/data/export.ts:168 | the leading run of whitespace, maximal |
| SlidesText.TrailCount | src/electron/data/export.ts:168 | the trailing run of whitespace, maximal |
| SlidesText.Trim | src/electron/data/export.ts:168 | a contiguous slice of the text with only whitespace outside it and no whitespace at either end |
| SlidesText.ShowText | src/electron/data/export.ts:127-169 | the exported text is trimmed: no leading or trailing whitespace |
| SlidesText.ShowTextFails | src/electron/data/export.ts:131-164 | the rendering fails exactly when the layouts lack the active one or a listed child slide is missing |
| SlidesText.CollectSlides | src/electron/data/export.ts:130-142 | the push loop yields Expand of the layout's slide ids |
| SlidesText.AppendLine | src/electron/data/export.ts:150-157 | the loop appends the line's values and a newline, or nothing for a line without text |
| SlidesText.AppendItem | src/electron/data/export.ts:147-160 | appends the item's lines and its closing newline, or nothing without lines |
| SlidesText.AppendItems | src/electron/data/export.ts:147-160 | appends the text of every item, in order |
| SlidesText.AppendSlide | src/electron/data/export.ts:144-163 | appends SlideText of the slide |
| SlidesText.AccumulateText | src/electron/data/export.ts:144-164 | the loop over the slides computes Accumulated, failing on a missing slide |
| SlidesText.GetSlidesText | src/electron/data/export.ts:127-169 | returns ShowText of the show |

## Left out

- Timers and fades are not modelled. This covers `fadeAudio`, `stopFading`, `crossfadeAudio`, `clearAudio` and its deferred clean-up, the 50 ms `analyseAudio` loop, and the timer that resets `isCrossfading`. They are concurrency and timing over floating-point volume steps.
- AudioEngine.Engine.PlayAudio: clearing or fading out the other entries (audio.ts:33-34) and fading in under a crossfade (audio.ts:60) are not modelled, because they run on those timers. The contract says nothing about those entries being faded or removed later.
- AudioModel.Advance: "no entry is removed" holds only for the synchronous step. The `playAudio` it starts for a new song calls `crossfadeAudio` or `clearAudio` (audio.ts:33-34), which later delete the other entries; that deletion is not modelled.
- AudioEngine.Engine.CompletePlayAudio: the continuation runs against whatever the registry holds when the analyser arrives. Its contract is exact for that registry, but which other events run in between is not modelled; PlayAudioToEnd and AdvanceThenAddEntry cover the case where nothing runs in between.
- AudioEngine.Engine.UpdateVolume: the `analyseAudio` restart at audio.ts:127 is a timer and is left out.
- `getAnalyser` and the per-channel sampling (`audioAnalyser`) are Web Audio calls. The analyser is a parameter: `None` when construction failed, otherwise a record with an optional gain node. The sampled levels are a field of each source. When the analyser is missing, the source goes on to read `analyser.gainNode` and throws; the model only keeps the registry unchanged.
- Microphone capture (`startMicrophone`, `clearAudioStreams`) and `getAudioDuration` are device and file I/O. `getPlayingVideos` depends on the DOM (`document.contains`). The playing videos are a parameter of AudioLevels.GetPlayingOutputVideos.
- `shuffleArray` is a function parameter. AudioModel.RegeneratedSession requires it to return a permutation of its argument; nothing else depends on what it does. `checkNextAfterMedia` is reduced to the `notify` result. `clone`, `encodeFilePath`, `stopMetronome` and `send` are not part of this model.
- AudioEngine.Engine.GetPlayingAudio: the key order of `Object.entries` (insertion order, integer-like keys first) is a parameter, `order`, required to list every registry key once; the facts about the filter are proved for every order of distinct keys. The filter visits a snapshot taken at its start, and the model reads each entry's current flags instead; the two agree because a step changes no other entry's `paused` flag or volume.
- Media handles are records `{currentTime, duration, volume, paused}` held by value in the registry, so aliasing of one element by two entries is not modelled. The browser setting `paused` by itself when playback ends is not modelled either: `paused` changes only through the calls the core makes.
- AudioModel.Round2: `toFixed(2)` is modelled as exact rounding to hundredths, not bit-exact binary floating point. NaN and the `Number(...) || 0` coercion of non-numeric settings are not modelled; crossfade values are already numbers.
- The `if (!audio.audio) return false` guard of `getPlayingAudio` is not modelled, because every modelled entry has a media record.
- ExportFiles.StartExport: `path.join` normalisation is simplified to `folder + "/" + name`. `getDataFolder` and `selectFolderDialog` are parameters. The lookup into `customJSONExtensions` ignores inherited object keys such as `constructor`.
- PDF export (`createPDFWindow`, `generatePDF`), the IPC handler, `exportTXT`, `exportProject`, `JSON.stringify` and `fs.writeFile` are Electron and file-system I/O. Only their routing and the file name chosen are modelled.
- SlidesText.GetSlidesText: text values are strings, although JavaScript would also concatenate non-strings. A show without `settings` and a slide without `items` are not modelled.
- `src/types/Save.ts` only declares type unions of settings keys. They have no counterpart here, because no modelled operation reads them.

## Findings

| source | as written | input that shows it | evidently intended | confidence | as-written member | corrected member |
|---|---|---|---|---|---|---|
| src/electron/data/export.ts:47-56 | when `err` is null but `systemOpened` is already true, the else branch sets `msg = err`, so the alert carries `null` | a second successful write in one session: `doneWritingFile(null, folder)` with `systemOpened == true` | the folder opens only once, but every success alerts `"export.exported"` and only a failure alerts the error | medium, not executed | ExportFiles.SecondSuccessLosesMessage | ExportFiles.CompletionRule |
