# Encounter-zone releveling of NPC templates

This project models the core of EnemiesRespectEncounterZonesNG, a Skyrim SKSE plugin. When an actor loads, the plugin rewrites the level range (`calcLevelMin`/`calcLevelMax`) of the actor's player-levelled NPC template to fit the encounter zone the actor stands in. It keeps a store of every template's original range, so that the change can be undone when a save is loaded or when the plugin is uninstalled.

The model follows `src/RelevelNpcs.cpp`, one Dafny module per part of that file:

- `Helper` covers `Helper::trim` and `Helper::splitString`. `SplitString` keeps the source's `getline` loop. It is proved against `Fields`, a recursive definition of the `getline` substrings. `Fields` has its own round trip with `Join`.
- `Config` holds the settings record (the fields and defaults of `Settings`) and the splitting of the three plugin-name settings into sets.
- `Types` holds the host records:
  - `Template` is a class, because the plugin writes the level range of an NPC template in place.
  - `Actor` is a datatype whose commanding actor is nested, so the summon recursion of `Filter` is structural.
  - `UInt16`, `FormId` and the dynamic form-id boundary `0xff000000`.
- `Bounds` holds the bound arithmetic of `RelevelActorbase`. `ComputeBounds` is a function with the floor, ordering and containment properties. `RelevelBounds` performs the same steps one by one, as the source does, and is proved equal to it.
- `Eligibility` holds `StaticFilter`, `PluginFilter` (with its search loops) and the recursive `Filter`.
- `Zones` holds the encounter-zone priority chain, the `0x1E` "no zone" sentinel, the defaults used when there is no zone, and the normalisation of the zone range.
- `Manager` holds `UnlevelManager`, a class with the two maps `originalActorBaseLevels` and `dynamicActorBaseLevels`, and its operations. It also holds `Decide`, the decision `ProcessActor` takes, written as a function.
- `Lifecycle` holds several calls against one store. Releveling a template twice gives the same range as releveling it once. Reading the original data, processing a sequence of actors and then resetting returns every player-levelled template of the form array to its starting range, provided the player-levelled templates have distinct form ids and every relevel the sequence causes has a scaled request that fits in uint16_t.

Some modelling choices:

- Floating-point values are exact reals. The multiplier is `level / 1000`.
- Every value cast to `uint16_t` is non-negative, so the cast is the floor. A cast that would be out of range is undefined behaviour in C++, and the precondition `CastDefined` excludes it.
- An assignment of an `int` to a `uint16_t` wraps modulo 2^16 (`ToUInt16`).
- A template's identity is the Dafny object reference, which serves as the pointer stored with dynamic records.
- The host's form array is a `seq<Template?>`. A missing data handler behaves like an empty array.

`ResetActorbase` compares `calcLevelMin` with the record twice and never compares `calcLevelMax`. The model keeps this as written (`ResetOutcome`). A template whose minimum matches its record therefore keeps a changed maximum after `ResetActorbase`, until `ResetToOriginal` restores it.

## Model

| member | source | states |
|---|---|---|
| Helper.FirstNotBlank | src/RelevelNpcs.cpp:24 | the index returned by find_first_not_of: everything before it is a space or tab, and the character at it is not |
| Helper.ContentEnd | src/RelevelNpcs.cpp:27 | one past find_last_not_of: everything from it on is blank, and the character before it is not |
| Helper.Trim | src/RelevelNpcs.cpp:23-31 | the result is empty exactly when the input is all blanks; otherwise it starts and ends with a non-blank character and is the input with only blank prefix and suffix removed |
| Helper.TrimTwice | src/RelevelNpcs.cpp:23-31 | trimming is idempotent |
| Helper.SepIndex | src/RelevelNpcs.cpp:39 | where one getline call stops: the first separator, or the end of the string |
| Helper.Fields | src/RelevelNpcs.cpp:39-41 | the fields the getline loop reads: a non-empty string gives at least one field, the first being the text up to the first separator |
| Helper.FieldsNonEmpty | src/RelevelNpcs.cpp:33-43 | the getline loop yields no field exactly for the empty string |
| Helper.FieldsHaveNoSep | src/RelevelNpcs.cpp:39-41 | no extracted field contains the separator |
| Helper.JoinFields | src/RelevelNpcs.cpp:39-41 | joining the fields with the separator gives back the string, except for a single trailing separator, which getline drops |
| Helper.JoinCons | src/RelevelNpcs.cpp:39-41 | joining a field in front of a non-empty list adds that field and one separator |
| Helper.SepIndexIs | src/RelevelNpcs.cpp:39 | any index with no separator before it, and a separator or the end at it, is where getline stops |
| Helper.FindSep | src/RelevelNpcs.cpp:39 | the scan for the next separator from a position stops where getline would |
| Helper.FieldsStep | src/RelevelNpcs.cpp:39-41 | one getline call takes the text up to the separator and leaves the rest to the following calls |
| Helper.SplitString | src/RelevelNpcs.cpp:33-43 | the result set holds exactly the getline fields of the trimmed string; fields themselves are not trimmed |
| Config.SplitPluginLists | src/RelevelNpcs.cpp:178-180 | each of the three plugin lists holds exactly the comma-separated fields of its trimmed setting; no other setting changes |
| Config.BlankListsDisableFilter | src/RelevelNpcs.cpp:178-182 | blank plugin settings give empty lists, so the plugin filter is off |
| Types.ToUInt16 | src/RelevelNpcs.cpp:633-639 | assignment to uint16_t keeps in-range values and otherwise agrees with the value modulo 2^16 |
| Bounds.RequestedMax | src/RelevelNpcs.cpp:488-491 | an inverted request with a finite maximum has its maximum set to exactly its minimum; an ordered request is kept; an open maximum stays 0 |
| Bounds.NormalisedOriginal | src/RelevelNpcs.cpp:509-513 | the same for the original range: the minimum is kept, an inverted finite maximum is set to exactly the minimum, and an ordered or open range is kept |
| Bounds.PcLevelMult | src/RelevelNpcs.cpp:500 | the multiplier is level/1000 and lies in 0 to 65.535 |
| Bounds.ScaleMonotone | src/RelevelNpcs.cpp:521-525 | scaling by a non-negative multiplier keeps the order of the request |
| Bounds.Scaled | src/RelevelNpcs.cpp:516-525 | the scaled request is never negative |
| Bounds.Unrounded | src/RelevelNpcs.cpp:516-548 | the values before the cast are non-negative, and the minimum is at most the maximum whenever the maximum is not 0 |
| Bounds.Clamped | src/RelevelNpcs.cpp:527-548 | with extension the scaled request passes unchanged; without it and with a finite original range, a value inside the range is kept, one below becomes the original minimum, one above the original maximum, and an open request takes the original maximum; with an open original range, values are only raised to the original minimum and never capped, and an open request stays open |
| Bounds.ScaledFitsCastDefined | src/RelevelNpcs.cpp:516-550 | a scaled request that fits in uint16_t keeps both casts defined for every original range, since clamping only moves a value into the original range, whose ends are uint16_t values |
| Bounds.CastDefinedUnclampedFits | src/RelevelNpcs.cpp:516-550 | conversely, a request whose casts are defined when nothing is clamped fits in uint16_t, so fitting is exactly the condition that keeps the casts defined whatever the original range |
| Bounds.ComputeBounds | src/RelevelNpcs.cpp:487-558 | the written minimum is at least 1 and at most a non-zero maximum, also for an inverted request; without extension it is at least the original minimum; with a finite original maximum and a minimum of at least 1, both bounds lie in the normalised original range; an open request takes exactly the original maximum; an open original stays open for an open request and otherwise ends at least at the original minimum; with extension and no multiplier the request is written as given; with extension the scaled request is written truncated, its minimum floored at 1; without extension and with a finite original range, a scaled value inside the normalised range is written truncated and one outside takes the nearer end; with an open original range, the truncated scaled values are only floored at the original minimum and never capped |
| Bounds.NormalisedOriginalIdempotent | src/RelevelNpcs.cpp:509-513 | normalising twice is normalising once |
| Bounds.ComputeBoundsOnNormalised | src/RelevelNpcs.cpp:505-513 | a stored original and its normalised form give the same and equally defined bounds |
| Bounds.ScaledRequestRaisedToOriginal | src/RelevelNpcs.cpp:516-558 | a zone of 10-30 and a level-20 template originally 5-80 are written 5-5: the scaled request 0.2-0.6 is raised to the original minimum |
| Bounds.DoubleLevelZoneScaled | src/RelevelNpcs.cpp:104-108 | the setting's own example: an NPC at twice the player level in a 10-30 zone is written 20-60 when the range may be extended |
| Bounds.ScaledRequestOrdered | src/RelevelNpcs.cpp:516-525 | scaling keeps a normalised request ordered, and an open request scales to 0 |
| Bounds.ScaleRequest | src/RelevelNpcs.cpp:516-525 | the step-by-step scaling gives the scaled request and keeps its order |
| Bounds.ClampToOriginal | src/RelevelNpcs.cpp:527-548 | the step-by-step clamping agrees with Clamped |
| Bounds.RelevelBounds | src/RelevelNpcs.cpp:487-558 | the step-by-step computation hands on the normalised original and writes exactly ComputeBounds |
| Eligibility.PluginAllows | src/RelevelNpcs.cpp:369-438 | the plugin filter as a predicate: it passes when the filter is off or the source files are unknown, and otherwise exactly when being listed agrees with the invert flag |
| Eligibility.PluginFilter | src/RelevelNpcs.cpp:369-438 | passes exactly when the filter is off, the source files are unknown, or a master, winning or any-file match occurs exactly when the filter is inverted |
| Eligibility.StaticFilter | src/RelevelNpcs.cpp:440-446 | passes exactly for player-levelled templates the plugin filter lets through |
| Eligibility.Filter | src/RelevelNpcs.cpp:448-471 | an accepted actor is not a unique unless uniques are relevelled, and not a follower unless followers are; an accepted summonable summon needs relevelSummons; with relevelSummons, a summonable summon is accepted exactly when its own unique and follower tests pass and, if summons are treated like their owner, its owner is accepted; for other actors acceptance is exactly the unique and follower tests |
| Eligibility.SummonOfRejectedOwnerRejected | src/RelevelNpcs.cpp:457-465 | with relevelSummons and treatSummonsLikeOwner, a summonable summon whose owner is rejected is rejected |
| Eligibility.RejectedSummonerRejects | src/RelevelNpcs.cpp:457-465 | the same along any chain of summoners: if any summoner up the chain is rejected, so is the summon |
| Eligibility.InvertedPluginFilterNegates | src/RelevelNpcs.cpp:382-425 | with the filter on and the files known, the inverted mode decides exactly the opposite of the normal mode |
| Eligibility.PluginFilterPassesUnknown | src/RelevelNpcs.cpp:371-373 | with the filter off or the files unknown, every template passes |
| Zones.ResolveZone | src/RelevelNpcs.cpp:605-620 | no zone exactly when none of the three lookups is a zone other than 0x1E; a found zone is the first lookup that is one |
| Zones.ZoneRange | src/RelevelNpcs.cpp:632-646 | the minimum is the zone's (or, without a zone, the no-zone default's) minimum as uint16_t, and exactly 1 when that is 0; the maximum is its maximum as uint16_t, where 0 means open |
| Zones.ZoneRangeOfZone | src/RelevelNpcs.cpp:637-646 | a zone with in-range levels gives its own range, with a zero minimum raised to 1 |
| Manager.ResetOutcome | src/RelevelNpcs.cpp:473-485 | a template whose minimum differs from its record is given the record; with no record, or a matching minimum, nothing changes |
| Manager.ResetMissesMaximumOnlyChange | src/RelevelNpcs.cpp:477-478 | a template whose maximum alone differs from its record is not restored |
| Manager.Decide | src/RelevelNpcs.cpp:571-646 | a template failing StaticFilter is untouched; an ineligible actor, or any actor under manual uninstall, is only reset; otherwise the actor is untouched exactly when its cell is not loaded, reset exactly when no zone is found and noZoneSkip is set, and otherwise relevelled to the zone range, whose minimum is at least 1 |
| Manager.DefaultsResetZoneless | src/RelevelNpcs.cpp:53-76 | under the default settings, an eligible actor in a loaded cell with no encounter zone is reset, not given the no-zone levels |
| Manager.DefaultsLeaveFollowers | src/RelevelNpcs.cpp:53-76 | under the default settings, a player teammate is never relevelled |
| Manager.Snapshot | src/RelevelNpcs.cpp:351-366 | the records ReadOriginalData inserts: its keys are exactly the form ids of the player-levelled templates of the form array |
| Manager.SnapshotRecords | src/RelevelNpcs.cpp:358-363 | with distinct ids, the snapshot records every player-levelled template's range as read |
| Manager.UnlevelManager.constructor | src/RelevelNpcs.cpp:268-269 | both maps start empty |
| Manager.UnlevelManager.SetActorBaseData | src/RelevelNpcs.cpp:271-279 | the template gets the new range, and a dynamic id also stores the original, the new range and the template object; persistent ids leave the dynamic map alone |
| Manager.UnlevelManager.OriginalOf | src/RelevelNpcs.cpp:290-320 | the original range the store reports: a dynamic id's record only while its modified range and identity match the template, a persistent record whenever one exists, otherwise the template's current range |
| Manager.UnlevelManager.GetOriginalActorBaseData | src/RelevelNpcs.cpp:281-322 | a non-dynamic id is captured once: the first call records the template's current range, and later calls return the record; a dynamic record is used only while its modified range and object match the template, and is erased otherwise; persistent records are never changed |
| Manager.UnlevelManager.ResetToOriginal | src/RelevelNpcs.cpp:324-349 | every player-levelled template in the form array with a persistent record again holds it; every other template keeps its range |
| Manager.UnlevelManager.ReadOriginalData | src/RelevelNpcs.cpp:351-367 | the store gains the current range of every player-levelled template in the form array, later entries winning |
| Manager.UnlevelManager.ResetActorbase | src/RelevelNpcs.cpp:473-485 | the template ends as ResetOutcome of its record and its range |
| Manager.UnlevelManager.RelevelActorbase | src/RelevelNpcs.cpp:487-568 | the template gets ComputeBounds of the request and its original range as the store reported it; a persistent id has that original recorded, a dynamic id has the normalised original, the new range and the object stored; records are kept, and the original the store reports is unchanged up to normalisation |
| Manager.UnlevelManager.OnDataInit | src/RelevelNpcs.cpp:264 | reads the original data |
| Manager.UnlevelManager.OnPreLoad | src/RelevelNpcs.cpp:245-252 | templates with a record are restored, others keep their range, and the dynamic map is left empty |
| Manager.UnlevelManager.OnPostLoad | src/RelevelNpcs.cpp:254-262 | under manual uninstall, templates with a record are restored; otherwise nothing changes |
| Manager.UnlevelManager.ProcessActor | src/RelevelNpcs.cpp:571-661 | carries out Decide: untouched leaves the store and the template as they were; reset changes only the template, as ResetActorbase does; relevel writes the zone range through RelevelActorbase and gives both new maps exactly (a persistent id gains its original, a dynamic id its new record, and every other entry is kept); persistent records are never lost |
| Lifecycle.RelevelTwice | src/RelevelNpcs.cpp:281-322 | a second RelevelActorbase with the same request writes the same range as the first |
| Lifecycle.ProcessThenRestore | src/RelevelNpcs.cpp:245-367 | reading the original data, processing a sequence of actors and then ResetToOriginal leaves every player-levelled template of the form array with its starting range; the form ids must be distinct (DistinctLevelledIds) and every relevel an event causes must have a scaled request that fits in uint16_t (EventFits) |

## Left out

- `src/Main.cpp` (logging setup, SKSE messaging, serialization registration, plugin entry) is not part of this model. It carries no logic of its own.
- `src/RelevelNpcs.h` holds declarations only.
- `Settings::Load` and the `getIni` overloads: reading the INI file, writing it back and setting the log level are file I/O. Settings is an immutable record of its fields and defaults. Only the splitting of the plugin lists is modelled.
- The event-sink classes and `Init` only hand an actor to `ProcessActor`. `ProcessActor` is modelled with the actor as its argument.
- The `std::mutex` guard: the store is modelled as single-threaded.
- `GetEncounterZone`, the extra-data lookup and the cell's loaded data are foreign host calls. Their results are the inputs of `ProcessActor`: `cell` is None when the actor has no parent cell or no loaded data.
- The width of the encounter zone's level fields is not in this model. They are integers, converted to uint16_t.
- The `setlevel` console command run under `forceAutoCalcAttributes` is a foreign side effect.
- Logging, and the pointer-to-string formatting in `GetOriginalActorBaseData`, produce output that is never used.
- The multiplier `level * 0.001f` is an exact real, so float rounding is not modelled. A request that float rounding would push across an integer boundary can be written one level differently by the host.
- Eligibility.PluginFilter and Eligibility.StaticFilter do not take the actor argument of the source, which those functions use only in log messages.
- Manager.UnlevelManager.RelevelActorbase requires both values before the cast to be below 65536 (CastDefined), because a larger float-to-uint16_t cast is undefined behaviour in C++.
- Types.FileList: a template's source-file array is never empty, because `size() - 1` on an empty array would index out of bounds; a root or array that cannot be found is None.
- Lifecycle.ProcessThenRestore: proved only for form arrays whose player-levelled templates have distinct form ids, and only for events whose scaled request fits in uint16_t for every original range. The source also defines the casts for a larger request that a finite original maximum clamps into range; such events are not covered, because which original range applies depends on the store's state at that point of the sequence.
- Types.Actor: a chain of commanding actors is finite, because the datatype is inductive. A cyclic chain of summonable summons, on which `Filter` would recurse without end when summons are treated like their owner, cannot be expressed.
