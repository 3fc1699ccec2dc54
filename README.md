# SexyTopo survey core in Dafny

A model of the part of SexyTopo, the Android cave-surveying app, that turns
instrument shots into a survey and moves surveys in and out of the
PocketTopo, Survex and Therion file formats, with proofs of what each
operation does.

- **Survey** (`survey.dfy`, module `SurveyModel`). A tree of stations joined
  by legs.
  - A flat chronological record of the legs, an active station, a saved
    flag and a trip.
  - Stations are numbers in an arena. Their names, comments,
    extended-elevation directions and onward-leg lists are maps from those
    numbers.
  - A leg carries an `id` that stands for the identity of the Java object.
  - `SurveyState` is a value snapshot of the mutable `Survey` class. The
    survey's queries (station by name, referring leg, originating station,
    last N legs) are functions of that snapshot, taken in pre-order from
    the origin.
- **Live updating** (`survey_updater.dfy`, `averaging.dfy`, `legs.dfy`).
  - A new shot is either incorporated into the provenance of the leg that
    made the active station, or appended as a splay.
  - Appending may then promote the newest splays into a connected leg to a
    new station: N repeats that are about the same, or in COMBO mode a
    fore/back pair.
  - The tree edits are here too: edit, rename, move, delete, downgrade,
    reverse, and setting the direction of a subtree.
  - Each operation is a transition function on `SurveyState` with lemmas
    about it, plus a method on `Survey` proved to perform exactly that
    transition.
  - The tolerance test and the wrap-aware azimuth average are methods with
    accumulator loops, proved against recursive specification functions.
- **PocketTopo import** (`pockettopo_file.dfy`, `pockettopo_importer.dfy`).
  - The binary primitives read from a byte stream with a position:
    little-endian integers, 7-bit-group string lengths, station ids, and
    fixed-point angles, distances and dates.
  - A string length is accumulated in a 32-bit int, as Java does: the
    shift is taken modulo 32, high bits are lost, and a negative length
    fails as `new byte[length]` does.
  - Each reader is proved to deliver what a pure decoder says the bytes
    mean.
  - The header, trip, shot and reference records are read the same way.
  - The multi-pass reconciler builds the survey tree over a `processed`
    array until a pass makes no progress.
- **PocketTopo text export** (`pockettopo_txt_exporter.dfy`).
  - The header and the DATA section.
  - A promoted leg carries its raw shots in a `{from: ...}` instruction,
    which the Survex/Therion comment reader gets back.
- **Survex/Therion import** (`survextherion_importer.dfy`,
  `survextherion_centreline.dfy`, `survextherion_passages.dfy`,
  `survextherion_team.dfy`, `survey_format.dfy`).
  - Centreline lines, with the decision whether a leg was shot backwards.
  - Inline provenance instructions and commented repeat lines.
  - The passage-comment block and comment merging.
  - Team lines and roles, and Therion's `explo-team` lines.
- **Survex/Therion export** (`survextherion_util.dfy`,
  `survextherion_entries.dfy`, `survex_exporter.dfy`, `th_exporter.dfy`,
  `thconfig_exporter.dfy`).
  - Input lines, trip metadata, the station-comment block, the centreline
    entries and the extend commands.
  - Team lines, and the thconfig template check and substitution.
  - Where an exporter has a reader on the import side, a lemma reads the
    written text back. It gets back the file names, the instrument, the
    roles, the station comments, the legs and their raw shots.
- **Shared pieces** (`text.dfy`, `wrappers.dfy`). The `java.lang.String`
  operations the readers rely on, with Java's edge cases, and the
  `Option`/`Result` types that stand in for null and exceptions.

## Model

| member | source | states |
|---|---|---|
| Averaging.MinMaxBound | app/src/main/java/org/hwyl/sexytopo/control/util/SurveyUpdater.java:439-447 | no measurement lies below the minimum or above the maximum of a group of shots |
| Averaging.MinAttained | app/src/main/java/org/hwyl/sexytopo/control/util/SurveyUpdater.java:439-447 | the minimum areLegsAboutTheSame compares is one of the measured values |
| Averaging.MaxAttained | app/src/main/java/org/hwyl/sexytopo/control/util/SurveyUpdater.java:439-447 | the maximum areLegsAboutTheSame compares is one of the measured values |
| Averaging.SpreadWithin | app/src/main/java/org/hwyl/sexytopo/control/util/SurveyUpdater.java:449-458 | max - min is within a tolerance exactly when every pair of values differs by at most that tolerance |
| Averaging.MeanWithinRange | app/src/main/java/org/hwyl/sexytopo/control/util/SurveyUpdater.java:469-480 | the average of a non-empty group lies between its smallest and largest value |
| Averaging.FirstShiftedIsHalfTurn | app/src/main/java/org/hwyl/sexytopo/control/util/SurveyUpdater.java:437-442 | the offset 540 - first turns the first leg's own azimuth to exactly 180 degrees |
| Averaging.ShiftedIsCircularOffset | app/src/main/java/org/hwyl/sexytopo/control/util/SurveyUpdater.java:437-442 | for azimuths in [0, 360) the shifted value is 180 plus the signed circular offset from the first leg, in [-180, 180) |
| Averaging.AboutTheSamePairwise | app/src/main/java/org/hwyl/sexytopo/control/util/SurveyUpdater.java:426-459 | areLegsAboutTheSame holds exactly when all shots are splays and every two of them agree on distance, shifted azimuth and inclination within the tolerances |
| Averaging.AcrossNorthAboutTheSame | app/src/main/java/org/hwyl/sexytopo/control/util/SurveyUpdater.java:437-444 | two splays at 359 and 1 degrees are about the same under a 2-degree tolerance (azimuths wrap round north) |
| Averaging.AreLegsAboutTheSame | app/src/main/java/org/hwyl/sexytopo/control/util/SurveyUpdater.java:426-459 | the loop over the shots returns exactly the about-the-same predicate (splays only, each spread within its tolerance) |
| Averaging.MeanAzimuthIsAzimuth | app/src/main/java/org/hwyl/sexytopo/control/util/SurveyUpdater.java:491-513 | the averaged azimuth of non-negative azimuths lies in [0, 360) |
| Averaging.MeanAzimuthWithoutSplit | app/src/main/java/org/hwyl/sexytopo/control/util/SurveyUpdater.java:505-512 | azimuths that do not straddle north average to their arithmetic mean |
| Averaging.PaddedRange | app/src/main/java/org/hwyl/sexytopo/control/util/SurveyUpdater.java:496-504 | starting the min/max search from 360 and 0 does not change the smallest and largest azimuth |
| Averaging.MeanAzimuthAcrossNorth | app/src/main/java/org/hwyl/sexytopo/control/util/SurveyUpdater.java:491-513 | 359 and 1 degrees average to 0 (north), not to 180 |
| Averaging.AverageAzimuths | app/src/main/java/org/hwyl/sexytopo/control/util/SurveyUpdater.java:491-513 | the two loops of averageAzimuths compute the circular mean azimuth |
| Averaging.AzimuthRange | app/src/main/java/org/hwyl/sexytopo/control/util/SurveyUpdater.java:496-504 | the first loop yields the smallest and largest azimuth |
| Averaging.CorrectedSum | app/src/main/java/org/hwyl/sexytopo/control/util/SurveyUpdater.java:506-511 | the second loop sums the azimuths with those below 180 moved up a turn when the group splits over zero |
| Averaging.AverageLegs | app/src/main/java/org/hwyl/sexytopo/control/util/SurveyUpdater.java:469-482 | averageLegs returns the splay of mean distance, circular mean azimuth and mean inclination, with the shots as provenance |
| Averaging.AveragedLegWithinTolerance | app/src/main/java/org/hwyl/sexytopo/control/util/SurveyUpdater.java:469-482 | averaging shots that are about the same gives distance and inclination within the tolerances of every shot averaged |
| Averaging.AveragedIdenticalShots | app/src/main/java/org/hwyl/sexytopo/control/util/SurveyUpdater.java:469-482 | averaging n equal shots gives back the shot's measurements |
| Averaging.AreLegsBacksights | app/src/main/java/org/hwyl/sexytopo/control/util/SurveyUpdater.java:463-467 | areLegsBacksights is about-the-same applied to the foresight and the backsight read from the far end |
| Averaging.BacksightPairCondition | app/src/main/java/org/hwyl/sexytopo/control/util/SurveyUpdater.java:463-467 | the backsight test spelled out: both splays, distance, turned azimuth and negated inclination within tolerance |
| Averaging.AverageBacksights | app/src/main/java/org/hwyl/sexytopo/control/util/SurveyUpdater.java:485-488 | averageBacksights averages the foresight with the backsight read from the far end |
| Averaging.Distances | app/src/main/java/org/hwyl/sexytopo/control/util/SurveyUpdater.java:472-474 | the distances of the shots, position by position |
| Averaging.Azimuths | app/src/main/java/org/hwyl/sexytopo/control/util/SurveyUpdater.java:475-476 | the azimuths of the shots, position by position |
| Averaging.Inclinations | app/src/main/java/org/hwyl/sexytopo/control/util/SurveyUpdater.java:477-478 | the inclinations of the shots, position by position |
| Averaging.ShiftedAzimuths | app/src/main/java/org/hwyl/sexytopo/control/util/SurveyUpdater.java:437-442 | each azimuth shifted by 540 minus the first azimuth, modulo 360 |
| Averaging.Corrected | app/src/main/java/org/hwyl/sexytopo/control/util/SurveyUpdater.java:506-511 | an azimuth below 180 gains 360 exactly when the group splits over zero; the others are kept |
| Legs.JavaRem360 | app/src/main/java/org/hwyl/sexytopo/control/util/SurveyUpdater.java:512 | Java's float % 360: in [0, 360) for non-negative operands, in (-360, 0] for negative ones, the identity on [0, 360) |
| Legs.AdjustAngle | app/src/main/java/org/hwyl/sexytopo/control/io/thirdparty/pockettopo/PocketTopoImporter.java:340 | an angle turned by delta lands in [0, 360) and equals the plain sum (less one turn) when that is in range |
| Legs.AdjustAngleHalfTurnTwice | app/src/main/java/org/hwyl/sexytopo/control/io/thirdparty/pockettopo/PocketTopoImporter.java:340 | turning an azimuth by a half turn twice gives it back |
| Legs.AsBacksight | app/src/main/java/org/hwyl/sexytopo/control/util/SurveyUpdater.java:194 | the far-end reading of a shot has its azimuth brought back into [0, 360) |
| Legs.Reverse | app/src/main/java/org/hwyl/sexytopo/control/util/SurveyUpdater.java:516-534 | the reversed leg keeps distance and destination, flips the backwards flag and has a normalised azimuth |
| Legs.ReverseTwice | app/src/main/java/org/hwyl/sexytopo/control/util/SurveyUpdater.java:516-534 | reversing a normalised leg twice gives back the same leg, provenance included |
| Legs.ToSplay | app/src/main/java/org/hwyl/sexytopo/control/util/SurveyUpdater.java:405-423 | downgrading keeps the three measurements and drops destination and provenance |
| Legs.ToFullLeg | app/src/main/java/org/hwyl/sexytopo/control/util/SurveyUpdater.java:74-84 | the full leg is the same leg connected to the destination station |
| Legs.UpgradeSplayToConnectedLeg | app/src/main/java/org/hwyl/sexytopo/control/util/SurveyUpdater.java:137-146 | the connected leg keeps the splay's measurements, points to the destination and records both provenance lists |
| SurveyFormats.SurveyFormat.ExploTeamLine | app/src/main/java/org/hwyl/sexytopo/control/io/thirdparty/survextherion/SurveyFormat.java:9-41 | a line is consumed exactly when the format is Therion and the line starts "explo-team "; a non-empty quoted name then gains the exploration role once; otherwise the map is unchanged |
| SurveyFormats.SurveyFormat.ParseExploTeamLine | app/src/main/java/org/hwyl/sexytopo/control/io/thirdparty/survextherion/SurveyFormat.java:20-40 | the method on the team map returns the consumed flag and leaves the map as ExploTeamLine says |
| SurveyFormats.ExploTeamLineIdempotent | app/src/main/java/org/hwyl/sexytopo/control/io/thirdparty/survextherion/SurveyFormat.java:31-36 | reading the same explo-team line twice leaves the map as reading it once |
| SurveyFormats.ExploTeamLineOfQuotedName | app/src/main/java/org/hwyl/sexytopo/control/io/thirdparty/survextherion/SurveyFormat.java:21-38 | explo-team "Name" gives Name the exploration role |
| SurveyModel.RemoveFirst | app/src/main/java/org/hwyl/sexytopo/control/util/SurveyUpdater.java:240 | List.remove takes out one element when the leg is present (length drops by one), changes nothing otherwise, and adds nothing |
| SurveyModel.RemoveEach | app/src/main/java/org/hwyl/sexytopo/control/util/SurveyUpdater.java:388-392 | removing each subtree leg in turn leaves only legs of the original list |
| SurveyModel.ReplaceFirst | app/src/main/java/org/hwyl/sexytopo/control/util/SurveyUpdater.java:335 | replaceLegInRecord keeps the record's length, leaves it alone when the leg is absent and puts the edited leg in otherwise |
| SurveyModel.RemoveFirstDistinct | app/src/main/java/org/hwyl/sexytopo/control/util/SurveyUpdater.java:240 | in a list without repeats, remove takes out every occurrence of the leg, keeps every other leg and keeps the list free of repeats |
| SurveyModel.RemoveEachDistinct | app/src/main/java/org/hwyl/sexytopo/control/util/SurveyUpdater.java:388-392 | in a record without repeats, removing the subtree's legs leaves none of them, keeps every other leg and no repeats |
| SurveyModel.RemoveEachLength | app/src/main/java/org/hwyl/sexytopo/control/util/SurveyUpdater.java:388-397 | removing n distinct legs that are all in a record without repeats shortens it by exactly n |
| SurveyModel.SurveyState.Subtree | app/src/main/java/org/hwyl/sexytopo/control/util/SurveyUpdater.java:388 | the subtree of a station starts with the station and holds only stations of the survey |
| SurveyModel.SurveyState.StationByName | app/src/main/java/org/hwyl/sexytopo/control/util/SurveyUpdater.java:349 | getStationByName returns a reachable station carrying the name, and None only when no reachable station carries it |
| SurveyModel.SurveyState.FirstNamedUnique | app/src/main/java/org/hwyl/sexytopo/control/util/SurveyUpdater.java:349 | a name only one station carries is found at that station |
| SurveyModel.SurveyState.ReferringLeg | app/src/main/java/org/hwyl/sexytopo/control/util/SurveyUpdater.java:177 | getReferringLeg returns a reachable station and one of its legs leading to the target station |
| SurveyModel.SurveyState.OriginatingStation | app/src/main/java/org/hwyl/sexytopo/control/util/SurveyUpdater.java:239 | getOriginatingStation returns a station holding the leg among its onward legs |
| SurveyModel.SurveyState.LastLegs | app/src/main/java/org/hwyl/sexytopo/control/util/SurveyUpdater.java:123 | getLastNLegs returns the newest min(n, size) entries of the record, in record order |
| SurveyModel.ReferringLegOriginates | app/src/main/java/org/hwyl/sexytopo/control/util/SurveyUpdater.java:377-378 | the leg found as referring to a station is found again by getOriginatingStation |
| SurveyModel.SameTreeSameLookups | app/src/main/java/org/hwyl/sexytopo/control/util/SurveyUpdater.java:177 | the station list, referring-leg and originating-station lookups read only the tree of onward legs and the origin |
| SurveyModel.StationByNameOfSameNames | app/src/main/java/org/hwyl/sexytopo/control/util/SurveyUpdater.java:349 | lookup by name reads only the tree and the names |
| SurveyModel.SurveyState.WithLegs | app/src/main/java/org/hwyl/sexytopo/control/util/SurveyUpdater.java:238-245 | replacing one station's legs and the record marks the survey unsaved and keeps it valid, names, comments and directions untouched |
| SurveyModel.SurveyState.WithStation | app/src/main/java/org/hwyl/sexytopo/control/util/SurveyUpdater.java:97 | new Station(name) is numbered with a fresh number, has no legs, and the survey stays valid |
| SurveyModel.Reserved | app/src/main/java/org/hwyl/sexytopo/control/util/SurveyUpdater.java:141-146 | a new leg object takes the next identity and nothing else changes |
| SurveyModel.Founded | app/src/main/java/org/hwyl/sexytopo/control/io/thirdparty/pockettopo/PocketTopoImporter.java:299-305 | new Station(name) with comment and direction set: the fresh station is added with exactly those attributes |
| SurveyModel.Attached | app/src/main/java/org/hwyl/sexytopo/control/io/thirdparty/pockettopo/PocketTopoImporter.java:290-291 | addOnwardLeg then addLegRecord: the new leg object is appended to the station's legs and to the record |
| SurveyModel.Survey.constructor | app/src/main/java/org/hwyl/sexytopo/control/io/thirdparty/pockettopo/PocketTopoImporter.java:242 | new Survey() holds only the origin station, which is active, with no legs and an empty record |
| SurveyModel.Survey.NewStation | app/src/main/java/org/hwyl/sexytopo/control/util/SurveyUpdater.java:97 | new Station(name) takes the next station number with the given name and direction, an empty comment and no legs |
| SurveyModel.Survey.NewIdentity | app/src/main/java/org/hwyl/sexytopo/control/util/SurveyUpdater.java:141-146 | a leg about to be placed gets the next leg identity |
| SurveyModel.Survey.AddLegRecord | app/src/main/java/org/hwyl/sexytopo/control/util/SurveyUpdater.java:53 | addLegRecord appends the leg to the record |
| SurveyModel.Survey.RemoveLegRecord | app/src/main/java/org/hwyl/sexytopo/control/util/SurveyUpdater.java:243 | removeLegRecord removes the first equal leg from the record |
| SurveyModel.Survey.ReplaceLegInRecord | app/src/main/java/org/hwyl/sexytopo/control/util/SurveyUpdater.java:335 | replaceLegInRecord puts the edited leg in the old one's place |
| SurveyModel.Survey.UndoAddLeg | app/src/main/java/org/hwyl/sexytopo/control/util/SurveyUpdater.java:150 | undoAddLeg drops the newest record entry and removes it from the active station's legs |
| SurveyModel.Survey.AddOnwardLeg | app/src/main/java/org/hwyl/sexytopo/control/util/SurveyUpdater.java:51 | the leg is appended to the station's onward legs |
| SurveyModel.Survey.RemoveOnwardLeg | app/src/main/java/org/hwyl/sexytopo/control/util/SurveyUpdater.java:240 | the leg is removed from the station's onward legs |
| SurveyModel.Survey.SetName | app/src/main/java/org/hwyl/sexytopo/control/util/SurveyUpdater.java:355 | the station carries the new name |
| SurveyModel.Survey.SetDirection | app/src/main/java/org/hwyl/sexytopo/control/util/SurveyUpdater.java:538 | the station takes the extended-elevation direction |
| SurveyModel.Survey.SetComment | app/src/main/java/org/hwyl/sexytopo/control/io/thirdparty/pockettopo/PocketTopoImporter.java:301 | the station carries the comment |
| SurveyModel.Survey.SetTrip | app/src/main/java/org/hwyl/sexytopo/control/io/thirdparty/pockettopo/PocketTopoImporter.java:248 | the survey's trip is set |
| SurveyModel.Survey.SetActiveStation | app/src/main/java/org/hwyl/sexytopo/control/util/SurveyUpdater.java:92 | the active station changes and nothing else |
| SurveyModel.Survey.SetOrigin | app/src/main/java/org/hwyl/sexytopo/control/io/thirdparty/survextherion/SurvexTherionImporter.java:419 | the origin becomes the station |
| SurveyModel.Survey.SetSaved | app/src/main/java/org/hwyl/sexytopo/control/util/SurveyUpdater.java:52 | the saved flag takes the value |
| SurveyUpdater.Backwards | app/src/main/java/org/hwyl/sexytopo/control/util/SurveyUpdater.java:150 | the list read newest first, position by position |
| SurveyUpdater.AddedToActive | app/src/main/java/org/hwyl/sexytopo/control/util/SurveyUpdater.java:50-53 | appending the shot to the active station and the record keeps the survey valid |
| SurveyUpdater.PromoteLast | app/src/main/java/org/hwyl/sexytopo/control/util/SurveyUpdater.java:137-155 | the promotion's new station, undone shots and appended leg keep the survey valid |
| SurveyUpdater.TripleShotStep | app/src/main/java/org/hwyl/sexytopo/control/util/SurveyUpdater.java:113-161 | createNewStationIfTripleShot keeps the survey valid whether or not it fires |
| SurveyUpdater.BacksightStep | app/src/main/java/org/hwyl/sexytopo/control/util/SurveyUpdater.java:279-324 | createNewStationIfBacksight keeps the survey valid whether or not it fires |
| SurveyUpdater.IncorporationOf | app/src/main/java/org/hwyl/sexytopo/control/util/SurveyUpdater.java:164-221 | a shot is incorporated only outside calibration-check mode, into the active station's referring leg, and only when that leg was promoted from repeated shots |
| SurveyUpdater.Replaced | app/src/main/java/org/hwyl/sexytopo/control/util/SurveyUpdater.java:223-276 | swapping the referring leg for the grown one keeps the survey valid |
| SurveyUpdater.Incorporated | app/src/main/java/org/hwyl/sexytopo/control/util/SurveyUpdater.java:223-276 | incorporation, in either direction, keeps the survey valid |
| SurveyUpdater.UpdateStep | app/src/main/java/org/hwyl/sexytopo/control/util/SurveyUpdater.java:41-71 | update keeps the survey valid |
| SurveyUpdater.PromotionStep | app/src/main/java/org/hwyl/sexytopo/control/util/SurveyUpdater.java:55-68 | the input-mode switch keeps the survey valid |
| SurveyUpdater.UpdateAllStep | app/src/main/java/org/hwyl/sexytopo/control/util/SurveyUpdater.java:18-24 | the batch update keeps the survey valid |
| SurveyUpdater.EditStep | app/src/main/java/org/hwyl/sexytopo/control/util/SurveyUpdater.java:327-343 | editLeg keeps the survey valid |
| SurveyUpdater.RenameStep | app/src/main/java/org/hwyl/sexytopo/control/util/SurveyUpdater.java:346-358 | a rename that is accepted keeps the survey valid |
| SurveyUpdater.MoveStep | app/src/main/java/org/hwyl/sexytopo/control/util/SurveyUpdater.java:364-370 | moveLeg keeps the survey valid |
| SurveyUpdater.DeleteLegStep | app/src/main/java/org/hwyl/sexytopo/control/util/SurveyUpdater.java:384-403 | deleteLeg keeps the survey valid |
| SurveyUpdater.DeleteStationStep | app/src/main/java/org/hwyl/sexytopo/control/util/SurveyUpdater.java:373-381 | deleteStation keeps the survey valid |
| SurveyUpdater.DowngradeStep | app/src/main/java/org/hwyl/sexytopo/control/util/SurveyUpdater.java:405-423 | a downgrade that is accepted keeps the survey valid |
| SurveyUpdater.ReverseStep | app/src/main/java/org/hwyl/sexytopo/control/util/SurveyUpdater.java:516-534 | reverseLeg keeps the survey valid |
| SurveyUpdater.DirectionStep | app/src/main/java/org/hwyl/sexytopo/control/util/SurveyUpdater.java:537-543 | setDirectionOfSubtree keeps the survey valid |
| SurveyUpdater.UpgradeStep | app/src/main/java/org/hwyl/sexytopo/control/util/SurveyUpdater.java:96-107 | upgradeSplay keeps the survey valid |
| SurveyUpdater.AddFromStep | app/src/main/java/org/hwyl/sexytopo/control/util/SurveyUpdater.java:86-94 | addLegFromStation keeps the survey valid |
| SurveyUpdater.AddWithNewStationStep | app/src/main/java/org/hwyl/sexytopo/control/util/SurveyUpdater.java:74-84 | updateWithNewStation keeps the survey valid |
| SurveyUpdater.CalibrationCheckOnlyAppends | app/src/main/java/org/hwyl/sexytopo/control/util/SurveyUpdater.java:41-68 | in calibration-check mode a shot is only appended to the active station and the record, and no station is created |
| SurveyUpdater.UnmatchedShotAppended | app/src/main/java/org/hwyl/sexytopo/control/util/SurveyUpdater.java:44-53 | a shot not incorporated is last among the active station's legs and last in the record, unless a promotion fires |
| SurveyUpdater.PromotionOnlyWhenCreated | app/src/main/java/org/hwyl/sexytopo/control/util/SurveyUpdater.java:55-70 | without a promotion, the survey after appending the shot is left as it is |
| SurveyUpdater.AddedToActiveAppends | app/src/main/java/org/hwyl/sexytopo/control/util/SurveyUpdater.java:50-53 | the appended shot is last among the active station's legs and last in the record, and the survey is unsaved |
| SurveyUpdater.PromotionCreatesOneStation | app/src/main/java/org/hwyl/sexytopo/control/util/SurveyUpdater.java:137-155 | a promotion creates one fresh station with no legs, facing the active station's direction, and makes it active |
| SurveyUpdater.PromotionReplacesShots | app/src/main/java/org/hwyl/sexytopo/control/util/SurveyUpdater.java:148-154 | the promoted leg takes the place of the newest n record entries and goes after what is left of the active station's legs |
| SurveyUpdater.TripleShotStepCreates | app/src/main/java/org/hwyl/sexytopo/control/util/SurveyUpdater.java:113-161 | createNewStationIfTripleShot either adds exactly one active station or changes nothing |
| SurveyUpdater.BacksightStepCreates | app/src/main/java/org/hwyl/sexytopo/control/util/SurveyUpdater.java:279-324 | createNewStationIfBacksight either adds exactly one active station or changes nothing |
| SurveyUpdater.PromotionStepCreates | app/src/main/java/org/hwyl/sexytopo/control/util/SurveyUpdater.java:55-68 | the promotion attempts either add one station and make it active, or change nothing |
| SurveyUpdater.UpdateCreatesStation | app/src/main/java/org/hwyl/sexytopo/control/util/SurveyUpdater.java:41-71 | update creates at most one station and moves the active station only when it does |
| SurveyUpdater.UnmatchedShotMayCreate | app/src/main/java/org/hwyl/sexytopo/control/util/SurveyUpdater.java:44-70 | a shot that is not incorporated reports a new station exactly when one was added |
| SurveyUpdater.IncorporatedKeepsCounts | app/src/main/java/org/hwyl/sexytopo/control/util/SurveyUpdater.java:223-276 | incorporation keeps the stations, the active station and the originating station's leg count |
| SurveyUpdater.ReplacedKeepsCounts | app/src/main/java/org/hwyl/sexytopo/control/util/SurveyUpdater.java:238-245 | replacing the referring leg keeps the stations, the active station and the originating station's leg count |
| SurveyUpdater.UpdateAllCreatesAtMostOne | app/src/main/java/org/hwyl/sexytopo/control/util/SurveyUpdater.java:18-24 | because of the short-circuit or, a batch of shots creates at most one station and the shots after it are not looked at |
| SurveyUpdater.TripleShotPromotes | app/src/main/java/org/hwyl/sexytopo/control/util/SurveyUpdater.java:113-161 | a triple shot becomes one leg to the new station: the shots leave the record and the active station and the promoted leg takes their place, carrying them as provenance |
| SurveyUpdater.UndoneShotsLeave | app/src/main/java/org/hwyl/sexytopo/control/util/SurveyUpdater.java:148-151 | undoing the newest n shots, all legs of the active station, leaves it n legs shorter when no leg is recorded twice |
| SurveyUpdater.PromotedLegShape | app/src/main/java/org/hwyl/sexytopo/control/util/SurveyUpdater.java:126-146 | the promoted leg leads to the new station and carries the shots as provenance, in order when not reversed |
| SurveyUpdater.PromotedLegWithinShots | app/src/main/java/org/hwyl/sexytopo/control/util/SurveyUpdater.java:126-146 | the promoted leg's distance and inclination lie between the smallest and largest of the shots' |
| SurveyUpdater.BacksightPairPromotes | app/src/main/java/org/hwyl/sexytopo/control/util/SurveyUpdater.java:279-324 | a fore and back sight pair becomes one leg to the new station, averaged from the pair, and both shots leave the record |
| SurveyUpdater.PairLegShape | app/src/main/java/org/hwyl/sexytopo/control/util/SurveyUpdater.java:295-311 | the pair's leg has the mean length of the two shots and the mean of the fore inclination and the reversed back inclination |
| SurveyUpdater.IncorporationKeepsCounts | app/src/main/java/org/hwyl/sexytopo/control/util/SurveyUpdater.java:164-276 | an incorporated shot replaces the referring leg at the end of the same station's legs: no station is created and the active station stays |
| SurveyUpdater.IncorporatedLegs | app/src/main/java/org/hwyl/sexytopo/control/util/SurveyUpdater.java:223-276 | a shot in the leg's direction joins promotedFrom and is averaged in; an opposite shot joins backsightPromotedFrom and keeps the measurements |
| SurveyUpdater.BacksightShotsLockDirection | app/src/main/java/org/hwyl/sexytopo/control/util/SurveyUpdater.java:196-218 | once the referring leg has backsight shots, a shot in its original direction is not incorporated unless it also matches the backsight |
| SurveyUpdater.RenameToOwnNameRefused | app/src/main/java/org/hwyl/sexytopo/control/util/SurveyUpdater.java:346-358 | renameStation refuses a name already in use, the station's own name included |
| SurveyUpdater.RenameThenFind | app/src/main/java/org/hwyl/sexytopo/control/util/SurveyUpdater.java:346-358 | after a rename to an unused name, looking the name up finds the renamed station, and the stations are the same |
| SurveyUpdater.DeleteLegRemovesSubtree | app/src/main/java/org/hwyl/sexytopo/control/util/SurveyUpdater.java:384-403 | deleteLeg leaves neither the leg nor any leg behind it in the record, and keeps every other recorded leg |
| SurveyUpdater.DeleteOriginKeepsSurvey | app/src/main/java/org/hwyl/sexytopo/control/util/SurveyUpdater.java:373-381 | deleteStation on the origin leaves the survey as it is |
| SurveyUpdater.DowngradeGuards | app/src/main/java/org/hwyl/sexytopo/control/util/SurveyUpdater.java:405-423 | a splay is left alone, a leg whose destination has legs is refused, and otherwise the leg becomes a splay in place |
| SurveyUpdater.DirectionCoversSubtree | app/src/main/java/org/hwyl/sexytopo/control/util/SurveyUpdater.java:537-543 | exactly the stations of the subtree take the direction, every other station keeps its own, and doing it twice changes nothing more |
| SurveyUpdater.ReverseLegSwaps | app/src/main/java/org/hwyl/sexytopo/control/util/SurveyUpdater.java:516-534 | the leg into the station is swapped for its far-end reading, in the same place in the record |
| SurveyUpdater.MoveLegAppends | app/src/main/java/org/hwyl/sexytopo/control/util/SurveyUpdater.java:364-370 | the moved leg is last among the new station's legs, gone from its old station, and the record is untouched |
| SurveyUpdater.UpgradeSplayActivates | app/src/main/java/org/hwyl/sexytopo/control/util/SurveyUpdater.java:96-107 | upgradeSplay adds a new station named by the namer and makes it active |
| SurveyUpdater.EditLegSwaps | app/src/main/java/org/hwyl/sexytopo/control/util/SurveyUpdater.java:327-343 | the edited leg is last among the holding station's legs and takes the old one's place in the record; with no holder only the saved flag changes |
| SurveyUpdater.AddLegFromStationAppends | app/src/main/java/org/hwyl/sexytopo/control/util/SurveyUpdater.java:86-94 | the leg is last among the station's legs and last in the record; a connected leg makes its destination active |
| SurveyUpdater.UpdateWithNewStationConnects | app/src/main/java/org/hwyl/sexytopo/control/util/SurveyUpdater.java:74-84 | the added leg always ends at a station, which becomes active; a splay is given a new one |
| SurveyUpdater.IncorporateIntoReferringLeg | app/src/main/java/org/hwyl/sexytopo/control/util/SurveyUpdater.java:223-248 | the method leaves the survey as the step function says: the referring leg swapped for the re-averaged one |
| SurveyUpdater.AddBacksightToReferringLeg | app/src/main/java/org/hwyl/sexytopo/control/util/SurveyUpdater.java:250-276 | the method leaves the survey as the step function says: the referring leg swapped for one with one more backsight shot |
| SurveyUpdater.ReplaceReferringLeg | app/src/main/java/org/hwyl/sexytopo/control/util/SurveyUpdater.java:238-245 | the leg leaves its originating station and the record, and the new leg object is appended to both |
| SurveyUpdater.MoveOnwardLegToEnd | app/src/main/java/org/hwyl/sexytopo/control/util/SurveyUpdater.java:240-241 | remove then add: the leg leaves the station's list and the new one goes last |
| SurveyUpdater.MoveLegRecordToEnd | app/src/main/java/org/hwyl/sexytopo/control/util/SurveyUpdater.java:243-244 | removeLegRecord then addLegRecord: the leg leaves the record and the new one goes last |
| SurveyUpdater.TryIncorporateIntoExistingLeg | app/src/main/java/org/hwyl/sexytopo/control/util/SurveyUpdater.java:164-221 | returns true exactly when the decision is to incorporate, and then the survey is as Incorporated says; otherwise nothing changes |
| SurveyUpdater.UndoLastLegs | app/src/main/java/org/hwyl/sexytopo/control/util/SurveyUpdater.java:148-151 | undoAddLeg n times: the newest n entries leave the record and the active station's legs, newest first |
| SurveyUpdater.ReplaceNewestLegs | app/src/main/java/org/hwyl/sexytopo/control/util/SurveyUpdater.java:148-155 | the shots are undone, the new leg goes last in the active station's legs and the record, and the new station becomes active |
| SurveyUpdater.PromoteLastFields | app/src/main/java/org/hwyl/sexytopo/control/util/SurveyUpdater.java:137-155 | the promotion written out field by field |
| SurveyUpdater.PromoteRepeatedShots | app/src/main/java/org/hwyl/sexytopo/control/util/SurveyUpdater.java:137-155 | the station-creating half of createNewStationIfTripleShot leaves the survey as PromoteLast says |
| SurveyUpdater.BuildPromotedLeg | app/src/main/java/org/hwyl/sexytopo/control/util/SurveyUpdater.java:126-146 | the leg built from the repeated shots is the promoted leg: averaged, connected, carrying the shots, reversed in backsight mode |
| SurveyUpdater.PromoteBacksightPair | app/src/main/java/org/hwyl/sexytopo/control/util/SurveyUpdater.java:295-319 | the station-creating half of createNewStationIfBacksight leaves the survey as PromoteLast says for the pair's leg |
| SurveyUpdater.BuildPairLeg | app/src/main/java/org/hwyl/sexytopo/control/util/SurveyUpdater.java:295-311 | the leg built from a fore and back sight is the pair's averaged leg |
| SurveyUpdater.IsTripleShot | app/src/main/java/org/hwyl/sexytopo/control/util/SurveyUpdater.java:115-133 | the guards and loop decide exactly the triple-shot test |
| SurveyUpdater.CreateNewStationIfTripleShot | app/src/main/java/org/hwyl/sexytopo/control/util/SurveyUpdater.java:113-161 | the method's outcome is TripleShotStep's |
| SurveyUpdater.IsBacksightPair | app/src/main/java/org/hwyl/sexytopo/control/util/SurveyUpdater.java:281-303 | the guards decide exactly the fore and back sight test |
| SurveyUpdater.CreateNewStationIfBacksight | app/src/main/java/org/hwyl/sexytopo/control/util/SurveyUpdater.java:279-324 | the method's outcome is BacksightStep's |
| SurveyUpdater.AppendToActive | app/src/main/java/org/hwyl/sexytopo/control/util/SurveyUpdater.java:50-53 | the shot is appended to the active station and the record, and the survey is unsaved |
| SurveyUpdater.TryPromotion | app/src/main/java/org/hwyl/sexytopo/control/util/SurveyUpdater.java:55-68 | the method's outcome is the input-mode switch's |
| SurveyUpdater.Update | app/src/main/java/org/hwyl/sexytopo/control/util/SurveyUpdater.java:41-71 | the method's outcome is UpdateStep's |
| SurveyUpdater.UpdateAll | app/src/main/java/org/hwyl/sexytopo/control/util/SurveyUpdater.java:18-24 | the method's outcome is UpdateAllStep's |
| SurveyUpdater.EditLeg | app/src/main/java/org/hwyl/sexytopo/control/util/SurveyUpdater.java:327-343 | the survey afterwards is EditStep's |
| SurveyUpdater.SwapLeg | app/src/main/java/org/hwyl/sexytopo/control/util/SurveyUpdater.java:331-336 | the leg leaves the station, the new object goes last, and takes the old one's place in the record |
| SurveyUpdater.EditFields | app/src/main/java/org/hwyl/sexytopo/control/util/SurveyUpdater.java:327-343 | EditStep written out field by field |
| SurveyUpdater.RenameStation | app/src/main/java/org/hwyl/sexytopo/control/util/SurveyUpdater.java:346-358 | returns the error message and changes nothing when the name is taken; otherwise the survey is RenameStep's |
| SurveyUpdater.RenameOrigin | app/src/main/java/org/hwyl/sexytopo/control/util/SurveyUpdater.java:360-362 | renameStation applied to the origin |
| SurveyUpdater.MoveLeg | app/src/main/java/org/hwyl/sexytopo/control/util/SurveyUpdater.java:364-370 | the survey afterwards is MoveStep's |
| SurveyUpdater.MoveBetween | app/src/main/java/org/hwyl/sexytopo/control/util/SurveyUpdater.java:365-368 | the leg leaves the originating station and is appended to the new one |
| SurveyUpdater.MoveFields | app/src/main/java/org/hwyl/sexytopo/control/util/SurveyUpdater.java:364-370 | MoveStep written out field by field |
| SurveyUpdater.RemoveLegRecords | app/src/main/java/org/hwyl/sexytopo/control/util/SurveyUpdater.java:388-392 | removeLegRecord for each leg in turn |
| SurveyUpdater.DeleteLeg | app/src/main/java/org/hwyl/sexytopo/control/util/SurveyUpdater.java:384-403 | the survey afterwards is DeleteLegStep's |
| SurveyUpdater.RemoveLegAndRecords | app/src/main/java/org/hwyl/sexytopo/control/util/SurveyUpdater.java:388-402 | the subtree legs and then the leg leave the record, and the leg leaves its station |
| SurveyUpdater.DeleteStation | app/src/main/java/org/hwyl/sexytopo/control/util/SurveyUpdater.java:373-381 | the survey afterwards is DeleteStationStep's |
| SurveyUpdater.DowngradeLeg | app/src/main/java/org/hwyl/sexytopo/control/util/SurveyUpdater.java:405-423 | returns the error message and changes nothing when the destination has legs; otherwise the survey is DowngradeStep's |
| SurveyUpdater.ReverseLeg | app/src/main/java/org/hwyl/sexytopo/control/util/SurveyUpdater.java:516-534 | the survey afterwards is ReverseStep's |
| SurveyUpdater.ReverseFields | app/src/main/java/org/hwyl/sexytopo/control/util/SurveyUpdater.java:516-534 | ReverseStep written out field by field |
| SurveyUpdater.SetDirectionOfSubtree | app/src/main/java/org/hwyl/sexytopo/control/util/SurveyUpdater.java:537-543 | the survey afterwards is DirectionStep's |
| SurveyUpdater.SetDirections | app/src/main/java/org/hwyl/sexytopo/control/util/SurveyUpdater.java:538-542 | each of the stations in turn takes the direction; the others keep theirs |
| SurveyUpdater.UpgradeSplay | app/src/main/java/org/hwyl/sexytopo/control/util/SurveyUpdater.java:96-107 | the survey afterwards is UpgradeStep's |
| SurveyUpdater.UpgradedLeg | app/src/main/java/org/hwyl/sexytopo/control/util/SurveyUpdater.java:98-103 | the connected leg to the new station, reversed in backward mode |
| SurveyUpdater.AddLegFromStation | app/src/main/java/org/hwyl/sexytopo/control/util/SurveyUpdater.java:86-94 | the survey afterwards is AddFromStep's |
| SurveyUpdater.AppendLegAt | app/src/main/java/org/hwyl/sexytopo/control/util/SurveyUpdater.java:88-90 | the leg, as a new object, is appended to the station and the record |
| SurveyUpdater.AddFromFields | app/src/main/java/org/hwyl/sexytopo/control/util/SurveyUpdater.java:86-94 | AddFromStep written out field by field |
| SurveyUpdater.UpdateWithNewStation | app/src/main/java/org/hwyl/sexytopo/control/util/SurveyUpdater.java:74-84 | the survey afterwards is AddWithNewStationStep's |
| PocketTopoFile.Half | app/src/main/java/org/hwyl/sexytopo/control/io/thirdparty/pockettopo/PocketTopoFile.java:37-55 | half the range of an n-byte integer: positive, and twice it is the full range |
| PocketTopoFile.LittleEndian | app/src/main/java/org/hwyl/sexytopo/control/io/thirdparty/pockettopo/PocketTopoFile.java:37-55 | the value of n bytes taken lowest first is below 256^n |
| PocketTopoFile.Signed | app/src/main/java/org/hwyl/sexytopo/control/io/thirdparty/pockettopo/PocketTopoFile.java:37-55 | two's complement reading of an n-byte pattern: in [-half, half) and equal to the pattern or the pattern less 256^n |
| PocketTopoFile.Unsigned | app/src/main/java/org/hwyl/sexytopo/control/io/thirdparty/pockettopo/PocketTopoFile.java:45-53 | masking to n bytes gives a pattern below 256^n equal to the value or the value plus 256^n |
| PocketTopoFile.SignedUnsigned | app/src/main/java/org/hwyl/sexytopo/control/io/thirdparty/pockettopo/PocketTopoFile.java:37-55 | reading back the n-byte pattern of a signed value in range gives the value |
| PocketTopoFile.UnsignedSigned | app/src/main/java/org/hwyl/sexytopo/control/io/thirdparty/pockettopo/PocketTopoFile.java:37-55 | masking the signed reading of an n-byte pattern gives the pattern |
| PocketTopoFile.EncodeLittleEndian | app/src/main/java/org/hwyl/sexytopo/control/io/thirdparty/pockettopo/PocketTopoFile.java:37-55 | the encoding of a value takes exactly n bytes |
| PocketTopoFile.LittleEndianRoundTrip | app/src/main/java/org/hwyl/sexytopo/control/io/thirdparty/pockettopo/PocketTopoFile.java:37-55 | decoding the n-byte little-endian encoding of a value below 256^n gives the value |
| PocketTopoFile.LittleEndianAppend | app/src/main/java/org/hwyl/sexytopo/control/io/thirdparty/pockettopo/PocketTopoFile.java:37-55 | bytes split anywhere: the high part counts 256 to the power of the length of the low part |
| PocketTopoFile.Int16Of | app/src/main/java/org/hwyl/sexytopo/control/io/thirdparty/pockettopo/PocketTopoFile.java:37-41 | readInt16's cast to short yields a value in [-32768, 32768) |
| PocketTopoFile.Int32Of | app/src/main/java/org/hwyl/sexytopo/control/io/thirdparty/pockettopo/PocketTopoFile.java:43-49 | readInt32's shifts on 32-bit ints yield a value in the int range |
| PocketTopoFile.Int64Of | app/src/main/java/org/hwyl/sexytopo/control/io/thirdparty/pockettopo/PocketTopoFile.java:51-55 | readInt64's two unsigned halves yield a value in the long range |
| PocketTopoFile.Int16IsLittleEndian | app/src/main/java/org/hwyl/sexytopo/control/io/thirdparty/pockettopo/PocketTopoFile.java:37-41 | readInt16 is the 2-byte little-endian two's complement integer |
| PocketTopoFile.Int32IsLittleEndian | app/src/main/java/org/hwyl/sexytopo/control/io/thirdparty/pockettopo/PocketTopoFile.java:43-49 | readInt32 is the 4-byte little-endian two's complement integer |
| PocketTopoFile.Int64IsLittleEndian | app/src/main/java/org/hwyl/sexytopo/control/io/thirdparty/pockettopo/PocketTopoFile.java:51-55 | readInt64 is the 8-byte little-endian two's complement integer |
| PocketTopoFile.Int32RoundTrip | app/src/main/java/org/hwyl/sexytopo/control/io/thirdparty/pockettopo/PocketTopoFile.java:43-49 | a 32-bit integer written little-endian reads back as itself |
| PocketTopoFile.IntegerExamples | app/src/test/java/org/hwyl/sexytopo/control/io/thirdparty/pockettopo/PocketTopoFileTest.java:35-92 | the test vectors: {02 01} is 0x0102, all ones is -1, and the 8-byte example reads 0x0000000100000002 |
| PocketTopoFile.ByteAt | app/src/main/java/org/hwyl/sexytopo/control/io/thirdparty/pockettopo/PocketTopoFile.java:29-35 | a byte read moves one position on |
| PocketTopoFile.BytesAt | app/src/main/java/org/hwyl/sexytopo/control/io/thirdparty/pockettopo/PocketTopoFile.java:29-35 | n bytes read move n positions on |
| PocketTopoFile.Int16At | app/src/main/java/org/hwyl/sexytopo/control/io/thirdparty/pockettopo/PocketTopoFile.java:37-41 | two bytes read give a short and move two positions on; a short stream is an end-of-stream failure |
| PocketTopoFile.Int32At | app/src/main/java/org/hwyl/sexytopo/control/io/thirdparty/pockettopo/PocketTopoFile.java:43-49 | four bytes read give an int and move four positions on; a short stream is an end-of-stream failure |
| PocketTopoFile.Int64At | app/src/main/java/org/hwyl/sexytopo/control/io/thirdparty/pockettopo/PocketTopoFile.java:51-55 | eight bytes read give a long and move eight positions on; a short stream is an end-of-stream failure |
| PocketTopoFile.VarIntAt | app/src/main/java/org/hwyl/sexytopo/control/io/thirdparty/pockettopo/PocketTopoFile.java:61-72 | the length prefix is read as a Java int: it consumes at least one byte and stays within the data, its value lies in the int range, and a cut-off prefix is an end-of-stream failure |
| PocketTopoFile.ContentAt | app/src/main/java/org/hwyl/sexytopo/control/io/thirdparty/pockettopo/PocketTopoFile.java:75-85 | the content of a string is exactly n bytes and moves n positions on |
| PocketTopoFile.EncodeVarInt | app/src/main/java/org/hwyl/sexytopo/control/io/thirdparty/pockettopo/PocketTopoFile.java:61-74 | a length prefix is at least one byte long |
| PocketTopoFile.VarIntRoundTrip | app/src/main/java/org/hwyl/sexytopo/control/io/thirdparty/pockettopo/PocketTopoFile.java:61-72 | a length prefix for any 32-bit pattern, wherever it stands, reads back as the int with that pattern and ends where it ends; a non-negative int reads back as itself |
| PocketTopoFile.StringRoundTrip | app/src/main/java/org/hwyl/sexytopo/control/io/thirdparty/pockettopo/PocketTopoFile.java:61-87 | a string of fewer than 2^31 bytes written as prefix and content reads back as the decoded content, ending after it |
| PocketTopoFile.StringExamples | app/src/test/java/org/hwyl/sexytopo/control/io/thirdparty/pockettopo/PocketTopoFileTest.java:97-126 | {0x80, 0x01} is the length 128; a zero length reads as the empty string after one byte |
| PocketTopoFile.BitOr | app/src/main/java/org/hwyl/sexytopo/control/io/thirdparty/pockettopo/PocketTopoFile.java:66 | the or of two numbers is at least each of them and at most their sum |
| PocketTopoFile.BitOrBelow | app/src/main/java/org/hwyl/sexytopo/control/io/thirdparty/pockettopo/PocketTopoFile.java:66 | the or of two k-bit patterns is a k-bit pattern |
| PocketTopoFile.BitOrDisjoint | app/src/main/java/org/hwyl/sexytopo/control/io/thirdparty/pockettopo/PocketTopoFile.java:66 | the or of a pattern below bit s and a multiple of 2^s is their sum |
| PocketTopoFile.Shl32 | app/src/main/java/org/hwyl/sexytopo/control/io/thirdparty/pockettopo/PocketTopoFile.java:66 | a shift on a 32-bit int gives a 32-bit pattern, equal to the product with 2^(shift mod 32) when that fits |
| PocketTopoFile.LengthStep | app/src/main/java/org/hwyl/sexytopo/control/io/thirdparty/pockettopo/PocketTopoFile.java:66 | one group ored into the 32-bit length keeps it a 32-bit pattern and never lowers it |
| PocketTopoFile.LengthFrom | app/src/main/java/org/hwyl/sexytopo/control/io/thirdparty/pockettopo/PocketTopoFile.java:64-72 | the rest of the length loop consumes at least one byte, stays within the data, never lowers the length and keeps it a 32-bit pattern; a cut-off prefix is an end-of-stream failure |
| PocketTopoFile.LengthFromEncoded | app/src/main/java/org/hwyl/sexytopo/control/io/thirdparty/pockettopo/PocketTopoFile.java:64-72 | the groups of n read after lower groups at a shift below 32 add n times 2^shift, as long as the total fits in 32 bits |
| PocketTopoFile.LengthStepAdds | app/src/main/java/org/hwyl/sexytopo/control/io/thirdparty/pockettopo/PocketTopoFile.java:66 | a group ored in above the bits already set adds its value at the shift |
| PocketTopoFile.GroupsCarry | app/src/main/java/org/hwyl/sexytopo/control/io/thirdparty/pockettopo/PocketTopoFile.java:64-72 | while groups remain, the next shift stays below 32 and the groups read so far lie below it |
| PocketTopoFile.NegativeArraySize | app/src/main/java/org/hwyl/sexytopo/control/io/thirdparty/pockettopo/PocketTopoFile.java:77 | new byte[length] refuses a negative length with a message that is a minus sign and the digits of its magnitude |
| PocketTopoFile.FifthGroupLost | app/src/main/java/org/hwyl/sexytopo/control/io/thirdparty/pockettopo/PocketTopoFile.java:66 | at shift 28 only the lowest four bits of a group survive |
| PocketTopoFile.LengthWrapsAt32Bits | app/src/main/java/org/hwyl/sexytopo/control/io/thirdparty/pockettopo/PocketTopoFile.java:61-76 | {80 80 80 80 10} is the length 0 and reads as the empty string after five bytes |
| PocketTopoFile.NegativeLength | app/src/main/java/org/hwyl/sexytopo/control/io/thirdparty/pockettopo/PocketTopoFile.java:61-77 | {FF FF FF FF 0F} is the length -1, and reading the string fails with the negative array size |
| PocketTopoFile.EncodesMinusOne | app/src/main/java/org/hwyl/sexytopo/control/io/thirdparty/pockettopo/PocketTopoFile.java:61-72 | the length prefix for the pattern of -1 is {FF FF FF FF 0F} |
| PocketTopoFile.ByteStream.constructor | app/src/main/java/org/hwyl/sexytopo/control/io/thirdparty/pockettopo/PocketTopoFile.java:29-35 | a stream over the data, positioned at its start |
| PocketTopoFile.ByteStream.Read | app/src/main/java/org/hwyl/sexytopo/control/io/thirdparty/pockettopo/PocketTopoFile.java:30 | InputStream.read: the next byte and one position on, or -1 at the end with the position unchanged |
| PocketTopoFile.ByteStream.ReadInto | app/src/main/java/org/hwyl/sexytopo/control/io/thirdparty/pockettopo/PocketTopoFile.java:79 | InputStream.read(buffer, offset, len): -1 at the end, otherwise between 1 and len bytes copied into the buffer at the offset and nothing else changed |
| PocketTopoFile.ReadByte | app/src/main/java/org/hwyl/sexytopo/control/io/thirdparty/pockettopo/PocketTopoFile.java:29-35 | readByte delivers what ByteAt decodes, or the IOException at the end of the stream |
| PocketTopoFile.ReadInt16 | app/src/main/java/org/hwyl/sexytopo/control/io/thirdparty/pockettopo/PocketTopoFile.java:37-41 | readInt16 delivers what Int16At decodes and leaves the stream where it says |
| PocketTopoFile.ReadInt32 | app/src/main/java/org/hwyl/sexytopo/control/io/thirdparty/pockettopo/PocketTopoFile.java:43-49 | readInt32 delivers what Int32At decodes and leaves the stream where it says |
| PocketTopoFile.ReadInt64 | app/src/main/java/org/hwyl/sexytopo/control/io/thirdparty/pockettopo/PocketTopoFile.java:51-55 | readInt64 delivers what Int64At decodes and leaves the stream where it says |
| PocketTopoFile.ReadLength | app/src/main/java/org/hwyl/sexytopo/control/io/thirdparty/pockettopo/PocketTopoFile.java:61-72 | the loop that ors each group into a 32-bit int at a shift growing by 7 delivers what VarIntAt decodes |
| PocketTopoFile.ReadContent | app/src/main/java/org/hwyl/sexytopo/control/io/thirdparty/pockettopo/PocketTopoFile.java:75-85 | the read(buffer, offset, len) loop until the buffer is full delivers what ContentAt decodes, or fails at the end of the stream |
| PocketTopoFile.ReadString | app/src/main/java/org/hwyl/sexytopo/control/io/thirdparty/pockettopo/PocketTopoFile.java:61-87 | readString delivers what StringAt decodes; after a negative length the stream stands just after the prefix |
| PocketTopoFile.IdToName | app/src/main/java/org/hwyl/sexytopo/control/io/thirdparty/pockettopo/PocketTopoFile.java:109-120 | there is no name exactly for the undefined id (a splay's far end) |
| PocketTopoFile.ReadId | app/src/main/java/org/hwyl/sexytopo/control/io/thirdparty/pockettopo/PocketTopoFile.java:96-99 | readId delivers what IdAt decodes |
| PocketTopoFile.IdNameRoundTrip | app/src/main/java/org/hwyl/sexytopo/control/io/thirdparty/pockettopo/PocketTopoFile.java:109-120 | every defined id's name leads back to the id, so the naming is one to one |
| PocketTopoFile.IdToNameInjective | app/src/main/java/org/hwyl/sexytopo/control/io/thirdparty/pockettopo/PocketTopoFile.java:109-120 | two ids with the same name are the same id |
| PocketTopoFile.IdExamples | app/src/test/java/org/hwyl/sexytopo/control/io/thirdparty/pockettopo/PocketTopoFileTest.java:129-168 | the test vectors: 0x80000001 is "0", 0x8000000B is "10", 0 is "0.0" and 0x00010002 is "1.2" |
| PocketTopoFile.AzimuthToDegrees | app/src/main/java/org/hwyl/sexytopo/control/io/thirdparty/pockettopo/PocketTopoFile.java:130-133 | an azimuth in raw units converts to degrees in [0, 360) |
| PocketTopoFile.InclinationToDegrees | app/src/main/java/org/hwyl/sexytopo/control/io/thirdparty/pockettopo/PocketTopoFile.java:140-142 | an inclination in raw units converts to degrees in [-180, 180) |
| PocketTopoFile.AngleConversionsInvertible | app/src/main/java/org/hwyl/sexytopo/control/io/thirdparty/pockettopo/PocketTopoFile.java:130-142 | converting degrees back to raw units gives the unsigned azimuth and the signed inclination: nothing is lost |
| PocketTopoFile.AngleExamples | app/src/test/java/org/hwyl/sexytopo/control/io/thirdparty/pockettopo/PocketTopoFileTest.java:172-212 | the test vectors: 0x4000 is 90 degrees, 0xC000 is 270 as an azimuth and -90 as an inclination |
| PocketTopoFile.DistanceToMetres | app/src/main/java/org/hwyl/sexytopo/control/io/thirdparty/pockettopo/PocketTopoFile.java:145-147 | millimetres to metres: the metres times 1000 are the millimetres |
| PocketTopoFile.Wrap64 | app/src/main/java/org/hwyl/sexytopo/control/io/thirdparty/pockettopo/PocketTopoFile.java:150-153 | long arithmetic wraps into the 64-bit range and leaves values in range alone |
| PocketTopoFile.JavaDiv | app/src/main/java/org/hwyl/sexytopo/control/io/thirdparty/pockettopo/PocketTopoFile.java:150-153 | Java's long division agrees with floor division on non-negative operands |
| PocketTopoFile.TicksRoundTrip | app/src/main/java/org/hwyl/sexytopo/control/io/thirdparty/pockettopo/PocketTopoFile.java:150-153 | a date that fits in ticks survives ticks and back; the .NET epoch tick count is 0 ms |
| PocketTopoFile.TicksTruncateTowardEpoch | app/src/main/java/org/hwyl/sexytopo/control/io/thirdparty/pockettopo/PocketTopoFile.java:150-153 | the division truncates toward zero: 9999 ticks either side of the epoch are the epoch |
| PocketTopoFile.TopoColourToColour | app/src/main/java/org/hwyl/sexytopo/control/io/thirdparty/pockettopo/PocketTopoFile.java:159-170 | any byte outside 1..7 is black |
| PocketTopoFile.TopoColourOf | app/src/main/java/org/hwyl/sexytopo/control/io/thirdparty/pockettopo/PocketTopoFile.java:159-170 | every colour has a PocketTopo number in 1..7 |
| PocketTopoFile.TopoColourRoundTrip | app/src/main/java/org/hwyl/sexytopo/control/io/thirdparty/pockettopo/PocketTopoFile.java:159-170 | every colour is reached, and 2..7 name different colours from each other and from black |
| PocketTopoImporter.HeaderAccepts | app/src/main/java/org/hwyl/sexytopo/control/io/thirdparty/pockettopo/PocketTopoImporter.java:110-120 | exactly the files that begin 'T', 'o', 'p', 3 pass the header check, which then has read four bytes |
| PocketTopoImporter.ReadAndVerifyHeader | app/src/main/java/org/hwyl/sexytopo/control/io/thirdparty/pockettopo/PocketTopoImporter.java:110-120 | the method yields what HeaderAt decides: the four bytes accepted, or the IOException naming what was found |
| PocketTopoImporter.ReadFourBytes | app/src/main/java/org/hwyl/sexytopo/control/io/thirdparty/pockettopo/PocketTopoImporter.java:111-114 | four readByte calls deliver the four bytes BytesAt decodes, or the end-of-stream failure |
| PocketTopoImporter.ReadTrip | app/src/main/java/org/hwyl/sexytopo/control/io/thirdparty/pockettopo/PocketTopoImporter.java:129-135 | the body of readTrips' loop delivers what TripAt decodes: ticks as a date, the comment, the declination as an azimuth |
| PocketTopoImporter.ReadShot | app/src/main/java/org/hwyl/sexytopo/control/io/thirdparty/pockettopo/PocketTopoImporter.java:144-157 | the body of readShots' loop delivers what ShotAt decodes, reading the comment only when flag bit 2 is set |
| PocketTopoImporter.ReadReference | app/src/main/java/org/hwyl/sexytopo/control/io/thirdparty/pockettopo/PocketTopoImporter.java:166-172 | the body of readReferences' loop delivers what ReferenceAt decodes |
| PocketTopoImporter.TripsFrom | app/src/main/java/org/hwyl/sexytopo/control/io/thirdparty/pockettopo/PocketTopoImporter.java:128-136 | reading count more trips after acc gives exactly count more than acc trips |
| PocketTopoImporter.ShotsFrom | app/src/main/java/org/hwyl/sexytopo/control/io/thirdparty/pockettopo/PocketTopoImporter.java:143-158 | reading count more shots after acc gives exactly count more than acc shots |
| PocketTopoImporter.ReferencesFrom | app/src/main/java/org/hwyl/sexytopo/control/io/thirdparty/pockettopo/PocketTopoImporter.java:165-173 | reading count more references after acc gives exactly count more than acc references |
| PocketTopoImporter.TripsFromStep | app/src/main/java/org/hwyl/sexytopo/control/io/thirdparty/pockettopo/PocketTopoImporter.java:128-136 | one trip read and appended, then the rest |
| PocketTopoImporter.ShotsFromStep | app/src/main/java/org/hwyl/sexytopo/control/io/thirdparty/pockettopo/PocketTopoImporter.java:143-158 | one shot read and appended, then the rest |
| PocketTopoImporter.ReferencesFromStep | app/src/main/java/org/hwyl/sexytopo/control/io/thirdparty/pockettopo/PocketTopoImporter.java:165-173 | one reference read and appended, then the rest |
| PocketTopoImporter.ListCounts | app/src/main/java/org/hwyl/sexytopo/control/io/thirdparty/pockettopo/PocketTopoImporter.java:125-175 | a list read whole holds as many records as its count says |
| PocketTopoImporter.ReadTrips | app/src/main/java/org/hwyl/sexytopo/control/io/thirdparty/pockettopo/PocketTopoImporter.java:125-138 | readTrips yields what TripListAt decodes; a negative count fails as new ArrayList does |
| PocketTopoImporter.ReadTripRun | app/src/main/java/org/hwyl/sexytopo/control/io/thirdparty/pockettopo/PocketTopoImporter.java:128-136 | the loop of readTrips yields what TripsFrom decodes |
| PocketTopoImporter.ReadShots | app/src/main/java/org/hwyl/sexytopo/control/io/thirdparty/pockettopo/PocketTopoImporter.java:140-160 | readShots yields what ShotListAt decodes |
| PocketTopoImporter.ReadShotRun | app/src/main/java/org/hwyl/sexytopo/control/io/thirdparty/pockettopo/PocketTopoImporter.java:143-158 | the loop of readShots yields what ShotsFrom decodes |
| PocketTopoImporter.ReadReferences | app/src/main/java/org/hwyl/sexytopo/control/io/thirdparty/pockettopo/PocketTopoImporter.java:162-175 | readReferences yields what ReferenceListAt decodes |
| PocketTopoImporter.ReadReferenceRun | app/src/main/java/org/hwyl/sexytopo/control/io/thirdparty/pockettopo/PocketTopoImporter.java:165-173 | the loop of readReferences yields what ReferencesFrom decodes |
| PocketTopoImporter.MappingAt | app/src/main/java/org/hwyl/sexytopo/control/io/thirdparty/pockettopo/PocketTopoImporter.java:177-181 | the mapping succeeds exactly when twelve bytes remain, and skips them |
| PocketTopoImporter.ReadMapping | app/src/main/java/org/hwyl/sexytopo/control/io/thirdparty/pockettopo/PocketTopoImporter.java:177-181 | readMapping delivers what MappingAt decodes |
| PocketTopoImporter.ReadRecords | app/src/main/java/org/hwyl/sexytopo/control/io/thirdparty/pockettopo/PocketTopoImporter.java:49-56 | the header, trips, shots, references and mapping read in turn yield what RecordsAt decodes |
| PocketTopoImporter.RepeatsUpTo | app/src/main/java/org/hwyl/sexytopo/control/io/thirdparty/pockettopo/PocketTopoImporter.java:377-389 | the repeats among the first n shots are at most n |
| PocketTopoImporter.MarkRepeats | app/src/main/java/org/hwyl/sexytopo/control/io/thirdparty/pockettopo/PocketTopoImporter.java:377-389 | marking repeats keeps one flag per shot |
| PocketTopoImporter.Unprocessed | app/src/main/java/org/hwyl/sexytopo/control/io/thirdparty/pockettopo/PocketTopoImporter.java:261 | the shots not yet processed are at most all of them |
| PocketTopoImporter.RepeatsIncludeSelf | app/src/main/java/org/hwyl/sexytopo/control/io/thirdparty/pockettopo/PocketTopoImporter.java:377-389 | an unprocessed shot is a repeat of itself: it is collected and marked |
| PocketTopoImporter.ShotStep | app/src/main/java/org/hwyl/sexytopo/control/io/thirdparty/pockettopo/PocketTopoImporter.java:265-357 | one shot of a pass keeps one processed flag per shot |
| PocketTopoImporter.PassFrom | app/src/main/java/org/hwyl/sexytopo/control/io/thirdparty/pockettopo/PocketTopoImporter.java:265-357 | the rest of a pass keeps one processed flag per shot |
| PocketTopoImporter.Build | app/src/main/java/org/hwyl/sexytopo/control/io/thirdparty/pockettopo/PocketTopoImporter.java:261-358 | the passes until one makes no progress keep one processed flag per shot |
| PocketTopoImporter.CountCovers | app/src/main/java/org/hwyl/sexytopo/control/io/thirdparty/pockettopo/PocketTopoImporter.java:261-358 | flags that keep every processed shot leave no more shots unprocessed |
| PocketTopoImporter.CountCoversStrictly | app/src/main/java/org/hwyl/sexytopo/control/io/thirdparty/pockettopo/PocketTopoImporter.java:261-358 | flags that also mark one more shot leave strictly fewer unprocessed |
| PocketTopoImporter.StepMarks | app/src/main/java/org/hwyl/sexytopo/control/io/thirdparty/pockettopo/PocketTopoImporter.java:265-357 | a shot never unmarks a shot, and when it reports progress it has marked itself |
| PocketTopoImporter.PassProgress | app/src/main/java/org/hwyl/sexytopo/control/io/thirdparty/pockettopo/PocketTopoImporter.java:263-358 | a pass that reports progress has marked at least one more shot, so the while (progress) loop ends |
| PocketTopoImporter.StepWithoutProgress | app/src/main/java/org/hwyl/sexytopo/control/io/thirdparty/pockettopo/PocketTopoImporter.java:282-356 | a shot that makes no progress changes nothing, and it was processed already or neither of its stations can take it |
| PocketTopoImporter.PassWithoutProgress | app/src/main/java/org/hwyl/sexytopo/control/io/thirdparty/pockettopo/PocketTopoImporter.java:263-358 | a pass without progress changes nothing and every shot left unprocessed cannot be placed |
| PocketTopoImporter.PassKeepsProgress | app/src/main/java/org/hwyl/sexytopo/control/io/thirdparty/pockettopo/PocketTopoImporter.java:263-358 | progress once made in a pass stays reported |
| PocketTopoImporter.BuildDropsOnlyUnplaceable | app/src/main/java/org/hwyl/sexytopo/control/io/thirdparty/pockettopo/PocketTopoImporter.java:259-358 | the reconciler stops only when every shot left unprocessed can be placed nowhere, and never unmarks a shot |
| PocketTopoImporter.NullFromSkipped | app/src/main/java/org/hwyl/sexytopo/control/io/thirdparty/pockettopo/PocketTopoImporter.java:272-276 | a shot without a "from" is marked processed with progress and changes nothing else |
| PocketTopoImporter.SplayDeferredUntilFromExists | app/src/main/java/org/hwyl/sexytopo/control/io/thirdparty/pockettopo/PocketTopoImporter.java:282-291 | a splay waits until its "from" exists, then becomes a plain leg of it and the newest record entry |
| PocketTopoImporter.ClosureSkippedOrphanDeferred | app/src/main/java/org/hwyl/sexytopo/control/io/thirdparty/pockettopo/PocketTopoImporter.java:349-356 | both ends present: a loop closure, marked and otherwise ignored; neither present: deferred |
| PocketTopoImporter.RepeatsCount | app/src/main/java/org/hwyl/sexytopo/control/io/thirdparty/pockettopo/PocketTopoImporter.java:377-389 | the legs collected are as many as the shots newly marked |
| PocketTopoImporter.SingleRepeatIsSelf | app/src/main/java/org/hwyl/sexytopo/control/io/thirdparty/pockettopo/PocketTopoImporter.java:306-311 | a single collected leg is the shot itself, read as a splay |
| PocketTopoImporter.ForesightCreatesStation | app/src/main/java/org/hwyl/sexytopo/control/io/thirdparty/pockettopo/PocketTopoImporter.java:293-317 | a foresight collects every unprocessed repeat and hangs a leg to a new station named "to" off "from": averaged readings, the repeats as provenance when several, the station active |
| PocketTopoImporter.BacksightCreatesStation | app/src/main/java/org/hwyl/sexytopo/control/io/thirdparty/pockettopo/PocketTopoImporter.java:319-347 | a backsight collects and averages the same way, then hangs the leg off "to" turned round (azimuth + 180, inclination negated, shot backwards) to a new station named "from" |
| PocketTopoImporter.GrowsTransitive | app/src/main/java/org/hwyl/sexytopo/control/io/thirdparty/pockettopo/PocketTopoImporter.java:259-358 | a survey that grows from one that grew is grown from the first |
| PocketTopoImporter.GrowsReflexive | app/src/main/java/org/hwyl/sexytopo/control/io/thirdparty/pockettopo/PocketTopoImporter.java:259-358 | a survey grows from itself |
| PocketTopoImporter.FoundedGrows | app/src/main/java/org/hwyl/sexytopo/control/io/thirdparty/pockettopo/PocketTopoImporter.java:299-304 | a new station keeps the survey valid and only adds to it |
| PocketTopoImporter.AttachedGrows | app/src/main/java/org/hwyl/sexytopo/control/io/thirdparty/pockettopo/PocketTopoImporter.java:290-291 | attaching a leg keeps the survey valid and only adds to it |
| PocketTopoImporter.ForesightGrows | app/src/main/java/org/hwyl/sexytopo/control/io/thirdparty/pockettopo/PocketTopoImporter.java:293-317 | a foresight keeps the survey valid and only adds to it |
| PocketTopoImporter.BacksightGrows | app/src/main/java/org/hwyl/sexytopo/control/io/thirdparty/pockettopo/PocketTopoImporter.java:319-347 | a backsight keeps the survey valid and only adds to it |
| PocketTopoImporter.StepGrows | app/src/main/java/org/hwyl/sexytopo/control/io/thirdparty/pockettopo/PocketTopoImporter.java:265-357 | every shot keeps the survey valid and only adds to it |
| PocketTopoImporter.PassGrows | app/src/main/java/org/hwyl/sexytopo/control/io/thirdparty/pockettopo/PocketTopoImporter.java:265-357 | a pass keeps the survey valid and only adds to it |
| PocketTopoImporter.BuildGrows | app/src/main/java/org/hwyl/sexytopo/control/io/thirdparty/pockettopo/PocketTopoImporter.java:259-358 | all passes together keep the survey valid, keep the origin and every station's name, comment and direction, and only add stations and legs |
| PocketTopoImporter.Initial | app/src/main/java/org/hwyl/sexytopo/control/io/thirdparty/pockettopo/PocketTopoImporter.java:242 | new Survey(): the origin alone, valid, with no legs and nothing recorded |
| PocketTopoImporter.FirstFrom | app/src/main/java/org/hwyl/sexytopo/control/io/thirdparty/pockettopo/PocketTopoImporter.java:251-257 | there is no first "from" exactly when no shot has one, and otherwise it is some shot's "from" |
| PocketTopoImporter.FirstFromAt | app/src/main/java/org/hwyl/sexytopo/control/io/thirdparty/pockettopo/PocketTopoImporter.java:251-257 | the first shot with a "from" names the origin |
| PocketTopoImporter.OriginNamed | app/src/main/java/org/hwyl/sexytopo/control/io/thirdparty/pockettopo/PocketTopoImporter.java:251-257 | only the origin's name changes, to the first "from" when there is one |
| PocketTopoImporter.ApplyReference | app/src/main/java/org/hwyl/sexytopo/control/io/thirdparty/pockettopo/PocketTopoImporter.java:361-367 | a reference with a station name and a non-empty comment sets the comment of the station that name finds, and nothing else changes; any other reference leaves the survey as it was |
| PocketTopoImporter.ApplyReferences | app/src/main/java/org/hwyl/sexytopo/control/io/thirdparty/pockettopo/PocketTopoImporter.java:360-368 | the references in file order change only comments, each to a non-empty reference comment of a station of that name |
| PocketTopoImporter.ApplyReferencesLastWins | app/src/main/java/org/hwyl/sexytopo/control/io/thirdparty/pockettopo/PocketTopoImporter.java:360-368 | the station a name finds ends with the comment of the last reference naming it with a non-empty comment, and keeps its own comment when there is none |
| PocketTopoImporter.ApplyReferenceAt | app/src/main/java/org/hwyl/sexytopo/control/io/thirdparty/pockettopo/PocketTopoImporter.java:361-367 | one reference sets the comment of the station a name finds when it names that name with a non-empty comment, leaves that comment alone otherwise, and never changes which station the name finds |
| PocketTopoImporter.Reconciled | app/src/main/java/org/hwyl/sexytopo/control/io/thirdparty/pockettopo/PocketTopoImporter.java:259-358 | the reconciliation keeps one processed flag per shot |
| PocketTopoImporter.ImportedTrip | app/src/main/java/org/hwyl/sexytopo/control/io/thirdparty/pockettopo/PocketTopoImporter.java:244-249 | the survey has a trip exactly when the file has trips, with the first trip's date and comment |
| PocketTopoImporter.ImportedOrigin | app/src/main/java/org/hwyl/sexytopo/control/io/thirdparty/pockettopo/PocketTopoImporter.java:239-371 | the imported survey is valid and its origin is station 0, named after the first shot with a "from", never renamed by the passes or the references |
| PocketTopoImporter.ImportedDropsOnlyUnplaceable | app/src/main/java/org/hwyl/sexytopo/control/io/thirdparty/pockettopo/PocketTopoImporter.java:259-358 | the only shots the import leaves out are those whose stations the imported survey does not contain |
| PocketTopoImporter.CollectRepeatLegs | app/src/main/java/org/hwyl/sexytopo/control/io/thirdparty/pockettopo/PocketTopoImporter.java:377-389 | collectRepeatLegs returns the unprocessed shots with target's (from, to) pair, as legs in file order, and marks exactly those |
| PocketTopoImporter.AttachLeg | app/src/main/java/org/hwyl/sexytopo/control/io/thirdparty/pockettopo/PocketTopoImporter.java:290-291 | the leg is appended to the station's legs and to the record as a new object |
| PocketTopoImporter.AddNewStation | app/src/main/java/org/hwyl/sexytopo/control/io/thirdparty/pockettopo/PocketTopoImporter.java:299-304 | the new station takes the shot's non-empty comment and LEFT when the shot is flipped |
| PocketTopoImporter.MergeRepeats | app/src/main/java/org/hwyl/sexytopo/control/io/thirdparty/pockettopo/PocketTopoImporter.java:306-308 | the readings are the average of several repeats, or the single one |
| PocketTopoImporter.PlaceForesight | app/src/main/java/org/hwyl/sexytopo/control/io/thirdparty/pockettopo/PocketTopoImporter.java:299-317 | the foresight branch leaves the survey as Foresight says |
| PocketTopoImporter.PlaceBacksight | app/src/main/java/org/hwyl/sexytopo/control/io/thirdparty/pockettopo/PocketTopoImporter.java:326-347 | the backsight branch leaves the survey as Backsight says |
| PocketTopoImporter.ProcessShot | app/src/main/java/org/hwyl/sexytopo/control/io/thirdparty/pockettopo/PocketTopoImporter.java:266-356 | the body of the pass loop leaves survey, flags and progress as ShotStep says |
| PocketTopoImporter.ForesightShot | app/src/main/java/org/hwyl/sexytopo/control/io/thirdparty/pockettopo/PocketTopoImporter.java:293-317 | the foresight branch marks the repeats, reports progress and leaves the survey as Foresight says |
| PocketTopoImporter.BacksightShot | app/src/main/java/org/hwyl/sexytopo/control/io/thirdparty/pockettopo/PocketTopoImporter.java:319-347 | the backsight branch marks the repeats, reports progress and leaves the survey as Backsight says |
| PocketTopoImporter.RunPass | app/src/main/java/org/hwyl/sexytopo/control/io/thirdparty/pockettopo/PocketTopoImporter.java:264-357 | one pass of the for loop leaves survey, flags and progress as PassFrom says |
| PocketTopoImporter.NameOrigin | app/src/main/java/org/hwyl/sexytopo/control/io/thirdparty/pockettopo/PocketTopoImporter.java:251-257 | the loop leaves the survey as OriginNamed says |
| PocketTopoImporter.ApplyReferenceComment | app/src/main/java/org/hwyl/sexytopo/control/io/thirdparty/pockettopo/PocketTopoImporter.java:362-367 | one reference applied as ApplyReference says |
| PocketTopoImporter.ApplyReferencesStep | app/src/main/java/org/hwyl/sexytopo/control/io/thirdparty/pockettopo/PocketTopoImporter.java:360-368 | one more reference applied after the earlier ones |
| PocketTopoImporter.ApplyReferenceComments | app/src/main/java/org/hwyl/sexytopo/control/io/thirdparty/pockettopo/PocketTopoImporter.java:360-368 | the reference loop leaves the survey as ApplyReferences says |
| PocketTopoImporter.Reconcile | app/src/main/java/org/hwyl/sexytopo/control/io/thirdparty/pockettopo/PocketTopoImporter.java:259-358 | the while (progress) loop over a fresh flag array leaves the survey as Build says |
| PocketTopoImporter.BuildSurvey | app/src/main/java/org/hwyl/sexytopo/control/io/thirdparty/pockettopo/PocketTopoImporter.java:239-371 | buildSurvey returns a new survey equal to Imported, with the trip ImportedTrip says |
| PocketTopoImporter.ParseSurvey | app/src/main/java/org/hwyl/sexytopo/control/io/thirdparty/pockettopo/PocketTopoImporter.java:49-68 | parseSurvey up to the drawings returns ImportedFile's survey, marked saved, or fails with the first reader's failure |
| PocketTopoTxtExporter.Oriented | app/src/main/java/org/hwyl/sexytopo/control/io/thirdparty/pockettopo/PocketTopoTxtExporter.java:157-161 | the entry as written is never shot backwards, and keeps its distance, destination and whether it was promoted |
| PocketTopoTxtExporter.OrientedUndone | app/src/main/java/org/hwyl/sexytopo/control/io/thirdparty/pockettopo/PocketTopoTxtExporter.java:157-161 | writing a backwards leg from the far end loses nothing: turning it round again gives the leg and names as surveyed |
| PocketTopoTxtExporter.ToField | app/src/main/java/org/hwyl/sexytopo/control/io/thirdparty/pockettopo/PocketTopoTxtExporter.java:163-166 | the destination column is empty exactly for the splay's blank station "-"; any other name is written as it is |
| PocketTopoTxtExporter.DataFields | app/src/main/java/org/hwyl/sexytopo/control/io/thirdparty/pockettopo/PocketTopoTxtExporter.java:168-172 | an entry's line has five columns |
| PocketTopoTxtExporter.Triples | app/src/main/java/org/hwyl/sexytopo/control/io/thirdparty/pockettopo/PocketTopoTxtExporter.java:196-200 | one text per raw shot, in order |
| PocketTopoTxtExporter.Annotation | app/src/main/java/org/hwyl/sexytopo/control/io/thirdparty/pockettopo/PocketTopoTxtExporter.java:174-184 | there is a comment exactly when the leg was promoted or its destination has a comment, and it opens with a tab and "; " |
| PocketTopoTxtExporter.JoinThree | app/src/main/java/org/hwyl/sexytopo/control/io/thirdparty/pockettopo/PocketTopoTxtExporter.java:196-200 | three readings joined by single spaces |
| PocketTopoTxtExporter.TriplesPrefix | app/src/main/java/org/hwyl/sexytopo/control/io/thirdparty/pockettopo/PocketTopoTxtExporter.java:189-201 | the list of shots grown by one: ", " and the shot at the end, or the shot alone |
| PocketTopoTxtExporter.FormatPromotedFrom | app/src/main/java/org/hwyl/sexytopo/control/io/thirdparty/pockettopo/PocketTopoTxtExporter.java:187-203 | the loop with the first flag appends exactly the {from: ...} instruction, shots separated by ", " |
| PocketTopoTxtExporter.DataFieldsText | app/src/main/java/org/hwyl/sexytopo/control/io/thirdparty/pockettopo/PocketTopoTxtExporter.java:168-172 | the five columns, each followed by a tab |
| PocketTopoTxtExporter.FormatEntry | app/src/main/java/org/hwyl/sexytopo/control/io/thirdparty/pockettopo/PocketTopoTxtExporter.java:146-185 | formatEntry appends exactly the entry's line |
| PocketTopoTxtExporter.AppendAnnotation | app/src/main/java/org/hwyl/sexytopo/control/io/thirdparty/pockettopo/PocketTopoTxtExporter.java:174-184 | the tail of formatEntry appends exactly the comment |
| PocketTopoTxtExporter.EntryTexts | app/src/main/java/org/hwyl/sexytopo/control/io/thirdparty/pockettopo/PocketTopoTxtExporter.java:67-70 | one line per entry, in order |
| PocketTopoTxtExporter.DataTextStep | app/src/main/java/org/hwyl/sexytopo/control/io/thirdparty/pockettopo/PocketTopoTxtExporter.java:67-70 | one more entry adds its line and a line feed |
| PocketTopoTxtExporter.ExportData | app/src/main/java/org/hwyl/sexytopo/control/io/thirdparty/pockettopo/PocketTopoTxtExporter.java:59-73 | exportData returns the DATA heading and one line per entry in the order given |
| PocketTopoTxtExporter.NumeralUnbroken | app/src/main/java/org/hwyl/sexytopo/control/io/thirdparty/pockettopo/PocketTopoTxtExporter.java:196-200 | a written reading holds no space, comma, brace, semicolon, tab or line feed |
| PocketTopoTxtExporter.JoinUnbroken | app/src/main/java/org/hwyl/sexytopo/control/io/thirdparty/pockettopo/PocketTopoTxtExporter.java:187-203 | texts without such characters stay so when joined |
| PocketTopoTxtExporter.TripleShape | app/src/main/java/org/hwyl/sexytopo/control/io/thirdparty/pockettopo/PocketTopoTxtExporter.java:196-200 | a shot's readings spaced out: trimmed, unbroken, and cut at white space into the three readings |
| PocketTopoTxtExporter.ShotRead | app/src/main/java/org/hwyl/sexytopo/control/io/thirdparty/pockettopo/PocketTopoTxtExporter.java:196-200 | one shot of the instruction, with or without the space after the comma, reads back as the shot's readings |
| PocketTopoTxtExporter.Spaced | app/src/main/java/org/hwyl/sexytopo/control/io/thirdparty/pockettopo/PocketTopoTxtExporter.java:194 | each text after the first keeps the space that followed its comma |
| PocketTopoTxtExporter.SplitCommaJoined | app/src/main/java/org/hwyl/sexytopo/control/io/thirdparty/pockettopo/PocketTopoTxtExporter.java:194 | texts joined by ", " come apart at the commas, each but the first with its leading space |
| PocketTopoTxtExporter.SplitCommaPieces | app/src/main/java/org/hwyl/sexytopo/control/io/thirdparty/pockettopo/PocketTopoTxtExporter.java:194 | String.split(",") of texts joined by ", " gives the texts, each but the first with its leading space |
| PocketTopoTxtExporter.InstructionShape | app/src/main/java/org/hwyl/sexytopo/control/io/thirdparty/pockettopo/PocketTopoTxtExporter.java:187-203 | the instruction is "{from: ", the shots, trimmed and unbroken, then "}" |
| PocketTopoTxtExporter.ShotsRead | app/src/main/java/org/hwyl/sexytopo/control/io/thirdparty/pockettopo/PocketTopoTxtExporter.java:187-203 | after "from:", the shots read back as one plain shot per raw shot |
| PocketTopoTxtExporter.PromotedFromRead | app/src/main/java/org/hwyl/sexytopo/control/io/thirdparty/pockettopo/PocketTopoTxtExporter.java:187-203 | the {from: ...} instruction of a promoted leg reads back through the Survex/Therion importer as one shot per raw shot, in order |
| PocketTopoTxtExporter.EntryColumns | app/src/main/java/org/hwyl/sexytopo/control/io/thirdparty/pockettopo/PocketTopoTxtExporter.java:146-185 | cut at its tabs, a line gives its five columns, an empty column, then the "; " comment exactly when the leg was promoted or its destination has a comment |
| PocketTopoTxtExporter.InstructionBody | app/src/main/java/org/hwyl/sexytopo/control/io/thirdparty/pockettopo/PocketTopoTxtExporter.java:187-203 | the instruction is "{", a one-line body without '}', then "}" |
| PocketTopoTxtExporter.InstructionThenRemark | app/src/main/java/org/hwyl/sexytopo/control/io/thirdparty/pockettopo/PocketTopoTxtExporter.java:174-184 | the comment reader finds the instruction first, and striking it out leaves the station comment |
| PocketTopoTxtExporter.AnnotationCases | app/src/main/java/org/hwyl/sexytopo/control/io/thirdparty/pockettopo/PocketTopoTxtExporter.java:174-184 | the comment case by case: the instruction first, then the escaped station comment |
| PocketTopoTxtExporter.FormatCommentEmpty | app/src/main/java/org/hwyl/sexytopo/control/io/thirdparty/pockettopo/PocketTopoTxtExporter.java:210-213 | the escaped comment is empty exactly when the comment is |
| PocketTopoTxtExporter.PromotedLineRead | app/src/main/java/org/hwyl/sexytopo/control/io/thirdparty/pockettopo/PocketTopoTxtExporter.java:174-184 | the line of a promoted leg gives back its raw shots and then its comment |
| PocketTopoTxtExporter.UnpromotedLineRead | app/src/main/java/org/hwyl/sexytopo/control/io/thirdparty/pockettopo/PocketTopoTxtExporter.java:174-184 | the line of a leg that was not promoted gives back no shots and its comment |
| PocketTopoTxtExporter.AnnotationRead | app/src/main/java/org/hwyl/sexytopo/control/io/thirdparty/pockettopo/PocketTopoTxtExporter.java:174-184 | the comment reader on a line gives back the leg's raw shots (when promoted) and the escaped station comment |
| PocketTopoTxtExporter.EntryCommentRead | app/src/main/java/org/hwyl/sexytopo/control/io/thirdparty/pockettopo/PocketTopoTxtExporter.java:146-185 | read by the Survex/Therion importer's comment reader, an entry's line gives back the raw shots of a promoted leg, in order, and the escaped comment of its destination |
| PocketTopoTxtExporter.AnnotationOneLine | app/src/main/java/org/hwyl/sexytopo/control/io/thirdparty/pockettopo/PocketTopoTxtExporter.java:174-184 | the comment part holds no line feed: line breaks in a comment are escaped |
| PocketTopoTxtExporter.EntryTextOneLine | app/src/main/java/org/hwyl/sexytopo/control/io/thirdparty/pockettopo/PocketTopoTxtExporter.java:146-185 | an entry fills exactly one line: not empty and holding no line feed |
| PocketTopoTxtExporter.DataLines | app/src/main/java/org/hwyl/sexytopo/control/io/thirdparty/pockettopo/PocketTopoTxtExporter.java:59-73 | split at its line feeds, the DATA block is its heading and one line per entry, in order |
| PocketTopoTxtExporter.TripDate | app/src/main/java/org/hwyl/sexytopo/control/io/thirdparty/pockettopo/PocketTopoTxtExporter.java:36-43 | the DATE line carries the trip's date, or 1970-01-01 without a trip |
| PocketTopoTxtExporter.HeaderLines | app/src/main/java/org/hwyl/sexytopo/control/io/thirdparty/pockettopo/PocketTopoTxtExporter.java:34-46 | the three header lines: TRIP, DATE and the date, DECLINATION 0.00 |
| PocketTopoTxtExporter.HeaderIsLines | app/src/main/java/org/hwyl/sexytopo/control/io/thirdparty/pockettopo/PocketTopoTxtExporter.java:34-46 | the header is its three lines, each ended by a line feed |
| PocketTopoTxtExporter.HeaderThreeLines | app/src/main/java/org/hwyl/sexytopo/control/io/thirdparty/pockettopo/PocketTopoTxtExporter.java:34-46 | with a one-line date the header splits into exactly the three header lines |
| PocketTopoTxtExporter.HeaderAsWrittenWithTrip | app/src/main/java/org/hwyl/sexytopo/control/io/thirdparty/pockettopo/PocketTopoTxtExporter.java:37-44 | with a trip the header as written is the three-line header |
| PocketTopoTxtExporter.LinesOfFour | app/src/main/java/org/hwyl/sexytopo/control/io/thirdparty/pockettopo/PocketTopoTxtExporter.java:34-46 | four lines each ended by a line feed |
| PocketTopoTxtExporter.HeaderAsWrittenWithoutTrip | app/src/main/java/org/hwyl/sexytopo/control/io/thirdparty/pockettopo/PocketTopoTxtExporter.java:40-44 | without a trip the header as written has an empty line after the date, which the three-line header does not |
| PocketTopoTxtExporter.GetContent | app/src/main/java/org/hwyl/sexytopo/control/io/thirdparty/pockettopo/PocketTopoTxtExporter.java:32-56 | getContent builds the three-line header (the corrected one, see Findings), the DATA block, then the plan and elevation texts, each after a line feed |
| PocketTopoTxtExporter.ContentIsLines | app/src/main/java/org/hwyl/sexytopo/control/io/thirdparty/pockettopo/PocketTopoTxtExporter.java:32-56 | the text is the header lines, the DATA heading and the entry lines, each one line, then the sketches |
| PocketTopoTxtExporter.ContentLines | app/src/main/java/org/hwyl/sexytopo/control/io/thirdparty/pockettopo/PocketTopoTxtExporter.java:32-56 | read line by line, the text starts with the three header lines, the DATA heading, one line per entry, then an empty line before the sketches |
| SurvexExporter.RoleDescriptionRead | app/src/main/java/org/hwyl/sexytopo/control/io/thirdparty/survex/SurvexExporter.java:85-92 | the importer reads every word written for a role as that same role |
| SurvexExporter.RoleDescriptionInjective | app/src/main/java/org/hwyl/sexytopo/control/io/thirdparty/survex/SurvexExporter.java:85-92 | different roles are written as different words |
| SurvexExporter.RoleDescriptionIsWord | app/src/main/java/org/hwyl/sexytopo/control/io/thirdparty/survex/SurvexExporter.java:85-92 | a role's word is one word: not empty, no blanks, no quote mark, no line feed |
| SurvexExporter.RoleWords | app/src/main/java/org/hwyl/sexytopo/control/io/thirdparty/survex/SurvexExporter.java:77-79 | one word per role, in order |
| SurvexExporter.RoleTextJoined | app/src/main/java/org/hwyl/sexytopo/control/io/thirdparty/survex/SurvexExporter.java:77-79 | the inner loop's text is a space and then the roles' words joined by spaces |
| SurvexExporter.Listed | app/src/main/java/org/hwyl/sexytopo/control/io/thirdparty/survex/SurvexExporter.java:72-75 | exactly the members that hold at least one role, in team order |
| SurvexExporter.FormatTeamLines | app/src/main/java/org/hwyl/sexytopo/control/io/thirdparty/survex/SurvexExporter.java:70-83 | formatTeamLines builds the team text: one line per member holding a role |
| SurvexExporter.FormatTeamLine | app/src/main/java/org/hwyl/sexytopo/control/io/thirdparty/survex/SurvexExporter.java:76-80 | one turn of the loop writes *team, the quoted name and the role words, then a line feed |
| SurvexExporter.WrittenLines | app/src/main/java/org/hwyl/sexytopo/control/io/thirdparty/survex/SurvexExporter.java:70-83 | each line is the marker and then the member's team command |
| SurvexExporter.TeamLinesAreListed | app/src/main/java/org/hwyl/sexytopo/control/io/thirdparty/survex/SurvexExporter.java:70-83 | the team text is one line for each member that holds a role, in team order, each the marker and the member's team command |
| SurvexExporter.WrittenLinesAppend | app/src/main/java/org/hwyl/sexytopo/control/io/thirdparty/survex/SurvexExporter.java:70-83 | one more member adds its line at the end |
| SurvexExporter.CommandOneLine | app/src/main/java/org/hwyl/sexytopo/control/io/thirdparty/survex/SurvexExporter.java:76-80 | a member's line is one line when its name is |
| SurvexExporter.TeamLinesSplit | app/src/main/java/org/hwyl/sexytopo/control/io/thirdparty/survex/SurvexExporter.java:70-83 | cut at its line feeds, the team text gives each listed member's line, then the empty rest |
| SurvexExporter.RoleWordsAdded | app/src/main/java/org/hwyl/sexytopo/control/io/thirdparty/survex/SurvexExporter.java:77-79 | reading the role words written for a new member gives it those roles, in order, when none repeats |
| SurvexExporter.WithRoleNew | app/src/main/java/org/hwyl/sexytopo/control/io/thirdparty/survex/SurvexExporter.java:77-79 | a role the member does not hold yet is added at the end of its roles |
| SurvexExporter.RoleWordsJoined | app/src/main/java/org/hwyl/sexytopo/control/io/thirdparty/survex/SurvexExporter.java:77-79 | the role words joined by spaces are trimmed and split at white space into the words again |
| SurvexExporter.QuotedNameFound | app/src/main/java/org/hwyl/sexytopo/control/io/thirdparty/survex/SurvexExporter.java:76 | the quoted name is cut out at the closing quote when it holds no quote mark |
| SurvexExporter.TeamCommandParts | app/src/main/java/org/hwyl/sexytopo/control/io/thirdparty/survex/SurvexExporter.java:76-79 | parseTeamLine finds in a member's command exactly its name and its role words |
| SurvexExporter.TeamCommandRead | app/src/main/java/org/hwyl/sexytopo/control/io/thirdparty/survex/SurvexExporter.java:76-79 | parseTeamLine on a member's command puts the member at the end of the map with the roles it was written with, in order |
| SurvexExporter.Commands | app/src/main/java/org/hwyl/sexytopo/control/io/thirdparty/survex/SurvexExporter.java:70-83 | the team commands of the members, in order |
| SurvexExporter.FreshAfterFirst | app/src/main/java/org/hwyl/sexytopo/control/io/thirdparty/survex/SurvexExporter.java:70-83 | past the first member, the others' names are fresh in the map that now holds the first |
| SurvexExporter.TeamCommandsRead | app/src/main/java/org/hwyl/sexytopo/control/io/thirdparty/survex/SurvexExporter.java:70-83 | read one after the other, the team commands put the members at the end of the map, in order |
| SurvexExporter.TeamCommandsFirst | app/src/main/java/org/hwyl/sexytopo/control/io/thirdparty/survex/SurvexExporter.java:70-83 | reading the first command adds the first member and leaves the rest to read |
| SurvexExporter.ListedWellFormed | app/src/main/java/org/hwyl/sexytopo/control/io/thirdparty/survex/SurvexExporter.java:72-75 | the members listed from a well-formed team have distinct names and no repeated roles |
| SurvexExporter.MemberIndexEmpty | app/src/main/java/org/hwyl/sexytopo/control/io/thirdparty/survex/SurvexExporter.java:70-83 | the empty map holds no member |
| SurvexExporter.TeamLinesRoundTrip | app/src/main/java/org/hwyl/sexytopo/control/io/thirdparty/survex/SurvexExporter.java:70-83 | the team lines of a well-formed team, read back by the importer into an empty map, give exactly the members that hold a role, in team order |
| SurvexExporter.GetContent | app/src/main/java/org/hwyl/sexytopo/control/io/thirdparty/survex/SurvexExporter.java:16-49 | getContent frames, between *begin name and *end name, the creation comment, an empty line, the metadata, the station comments, the centreline and the extend commands |
| SurvexExporter.FramedLines | app/src/main/java/org/hwyl/sexytopo/control/io/thirdparty/survex/SurvexExporter.java:16-49 | the file opens the survey's block on its first line and closes it, with the same name, on its last |
| SurvexExporter.SplitAllEnd | app/src/main/java/org/hwyl/sexytopo/control/io/thirdparty/survex/SurvexExporter.java:46 | after whole lines, the last two pieces are the closing line and the empty rest |
| SurvexTherionTeam.QuotedValueAsWritten | app/src/main/java/org/hwyl/sexytopo/control/io/thirdparty/survextherion/SurvexTherionImporter.java:358-364 | extractQuotedValue as written fails (substring(1, 0) throws) exactly when the trimmed rest is one lone quote mark |
| SurvexTherionTeam.LoneQuoteThrows | app/src/main/java/org/hwyl/sexytopo/control/io/thirdparty/survextherion/SurvexTherionImporter.java:358-364 | the line `explo-team "` makes extractQuotedValue throw |
| SurvexTherionTeam.QuotedValue | app/src/main/java/org/hwyl/sexytopo/control/io/thirdparty/survextherion/SurvexTherionImporter.java:358-364 | extractQuotedValue as intended agrees with the code wherever the code returns, and is no longer than the text after the prefix |
| SurvexTherionTeam.QuotedValueOfQuoted | app/src/main/java/org/hwyl/sexytopo/control/io/thirdparty/survextherion/SurvexTherionImporter.java:358-364 | a value written in quotes after the prefix, with any blanks between, reads back as it was written |
| SurvexTherionTeam.QuotedValueOfLoneQuote | app/src/main/java/org/hwyl/sexytopo/control/io/thirdparty/survextherion/SurvexTherionImporter.java:358-364 | a lone quote mark throws as written and reads as the empty value as intended |
| SurvexTherionTeam.ParseRole | app/src/main/java/org/hwyl/sexytopo/control/io/thirdparty/survextherion/SurvexTherionImporter.java:341-355 | parseRole names BOOK, INSTRUMENTS, EXPLORATION or DOG exactly for notes, instruments, explorer, or dog and assistant, ignoring case, and nothing for any other word |
| SurvexTherionTeam.LowerIsIgnoringCase | app/src/main/java/org/hwyl/sexytopo/control/io/thirdparty/survextherion/SurvexTherionImporter.java:342 | comparing the lower-cased word with a lower-case label is comparing without regard to case |
| SurvexTherionTeam.MemberIndex | app/src/main/java/org/hwyl/sexytopo/control/io/thirdparty/survextherion/SurvexTherionImporter.java:324 | the member called name stands at the first position holding the name, and is missing exactly when no position holds it |
| SurvexTherionTeam.SameMembersSameIndex | app/src/main/java/org/hwyl/sexytopo/control/io/thirdparty/survextherion/SurvexTherionImporter.java:324 | maps with the same members in the same order find every name at the same place |
| SurvexTherionTeam.WithMember | app/src/main/java/org/hwyl/sexytopo/control/io/thirdparty/survextherion/SurvexTherionImporter.java:324-328 | teamMap.get with a new empty list put in at the end for a missing name, and the map unchanged otherwise |
| SurvexTherionTeam.MemberIndexOfAppended | app/src/main/java/org/hwyl/sexytopo/control/io/thirdparty/survextherion/SurvexTherionImporter.java:325-328 | a member appended at the end is found there and hides no earlier member |
| SurvexTherionTeam.WithRole | app/src/main/java/org/hwyl/sexytopo/control/io/thirdparty/survextherion/SurvexTherionImporter.java:333-335 | roles.add unless contains: the member holds the role afterwards, gaining it at the end only when it was new, and the members stay the same |
| SurvexTherionTeam.WithRoleWords | app/src/main/java/org/hwyl/sexytopo/control/io/thirdparty/survextherion/SurvexTherionImporter.java:330-337 | adding the roles named by the words keeps the members and holds the member |
| SurvexTherionTeam.WithRoleWordsKeeps | app/src/main/java/org/hwyl/sexytopo/control/io/thirdparty/survextherion/SurvexTherionImporter.java:330-337 | adding role words keeps the roles the member had, in front |
| SurvexTherionTeam.WithRoleWordsSources | app/src/main/java/org/hwyl/sexytopo/control/io/thirdparty/survextherion/SurvexTherionImporter.java:330-337 | every role held afterwards was held before or is named by one of the words |
| SurvexTherionTeam.WithRoleWordsHolds | app/src/main/java/org/hwyl/sexytopo/control/io/thirdparty/survextherion/SurvexTherionImporter.java:330-337 | every role a word names is held by the member afterwards |
| SurvexTherionTeam.WithRoleWordsLast | app/src/main/java/org/hwyl/sexytopo/control/io/thirdparty/survextherion/SurvexTherionImporter.java:331-336 | the last word keeps the roles held before it and adds the role it names |
| SurvexTherionTeam.WithRoleWordsUnfold | app/src/main/java/org/hwyl/sexytopo/control/io/thirdparty/survextherion/SurvexTherionImporter.java:331-336 | the last word's role, if any, is added after the others' |
| SurvexTherionTeam.AddParsedKeeps | app/src/main/java/org/hwyl/sexytopo/control/io/thirdparty/survextherion/SurvexTherionImporter.java:332-335 | adding a parsed role, if any, keeps the roles held and holds the new one |
| SurvexTherionTeam.WithRoleWordsOthers | app/src/main/java/org/hwyl/sexytopo/control/io/thirdparty/survextherion/SurvexTherionImporter.java:330-337 | adding role words to one member changes no other member and keeps the map well formed |
| SurvexTherionTeam.TeamLineMerges | app/src/main/java/org/hwyl/sexytopo/control/io/thirdparty/survextherion/SurvexTherionImporter.java:308-338 | a team line with a quoted name keeps the map well formed and the member's earlier roles in front, adds every role its words name, and touches no other member |
| SurvexTherionTeam.TeamLineWithoutName | app/src/main/java/org/hwyl/sexytopo/control/io/thirdparty/survextherion/SurvexTherionImporter.java:314-322 | a line that quotes no name, or an empty one, leaves the map as it was |
| SurvexTherionTeam.TeamMap.constructor | app/src/main/java/org/hwyl/sexytopo/control/io/thirdparty/survextherion/SurvexTherionImporter.java:188 | a new LinkedHashMap holds no member |
| SurvexTherionTeam.TeamMap.GetOrCreate | app/src/main/java/org/hwyl/sexytopo/control/io/thirdparty/survextherion/SurvexTherionImporter.java:324-328 | teamMap.get(name), with a new empty list put in at the end for a new name |
| SurvexTherionTeam.TeamMap.AddRole | app/src/main/java/org/hwyl/sexytopo/control/io/thirdparty/survextherion/SurvexTherionImporter.java:333-335 | roles.add(role) unless roles.contains(role) |
| SurvexTherionTeam.ParseTeamLine | app/src/main/java/org/hwyl/sexytopo/control/io/thirdparty/survextherion/SurvexTherionImporter.java:308-338 | parseTeamLine leaves the map as TeamLine says |
| SurvexTherionTeam.AddRoleWords | app/src/main/java/org/hwyl/sexytopo/control/io/thirdparty/survextherion/SurvexTherionImporter.java:330-337 | the loop over the role words leaves the map as WithRoleWords says |
| SurvexTherionTeam.WithRoleWordsStep | app/src/main/java/org/hwyl/sexytopo/control/io/thirdparty/survextherion/SurvexTherionImporter.java:331-336 | one more word handled after the earlier ones |
| SurvexTherionImporter.LineComment | app/src/main/java/org/hwyl/sexytopo/control/io/thirdparty/survextherion/SurvexTherionImporter.java:564-577 | extractCommentFromLine returns trimmed text, and "" when the line has neither ';' nor '#' |
| SurvexTherionImporter.LineCommentAfterSemicolon | app/src/main/java/org/hwyl/sexytopo/control/io/thirdparty/survextherion/SurvexTherionImporter.java:568-569 | the comment is what follows the first ';', whatever comes after it |
| SurvexTherionImporter.LineCommentAfterHash | app/src/main/java/org/hwyl/sexytopo/control/io/thirdparty/survextherion/SurvexTherionImporter.java:572-573 | without ';' anywhere, the comment is what follows the first '#' |
| SurvexTherionImporter.LineCommentOf | app/src/main/java/org/hwyl/sexytopo/control/io/thirdparty/survextherion/SurvexTherionImporter.java:564-577 | a comment written after ';' and blank padding reads back as written |
| SurvexTherionImporter.ClosingBrace | app/src/main/java/org/hwyl/sexytopo/control/io/thirdparty/survextherion/SurvexTherionImporter.java:25 | the first '}' at or after a position with no line terminator before it, as the lazy .*? finds it |
| SurvexTherionImporter.InstructionStart | app/src/main/java/org/hwyl/sexytopo/control/io/thirdparty/survextherion/SurvexTherionImporter.java:25 | the first position where ([{].*?[}]) can match, and no earlier one |
| SurvexTherionImporter.InstructionStartAt | app/src/main/java/org/hwyl/sexytopo/control/io/thirdparty/survextherion/SurvexTherionImporter.java:25 | a position that opens an instruction with none before it is the first |
| SurvexTherionImporter.CommentInstruction | app/src/main/java/org/hwyl/sexytopo/control/io/thirdparty/survextherion/SurvexTherionImporter.java:554-561 | extractCommentInstructions returns "" exactly when no '{' is closed on its line, and otherwise a '{', a one-line body without '}', and '}' |
| SurvexTherionImporter.ClosingBraceAt | app/src/main/java/org/hwyl/sexytopo/control/io/thirdparty/survextherion/SurvexTherionImporter.java:25 | a '}' with no '}' or line terminator before it is the closing brace |
| SurvexTherionImporter.CommentInstructionOf | app/src/main/java/org/hwyl/sexytopo/control/io/thirdparty/survextherion/SurvexTherionImporter.java:554-561 | the first brace pair of a comment, after text without '{', is its instruction |
| SurvexTherionImporter.CommentInstructionWithoutBrace | app/src/main/java/org/hwyl/sexytopo/control/io/thirdparty/survextherion/SurvexTherionImporter.java:554-561 | a comment without '{' holds no instruction |
| SurvexTherionImporter.StrippedComment | app/src/main/java/org/hwyl/sexytopo/control/io/thirdparty/survextherion/SurvexTherionImporter.java:427-429 | with no instruction the comment is kept as it is; otherwise the instruction is struck out and the rest trimmed |
| SurvexTherionImporter.StrippedCommentOf | app/src/main/java/org/hwyl/sexytopo/control/io/thirdparty/survextherion/SurvexTherionImporter.java:427-429 | an instruction in front of the remark leaves the remark as the station comment |
| SurvexTherionImporter.WithoutFirst | app/src/main/java/org/hwyl/sexytopo/control/io/thirdparty/survextherion/SurvexTherionImporter.java:601-603 | replaceFirst of a brace takes out one character when it is there, and changes nothing otherwise |
| SurvexTherionImporter.WithoutFirstOf | app/src/main/java/org/hwyl/sexytopo/control/io/thirdparty/survextherion/SurvexTherionImporter.java:601-603 | replaceFirst takes out exactly the first occurrence |
| SurvexTherionImporter.SplitOnce | app/src/main/java/org/hwyl/sexytopo/control/io/thirdparty/survextherion/SurvexTherionImporter.java:606 | split(":", 2) gives the whole text without ':' and two pieces with one |
| SurvexTherionImporter.SplitOnceOf | app/src/main/java/org/hwyl/sexytopo/control/io/thirdparty/survextherion/SurvexTherionImporter.java:606 | the pieces are the text before the first ':' and the text after it |
| SurvexTherionImporter.ParseShot | app/src/main/java/org/hwyl/sexytopo/control/io/thirdparty/survextherion/SurvexTherionImporter.java:636-646 | parseLeg reads a plain splay, without destination or provenance |
| SurvexTherionImporter.PrependedNothing | app/src/main/java/org/hwyl/sexytopo/control/io/thirdparty/survextherion/SurvexTherionImporter.java:625-633 | no legs read before the rest change nothing |
| SurvexTherionImporter.PrependedTwice | app/src/main/java/org/hwyl/sexytopo/control/io/thirdparty/survextherion/SurvexTherionImporter.java:625-633 | legs read in two steps are read in one |
| SurvexTherionImporter.ParseShotReads | app/src/main/java/org/hwyl/sexytopo/control/io/thirdparty/survextherion/SurvexTherionImporter.java:636-646 | a shot reads exactly when it has three fields, each a number, and the splay carries those numbers |
| SurvexTherionImporter.ParseShotsEach | app/src/main/java/org/hwyl/sexytopo/control/io/thirdparty/survextherion/SurvexTherionImporter.java:625-633 | the pieces read exactly when each reads, giving one leg per piece, in order |
| SurvexTherionImporter.ParseInstruction | app/src/main/java/org/hwyl/sexytopo/control/io/thirdparty/survextherion/SurvexTherionImporter.java:595-622 | parse reads the empty instruction as no legs |
| SurvexTherionImporter.ParseInstructionIsPlain | app/src/main/java/org/hwyl/sexytopo/control/io/thirdparty/survextherion/SurvexTherionImporter.java:595-622 | whatever an instruction reads is a list of plain shots |
| SurvexTherionImporter.ParseInstructionWithoutColon | app/src/main/java/org/hwyl/sexytopo/control/io/thirdparty/survextherion/SurvexTherionImporter.java:606-609 | an instruction without ':' is refused with "Cannot parse instructions" |
| SurvexTherionImporter.InlinePromoted | app/src/main/java/org/hwyl/sexytopo/control/io/thirdparty/survextherion/SurvexTherionImporter.java:585-592 | parseInlinePromotedLegs gives the instruction's legs, or none when parse throws |
| SurvexTherionImporter.ParseInstructionOf | app/src/main/java/org/hwyl/sexytopo/control/io/thirdparty/survextherion/SurvexTherionImporter.java:595-622 | "{tag:shots}" reads its shots when the tag is from or backsight, and is refused with the tag named otherwise |
| SurvexTherionImporter.InstructionBodyOf | app/src/main/java/org/hwyl/sexytopo/control/io/thirdparty/survextherion/SurvexTherionImporter.java:601-604 | the braces of "{tag:shots}" come off and leave "tag:shots" |
| SurvexTherionImporter.InstructionNoClose | app/src/main/java/org/hwyl/sexytopo/control/io/thirdparty/survextherion/SurvexTherionImporter.java:601-604 | the body of a well-formed instruction holds no '}' |
| SurvexTherionImporter.ParseShotsAt | app/src/main/java/org/hwyl/sexytopo/control/io/thirdparty/survextherion/SurvexTherionImporter.java:628-631 | one piece read, then the rest |
| SurvexTherionImporter.ParseFromText | app/src/main/java/org/hwyl/sexytopo/control/io/thirdparty/survextherion/SurvexTherionImporter.java:625-633 | the loop of parseFrom, returning at the first piece that throws, gives ParseFrom's result |
| SurvexTherionImporter.RepeatLine | app/src/main/java/org/hwyl/sexytopo/control/io/thirdparty/survextherion/SurvexTherionImporter.java:519-548 | a repeat line yields a plain splay |
| SurvexTherionImporter.RepeatLineReads | app/src/main/java/org/hwyl/sexytopo/control/io/thirdparty/survextherion/SurvexTherionImporter.java:519-548 | only comment lines of at least five fields naming the leg's stations continue the repeats; a shot is one whose readings are numbers, and it is a plain splay of them |
| SurvexTherionImporter.ContinuedAfter | app/src/main/java/org/hwyl/sexytopo/control/io/thirdparty/survextherion/SurvexTherionImporter.java:519-548 | the shots gathered so far followed by the repeats from one line on |
| SurvexTherionImporter.CommentedRepeats | app/src/main/java/org/hwyl/sexytopo/control/io/thirdparty/survextherion/SurvexTherionImporter.java:513-551 | there are at most as many repeats as lines |
| SurvexTherionImporter.CommentedRepeatsStop | app/src/main/java/org/hwyl/sexytopo/control/io/thirdparty/survextherion/SurvexTherionImporter.java:523-525 | repeats end at the first line that is not one: nothing after it is read |
| SurvexTherionImporter.CommentedRepeatsArePlain | app/src/main/java/org/hwyl/sexytopo/control/io/thirdparty/survextherion/SurvexTherionImporter.java:540 | the repeats are plain shots, without destination or provenance |
| SurvexTherionImporter.CommentedRepeatsAt | app/src/main/java/org/hwyl/sexytopo/control/io/thirdparty/survextherion/SurvexTherionImporter.java:519-548 | the repeats from line i are the line's own outcome followed by the rest |
| SurvexTherionImporter.ParseCommentedRepeats | app/src/main/java/org/hwyl/sexytopo/control/io/thirdparty/survextherion/SurvexTherionImporter.java:513-551 | parseCommentedNewLinePromotedLegs returns the repeats of the lines after startIndex |
| SurvexTherionImporter.IsBackwardLeg | app/src/main/java/org/hwyl/sexytopo/control/io/thirdparty/survextherion/SurvexTherionImporter.java:483-500 | a leg is backward exactly when its "from" name is new and its "to" name is known |
| SurvexTherionPassages.PassageLine | app/src/main/java/org/hwyl/sexytopo/control/io/thirdparty/survextherion/SurvexTherionImporter.java:103-139 | one line never removes a station's comment |
| SurvexTherionPassages.Scanned | app/src/main/java/org/hwyl/sexytopo/control/io/thirdparty/survextherion/SurvexTherionImporter.java:100-139 | no lines leave the reader outside a block with no comments |
| SurvexTherionPassages.ParsePassageData | app/src/main/java/org/hwyl/sexytopo/control/io/thirdparty/survextherion/SurvexTherionImporter.java:95-142 | parsePassageData, line by line, returns PassageData's map |
| SurvexTherionPassages.OutsideBlockReadsNothing | app/src/main/java/org/hwyl/sexytopo/control/io/thirdparty/survextherion/SurvexTherionImporter.java:110-123 | outside a block only the passage prefix does anything, and it reads no comment |
| SurvexTherionPassages.DataCommandEndsBlock | app/src/main/java/org/hwyl/sexytopo/control/io/thirdparty/survextherion/SurvexTherionImporter.java:115-120 | inside a block, another data command ends the block without reading a comment |
| SurvexTherionPassages.EntryRead | app/src/main/java/org/hwyl/sexytopo/control/io/thirdparty/survextherion/SurvexTherionImporter.java:123-137 | an entry line inside the block maps its name to its comment, replacing an earlier one |
| SurvexTherionPassages.EntrySplit | app/src/main/java/org/hwyl/sexytopo/control/io/thirdparty/survextherion/SurvexTherionImporter.java:132-135 | an entry line is trimmed and splits into its name and its comment |
| SurvexTherionPassages.SkipTab | app/src/main/java/org/hwyl/sexytopo/control/io/thirdparty/survextherion/SurvexTherionImporter.java:132 | the run of white space after the name is the one tab |
| SurvexTherionPassages.EntryLines | app/src/main/java/org/hwyl/sexytopo/control/io/thirdparty/survextherion/SurvexTherionImporter.java:132-136 | one name + tab + comment line per entry, in order |
| SurvexTherionPassages.EntryMap | app/src/main/java/org/hwyl/sexytopo/control/io/thirdparty/survextherion/SurvexTherionImporter.java:136 | every name of the entries is a key of the map |
| SurvexTherionPassages.EntryMapLastWins | app/src/main/java/org/hwyl/sexytopo/control/io/thirdparty/survextherion/SurvexTherionImporter.java:136 | each name holds the comment of its last entry |
| SurvexTherionPassages.BlockRead | app/src/main/java/org/hwyl/sexytopo/control/io/thirdparty/survextherion/SurvexTherionImporter.java:95-142 | a passage line followed by entry lines, read from outside a block, yields exactly the entries, the last comment of a name winning |
| SurvexTherionPassages.MergedComment | app/src/main/java/org/hwyl/sexytopo/control/io/thirdparty/survextherion/SurvexTherionImporter.java:163-173 | the passage comment alone when the station has no or a blank comment, else passage :: existing |
| SurvexTherionPassages.MergedCommentKeepsBoth | app/src/main/java/org/hwyl/sexytopo/control/io/thirdparty/survextherion/SurvexTherionImporter.java:169-172 | the passage comment can be read back from the front of the merged comment and the leg-line comment from its end |
| SurvexTherionPassages.MergedComments | app/src/main/java/org/hwyl/sexytopo/control/io/thirdparty/survextherion/SurvexTherionImporter.java:155-179 | exactly the stations found by a name of the map have their comments merged; every other station keeps its comment |
| SurvexTherionPassages.MergedAtStation | app/src/main/java/org/hwyl/sexytopo/control/io/thirdparty/survextherion/SurvexTherionImporter.java:160-173 | a name whose station exists has its passage comment at the front of that station's comment |
| SurvexTherionPassages.PartlyMerged | app/src/main/java/org/hwyl/sexytopo/control/io/thirdparty/survextherion/SurvexTherionImporter.java:156-178 | merging some of the names keeps the same stations |
| SurvexTherionPassages.PartlyMergedUnfound | app/src/main/java/org/hwyl/sexytopo/control/io/thirdparty/survextherion/SurvexTherionImporter.java:161-162 | merging a name that finds no station changes nothing |
| SurvexTherionPassages.PartlyMergedFound | app/src/main/java/org/hwyl/sexytopo/control/io/thirdparty/survextherion/SurvexTherionImporter.java:161-173 | merging a name that finds a station changes that station's comment, not merged before, and no other |
| SurvexTherionPassages.FoundStationExists | app/src/main/java/org/hwyl/sexytopo/control/io/thirdparty/survextherion/SurvexTherionImporter.java:161 | the station a name finds is one of the survey's |
| SurvexTherionPassages.MergePassageComments | app/src/main/java/org/hwyl/sexytopo/control/io/thirdparty/survextherion/SurvexTherionImporter.java:155-179 | mergePassageComments, taking the entries in any order, leaves the comments MergedComments says |
| SurvexTherionPassages.PartlyMergedAtStart | app/src/main/java/org/hwyl/sexytopo/control/io/thirdparty/survextherion/SurvexTherionImporter.java:155 | before the loop nothing is merged |
| SurvexTherionPassages.PartlyMergedAtEnd | app/src/main/java/org/hwyl/sexytopo/control/io/thirdparty/survextherion/SurvexTherionImporter.java:178 | after the loop everything is merged |
| SurvexTherionCentreline.ReadLine | app/src/main/java/org/hwyl/sexytopo/control/io/thirdparty/survextherion/SurvexTherionImporter.java:47-73 | a line is passed over exactly when it is blank, a command or a comment; a leg line carries the line's comment |
| SurvexTherionCentreline.ReadLineBroken | app/src/main/java/org/hwyl/sexytopo/control/io/thirdparty/survextherion/SurvexTherionImporter.java:69-79 | a data line is refused exactly when it has fewer than five fields or one of the readings is not a number |
| SurvexTherionCentreline.Register | app/src/main/java/org/hwyl/sexytopo/control/io/thirdparty/survextherion/SurvexTherionImporter.java:401-413 | a known name gives its station and changes nothing; a new name gets a fresh station of that name, put in the map |
| SurvexTherionCentreline.RegisterWf | app/src/main/java/org/hwyl/sexytopo/control/io/thirdparty/survextherion/SurvexTherionImporter.java:401-413 | after a lookup every station in the map, the named one included, is in the survey |
| SurvexTherionCentreline.Ends | app/src/main/java/org/hwyl/sexytopo/control/io/thirdparty/survextherion/SurvexTherionImporter.java:401-414 | the "from" station is in the map under its name; a splay's "to" is the null station and registers nothing more |
| SurvexTherionCentreline.Rooted | app/src/main/java/org/hwyl/sexytopo/control/io/thirdparty/survextherion/SurvexTherionImporter.java:416-420 | the first non-splay leg sets the origin, to the "to" station when the leg is backward and "from" otherwise; nothing else changes |
| SurvexTherionCentreline.Provenance | app/src/main/java/org/hwyl/sexytopo/control/io/thirdparty/survextherion/SurvexTherionImporter.java:422-434 | the inline instruction's legs when there are any, else the commented repeats |
| SurvexTherionCentreline.NewLeg | app/src/main/java/org/hwyl/sexytopo/control/io/thirdparty/survextherion/SurvexTherionImporter.java:436-463 | a backward leg hangs from "to", points at "from" and is marked shot backwards; a forward leg hangs from "from"; the readings are kept |
| SurvexTherionCentreline.Commented | app/src/main/java/org/hwyl/sexytopo/control/io/thirdparty/survextherion/SurvexTherionImporter.java:451-468 | a non-empty comment is set on the target station and nothing else changes |
| SurvexTherionCentreline.Activated | app/src/main/java/org/hwyl/sexytopo/control/io/thirdparty/survextherion/SurvexTherionImporter.java:473 | setActiveStation changes the active station and nothing else |
| SurvexTherionCentreline.AddLeg | app/src/main/java/org/hwyl/sexytopo/control/io/thirdparty/survextherion/SurvexTherionImporter.java:386-474 | addLegToSurvey keeps every station in the map inside the survey |
| SurvexTherionCentreline.Step | app/src/main/java/org/hwyl/sexytopo/control/io/thirdparty/survextherion/SurvexTherionImporter.java:47-79 | a line that is read keeps every station in the map inside the survey |
| SurvexTherionCentreline.Run | app/src/main/java/org/hwyl/sexytopo/control/io/thirdparty/survextherion/SurvexTherionImporter.java:46-80 | what the lines leave behind keeps every station in the map inside the survey |
| SurvexTherionCentreline.AddLegBackward | app/src/main/java/org/hwyl/sexytopo/control/io/thirdparty/survextherion/SurvexTherionImporter.java:439-454 | a leg from a new station to a known one hangs from the known station, points at the new one, is marked backwards, and the new station takes the comment |
| SurvexTherionCentreline.AddLegForward | app/src/main/java/org/hwyl/sexytopo/control/io/thirdparty/survextherion/SurvexTherionImporter.java:455-473 | a leg from a known station to a new one hangs from the known station, points at the new one, which takes the comment, and the known station becomes active |
| SurvexTherionCentreline.AddLegSplay | app/src/main/java/org/hwyl/sexytopo/control/io/thirdparty/survextherion/SurvexTherionImporter.java:459-473 | a splay from a known station is a plain leg of that station, which becomes active; no comment is set and the origin stays |
| SurvexTherionCentreline.FirstLegRoots | app/src/main/java/org/hwyl/sexytopo/control/io/thirdparty/survextherion/SurvexTherionImporter.java:416-420 | the first leg of all, between two new stations, roots the survey at its "from" station |
| SurvexTherionCentreline.BackwardLegRoots | app/src/main/java/org/hwyl/sexytopo/control/io/thirdparty/survextherion/SurvexTherionImporter.java:417-420 | a backward leg met while the survey is not rooted roots it at its known "to" station |
| SurvexTherionCentreline.RootedOriginStays | app/src/main/java/org/hwyl/sexytopo/control/io/thirdparty/survextherion/SurvexTherionImporter.java:418 | once the origin is a station met, it never moves again |
| SurvexTherionCentreline.AddLegKeepsValid | app/src/main/java/org/hwyl/sexytopo/control/io/thirdparty/survextherion/SurvexTherionImporter.java:386-474 | every leg added keeps the survey well formed |
| SurvexTherionCentreline.StepKeepsValid | app/src/main/java/org/hwyl/sexytopo/control/io/thirdparty/survextherion/SurvexTherionImporter.java:47-79 | every line read keeps the survey well formed |
| SurvexTherionCentreline.RunKeepsValid | app/src/main/java/org/hwyl/sexytopo/control/io/thirdparty/survextherion/SurvexTherionImporter.java:41-81 | importing a centreline, in full or up to a refused line, leaves a well-formed survey |
| SurvexTherionCentreline.RunFailsAtFirstBroken | app/src/main/java/org/hwyl/sexytopo/control/io/thirdparty/survextherion/SurvexTherionImporter.java:77-79 | the import fails at the first refused line, with "Error importing this line: " and that line |
| SurvexTherionCentreline.RunCompletes | app/src/main/java/org/hwyl/sexytopo/control/io/thirdparty/survextherion/SurvexTherionImporter.java:46-80 | without a refused line the import runs to the end without an error |
| SurvexTherionCentreline.SkippedLineChangesNothing | app/src/main/java/org/hwyl/sexytopo/control/io/thirdparty/survextherion/SurvexTherionImporter.java:49-63 | blank, command and comment lines change nothing |
| SurvexTherionCentreline.RegisterStation | app/src/main/java/org/hwyl/sexytopo/control/io/thirdparty/survextherion/SurvexTherionImporter.java:401-413 | the lookup or creation on the survey object is Register |
| SurvexTherionCentreline.RegisterEnds | app/src/main/java/org/hwyl/sexytopo/control/io/thirdparty/survextherion/SurvexTherionImporter.java:401-414 | the lookups of both ends on the survey object are Ends |
| SurvexTherionCentreline.PlaceLeg | app/src/main/java/org/hwyl/sexytopo/control/io/thirdparty/survextherion/SurvexTherionImporter.java:436-469 | the leg built and the comment set on the survey object are NewLeg and Commented |
| SurvexTherionCentreline.RootSurvey | app/src/main/java/org/hwyl/sexytopo/control/io/thirdparty/survextherion/SurvexTherionImporter.java:418-420 | setOrigin on the survey object is Rooted |
| SurvexTherionCentreline.AddLegToSurvey | app/src/main/java/org/hwyl/sexytopo/control/io/thirdparty/survextherion/SurvexTherionImporter.java:386-474 | addLegToSurvey on the survey object and the name map is AddLeg |
| SurvexTherionCentreline.ParseCentreline | app/src/main/java/org/hwyl/sexytopo/control/io/thirdparty/survextherion/SurvexTherionImporter.java:41-81 | parseCentreline on the survey object is Import: the lines in order, the first refused line ending it with its error, the legs before it kept |
| SurvexTherionEntries.Readings | app/src/main/java/org/hwyl/sexytopo/control/io/thirdparty/survextherion/SurvexTherionUtil.java:194-196 | the three readings, distance, azimuth and inclination, each formatted by its column |
| SurvexTherionEntries.ToName | app/src/main/java/org/hwyl/sexytopo/control/io/thirdparty/survextherion/SurvexTherionUtil.java:184-190 | "-" is written as the format's splay name; any other destination as it is |
| SurvexTherionEntries.Fields | app/src/main/java/org/hwyl/sexytopo/control/io/thirdparty/survextherion/SurvexTherionUtil.java:192-196 | five fields: the two station names and the three readings |
| SurvexTherionEntries.PrecursorLines | app/src/main/java/org/hwyl/sexytopo/control/io/thirdparty/survextherion/SurvexTherionUtil.java:199-211 | one line per raw shot of a promoted leg, in order |
| SurvexTherionEntries.FormatEntry | app/src/main/java/org/hwyl/sexytopo/control/io/thirdparty/survextherion/SurvexTherionUtil.java:175-212 | formatEntry appends exactly FormattedEntry to the builder |
| SurvexTherionEntries.AppendPrecursors | app/src/main/java/org/hwyl/sexytopo/control/io/thirdparty/survextherion/SurvexTherionUtil.java:199-211 | the loop over the raw shots appends a line feed and the shot's line for each, in order |
| SurvexTherionEntries.MainFields | app/src/main/java/org/hwyl/sexytopo/control/io/thirdparty/survextherion/SurvexTherionUtil.java:192-196 | each of the five fields is followed by a tab |
| SurvexTherionEntries.PrecursorFields | app/src/main/java/org/hwyl/sexytopo/control/io/thirdparty/survextherion/SurvexTherionUtil.java:204-209 | the comment character, then the stations and the raw shot's readings joined by tabs |
| SurvexTherionEntries.GetCentrelineData | app/src/main/java/org/hwyl/sexytopo/control/io/thirdparty/survextherion/SurvexTherionUtil.java:134-157 | getCentrelineData is the data command, each entry followed by a line feed, and a blank line |
| SurvexTherionEntries.Reread | app/src/main/java/org/hwyl/sexytopo/control/io/thirdparty/survextherion/SurvexTherionImporter.java:636-646 | the shot read back from a leg's written readings is a plain splay of the parsed numbers |
| SurvexTherionEntries.Rereads | app/src/main/java/org/hwyl/sexytopo/control/io/thirdparty/survextherion/SurvexTherionImporter.java:625-633 | one shot read back per leg, in order |
| SurvexTherionEntries.MainLineShape | app/src/main/java/org/hwyl/sexytopo/control/io/thirdparty/survextherion/SurvexTherionUtil.java:192-196 | the first line of an entry, cut at white space, gives back its five fields, and holds no comment character |
| SurvexTherionEntries.MainLineRead | app/src/main/java/org/hwyl/sexytopo/control/io/thirdparty/survextherion/SurvexTherionImporter.java:47-75 | the first line of an entry reads back as a data line of the same stations and readings, without comment |
| SurvexTherionEntries.MainLineStops | app/src/main/java/org/hwyl/sexytopo/control/io/thirdparty/survextherion/SurvexTherionImporter.java:523-525 | the first line of an entry is never taken for a repeat of the leg before it |
| SurvexTherionEntries.PrecursorLineRead | app/src/main/java/org/hwyl/sexytopo/control/io/thirdparty/survextherion/SurvexTherionImporter.java:519-548 | a raw shot's line reads back as a repeat of its entry's leg carrying the shot's readings |
| SurvexTherionEntries.CommentLineFields | app/src/main/java/org/hwyl/sexytopo/control/io/thirdparty/survextherion/SurvexTherionImporter.java:519-522 | a comment character followed by words joined by tabs reads back as those words |
| SurvexTherionEntries.RepeatsRead | app/src/main/java/org/hwyl/sexytopo/control/io/thirdparty/survextherion/SurvexTherionImporter.java:513-551 | lines that each read as a repeat, followed by a line ending the repeats, give back the shots in order |
| SurvexTherionEntries.PrecursorLinesCons | app/src/main/java/org/hwyl/sexytopo/control/io/thirdparty/survextherion/SurvexTherionUtil.java:202-210 | the lines of the raw shots are the first one's line followed by the rest |
| SurvexTherionEntries.PrecursorsRead | app/src/main/java/org/hwyl/sexytopo/control/io/thirdparty/survextherion/SurvexTherionUtil.java:199-211 | the lines under an entry's first line give back its raw shots, in order, read as numbers |
| SurvexTherionEntries.PrecursorTextLines | app/src/main/java/org/hwyl/sexytopo/control/io/thirdparty/survextherion/SurvexTherionUtil.java:202-210 | the text appended for the raw shots, after the first line, is those lines joined by line feeds |
| SurvexTherionEntries.FormattedEntryLines | app/src/main/java/org/hwyl/sexytopo/control/io/thirdparty/survextherion/SurvexTherionUtil.java:148-151 | an entry and the line feed after it are its lines, each ended by a line feed |
| SurvexTherionEntries.EntriesTextLines | app/src/main/java/org/hwyl/sexytopo/control/io/thirdparty/survextherion/SurvexTherionUtil.java:148-151 | the entries, each with its line feed, are the lines of all of them |
| SurvexTherionEntries.AllWrittenLinesConcat | app/src/main/java/org/hwyl/sexytopo/control/io/thirdparty/survextherion/SurvexTherionUtil.java:148-151 | the lines of two runs of entries are the lines of the first followed by those of the second |
| SurvexTherionEntries.AllWrittenLinesLast | app/src/main/java/org/hwyl/sexytopo/control/io/thirdparty/survextherion/SurvexTherionUtil.java:148-151 | the lines of the entries are those of all but the last, then the last one's |
| SurvexTherionEntries.WrittenLinesClean | app/src/main/java/org/hwyl/sexytopo/control/io/thirdparty/survextherion/SurvexTherionUtil.java:175-212 | every line of a well-written entry is non-empty and holds no line feed |
| SurvexTherionEntries.AllWrittenLinesClean | app/src/main/java/org/hwyl/sexytopo/control/io/thirdparty/survextherion/SurvexTherionUtil.java:148-151 | every line of well-written entries is non-empty and holds no line feed |
| SurvexTherionEntries.HeaderLineClean | app/src/main/java/org/hwyl/sexytopo/control/io/thirdparty/survextherion/SurvexTherionUtil.java:141 | the data command is one non-empty line |
| SurvexTherionEntries.CentrelineDataSplit | app/src/main/java/org/hwyl/sexytopo/control/io/thirdparty/survextherion/SurvexTherionImporter.java:45 | String.split("\n") of the block gives the data command, then every entry's lines; the blank line at the end is dropped |
| SurvexTherionEntries.AfterEntryStops | app/src/main/java/org/hwyl/sexytopo/control/io/thirdparty/survextherion/SurvexTherionImporter.java:523-525 | the lines after an entry are none, or the next entry's first line, which ends the repeats |
| SurvexTherionEntries.AllWrittenLinesAround | app/src/main/java/org/hwyl/sexytopo/control/io/thirdparty/survextherion/SurvexTherionUtil.java:148-151 | the lines of all entries are those before the k-th, its own, then those after it |
| SurvexTherionEntries.EntryLinesRead | app/src/main/java/org/hwyl/sexytopo/control/io/thirdparty/survextherion/SurvexTherionImporter.java:47-75 | an entry's lines between other lines read back as its leg and its raw shots |
| SurvexTherionEntries.EntryRead | app/src/main/java/org/hwyl/sexytopo/control/io/thirdparty/survextherion/SurvexTherionImporter.java:47-75 | the k-th entry among the block's lines is a data line of the entry's stations and readings, and the repeats gathered under it are its raw shots, in order |
| SurvexTherionEntries.CentrelineDataRead | app/src/main/java/org/hwyl/sexytopo/control/io/thirdparty/survextherion/SurvexTherionUtil.java:134-157 | reading getCentrelineData back with the importer gives, for the k-th entry, its stations, its readings and its raw shots, in order |
| SurvexTherionUtil.InputLines | app/src/main/java/org/hwyl/sexytopo/control/io/thirdparty/survextherion/SurvexTherionUtil.java:33-35 | one input line per drawing file, in order |
| SurvexTherionUtil.InputText | app/src/main/java/org/hwyl/sexytopo/control/io/thirdparty/survextherion/SurvexTherionUtil.java:28-37 | the text is empty exactly when there is no drawing file |
| SurvexTherionUtil.GetInputText | app/src/main/java/org/hwyl/sexytopo/control/io/thirdparty/survextherion/SurvexTherionUtil.java:28-37 | getInputText is InputText: an input line per file, or nothing |
| SurvexTherionUtil.InputTextReadBack | app/src/main/java/org/hwyl/sexytopo/control/io/thirdparty/survextherion/SurvexTherionUtil.java:28-37 | cut at line feeds, the input text has one line per file, and the quoted value after "input " in each gives the file name back |
| SurvexTherionUtil.InputTextLines | app/src/main/java/org/hwyl/sexytopo/control/io/thirdparty/survextherion/SurvexTherionUtil.java:33-35 | the input text cut at line feeds is the input lines |
| SurvexTherionUtil.InputLineRead | app/src/main/java/org/hwyl/sexytopo/control/io/thirdparty/survextherion/SurvexTherionUtil.java:34 | the quoted value of an input line is its file name |
| SurvexTherionUtil.FormatComment | app/src/main/java/org/hwyl/sexytopo/control/io/thirdparty/survextherion/SurvexTherionUtil.java:219-222 | formatComment leaves no carriage return or line feed in the comment |
| SurvexTherionUtil.FormatCommentWithoutBreaks | app/src/main/java/org/hwyl/sexytopo/control/io/thirdparty/survextherion/SurvexTherionUtil.java:219-222 | a comment without line breaks is written as it is |
| SurvexTherionUtil.FormatCommentIdempotent | app/src/main/java/org/hwyl/sexytopo/control/io/thirdparty/survextherion/SurvexTherionUtil.java:219-222 | formatting twice is formatting once |
| SurvexTherionUtil.FormatCommentRun | app/src/main/java/org/hwyl/sexytopo/control/io/thirdparty/survextherion/SurvexTherionUtil.java:220 | a run of line breaks, whatever its length and mix of CR and LF, becomes exactly one escaped break |
| SurvexTherionUtil.CommentedLines | app/src/main/java/org/hwyl/sexytopo/control/io/thirdparty/survextherion/SurvexTherionUtil.java:169-171 | one line per line of the text, each the comment character and that line |
| SurvexTherionUtil.CommentMultiline | app/src/main/java/org/hwyl/sexytopo/control/io/thirdparty/survextherion/SurvexTherionUtil.java:166-173 | commentMultiline is CommentedText: every line of the text behind the comment character |
| SurvexTherionUtil.CommentedTextReadBack | app/src/main/java/org/hwyl/sexytopo/control/io/thirdparty/survextherion/SurvexTherionUtil.java:166-173 | cut at line feeds again, the commented text has one line per line of the original, each the comment character and that line |
| SurvexTherionUtil.FormatDate | app/src/main/java/org/hwyl/sexytopo/control/io/thirdparty/survextherion/SurvexTherionUtil.java:160-164 | formatDate is five characters of prefix then the formatted date, so substring(5) gives the date alone |
| SurvexTherionUtil.InstrumentLineReadBack | app/src/main/java/org/hwyl/sexytopo/control/io/thirdparty/survextherion/SurvexTherionUtil.java:52-57 | the instrument line is commented out exactly when there is no instrument; the quoted value after the command is the instrument |
| SurvexTherionUtil.InstrumentLineOfInstrument | app/src/main/java/org/hwyl/sexytopo/control/io/thirdparty/survextherion/SurvexTherionUtil.java:53-54 | with an instrument the line is the command with the instrument quoted |
| SurvexTherionUtil.InstrumentLineWithoutInstrument | app/src/main/java/org/hwyl/sexytopo/control/io/thirdparty/survextherion/SurvexTherionUtil.java:55-56 | without an instrument the line is the commented-out command with an empty quote |
| SurvexTherionUtil.QuotedCommand | app/src/main/java/org/hwyl/sexytopo/control/io/thirdparty/survextherion/SurvexTherionUtil.java:54 | a command followed by a quoted value reads back as that value |
| SurvexTherionUtil.ExploDateLineOf | app/src/main/java/org/hwyl/sexytopo/control/io/thirdparty/survextherion/SurvexTherionUtil.java:65-82 | the exploration date line states the survey date when the trip says they are the same, else its exploration date, and is commented out exactly when there is none |
| SurvexTherionUtil.Metadata | app/src/main/java/org/hwyl/sexytopo/control/io/thirdparty/survextherion/SurvexTherionUtil.java:39-96 | the metadata is empty exactly when there is no trip, and with a trip opens with the date line |
| SurvexTherionUtil.GetMetadata | app/src/main/java/org/hwyl/sexytopo/control/io/thirdparty/survextherion/SurvexTherionUtil.java:39-96 | getMetadata is Metadata of the survey's trip |
| SurvexTherionUtil.Collected | app/src/main/java/org/hwyl/sexytopo/control/io/thirdparty/survextherion/SurvexTherionUtil.java:125-132 | every station collected belongs to the survey and has a comment |
| SurvexTherionUtil.WithComments | app/src/main/java/org/hwyl/sexytopo/control/io/thirdparty/survextherion/SurvexTherionUtil.java:126-128 | a station is kept exactly when it is listed and has a comment, in the order listed |
| SurvexTherionUtil.WithCommentsAppend | app/src/main/java/org/hwyl/sexytopo/control/io/thirdparty/survextherion/SurvexTherionUtil.java:126-128 | filtering two lists one after the other is filtering their concatenation |
| SurvexTherionUtil.CollectedIsFiltered | app/src/main/java/org/hwyl/sexytopo/control/io/thirdparty/survextherion/SurvexTherionUtil.java:125-132 | the recursive collection is the pre-order walk from the station with the stations without a comment left out |
| SurvexTherionUtil.CollectedLegsIsFiltered | app/src/main/java/org/hwyl/sexytopo/control/io/thirdparty/survextherion/SurvexTherionUtil.java:129-131 | the collection under a station's legs is the walk under those legs, filtered |
| SurvexTherionUtil.CommentedStations | app/src/main/java/org/hwyl/sexytopo/control/io/thirdparty/survextherion/SurvexTherionUtil.java:105 | the commented stations belong to the survey and have comments |
| SurvexTherionUtil.CommentedStationsExactly | app/src/main/java/org/hwyl/sexytopo/control/io/thirdparty/survextherion/SurvexTherionUtil.java:104-105 | a station is collected exactly when it belongs to the survey and has a comment, in pre-order |
| SurvexTherionUtil.CollectStationsWithComments | app/src/main/java/org/hwyl/sexytopo/control/io/thirdparty/survextherion/SurvexTherionUtil.java:125-132 | collectStationsWithComments appends Collected to the result list |
| SurvexTherionUtil.CommentEntries | app/src/main/java/org/hwyl/sexytopo/control/io/thirdparty/survextherion/SurvexTherionUtil.java:114-118 | each collected station's name and formatted comment, in order |
| SurvexTherionUtil.GetStationCommentsData | app/src/main/java/org/hwyl/sexytopo/control/io/thirdparty/survextherion/SurvexTherionUtil.java:98-123 | getStationCommentsData is StationCommentsData of the survey |
| SurvexTherionUtil.CommentBlock | app/src/main/java/org/hwyl/sexytopo/control/io/thirdparty/survextherion/SurvexTherionUtil.java:112-120 | the passage command, an entry line per station, then a blank line |
| SurvexTherionUtil.CommentBlockStep | app/src/main/java/org/hwyl/sexytopo/control/io/thirdparty/survextherion/SurvexTherionUtil.java:114-118 | one more station adds its entry line to the block |
| SurvexTherionUtil.StationCommentsDataEmpty | app/src/main/java/org/hwyl/sexytopo/control/io/thirdparty/survextherion/SurvexTherionUtil.java:107-109 | the block is empty exactly when no station of the survey has a comment |
| SurvexTherionUtil.StationCommentsReadBack | app/src/main/java/org/hwyl/sexytopo/control/io/thirdparty/survextherion/SurvexTherionUtil.java:98-123 | reading the block back with parsePassageData maps each commented station's name to its formatted comment, a later station of the same name winning |
| SurvexTherionUtil.FormattedEntries | app/src/main/java/org/hwyl/sexytopo/control/io/thirdparty/survextherion/SurvexTherionUtil.java:116 | every entry line of formatted comments lies on one line |
| SurvexTherionUtil.NothingToRead | app/src/main/java/org/hwyl/sexytopo/control/io/thirdparty/survextherion/SurvexTherionImporter.java:95-142 | parsePassageData finds nothing in empty text |
| SurvexTherionUtil.BlockText | app/src/main/java/org/hwyl/sexytopo/control/io/thirdparty/survextherion/SurvexTherionImporter.java:95-142 | a block of the header, entry lines and a blank line reads back as its entries |
| SurvexTherionUtil.BlockSplit | app/src/main/java/org/hwyl/sexytopo/control/io/thirdparty/survextherion/SurvexTherionUtil.java:112-120 | the block's text split at line feeds gives back its lines, the trailing blank one dropped |
| SurvexTherionUtil.EntryLineOneLine | app/src/main/java/org/hwyl/sexytopo/control/io/thirdparty/survextherion/SurvexTherionUtil.java:115-117 | an entry whose comment was formatted holds no line feed |
| SurvexTherionUtil.ExtendLegs | app/src/main/java/org/hwyl/sexytopo/control/io/thirdparty/survextherion/SurvexTherionUtil.java:241-244 | a station without onward legs adds nothing below it |
| SurvexTherionUtil.GenerateExtendCommandsFromStation | app/src/main/java/org/hwyl/sexytopo/control/io/thirdparty/survextherion/SurvexTherionUtil.java:231-245 | generateExtendCommandsFromStation appends ExtendCommands to the builder |
| SurvexTherionUtil.GetExtendedElevationExtensions | app/src/main/java/org/hwyl/sexytopo/control/io/thirdparty/survextherion/SurvexTherionUtil.java:224-229 | getExtendedElevationExtensions is the commands from the origin, starting with no direction |
| SurvexTherionUtil.ExtendedElevationStarts | app/src/main/java/org/hwyl/sexytopo/control/io/thirdparty/survextherion/SurvexTherionUtil.java:235-236 | the commands always open with "start" at the origin |
| SurvexTherionUtil.UniformBelow | app/src/main/java/org/hwyl/sexytopo/control/io/thirdparty/survextherion/SurvexTherionUtil.java:237-244 | below a station, a survey that keeps one direction throughout gives no command |
| SurvexTherionUtil.UniformLegs | app/src/main/java/org/hwyl/sexytopo/control/io/thirdparty/survextherion/SurvexTherionUtil.java:241-244 | legs into a part of the survey that keeps the direction give no command |
| SurvexTherionUtil.UniformDirectionStartsOnly | app/src/main/java/org/hwyl/sexytopo/control/io/thirdparty/survextherion/SurvexTherionUtil.java:224-249 | a survey that keeps one direction throughout gets the start command alone |
| ThExporter.RoleDescriptionRead | app/src/main/java/org/hwyl/sexytopo/control/io/thirdparty/therion/ThExporter.java:106-112 | book, instruments and dog are written notes, instruments and assistant as in Survex, and each word reads back as its role |
| ThExporter.HasExplorerRole | app/src/main/java/org/hwyl/sexytopo/control/io/thirdparty/therion/ThExporter.java:114-121 | hasExplorerRole is true exactly when exploration is among the member's roles |
| ThExporter.OnlyExplorerExactly | app/src/main/java/org/hwyl/sexytopo/control/io/thirdparty/therion/ThExporter.java:123-126 | a member's only role is exploration exactly when its roles are that one role |
| ThExporter.NonExplorer | app/src/main/java/org/hwyl/sexytopo/control/io/thirdparty/therion/ThExporter.java:86-90 | the roles kept are exactly the member's roles other than exploration |
| ThExporter.RoleTextWithoutExplorer | app/src/main/java/org/hwyl/sexytopo/control/io/thirdparty/therion/ThExporter.java:86-90 | the role words written are Survex's for the roles less exploration: exploration is never written on a team line |
| ThExporter.Listed | app/src/main/java/org/hwyl/sexytopo/control/io/thirdparty/therion/ThExporter.java:78-84 | a member is written exactly when it is on the team and has a role other than exploration alone |
| ThExporter.FormatTeamLines | app/src/main/java/org/hwyl/sexytopo/control/io/thirdparty/therion/ThExporter.java:76-94 | formatTeamLines is TeamLinesText: a team line for each member listed, in team order |
| ThExporter.FormatTeamLine | app/src/main/java/org/hwyl/sexytopo/control/io/thirdparty/therion/ThExporter.java:85-91 | one member's team line and its line feed |
| ThExporter.TeamCommandIsSurvex | app/src/main/java/org/hwyl/sexytopo/control/io/thirdparty/therion/ThExporter.java:85-90 | a member's team line is the Survex team command of the member less its exploration role |
| ThExporter.OnTeamLinesHasOther | app/src/main/java/org/hwyl/sexytopo/control/io/thirdparty/therion/ThExporter.java:79-84 | a member written on the team lines holds some role other than exploration |
| ThExporter.NonExplorerNoRepeats | app/src/main/java/org/hwyl/sexytopo/control/io/thirdparty/therion/ThExporter.java:86-90 | the roles written repeat no role when the member's roles did not |
| ThExporter.TeamCommandRead | app/src/main/java/org/hwyl/sexytopo/control/io/thirdparty/therion/ThExporter.java:85-91 | parseTeamLine on a member's team line adds the member with its roles but exploration, in order, and never the exploration role |
| ThExporter.ExploListed | app/src/main/java/org/hwyl/sexytopo/control/io/thirdparty/therion/ThExporter.java:98-102 | a member is written exactly when it is on the team and holds a role and exploration |
| ThExporter.FormatExploTeamLines | app/src/main/java/org/hwyl/sexytopo/control/io/thirdparty/therion/ThExporter.java:96-104 | formatExploTeamLines is ExploTeamLinesText: an explo-team line per member holding exploration, in team order |
| ThExporter.ExploCommandRead | app/src/main/java/org/hwyl/sexytopo/control/io/thirdparty/therion/ThExporter.java:100 | Therion's reader, given a member's explo-team line, gives the member the exploration role |
| ThExporter.EveryMemberWritten | app/src/main/java/org/hwyl/sexytopo/control/io/thirdparty/therion/ThExporter.java:76-104 | every member with a role is written on the team lines or the explo-team lines, and on both exactly when it holds exploration and another role |
| ThExporter.ExploListedExactly | app/src/main/java/org/hwyl/sexytopo/control/io/thirdparty/therion/ThExporter.java:99 | a member is on the explo-team lines exactly when it holds the exploration role |
| ThconfigExporter.ReplaceSurveyname | app/src/main/java/org/hwyl/sexytopo/control/io/thirdparty/therion/ThconfigExporter.java:72-74 | text without '<' comes back unchanged |
| ThconfigExporter.MatchStartsWithOpen | app/src/main/java/org/hwyl/sexytopo/control/io/thirdparty/therion/ThconfigExporter.java:73 | a match of the placeholder in any letter case starts with '<' |
| ThconfigExporter.ReplaceCopiesFirst | app/src/main/java/org/hwyl/sexytopo/control/io/thirdparty/therion/ThconfigExporter.java:73 | a character other than '<' starts no match and is copied |
| ThconfigExporter.ReplaceWithoutPlaceholder | app/src/main/java/org/hwyl/sexytopo/control/io/thirdparty/therion/ThconfigExporter.java:72-74 | text in which the placeholder starts nowhere, in any letter case, comes back unchanged |
| ThconfigExporter.ReplaceAfterPlain | app/src/main/java/org/hwyl/sexytopo/control/io/thirdparty/therion/ThconfigExporter.java:73 | a prefix without '<' is copied as it is |
| ThconfigExporter.ReplacePlaceholder | app/src/main/java/org/hwyl/sexytopo/control/io/thirdparty/therion/ThconfigExporter.java:73 | the placeholder, in any letter case, becomes the name |
| ThconfigExporter.ReplaceOne | app/src/main/java/org/hwyl/sexytopo/control/io/thirdparty/therion/ThconfigExporter.java:72-74 | the name replaces a placeholder and the text before it stays |
| ThconfigExporter.ReplaceSixBlocks | app/src/main/java/org/hwyl/sexytopo/control/io/thirdparty/therion/ThconfigExporter.java:33 | six blocks, four naming the placeholder once each: the name goes in each of the four places |
| ThconfigExporter.DefaultContentNamed | app/src/main/java/org/hwyl/sexytopo/control/io/thirdparty/therion/ThconfigExporter.java:23-34 | substituting a name into the default content gives its six blocks, one blank line apart, naming the survey's files after that name |
| ThconfigExporter.GetContent | app/src/main/java/org/hwyl/sexytopo/control/io/thirdparty/therion/ThconfigExporter.java:36-45 | an empty template falls back to the default content, named; a template without '<' is kept as it is |
| ThconfigExporter.GetThconfigFilename | app/src/main/java/org/hwyl/sexytopo/control/io/thirdparty/therion/ThconfigExporter.java:47-50 | a pattern without '<' is the file name as it is |
| ThconfigExporter.ThconfigFilenameNamed | app/src/main/java/org/hwyl/sexytopo/control/io/thirdparty/therion/ThconfigExporter.java:47-50 | a pattern starting with the placeholder, in any letter case, names the file after the survey |
| ThconfigExporter.ValidFromExactly | app/src/main/java/org/hwyl/sexytopo/control/io/thirdparty/therion/ThconfigExporter.java:63-68 | the scan from an index accepts exactly when every group starting there or later holds the placeholder's name |
| ThconfigExporter.IsValidTemplate | app/src/main/java/org/hwyl/sexytopo/control/io/thirdparty/therion/ThconfigExporter.java:59-70 | isValidTemplate is true exactly when every bracketed group holds "surveyname" in some letter case |
| ThconfigExporter.PlainTemplateValid | app/src/main/java/org/hwyl/sexytopo/control/io/thirdparty/therion/ThconfigExporter.java:52-58 | text without '<' has no group and is valid |
| ThconfigExporter.OtherGroupRefused | app/src/main/java/org/hwyl/sexytopo/control/io/thirdparty/therion/ThconfigExporter.java:63-67 | a group holding anything other than the placeholder's name is refused |
| ThconfigExporter.GroupShift | app/src/main/java/org/hwyl/sexytopo/control/io/thirdparty/therion/ThconfigExporter.java:60 | the groups of a suffix are the groups of the whole text that start inside it |
| ThconfigExporter.ValidAfterPlaceholder | app/src/main/java/org/hwyl/sexytopo/control/io/thirdparty/therion/ThconfigExporter.java:65 | a placeholder in any letter case passes the check, so "<SurveyName>" is accepted like "<surveyname>" |
| ThconfigExporter.ValidAfterPlain | app/src/main/java/org/hwyl/sexytopo/control/io/thirdparty/therion/ThconfigExporter.java:63 | text without '<' in front changes no group |
| ThconfigExporter.ValidPlainBlock | app/src/main/java/org/hwyl/sexytopo/control/io/thirdparty/therion/ThconfigExporter.java:33 | a block without '<' ahead of the others leaves the check to them |
| ThconfigExporter.ValidNamedBlock | app/src/main/java/org/hwyl/sexytopo/control/io/thirdparty/therion/ThconfigExporter.java:33 | a block holding the placeholder once, ahead of the others, leaves the check to them |
| ThconfigExporter.DefaultContentValid | app/src/main/java/org/hwyl/sexytopo/control/io/thirdparty/therion/ThconfigExporter.java:23-34 | the default content passes isValidTemplate |

## Left out

- Drawings: reading PocketTopo sketches (`readDrawing`, `readPolygon`, `skipXSection`, `buildSketch`) and writing the plan, extended elevation, sketch and station coordinates of the text export. They depend on projection and geometry code that is not part of this model. The export takes their text as parameters.
- Whole-file assembly: `ThExporter.getContent`, `ThExporter.updateOriginalContent` and its regular-expression helpers `replaceCentreline` and `replaceInputsText`. Of the Survex exporter's `getContent`, only the framing lines are modelled; its body pieces are parameters.
- Environment-dependent pieces: `getCreationComment`, which reads the wall clock, and the entry points that take an Android `Context` or `DocumentFile` (`toSurvey`, `canHandleFile`, `getExportTypeName`).
- `TherionExporter.getEncodingText` is not part of this model; the encoding line is a parameter of the thconfig content.
- Format accessors: the `SurveyFormat` accessors the importer and exporters call (command marker, comment character, splay station name, exploration-date keyword, `stripCommandPrefix`) are not defined in `SurveyFormat.java`. They are the `Syntax` parameter.
- `parseMetadata`: the date, instrument, exploration-date and trip-comment parts of the metadata reader (including `isSameDay` and `parseDate`) are not modelled. Its team handling is modelled through `parseTeamLine` and `parseExploTeamLine`.
- Library behaviour as parameters: `Float.parseFloat` (a function returning a number or none), `TableCol.format`, date formatting, UTF-8 decoding of PocketTopo strings and `StationNamer`. Their own behaviour is not modelled.
- Preferences: the repeat count for a new station, the distance and angle tolerances, the thconfig template and the thconfig name pattern are parameters, not preference reads.
- Chronological list: `GraphToListTranslator` is not part of this model; the exporters take its list of entries as a parameter.
- Leg, Station and Survey classes: `Leg.java`, `Station.java` and `Survey.java` are not part of this model. `asBacksight`, `reverse`, `toSplay`, `upgradeSplayToConnectedLeg`, `undoAddLeg`, `getLastNLegs`, `replaceLegInRecord` and the station lookups are modelled from their call sites.
- Floating point: floats and doubles are exact reals. Java's float `%` is the truncating remainder, and IEEE rounding is not reproduced.
- Letter case: case-insensitive comparisons and `toLowerCase` act on ASCII letters only.
- Replacement strings: `String.replaceAll` treats `$` and `\` in the replacement specially; the model substitutes the replacement literally.
- Threads and logging: `synchronized` and the `Log` calls have no counterpart; the model is single-threaded.
- Survey.NULL_STATION is the parameter `nullStation` of the centreline reader, and a station number chosen by the caller.
- SurveyUpdater.MoveLeg: the requires asks for a leg that some station has among its onward legs. For a leg no station owns, `moveLeg` calls `getOnwardLegs()` on a null originating station (SurveyUpdater.java:366) and throws a NullPointerException; that failure is not modelled.
- SurveyUpdater.MoveStep: the same requires and the same unmodelled NullPointerException as `MoveLeg`, for the function that states its result.
- SurveyUpdater.DeleteStation: the requires asks that a station other than the origin has a referring leg. For a station without one, the null referring leg is passed on to `getOriginatingStation` and to `deleteLeg`, which dereferences it at `leg.hasDestination()` (SurveyUpdater.java:387) and throws a NullPointerException; that failure is not modelled.
- SurveyUpdater.DeleteStationStep: the same requires and the same unmodelled NullPointerException as `DeleteStation`, for the function that states its result.
- Legs.AsBacksight: the ensures states only that the reversed shot's azimuth is brought back into [0, 360). `Leg.asBacksight` is not part of this model, so nothing more of it is promised.

## Findings

| source | as written | input that shows it | evidently intended | confidence | as-written member | corrected member |
|---|---|---|---|---|---|---|
| app/src/main/java/org/hwyl/sexytopo/control/io/thirdparty/survextherion/SurvexTherionImporter.java:358-364 | `extractQuotedValue` takes `substring(1, length - 1)` of any value that starts and ends with a quote mark, and a lone quote mark is such a value | the metadata line `explo-team "`, where `substring(1, 0)` throws and the whole import fails | a lone quote mark is an empty quoted value and reads as "" | not executed | SurvexTherionTeam.LoneQuoteThrows | SurvexTherionTeam.QuotedValueOfLoneQuote |
| app/src/main/java/org/hwyl/sexytopo/control/io/thirdparty/pockettopo/PocketTopoTxtExporter.java:37-46 | with no trip, the epoch date is appended with its own line feed and then the line feed every date gets | a survey without a trip: the header is `TRIP`, `DATE 1970-01-01`, an empty line, then `DECLINATION` | the same three header lines as with a trip | not executed | PocketTopoTxtExporter.HeaderAsWrittenWithoutTrip | PocketTopoTxtExporter.HeaderThreeLines |
