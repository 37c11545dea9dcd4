# AI cricket commentary generator: a verified model of its decision logic

This project models the deterministic core of a cricket-video commentary
application in Dafny and proves what that core does. The pipeline it covers:

- **Pose features.** `get_pose_features` turns a detected pose into four joint
  angles and the offset of every keypoint from the neck. The angle is
  modelled only through its clamp step.
- **Shot classification.** The posture cascade, the wrist-motion analysis over
  a window of earlier poses, and the per-shot scoring against `SHOT_RULES`
  with the `max >= 2` threshold and the first-in-catalog tie-break.
- **Commentary composer.** `generate_commentary` is a stable timestamp sort
  followed by a fold over the events. The fold keeps the
  `last_event_type`/`consecutive_similar` counters, and a final join adds
  optional transitions. Random choices come from an injected oracle.
- **Text chunker.** `split_long_text` splits text for speech synthesis.
- **Upload validator.** `allowed_file` checks the extension of an uploaded file.
- **Browser commentary reader.** The `CommentarySpeechSynthesizer` state
  machine, with `splitIntoSentences`, `formatTime` and
  `capitalizeFirstLetter`.
- **Video-page helpers.** The event grouping and listing, the timeline
  marker classes, the ±2 s highlight window, and the mute and volume mirroring.

Modules, one per component:

| module | file | component |
|---|---|---|
| `Wrappers` | wrappers.dfy | `Option` |
| `Text` | text.dfy | Python `str.split`/`str.join`, ASCII case mapping, decimal rendering |
| `Geometry` | geometry.dfy | `calculate_angle`: clamp and a bounded arccos |
| `PoseFeatures` | pose_features.dfy | `get_pose_features` |
| `Posture` | posture.dfy | `determine_posture` |
| `Motion` | motion.dfy | `calculate_motion` |
| `Shots` | shots.dfy | `CRICKET_SHOTS`, `SHOT_RULES`, `classify_shot` |
| `Commentary` | commentary.dfy | the template tables and `generate_commentary` |
| `Chunker` | chunker.dfy | `split_long_text` |
| `Upload` | upload.dfy | `ALLOWED_EXTENSIONS`, `allowed_file` |
| `Presentation` | presentation.dfy | `formatTime`, `capitalizeFirstLetter` (shared by both scripts) |
| `VideoPlayer` | video_player.dfy | grouping, listing, markers, highlighting, mute/volume |
| `Speech` | speech.dfy | `CommentarySpeechSynthesizer` |

The model takes the form of each source file:

- Code the source writes as loops is modelled as methods with loops. This
  covers the offsets loop, the scoring loops, the wrist and velocity loops,
  the composer's two loops, the chunker loop, the grouping and listing loops
  and the highlight loop. Each method is proved equal to a specification
  function, and the source's promises are proved about that function.
- The speech synthesizer is a class whose methods update its fields. Every
  method ensures `State() == AfterX(old(State()))`. The `AfterX` transition
  functions carry the lemmas: the invariants, the play, pause, resume and stop
  laws, and an in-order run of the whole commentary.
- The video page's media elements are a class with `muted` and `volume` fields.

Names, strings and numbers as modelled:

- Landmark, joint and feature names are closed enumerations. The feature
  `XRel(Neck)` is the name `neck_x_rel`. Posture and shot names map to the
  source's strings (`PostureName`, `ShotName`).
- Coordinates are `real`.
- JavaScript's `NaN` is an explicit `Number` case.
- JavaScript's `%` is modelled as a remainder that takes the sign of the
  dividend.
- The regular-expression class `\s` is written out character by character.

## Model

| member | source | states |
|---|---|---|
| Geometry.ClampCosine | utils/pose_estimation.py:198 | `min(1.0, max(-1.0, c))` lies in [-1,1], is `c` inside that range and the nearer bound outside it; NaN becomes -1 as Python's `max` keeps its first argument |
| Geometry.CalculateAngle | utils/pose_estimation.py:179-203 | the angle always lies in [0,180] |
| Geometry.ArccosDegrees | utils/pose_estimation.py:200-201 | the stand-in for `degrees(arccos(c))` lies in [0,180] and hits 0, 90 and 180 exactly at cosines 1, 0 and -1 |
| Geometry.ArccosDegreesDecreasing | utils/pose_estimation.py:200-201 | the stand-in is strictly decreasing, like arccos |
| Geometry.DegenerateLegIsStraight | utils/pose_estimation.py:194-201 | a zero-length leg makes the cosine NaN, which the clamp turns into -1, so the angle is 180 |
| PoseFeatures.LandmarkOrderComplete | utils/pose_estimation.py:10-16 | the keypoint order lists every landmark |
| PoseFeatures.AngleFeaturesFacts | utils/pose_estimation.py:135-165 | after the four angle blocks, `<joint>_angle` is present exactly when its three landmarks are, with the angle at the middle one, and nothing else is present |
| PoseFeatures.AddOffsetsFacts | utils/pose_estimation.py:171-175 | one iteration of the offsets loop sets `k_x_rel`/`k_y_rel` to the offset from the neck for a present `k` other than the neck, and changes nothing else |
| PoseFeatures.OffsetsAlongOffsets | utils/pose_estimation.py:168-175 | after visiting any keypoints in any order, the offsets present are exactly those of visited, present, non-neck keypoints, with their values |
| PoseFeatures.OffsetsAlongAngles | utils/pose_estimation.py:132-175 | the offsets loop leaves the angle features as they were |
| PoseFeatures.PoseFeaturesOf | utils/pose_estimation.py:122-177 | the feature map: each angle present iff its triple is, and offsets present iff neck and nose are and the keypoint is not the neck, each equal to the keypoint minus the neck |
| PoseFeatures.GetPoseFeatures | utils/pose_estimation.py:122-177 | the method (four angle blocks, then the loop over keypoints) returns exactly that map |
| PoseFeatures.NeckOffsetsNeverExtracted | utils/pose_estimation.py:172 | `neck_x_rel` and `neck_y_rel` are never features |
| PoseFeatures.ConfidenceIgnored | utils/pose_estimation.py:136-175 | poses that agree on which keypoints are present and where have the same features, whatever the confidences |
| Posture.PostureNamesDistinct | utils/shot_classification.py:161-178 | the five posture names are pairwise different |
| Posture.DeterminePosture | utils/shot_classification.py:145-178 | the definition of `determine_posture`: the first-match cascade over the lean, vertical-lean and knee-angle features; its cases are stated by Posture.DeterminePostureCases |
| Posture.DeterminePostureCases | utils/shot_classification.py:145-178 | first-match cascade: leaning right iff lean > 20, left iff lean < -20, back iff not leaning sideways and vertical lean < -15, kneeling iff neither and a knee angle < 90, upright otherwise; a missing feature skips its check |
| Posture.LeanBeatsKneel | utils/shot_classification.py:158-175 | a lean above 20 wins over bent knees |
| Posture.EmptyIsUpright | utils/shot_classification.py:145-178 | no features gives `upright` |
| Posture.PostureOfExtractedFeatures | utils/shot_classification.py:158-178 | on features extracted from a pose the posture is only ever kneeling (iff a visible knee angle is below 90) or upright |
| Motion.SliceStart | utils/shot_classification.py:193 | Python's slice start for a possibly negative index |
| Motion.Window | utils/shot_classification.py:193 | the definition of `poses_window`; Motion.WindowIsLastPoses states what it holds |
| Motion.WindowIsLastPoses | utils/shot_classification.py:193 | the window is the last `window_size` poses, or all of them when there are fewer |
| Motion.Wrists | utils/shot_classification.py:200-203 | `prev_wrists`: no more wrists than poses; Motion.WristsEmpty and Motion.WristsFirst state which wrists it holds |
| Motion.WristsEmpty | utils/shot_classification.py:200-205 | no wrist is collected iff no pose of the window has `right_wrist` |
| Motion.WristsFirst | utils/shot_classification.py:200-207 | the first collected wrist is that of the first window pose that has one |
| Motion.DirectionOf | utils/shot_classification.py:212-217 | `none` iff both displacements are at most 30; else `sideways` iff horizontal dominates; else `forward` iff dy > 0, else `backward` |
| Motion.DirectionIgnoresHorizontalSign | utils/shot_classification.py:212-217 | the direction does not depend on the sign of dx |
| Motion.DirectionExamples | utils/shot_classification.py:212-217 | one displacement per direction |
| Motion.Velocities | utils/shot_classification.py:223-227 | one velocity per adjacent pair of wrists |
| Motion.NegativeProduct | utils/shot_classification.py:232-233 | a product is negative iff the factors have strictly opposite signs, so zero components never count as a reversal |
| Motion.NonNegativeNoReversal | utils/shot_classification.py:232-233 | velocities with no negative component never reverse |
| Motion.IsSwing | utils/shot_classification.py:220-235 | the definition of `is_swing`: at least three wrists and a sign change between successive velocities; Motion.MonotoneIsNoSwing is proved about it |
| Motion.MonotoneIsNoSwing | utils/shot_classification.py:220-235 | a wrist track that never moves back on either axis is not a swing |
| Motion.MotionStill | utils/shot_classification.py:196-247 | no current wrist, an empty window or no wrist in the window gives direction none, displacement (0,0) and no swing |
| Motion.MotionDisplacement | utils/shot_classification.py:200-209 | with a current wrist and some wrist in the window, the displacement is the current wrist minus the first wrist found in the window |
| Motion.MotionOf | utils/shot_classification.py:180-247 | the definition of `calculate_motion` as a value; Motion.MotionStill and Motion.MotionDisplacement state its two outcomes |
| Motion.CollectWrists | utils/shot_classification.py:200-203 | the loop collects the window's wrists in order |
| Motion.ComputeVelocities | utils/shot_classification.py:223-227 | the loop computes the velocities |
| Motion.FindReversal | utils/shot_classification.py:230-235 | the loop with `break` finds a reversal iff some adjacent velocity pair reverses |
| Motion.CalculateMotion | utils/shot_classification.py:180-247 | the method returns the motion result for the window |
| Shots.CatalogWellFormed | utils/shot_classification.py:8-84 | `SHOT_RULES` lists the ten shots of `CRICKET_SHOTS` in catalog order, each with two angle ranges inside [0,180] |
| Shots.EveryPostureHasARule | utils/shot_classification.py:23-84 | every posture is expected by some rule |
| Shots.AngleScore | utils/shot_classification.py:115-117 | the angle score counts the satisfied ranges: 0 iff none and all iff all |
| Shots.SwingBonus | utils/shot_classification.py:124-130 | the bonus is 2 iff there is a swing whose direction fits the shot's group, else 0 |
| Shots.Score | utils/shot_classification.py:112-132 | one rule's score: at most its number of ranges plus 4, at least 2 when the posture matches, at most ranges plus 2 without motion, and the full ranges-plus-4 iff every range holds, the posture matches and a swing goes the rule's way |
| Shots.Scores | utils/shot_classification.py:109-132 | one score per rule, in catalog order; the rule whose posture matches scores at least 2, and no rule scores more than its number of ranges plus 4 |
| Shots.ScoreBounded | utils/shot_classification.py:111-132 | no score exceeds 6 (two ranges, posture, swing) |
| Shots.MotionFor | utils/shot_classification.py:104 | `calculate_motion(...) if previous_poses else None`; Shots.NoHistoryNoSwingBonus is proved about it |
| Shots.ShotScores | utils/shot_classification.py:96-132 | the scores `classify_shot` computes from a pose and its history; Shots.ClassificationNeverEmpty is proved about them |
| Shots.NoHistoryNoSwingBonus | utils/shot_classification.py:104-130 | without earlier poses no motion is computed and no bonus is given |
| Shots.SomeScoreReachesThreshold | utils/shot_classification.py:119-139 | every posture earns some rule 2 points, so the threshold is always met |
| Shots.CountSatisfied | utils/shot_classification.py:115-117 | the angle loop computes the angle score |
| Shots.ScoreRule | utils/shot_classification.py:112-132 | the loop body computes one rule's score |
| Shots.ComputeScores | utils/shot_classification.py:111-132 | the loop computes all the scores |
| Shots.MaxScore | utils/shot_classification.py:135 | the maximum is attained and bounds every score |
| Shots.BestShots | utils/shot_classification.py:136 | the best shots are exactly those with the maximum, and the first of them is the earliest in catalog order |
| Shots.PickShot | utils/shot_classification.py:135-143 | None iff every score is below 2; otherwise the earliest shot with the maximal score |
| Shots.ClassifyShot | utils/shot_classification.py:86-143 | the classification of a pose and its history: None iff every score is below 2, else the first shot in catalog order with the maximal score, always one of `CRICKET_SHOTS` |
| Shots.ClassificationNeverEmpty | utils/shot_classification.py:101-139 | some score always reaches 2, so once the angle loop is corrected a shot is always returned |
| Shots.AngleEntries | utils/shot_classification.py:23-84 | the angle entries of a rule's dictionary: one per range, every key an angle name and every value a `(min, max)` pair, and `(name, (min, max))` is an entry iff that range is in the rule |
| Shots.AngleLoopOnAnglesOnly | utils/shot_classification.py:115-117 | over angle entries only, the loop as written scores like the corrected one |
| Shots.AngleLoopReachesText | utils/shot_classification.py:115 | reaching a string value whose length is not 2 raises `ValueError` |
| Shots.PostureNamesNotPairs | utils/shot_classification.py:27 | no posture name has length 2 |
| Shots.EveryRuleRaisesAsWritten | utils/shot_classification.py:111-117 | the loop as written raises on every rule of the catalog |
| Shots.ClassifyShotAsWrittenAlwaysRaises | utils/shot_classification.py:86-117 | `classify_shot` as written raises `ValueError` on every input |
| Commentary.InsertPermutes | utils/commentary_generator.py:170 | inserting an event adds it to the multiset |
| Commentary.Insert | utils/commentary_generator.py:170 | the insertion step of the stable sort; Commentary.InsertPermutes, Commentary.InsertSorted and Commentary.InsertWithTimestamp are proved about it |
| Commentary.SortByTimestamp | utils/commentary_generator.py:170 | `sorted(events, key=timestamp)`; Commentary.SortByTimestampSorts and Commentary.SortByTimestampStable are proved about it |
| Commentary.InsertSorted | utils/commentary_generator.py:170 | inserting into a sorted sequence keeps it sorted |
| Commentary.InsertWithTimestamp | utils/commentary_generator.py:170 | insertion goes after the events with the same timestamp |
| Commentary.SortByTimestampSorts | utils/commentary_generator.py:170 | the sort orders by timestamp and is a permutation |
| Commentary.SortByTimestampStable | utils/commentary_generator.py:170 | events with equal timestamps keep their input order |
| Commentary.Options | utils/commentary_generator.py:7-126 | every template list has five sentences |
| Commentary.SourceTables | utils/commentary_generator.py:7-154 | the source's tables are well formed (no empty list) and have the source's keys |
| Commentary.PhraseListSizes | utils/commentary_generator.py:129-154 | ten transitions and ten situation sentences |
| Commentary.GenericOnlyForShots | utils/commentary_generator.py:7-126 | only `shot_played` has a `generic` list |
| Commentary.ShotTemplates | utils/commentary_generator.py:61-125 | every classified shot has templates except square drive and on drive |
| Commentary.Choice | utils/commentary_generator.py:190-230 | `random.choice` picks a member of its list |
| Commentary.Step | utils/commentary_generator.py:177-217 | one iteration of the event loop; Commentary.UnknownTypeStep, Commentary.GenericFallbackStep and Commentary.TemplatedStep state its branches |
| Commentary.ComposeAlong | utils/commentary_generator.py:177-217 | the event loop as a fold; Commentary.SegmentCountAlong, Commentary.SegmentCount and Commentary.RunCounter are proved about it |
| Commentary.Combine | utils/commentary_generator.py:224-233 | the join loop as a fold; Commentary.CombineShape and Commentary.NoTransitionsIsJoin are proved about it |
| Commentary.CommentaryWith | utils/commentary_generator.py:156-235 | `generate_commentary` over any well-formed tables; Commentary.NoContributionWaits is proved about it |
| Commentary.CommentaryOf | utils/commentary_generator.py:156-235 | `generate_commentary` over the source's tables; Commentary.GenerateCommentary returns it |
| Commentary.ComposeSegments | utils/commentary_generator.py:172-217 | the event loop computes the fold's segments and oracle draws |
| Commentary.JoinSegments | utils/commentary_generator.py:224-233 | the join loop computes the combined text |
| Commentary.GenerateCommentary | utils/commentary_generator.py:156-235 | the method is the composer: empty check, sort, fold, empty check, join |
| Commentary.EmptyEventsWait | utils/commentary_generator.py:166-167 | no events gives the waiting message |
| Commentary.SilentEvents | utils/commentary_generator.py:182-217 | an event contributes nothing iff it is a boundary or wicket whose subtype has no templates |
| Commentary.UnknownTypeStep | utils/commentary_generator.py:216-217 | an unknown type appends the fixed segment and leaves the counters alone |
| Commentary.GenericFallbackStep | utils/commentary_generator.py:211-213 | an unknown subtype appends a generic sentence when there is a generic list, else nothing, and leaves the counters alone |
| Commentary.MissingSubtypeIsGeneric | utils/commentary_generator.py:179 | an event without a subtype is treated as subtype `generic` |
| Commentary.TemplatedStep | utils/commentary_generator.py:186-209 | a templated event appends one of its templates, plus a situation sentence exactly when the counter reaches 2, sets the last type, and increments or resets the counter |
| Commentary.CountContributingPermutation | utils/commentary_generator.py:170 | sorting does not change how many events contribute |
| Commentary.SegmentCountAlong | utils/commentary_generator.py:177-217 | the fold appends one segment per contributing event |
| Commentary.SegmentCount | utils/commentary_generator.py:170-217 | the number of segments is the number of contributing events |
| Commentary.NoContributionWaits | utils/commentary_generator.py:220-221 | events that all contribute nothing give the waiting message |
| Commentary.RunCounter | utils/commentary_generator.py:193-206 | along a run of same-type templated events the counter after the k-th event is (k-1) mod 2 |
| Commentary.SituationPattern | utils/commentary_generator.py:193-206 | in such a run the situation sentence comes at the 3rd event and every 2nd event after it |
| Commentary.CombineLastPiece | utils/commentary_generator.py:227-233 | each later segment is added after one space, as a transition plus its lower-cased text or as it is |
| Commentary.CombineShape | utils/commentary_generator.py:224-233 | the result is the first segment verbatim followed by the rendered later segments, joined by spaces |
| Commentary.NoTransitionsIsJoin | utils/commentary_generator.py:224-233 | when the coin never adds a transition the result is the segments joined by spaces |
| Commentary.CombineStartsWithFirst | utils/commentary_generator.py:224 | the result starts with the first segment |
| Text.JoinSnoc | utils/text_to_speech.py:76-77 | joining one more part appends the separator and the part |
| Text.Join | utils/text_to_speech.py:76-77 | `sep.join(parts)`; Text.JoinSnoc and Text.JoinSplit are proved about it |
| Text.Split | utils/text_to_speech.py:59 | `s.split(sep)`: at least one piece; Text.JoinSplit, Text.SplitFirstIsPrefix and Text.SplitPiecesAvoidSep state what the pieces are |
| Text.JoinSplit | utils/text_to_speech.py:59 | joining the pieces of `text.split(sep)` with `sep` gives back the text |
| Text.SplitFirstIsPrefix | utils/text_to_speech.py:59 | the first piece of a split is a prefix of the text |
| Text.SplitPiecesAvoidSep | utils/text_to_speech.py:59 | no piece of a split contains the separator |
| Text.Lower | app.py:36 | the result has the same length and no letter in A..Z; characters outside A..Z are unchanged, and each one in A..Z becomes the lower-case letter whose upper case it is |
| Text.LowerIdempotent | app.py:36 | lower-casing twice is lower-casing once |
| Text.ParseNatToString | static/js/video-player.js:172 | a rendered number reads back as itself |
| Text.NatToStringNoLeadingZero | static/js/video-player.js:172 | a rendered number has no leading zero, except 0 itself |
| Text.IntToString | static/js/video-player.js:172 | the rendering is non-empty, starts with `-` iff the number is negative, and is digits after that |
| Text.IntToStringReadsBack | static/js/video-player.js:172 | the digits after the optional `-` read back as the number's absolute value |
| Chunker.WithPeriod | utils/text_to_speech.py:66-67 | a sentence ends with a period after the fix-up, which adds one only when missing |
| Chunker.WithPeriods | utils/text_to_speech.py:64-67 | one sentence per split piece, each ending with a period; each is its piece or its piece plus `.`, and a piece already ending with `.` is kept as it is |
| Chunker.SentencesOf | utils/text_to_speech.py:59-67 | the sentences the loop sees: at least one |
| Chunker.PackStep | utils/text_to_speech.py:69-77 | one iteration of the packing loop; Chunker.PreservesStep is proved about it |
| Chunker.PackAlong | utils/text_to_speech.py:64-77 | the packing loop as a fold; Chunker.PackShape, Chunker.PackPreservesText and Chunker.PackBounded are proved about it |
| Chunker.Finish | utils/text_to_speech.py:79-81 | the last chunk is added only when it is non-empty |
| Chunker.ChunksOf | utils/text_to_speech.py:47-83 | `split_long_text` as a value; Chunker.ChunksShape, Chunker.ChunksPreserveText and Chunker.ChunksBounded are proved about it |
| Chunker.SplitLongText | utils/text_to_speech.py:47-83 | the method computes the chunks of the text |
| Chunker.PackShape | utils/text_to_speech.py:64-77 | the current chunk ends with a period, and only the first closed chunk can be empty, exactly when the first sentence is at least `max_length` long |
| Chunker.PackPreservesText | utils/text_to_speech.py:64-77 | the non-empty chunks and the current one, joined by spaces, are the sentences joined by spaces |
| Chunker.PackBounded | utils/text_to_speech.py:70-77 | a chunk longer than `max_length` is a single sentence, or the empty first chunk |
| Chunker.ChunksShape | utils/text_to_speech.py:64-81 | never empty, last chunk non-empty, an empty chunk only first and iff the first sentence is at least `max_length` long, every non-empty chunk ends with a period |
| Chunker.PackFirstFits | utils/text_to_speech.py:70-72 | if no chunk was closed, the first sentence fitted |
| Chunker.ChunksPreserveText | utils/text_to_speech.py:59-81 | the non-empty chunks joined by spaces are the sentences joined by spaces |
| Chunker.ChunksBounded | utils/text_to_speech.py:70-81 | every chunk is within `max_length`, a single sentence, or the empty first chunk |
| Chunker.EmptyTextIsPeriod | utils/text_to_speech.py:59-81 | the empty text gives `["."]` |
| Upload.LastIndexOf | app.py:36 | the position of the last occurrence of a character, None iff absent |
| Upload.RSplitOnce | app.py:36 | `rsplit(c, 1)`: the whole string without `c`, otherwise the parts around the last `c` |
| Upload.RSplitAppend | app.py:36 | `name.ext` with no dot in `ext` splits into `name` and `ext` |
| Upload.AllowedFile | app.py:35-36 | the definition of `allowed_file`; Upload.AllowedFileWithExtension and Upload.NoDotRejected state its verdict |
| Upload.AllowedFileWithExtension | app.py:25-36 | a name with extension `ext` is accepted iff `ext` lower-cased is an allowed extension |
| Upload.AllowedExtensionsExactly | app.py:25 | the allowed extensions are exactly mp4, avi, mov and mkv |
| Upload.NoDotRejected | app.py:36 | a file name without a dot is rejected |
| Upload.TrailingDotRejected | app.py:25-36 | `name.` is rejected |
| Upload.AllowedFileIgnoresCase | app.py:36 | lower-casing the file name does not change the verdict |
| Upload.InnerExtensionIgnored | app.py:36 | `a.mp4.zip` is rejected |
| Upload.OuterExtensionCounts | app.py:36 | `a.zip.mp4` is accepted |
| Upload.UpperCaseAccepted | app.py:36 | `clip.MOV` is accepted |
| Presentation.FormatTimeOfNonNegative | static/js/video-player.js:167-173 | for a non-negative time: whole minutes, a colon, and the remaining seconds as two digits |
| Presentation.FormatTimeReadsBack | static/js/video-player.js:167-173 | the seconds field has two digits below 60, and minutes times 60 plus seconds is the whole number of seconds |
| Presentation.FormatTimeOfNaN | static/js/speech-synthesizer.js:303-309 | NaN shows as `0:00`, like zero |
| Presentation.TwoDigits | static/js/speech-synthesizer.js:308 | the padded seconds field is two digits |
| Presentation.FormatTime | static/js/video-player.js:167-173 | the definition of `formatTime`; Presentation.FormatTimeOfNonNegative, Presentation.FormatTimeReadsBack and Presentation.FormatTimeOfNaN state its output |
| Presentation.Capitalize | static/js/speech-synthesizer.js:299-301 | the length and everything after the first character are unchanged; the first character is unchanged unless it is in a..z, and then it becomes the upper-case letter whose lower case it is |
| Presentation.CapitalizeIdempotent | static/js/speech-synthesizer.js:299-301 | capitalizing twice is capitalizing once |
| VideoPlayer.OfType | static/js/video-player.js:214-220 | a group is no longer than the events |
| VideoPlayer.GroupByType | static/js/video-player.js:213-220 | the groups exist exactly for the types that occur, in first-appearance order, and each holds that type's events in input order |
| VideoPlayer.OfTypeMembers | static/js/video-player.js:214-220 | a group holds exactly the events of its type |
| VideoPlayer.OfTypeConcat | static/js/video-player.js:214-220 | the group of a concatenation is the concatenation of the groups, so each group keeps the input order |
| VideoPlayer.TypesOf | static/js/video-player.js:213-226 | the keys of `eventsByType` in first-appearance order; VideoPlayer.TypesOfFacts states what they are |
| VideoPlayer.HeaderText | static/js/video-player.js:232 | the group header `${Type} Events (${n})` |
| VideoPlayer.TypesOfFacts | static/js/video-player.js:213-226 | the types are distinct, are exactly those that occur, and each has a non-empty group |
| VideoPlayer.GroupSizesSum | static/js/video-player.js:213-233 | the group sizes add up to the number of events, so every event is in exactly one group |
| VideoPlayer.Entries | static/js/video-player.js:236-259 | one list item per event of the group |
| VideoPlayer.DisplayEvents | static/js/video-player.js:201-263 | the method builds the listing: the message for no events, else a header per type followed by its events |
| VideoPlayer.AppendGroup | static/js/video-player.js:227-259 | one header, then the group's entries |
| VideoPlayer.ListingOf | static/js/video-player.js:201-263 | the listing as a value; VideoPlayer.ListingCounts and VideoPlayer.CountsOfListing are proved about it |
| VideoPlayer.CountsOfListing | static/js/video-player.js:226-260 | a listing has one header per type and as many entries as the groups hold |
| VideoPlayer.ListingCounts | static/js/video-player.js:207-263 | the "no events" message iff there are no events; otherwise one entry per event and one header per type |
| VideoPlayer.MarkerClassCases | static/js/video-player.js:281-293 | boundary, wicket and shot_played get their own classes, every other type `other-event` |
| VideoPlayer.MarkerClass | static/js/video-player.js:281-293 | the marker's class; VideoPlayer.MarkerClassCases states its cases |
| VideoPlayer.MarkerOf | static/js/video-player.js:281-298 | one marker: its class and its tooltip |
| VideoPlayer.Timeline | static/js/video-player.js:265-293 | no markers without a duration (NaN or 0), else one marker per event in order |
| VideoPlayer.IsCurrentWindow | static/js/video-player.js:349-358 | an item is current iff its timestamp is within 2 s of the current time, symmetrically |
| VideoPlayer.IsCurrent | static/js/video-player.js:353 | `Math.abs(currentVideoTime - timestamp) <= 2`; VideoPlayer.IsCurrentWindow states it without the absolute value |
| VideoPlayer.HighlightCurrentEvents | static/js/video-player.js:344-364 | after the loop each item is marked current iff it is within the tolerance |
| VideoPlayer.ToggleMute | static/js/video-player.js:110-112 | the video's mute flag flips and the audio's follows it |
| VideoPlayer.UpdateVolume | static/js/video-player.js:122-127 | with a control, both volumes become its value; without one nothing changes |
| Speech.FirstBreak | static/js/speech-synthesizer.js:56 | the first separator position from a start, or the end |
| Speech.SpaceRunEnd | static/js/speech-synthesizer.js:56 | `\s+` consumes the whole whitespace run |
| Speech.SentencesFacts | static/js/speech-synthesizer.js:54-57 | each piece but the last ends with its `.`, `!` or `?`; no piece holds a separator; later pieces do not start with whitespace; one piece iff no separator |
| Speech.SentencesRebuild | static/js/speech-synthesizer.js:54-57 | the removed separators are non-empty whitespace runs, and putting them back gives the text |
| Speech.SplitIntoSentences | static/js/speech-synthesizer.js:54-57 | `text.split(/(?<=[.!?])\s+/)`: at least one piece; Speech.SentencesFacts and Speech.SentencesRebuild state what the pieces are |
| Speech.InitialConsistent | static/js/speech-synthesizer.js:5-14 | the constructor's state is consistent |
| Speech.AfterSetCommentary | static/js/speech-synthesizer.js:47-52 | the `setCommentary` transition; Speech.PlaysThrough starts from it |
| Speech.AfterSpeakNext | static/js/speech-synthesizer.js:76-111 | the `speakNextSentence` transition; Speech.EndAdvances and Speech.RunToEnd are proved about it |
| Speech.AfterPlay | static/js/speech-synthesizer.js:59-74 | the `play` transition; Speech.PlayCases states its cases |
| Speech.AfterPause | static/js/speech-synthesizer.js:113-119 | the `pause` transition; Speech.PauseResumeGuards states its guard |
| Speech.AfterResume | static/js/speech-synthesizer.js:121-127 | the `resume` transition; Speech.PauseResumeGuards states its guard |
| Speech.AfterStop | static/js/speech-synthesizer.js:129-134 | the `stop` transition; Speech.StopThenPlayRestarts is proved about it |
| Speech.AfterEnd | static/js/speech-synthesizer.js:96-99 | the `onend` transition; Speech.EndsSpeakInOrder is proved about it |
| Speech.AfterError | static/js/speech-synthesizer.js:101-104 | the `onerror` transition; Speech.TransitionsKeepConsistent covers it |
| Speech.AfterClick | static/js/speech-synthesizer.js:188-200 | the play button's transition; Speech.TransitionsKeepConsistent covers it |
| Speech.TransitionsKeepConsistent | static/js/speech-synthesizer.js:47-134 | every control and handler keeps the flags exclusive, the sentences those of the text, and the index a sentence position or 0 |
| Speech.PauseResumeGuards | static/js/speech-synthesizer.js:113-127 | pause acts iff playing; resume acts iff paused |
| Speech.PlayCases | static/js/speech-synthesizer.js:59-74 | play does nothing while playing or without text, resumes when paused, else starts at the current sentence |
| Speech.StopThenPlayRestarts | static/js/speech-synthesizer.js:59-134 | stop then play cancels and restarts at the first sentence |
| Speech.PauseThenPlayResumes | static/js/speech-synthesizer.js:59-127 | pause then play resumes where it was without speaking anything new |
| Speech.EndAdvances | static/js/speech-synthesizer.js:77-99 | `onend` speaks the next sentence, or past the last one ends playback at index 0 and fires the end callback |
| Speech.SpokenSentencesAppend | static/js/speech-synthesizer.js:110 | the sentences spoken over two stretches are those of each, in order |
| Speech.EndsSpeakInOrder | static/js/speech-synthesizer.js:76-111 | letting n utterances end speaks sentences 1 to n in order |
| Speech.RunToEnd | static/js/speech-synthesizer.js:76-111 | from the first sentence, letting every utterance end speaks the rest and stops idle at index 0 with the end callback last |
| Speech.PlaysThrough | static/js/speech-synthesizer.js:47-111 | setting a commentary and playing it speaks each sentence once in order and ends idle at index 0 |
| Speech.SpeechSynthesizer.SetCommentary | static/js/speech-synthesizer.js:47-52 | sets the text and its sentences and rewinds the index |
| Speech.SpeechSynthesizer.SpeakNextSentence | static/js/speech-synthesizer.js:76-111 | past the last sentence: stop, rewind and fire the end callback; otherwise announce and speak the current sentence |
| Speech.SpeechSynthesizer.Play | static/js/speech-synthesizer.js:59-74 | the `play` transition |
| Speech.SpeechSynthesizer.Pause | static/js/speech-synthesizer.js:113-119 | the `pause` transition |
| Speech.SpeechSynthesizer.Resume | static/js/speech-synthesizer.js:121-127 | the `resume` transition |
| Speech.SpeechSynthesizer.Stop | static/js/speech-synthesizer.js:129-134 | cancels, clears both flags and rewinds |
| Speech.SpeechSynthesizer.OnEnd | static/js/speech-synthesizer.js:96-99 | advances the index by one and speaks the next sentence |
| Speech.SpeechSynthesizer.OnError | static/js/speech-synthesizer.js:101-104 | clears `isPlaying` only |
| Speech.SpeechSynthesizer.Click | static/js/speech-synthesizer.js:188-200 | the play button stops when playing or paused and plays otherwise |

## Left out

- `estimate_poses` and `visualize_pose`: random floats and a foreign imaging library.
- Geometry.ArccosDegrees: stands in for numpy's `arccos` and `degrees`. It is a strictly decreasing map of [-1,1] onto [0,180] with the right end points and midpoint, not the true arccos. The square roots and NaN arithmetic of the cosine are also not modelled, except that a zero-length leg gives NaN.
- PoseFeatures.GetPoseFeatures: the source visits keypoints in the pose dictionary's insertion order; the model visits them in `CRICKET_POSE_KEYPOINTS` order. The result is proved the same for any order (`OffsetsAlongOffsets`).
- Keypoint names outside the fourteen landmarks: the model's landmark set is closed.
- Commentary: `random.choice` and `random.random() < 0.7` are an injected oracle, not distributions.
- `Event.confidence` and `Event.frame`: the composer never reads them.
- `text_to_speech` and `process_long_commentary`: gTTS network calls and file I/O.
- utils/video_processor.py: file copying, sleeping and random event generation. It is not part of this model.
- app.py Flask routes, sessions, upload saving and uuid naming: web plumbing.
- static/js/app.js: DOM, fetch and a timer-driven progress animation. It is not part of this model.
- Text.Lower and Text.UpperChar: case mapping is ASCII only. Python's `str.lower` and JavaScript's `toUpperCase` also map other letters. Strings are sequences of characters, not UTF-16 code units.
- Presentation.FormatTime: infinities and negative zero are not modelled. A number is NaN or a finite real.
- Speech: voice selection, `loadVoices`, the utterance's rate, pitch and volume, the unused `currentPosition` field, and console logging.
- Speech: the browser firing `onend` or `onerror` after a cancel. The model has the handlers as explicit methods the caller invokes.
- Speech: the page's own rendering of events and of the highlighted sentence.
- VideoPlayer.GroupByType: JavaScript's object key order for integer-like type names, and inherited properties such as `constructor`. The model keeps first-appearance order for every type.
- VideoPlayer.Timeline: the marker position percentages and tooltips.
- VideoPlayer.UpdateVolume: the range of the volume slider.
- video-player.js `pauseMedia`, `playMedia`, `videoEnded`, `seekVideo`, `jumpToEvent` (a `setTimeout` chain) and the progress bar: DOM and timers.
- All DOM construction, fetch and Bootstrap tooltips in the JavaScript files.

Behaviour worth noting:

- The displacement is measured from the first wrist found in the window (utils/shot_classification.py:207). Window poses without a right wrist are skipped, so this need not be the oldest pose of the window.
- The velocities are between consecutive collected wrists (utils/shot_classification.py:224-227). A pose without a right wrist contributes no velocity.
- The situation sentence comes at the 3rd templated event of a same-type run, and then at every 2nd one (utils/commentary_generator.py:193-203). The counter starts at 0 on the first event of a run.

## Findings

| source | as written | input that shows it | evidently intended | confidence | as-written member | corrected member |
|---|---|---|---|---|---|---|
| utils/shot_classification.py:115 | the angle loop unpacks every entry of a rule, including `"posture"` and `"description"`, into `(min_angle, max_angle)` | any pose: the first rule's `"posture": "upright"` is a string of length 7, so unpacking raises `ValueError` | loop over the angle ranges only | not executed | Shots.ClassifyShotAsWrittenAlwaysRaises | Shots.ClassifyShot |
