# A verified model of a live playout engine

The engine plans a TV channel second by second, copies one-second fMP4 segments of its
sources onto one clock timeline, and keeps a sliding live HLS playlist with ad breaks. This
project models its hard parts in Dafny and proves what they promise, over every input and
every run. `dafny verify dfyconfig.toml` checks all of it.

Code that changes things step by step is modelled by classes and methods with loops
(`Stitcher.Window`, `AdBroker.Pods`, `OnePod.Engine`, `Events.Hub`, `Webhooks.Loop`,
`Store.Channel`, `Filler.StaticFiller`, `Fmp4.RetimeCopy`, `Knapsack.ChooseSubset`, ...). Each
method is proved equal to a function of the old state, and the theorems are about these
functions and their runs. All lemmas switch automatic induction off, so every induction is
written out.

| modules | what they model |
|---|---|
| `Crc`, `CrcRemainder`, `Scte35`, `SectionLayout`, `SectionRead`, `StandardSection` | SCTE-35 messages and their checksum: against each other, against the syntax of the standard, and against the section it gives as an example |
| `SpliceText`, `TextAlphabet`, `SpliceMarkers`, `Upstream` | the text forms of a message, its use in markers, and messages of an upstream system as commands |
| `Bytes`, `Fmp4`, `Fmp4Retime`, `Fmp4Frame`, `Fmp4Timeline`, `Fmp4Examples` | the fMP4 box walker and the move of any bytes in time |
| `Fmp4Boxes`, `Fmp4Fields`, `Fmp4Written`, `Fmp4Told`, `Fmp4Moved` | segments written from records of their fields, and what the walker and the move make of them |
| `Sorting`, `Schedule`, `ScheduleCut`, `Store`, `StoreRuns`, `Commands`, `Stream` | schedule edits, the check of entries, commands in transactions, whole runs, what a command does by its own fields, and what it does to the stream |
| `Knapsack`, `Filler` | choosing creatives and filling ad breaks |
| `Plan`, `AdBroker`, `Planner`, `OnePod`, `OnePodClock` | the plan, the ad broker and the ticks of the engine |
| `Stitcher`, `Playlist`, `PlaylistRoundTrip`, `LivePlaylist`, `Airings`, `Retention`, `PlaylistRules`, `Steady`, `RestartExample` | the stitcher, its window, markers and files, the printed playlist and restarts |
| `Sources`, `Broadcast` | which source of a clip is on the air, and planner and stitcher together |
| `Events`, `Webhooks`, `LostEvent` | the event hub and the webhook sender |

Times are whole seconds since 1970 and durations are milliseconds, except in the event and
command clocks, which say their unit. 64-bit wrap-around is written out where the program
computes decode times and message lengths; elsewhere integers are unbounded.

## What turned out not to hold as stated

Each of these comes with its exact condition and an input or run for which it fails.

- Moving a segment and moving it back restores it if and only if all its decode times are below
  2^63 and no default duration it needs became zero; otherwise the way back is refused
  (`Fmp4Timeline.RetimeBackIff`, `Fmp4Examples.WayBackIsRefused`).
- A moved segment keeps its durations if and only if the default durations that are read out of
  a decode time make the same durations with the bytes that are written there. A short box does
  no other harm, since the bytes behind it are a header and no header is rewritten
  (`Fmp4Timeline.RetimeKeepsDurationsIff`, `Fmp4Examples.MovedDurationChanges`).
- An insert is a splice of the schedule by entry and position, but of the stream if and only if
  it does not fall inside an ad break: the rest of a cut break is a new break, whose pod starts
  over (`Stream.InsertRefinesStreamIff`, `Stream.BreakIsStartedOver`). A skip is always a cut
  of the stream (`Stream.SkipRefinesStream`).
- Skipping right after an insert restores the schedule if and only if it has no gap from that
  moment to its end (`ScheduleCut.SkipUndoesInsertIffNoGap`, `ScheduleCut.GapIsNotRestored`).
- A repeated command gets its first answer if and only if it still passes the checks made
  before stored answers are looked up: a fixed time that has come too close is refused
  (`StoreRuns.RepeatIsAnswered`, `StoreRuns.LateRepeatIsRefused`).
- A restored window is the printed one if and only if no segment is shorter than a
  millisecond (`PlaylistRoundTrip.RestoresIff`, `PlaylistRoundTrip.EmptySegmentIsLost`). Such a
  segment is accepted only with a tolerance of at least a second; with a smaller one every
  window that is reached is restored (`LivePlaylist.ReachedWindowIsRestored`).
- The note `zettel/scte35-markers-follow-the-schedule.md` says that the end marker of a break
  survives a restart. The end is marked if and only if a segment of the break is aired after the
  restart; the break on the air before it is not restored (`Airings.EndIsMarkedIff`,
  `RestartExample.EndIsNeverMarked`).
- The released seconds of a break play one pod as long as no tick between them is more than an
  hour behind its start. Such a tick forgets the pod, and what is asked afterwards is slate until
  a pod arrives (`OnePod.OnePodPerBreak`, `OnePod.OnePodIffNoLateTick`). So a break is split when
  the clock goes back over a late tick without time for a clip
  (`OnePodClock.ClockBackSplitsABreak`), when it is longer than an hour, which commands allow
  (`OnePodClock.LongBreakIsSplit`), and when the process is restarted inside it
  (`OnePodClock.RestartSplitsABreak`, `OnePod.RestartAsksAgain`).
- The comment that nothing is lost when the hub cuts the sender off holds if and only if the
  ring still has the event after the last one handed on (`Webhooks.LostIffTooLate`,
  `LostEvent.EventIsLost`).
- RFC 8216 asks that the target duration never changes, that a removal leaves three target
  durations, and that a removed segment stays for its own duration and that of its longest
  playlist. Each holds in every run if and only if the configuration allows it; the defaults
  break the first and the last and keep the second (`PlaylistRules.TargetIsConstantIff`,
  `PlaylistRules.RemovalLeavesThreeTargetsIff`, `PlaylistRules.AvailableIff`,
  `PlaylistRules.DefaultsFallShort`).

## Model

| member | source | states |
|---|---|---|
| Crc.Crc32Mpeg | pkg/scte35/scte35.go:47-56 | the double loop computes the register that the lemmas below reason about |
| Crc.RegisterInjective | pkg/scte35/scte35.go:47-56 | a message never merges two registers: the register behind it determines the one before it |
| Crc.RegisterOfWord | pkg/scte35/scte35.go:47-56 | four bytes enter the register like one 32-bit word, shifted 32 times |
| Crc.CheckedIffZero | pkg/scte35/scte35.go:106-112 | a section carries its own checksum exactly when the register over all its bytes is zero |
| Crc.BurstChangesRegister | pkg/scte35/scte35.go:47-56 | two messages with the same register that differ only inside four neighbouring bytes are equal |
| CrcRemainder.RemainderIsUnique | pkg/scte35/scte35.go:46-56 | over lists of bits, no two remainders of one message by the generator of degree 32 differ |
| CrcRemainder.CheckWordIsRemainder | pkg/scte35/scte35.go:46-56 | the checksum is the remainder of the message, its first 32 bits inverted and 32 zeros behind it, divided by the generator with the exponents 32, 26, 23, 22, 16, 12, 11, 10, 8, 7, 5, 4, 2, 1 and 0 |
| Scte35.RoundTrip | pkg/scte35/scte35.go:59-160 | every splice_insert that Encode accepts decodes to itself up to the fields the message does not carry |
| Scte35.FrameRoundTrip | pkg/scte35/scte35.go:88-126 | a framed command comes back unchanged, whatever it is |
| Scte35.NullRoundTrip | pkg/scte35/scte35.go:186-193 | the null message decodes as a null command |
| Scte35.MarkersRoundTrip | pkg/scte35/scte35.go:176-184 | Out and In come back with their event id and length, and Out is refused exactly when its ticks exceed 33 bits |
| Scte35.BurstIsRefused | pkg/scte35/scte35.go:106-112 | any change of an accepted section inside at most four neighbouring bytes, the checksum included, is refused |
| Scte35.OtherLengthIsRefused | pkg/scte35/scte35.go:106-112 | an accepted section cut short or extended is refused |
| SectionLayout.EncodedBits | pkg/scte35/scte35.go:59-103 | bit by bit an encoded section is the syntax table of ANSI/SCTE 35 filled with the fields of the splice, and the remainder behind it |
| SectionRead.SpliceIsRead | pkg/scte35/scte35.go:128-160 | every splice_insert of the whole program is read to its fields, whatever its reserved bits, times left open and bytes behind it |
| SectionRead.CutShortIsRefused | pkg/scte35/scte35.go:128-160 | cut off before its last field it is refused as short, at every length |
| SectionRead.InsertIsAcceptedIff | pkg/scte35/scte35.go:128-160 | and nothing else is accepted |
| SectionRead.SectionIsRead | pkg/scte35/scte35.go:106-126 | a section with the right length and checksum is read to its fields or refused for its version, encryption, unknown or too large command length or its splice, in this order |
| SectionRead.SectionIsAcceptedIff | pkg/scte35/scte35.go:106-160 | the decoder accepts exactly the sections that the standard's layout gives with none of these in them |
| StandardSection.ExampleIsDecoded | pkg/scte35/scte35.go:106-160 | the section of 50 bytes that the standard gives as an example carries its own check word and decodes to event 0x4800008F at 0x7369C02E, out of the network for 5426421 ticks, with return |
| SpliceText.ParseHex | pkg/scte35/scte35.go:163-173 | any bytes come back from hex of either case, with or without prefix and blanks |
| SpliceText.ParseBase64 | pkg/scte35/scte35.go:163-170 | a section comes back from padded and unpadded base64: its first letter is no hex digit |
| TextAlphabet.HexIsStandard | pkg/scte35/scte35.go:172-173 | each byte is written as the two digits of its halves, in either case |
| TextAlphabet.Base64IsStandard | pkg/scte35/scte35.go:163-195 | the base64 text is that of RFC 4648: four letters of the alphabet for 24 bits, and the filling of a short group |
| SpliceMarkers.AcceptedTextRoundTrip | pkg/scte35/scte35.go:163-195 | every section that Decode accepts is read back from its hex and base64 text |
| SpliceMarkers.EncodedTextRoundTrip | pkg/scte35/scte35.go:59-195 | every encoded message is read back from its text with all it carries |
| SpliceMarkers.EndPayload | services/engine/stitch.go:630-639 | the message of an end marker returns to the network with the id of the break |
| SpliceMarkers.StartPayload | services/engine/stitch.go:614-628 | the message of a start marker is the valid one of the schedule, else one that leaves the network for the length of the break, and empty only when that does not fit |
| Upstream.MessageIsUsedIff | services/control-api/commands.go:156-184 | an upstream message becomes a command exactly when it carries a splice that returns or one that leaves for some time, and its break is the shortest number of seconds that holds the ticks |
| Upstream.TextsMeanTheSame | services/control-api/commands.go:170-184 | hex of either case and base64 of a section give the same command |
| Upstream.MessageReachesMarker | services/control-api/commands.go:156-185 | when it is applied, the schedule shows an ad break with the message for exactly those seconds, and the start marker of the playlist carries the very same message |
| Upstream.EndMarkerEnds | services/control-api/commands.go:182-184 | the end marker that one channel writes ends the break of another |
| Upstream.StartMarkerStarts | services/control-api/commands.go:178-181 | the start marker that one channel writes itself starts a break on another, for the seconds that hold the ticks of its length |
| Fmp4.ParseChildren | pkg/fmp4/fmp4.go:50-71 | the loop over boxes returns exactly the list of boxes, or the same refusal |
| Fmp4.SumSamples | pkg/fmp4/fmp4.go:213-236 | the loop over samples adds up their durations modulo 2^64 |
| Fmp4Boxes.ChildrenOf | pkg/fmp4/fmp4.go:49-71 | boxes written one behind the other, with sizes of 32 or 64 bits or up to the end, are found again at their places |
| Fmp4Boxes.BoxesIff | pkg/fmp4/fmp4.go:49-71 | the walker accepts exactly such bytes |
| Fmp4Fields.TfhdIsRead | pkg/fmp4/fmp4.go:176-196 | a tfhd written from any choice of its optional fields gives its track and its default duration, or that of the track |
| Fmp4Fields.TrunIsRead | pkg/fmp4/fmp4.go:213-235 | a trun written from any choice of its optional fields and samples gives the sum of its durations modulo 2^64, or as many defaults as it has samples, and is refused without a default |
| Fmp4Fields.TrunIsShortIff | pkg/fmp4/fmp4.go:213-235 | a trun with durations is refused as short if and only if its box is shorter than its fields |
| Fmp4Written.SegmentIsWalked | pkg/fmp4/fmp4.go:156-211 | a segment written from a record of moof, traf, tfhd, tfdt and trun boxes among any others is walked to exactly what the record says, or refused for the reason that it shows |
| Fmp4Told.SegmentIsTold | pkg/fmp4/fmp4.go:237-252 | its fragments are told with their tracks, decode times of 32 or 64 bits, and durations |
| Fmp4Told.MediaIsTold | pkg/fmp4/fmp4.go:286-295 | its media data is what its mdat boxes hold |
| Fmp4Moved.SegmentIsRetimed | pkg/fmp4/fmp4.go:254-284 | it is moved to the bytes of the record with every decode time moved and nothing else, or refused for the reason that the record shows |
| Fmp4Moved.SegmentIsAcceptedIff | pkg/fmp4/fmp4.go:254-284 | it is moved if and only if the record says something and every decode time is of 64 bits, within a quarter of a second of its place and not before the start after the move |
| Fmp4.RetimeCopy | pkg/fmp4/fmp4.go:266-284 | patching a copied buffer in place gives what the functional rewrite gives |
| Fmp4Retime.TrafSameIff | pkg/fmp4/fmp4.go:176-236 | a traf whose reads outside its decode time are the same is parsed the same way exactly when its default makes the same durations modulo 2^64 |
| Fmp4Retime.WalkIffParsed | pkg/fmp4/fmp4.go:157-175 | the walk succeeds exactly when the boxes do and every traf is parsed, and tells what each says |
| Fmp4Frame.WalkSameIff | pkg/fmp4/fmp4.go:157-236 | bytes that differ only inside decode times are walked to the same fragments exactly when the durations are kept, whatever is short but the tfdt boxes |
| Fmp4Frame.WalkSame | pkg/fmp4/fmp4.go:157-236 | they always are when no default duration lies inside a decode time |
| Fmp4Frame.MediaDataSame | pkg/fmp4/fmp4.go:287-295 | and they have the same media data in any case |
| Fmp4Timeline.RetimeKeepsDurationsIff | pkg/fmp4/fmp4.go:266-284 | an accepted segment with full tfdt boxes keeps its length, boxes, mdat bytes and all bytes outside the 8-byte fields, and its fragments exactly when each default duration makes the same durations with the bytes that the move writes over it |
| Fmp4Timeline.RetimeIsFramedRewrite | pkg/fmp4/fmp4.go:266-284 | where no default duration lies inside a decode time, it is parsed the same way, with the same durations |
| Fmp4Timeline.RetimeMovesDecodeTimes | pkg/fmp4/fmp4.go:238-284 | every decode time of an accepted segment with full tfdt boxes is moved by (anchor - nominal) * timescale, in the bytes and, unless a needed default became zero, in the fragments read back, which have the same tracks |
| Fmp4Timeline.RetimeAcceptsIff | pkg/fmp4/fmp4.go:266-284 | bytes that are walked are accepted exactly when every decode time is 64-bit, within a quarter of a second of the grid and not before the start |
| Fmp4Timeline.RetimeBackIff | pkg/fmp4/fmp4.go:266-284 | moving it back restores the bytes exactly when no decode time had its top bit set and no needed default becomes zero by the bytes that the move writes, and is refused otherwise |
| Fmp4Timeline.NextTimeFollows | pkg/fmp4/fmp4.go:271-281 | accepted times that follow each other in the source follow each other exactly after the move |
| Fmp4Timeline.NextSegmentFollows | pkg/fmp4/fmp4.go:238-284 | the next segment of a source, one second later, is written to start each track at the previous one's written time plus its duration in the source, and is read back so |
| Fmp4Examples.MovedDurationChanges | pkg/fmp4/fmp4.go:176-211 | an accepted segment with a short tfhd whose duration doubles when it is moved |
| Fmp4Examples.WayBackIsRefused | pkg/fmp4/fmp4.go:266-284 | an accepted segment, one tick before zero, whose way back is refused |
| Sorting.SortSorts | pkg/schedule/schedule.go:41-64 | the stable sort yields a sorted list |
| Sorting.SortPermutes | pkg/schedule/schedule.go:41-64 | with the same elements |
| Knapsack.ChooseSubset | services/engine/filler.go:149-177 | the in-place table and the walk back return the subset of the recurrence |
| Knapsack.BestSubsetIsOptimal | services/engine/filler.go:149-177 | over the first 60 creatives that subset has the largest sum not above the limit, with the fewest creatives among all subsets of that sum, each position at most once |
| Filler.FillBreakExcluding | services/engine/filler.go:115-145 | the loops build the pod of the specification |
| Filler.FillBreak | services/engine/filler.go:109-113 | the last creative of the previous break is allowed again only when nothing else is left |
| Filler.PodFillsBreak | services/engine/filler.go:115-145 | a pod is an optimal partner subset followed by house creatives that cover the break and overshoot by less than the shortest one |
| Filler.RegistryOrderDoesNotMatter | services/engine/filler.go:109-145 | with distinct ids any order of the registry gives the same pod |
| Filler.LastIsNotRepeated | services/engine/filler.go:109-113 | the creative that ended the previous break is used only if the pod would be empty |
| Filler.BreakIsEmptyIff | services/engine/filler.go:109-145 | nothing plays exactly when no house creative may and no considered partner fits, also with the last creative allowed |
| Filler.PodIsOfRegistry | services/engine/filler.go:115-145 | every item of a pod plays a creative of the registry that is active, of whole segments and of the wanted category |
| Filler.HouseIsTakenIff | services/engine/filler.go:131-145 | each house creative is taken once, the longest first, exactly where it still fits |
| Filler.HousesAreRepeatedLast | services/engine/filler.go:131-145 | behind the partners each house creative plays at most as often as it is registered, the longest first, none left out that would fit, and only then one of the shortest again until the break is covered |
| Filler.StaticFiller.PodOf | services/engine/filler.go:70-83 | a break keeps the pod it was given, and the last creative is remembered |
| Filler.StaticFiller.Evict | services/engine/filler.go:87-92 | only pods of breaks older than an hour are forgotten |
| Schedule.ComputeInsertShift | pkg/schedule/schedule.go:83-119 | the loops compute the edit of the specification, or its refusal |
| Schedule.InsertRefinesSplice | pkg/schedule/schedule.go:83-119 | applied to a sorted disjoint table an insert is a splice of the function from seconds to entry and position, keeps order and disjointness, and adds its seconds |
| Schedule.ComputeSkip | pkg/schedule/schedule.go:123-155 | the loops compute the edit of the specification, or its refusal |
| ScheduleCut.SkipRefinesCut | pkg/schedule/schedule.go:123-155 | a skip works exactly when something is on the air; it cuts the rest of it, moves the positions of the chain earlier, leaves the freed time empty and the rest unchanged |
| ScheduleCut.SkipUndoesInsertIffNoGap | pkg/schedule/schedule.go:83-155 | skipping what was just inserted restores every second's entry and position if and only if there is no gap to the end |
| ScheduleCut.GapIsNotRestored | pkg/schedule/schedule.go:123-155 | a schedule with a gap that is not restored |
| Store.ComputeCheckEntries | pkg/schedule/schedule.go:41-64 | the check's loop returns the sorted entries or the first flaw |
| Store.CheckAcceptsIff | pkg/schedule/schedule.go:41-64 | entries are accepted exactly when there are not too many, each has a known type, a source where it needs one and none where it must not, a length, no negative offset and a start in the window, and sorted they are disjoint |
| Store.Channel.RunCommand | services/control-api/commands.go:79-125 | a command's transaction changes table, version and keys as specified, or nothing |
| Commands.InsertIsRefusedIff | pkg/schedule/schedule.go:83-93 | an insert is refused exactly for its length, or for an ad break while an ad break is on the air at that moment |
| Commands.CommandIsRefusedIff | services/control-api/commands.go:79-154 | by its fields, the stored keys and the schedule alone: which command is refused, for which reason of several, and what the answer of an applied one says |
| Commands.CommandShows | services/control-api/commands.go:79-154 | from its moment on an applied insert shows for exactly its seconds an ad break with its category and message, slate, or its asset from the first second; what was later follows |
| Commands.SkipCuts | services/control-api/commands.go:97-120 | an applied skip found something on the air, an ad break if it asks for one, and cuts the rest of it |
| StoreRuns.ExistingIsLive | pkg/storage/postgres.go:199-214 | the range read of a command returns every entry that ends after its moment, and no other |
| StoreRuns.EditedOnTable | services/control-api/commands.go:97-120 | the edit decided on what was read is the edit of the whole table |
| StoreRuns.CommandIsAcceptedIff | services/control-api/commands.go:97-120 | a command on good rows is refused by the check only for too many entries |
| StoreRuns.CommandKeepsSheet | pkg/storage/api_store.go:156-186 | a command keeps the table disjoint, raises the version by one when applied, conserves scheduled seconds and never collides on a start |
| StoreRuns.CommandRefinesAir | services/control-api/commands.go:97-120 | the entry and the position at every second after a command are the splice or the cut of those before |
| Stream.PlannedIsAir | services/engine/plan.go:34-91 | for content and bumpers the planned clip has the source and the position of the schedule, without an entry it is slate, only ad breaks have a break, with its start, length and message, and all slate plays the second of the clock |
| Stream.InsertRefinesStreamIff | pkg/schedule/schedule.go:83-119 | with pods that follow their breaks, an insert is a splice of the planned pictures at every second if and only if its moment is not inside an ad break |
| Stream.RestStartsOver | services/engine/plan.go:56-76 | the rest of a cut break is planned as a break of its own, with its pod from the first second on |
| Stream.BreakIsStartedOver | services/engine/plan.go:56-76 | a break of ten seconds whose spot starts over behind a slate in its middle, while its position goes on |
| Stream.SkipRefinesStream | pkg/schedule/schedule.go:123-155 | with pods that follow their breaks, a skip is a cut of the planned pictures at every second |
| Stream.CommandRefinesStreamIff | services/control-api/commands.go:97-120 | an applied command splices or cuts the stream if and only if it does not insert inside an ad break |
| StoreRuns.RunKeepsSheet | pkg/storage/api_store.go:156-186 | the same over every run of commands, each with the assets of its time: version counts the applied ones, seconds are initial plus inserted minus skipped |
| StoreRuns.RepeatIsAnswered | pkg/storage/api_store.go:156-186 | after any run, a request with a used key changes nothing, with another body is refused, and with the same body gets the first answer exactly when it still passes the first checks |
| StoreRuns.LateRepeatIsRefused | services/control-api/commands.go:79-95 | a repeat whose fixed time has come too close is refused instead |
| Plan.BuildQuanta | services/engine/plan.go:93-117 | the loops expand, pad, trim and mark the pod of a break |
| Plan.QuantaAt | services/engine/plan.go:93-117 | every second of a break plays the second of the creative it falls on, or the slate behind the pod |
| Plan.LayoutsAgree | services/engine/plan.go:34-91 | layouts of the same seconds made at different moments agree but for the flag of the first clip |
| Plan.LayoutMarksEdges | services/engine/plan.go:84-86 | a second of a layout carries the flag exactly where ads begin or end, and where an ad break begins |
| Plan.DueIsReleased | services/engine/plan.go:57-57 | at every nanosecond a clip is due for the planner exactly when the engine releases it |
| AdBroker.Pods.Pod | services/engine/ads.go:66-107 | a question asks, retries or waits, and answers that arrive meanwhile are used only while their entry is pending |
| AdBroker.Pods.Abandon | services/engine/ads.go:109-115 | giving up decides the break for slate |
| AdBroker.Pods.Forget | services/engine/ads.go:118-123 | only breaks older than an hour are forgotten |
| AdBroker.GiveUpKeeps | services/engine/ads.go:109-115 | giving up an undecided break decides it and touches no other |
| AdBroker.AskedKeeps | services/engine/ads.go:66-107 | whatever arrives and when, a decided pod stays decided and unchanged |
| AdBroker.FirstAnswerDecides | services/engine/ads.go:66-107 | a break that is new, under way or failed and repeated becomes ready with the first pod that arrives, fails with the first failure, and waits otherwise |
| Planner.BuildPlan | services/engine/plan.go:18-91 | the loop with its stateful pod source computes the specified plan and broker |
| Planner.PlanIsLayout | services/engine/plan.go:18-91 | every plan is the gap-free pointwise layout of schedule and decided pods, and only seconds that are not released are held back |
| Planner.PlanMarksEdges | services/engine/plan.go:84-88 | the same for every plan that is built |
| Planner.BreaksAreDecidedWell | services/engine/plan.go:56-64 | a plan decides a break only by a pod that arrived or by giving it up when it is due, and is held back only before an undecided break |
| Planner.ReplanningIsStable | services/engine/plan.go:18-91 | plans made from brokers of which one keeps the other's pods agree on every shared second but for the flag of the later plan's first clip |
| Planner.ReleaseDue | services/engine/engine.go:189-199 | the release loop tries the due clips that were not tried, while time lasts |
| OnePod.Engine.Tick | services/engine/engine.go:173-199 | a tick plans, forgets old breaks and releases, as specified |
| OnePod.PodsPersist | services/engine/ads.go:66-123 | a decided pod stays the same over every run of ticks that does not pass the start of the break by an hour |
| OnePod.PlansOfARunAgree | services/engine/plan.go:18-91 | so the plans of two ticks of one run agree on every shared second but for that flag |
| OnePod.ForwardPlansAgree | services/engine/plan.go:18-91 | with a clock that goes forward and breaks of at most an hour all plans of a run over one schedule agree so |
| OnePod.OnePodPerBreak | services/engine/engine.go:173-199 | in every interleaving the released seconds of a break of any length play one pod, as long as no tick between them is more than an hour behind its start |
| OnePod.OnePodWithinTheHour | services/engine/engine.go:173-199 | for a break of at most an hour a clock that does not go back is enough, or time for a clip in every tick |
| OnePod.ForgottenIsSlate | services/engine/ads.go:118-123 | once a tick was later than that and no pod arrives for what is asked afterwards, every second of the break plays slate |
| OnePod.OnePodIffNoLateTick | services/engine/ads.go:66-123 | when no pod arrives behind a late tick, two seconds play one pod if and only if there was no late tick or the pod was empty |
| OnePod.RestartAsksAgain | services/engine/engine.go:79-93 | a new process plays slate in a break that an earlier one began, until a pod arrives |
| OnePodClock.ClockBackSplitsABreak | services/engine/ads.go:118-123 | a run in which the clock goes back over a late tick, and a break starts with its ad and goes on with slate |
| OnePodClock.LongBreakIsSplit | services/engine/ads.go:118-123 | a run with a clock that only goes forward in which a break of two hours is split |
| OnePodClock.RestartSplitsABreak | services/engine/engine.go:79-93 | a process that plays an ad of a break and a new one that plays slate in its next second |
| Broadcast.OnePodOnAir | services/engine/engine.go:173-199 | in every run of a process, all that its stitcher writes for a break is the second of one pod if that ad is available, and the slate only where it is not, if no tick was an hour late for the break |
| Broadcast.OnePodPublished | services/engine/engine.go:173-200 | every segment of every playlist that the process publishes was written so |
| Broadcast.ShortBreakIsInTime | services/engine/ads.go:118-123 | no tick is late for a break of at most an hour when the clock does not go back or every tick has time for a clip |
| Stitcher.Window.Append | services/engine/stitch.go:440-448 | the window slides to its size and counts the discontinuities that leave |
| Stitcher.Window.Cleanup | services/engine/stitch.go:551-565 | files of leaving segments are retired and those retired long enough deleted, oldest first |
| Stitcher.Window.DeleteRetired | services/engine/stitch.go:568-577 | files the window or a later retirement uses are kept |
| Stitcher.Window.Place | services/engine/stitch.go:491-511 | the number, time, discontinuity and markers of a new entry |
| Stitcher.Window.Add | services/engine/stitch.go:487-538 | the whole state after a clip: duplicate, unresolvable, not writable, or added |
| Sources.ClipIsAiredIff | services/engine/stitch.go:366-428 | the clip's own segment is aired if and only if it is available, the slate of that second if and only if only that is, and the clip is dropped if and only if neither is |
| Sources.FilesAreNeeded | services/engine/stitch.go:487-556 | a clip is lost when the directory or the segment cannot be written, and when its init section cannot and is not there yet |
| Sources.TryIsAiredIff | services/engine/stitch.go:366-428 | the same for every try of every run that is later than all that was aired before it |
| Airings.TimelineStartsIn2020 | services/engine/stitch.go:404-406 | the media timeline starts with the first second of the year 2020 |
| Playlist.RenderPlaylist | services/engine/stitch.go:643-665 | the loop prints the specified lines |
| Playlist.Target | services/engine/stitch.go:644-645 | the target duration is the least one from the floor on that no segment exceeds |
| Playlist.RestoreWindow | services/engine/stitch.go:680-726 | the scan, testing starts of lines in the program's order, computes the specified state |
| PlaylistRoundTrip.RoundTrip | services/engine/stitch.go:643-726 | restoring a printed window gives the same entries and counters, the next number and last times, and prints identical lines |
| PlaylistRoundTrip.RestoresIff | services/engine/stitch.go:714-716 | nothing is lost if and only if every segment lasts at least a millisecond |
| PlaylistRoundTrip.EmptySegmentIsLost | services/engine/stitch.go:714-716 | a segment of zero milliseconds, which needs a tolerance of at least a second to be accepted, is lost |
| PlaylistRoundTrip.SegmentsArePrinted | services/engine/stitch.go:643-665 | the playlist is its header and the lines of each segment, with an init section exactly at the start, behind a discontinuity and where it changes |
| LivePlaylist.ClipSlides | services/engine/stitch.go:487-538 | a clip, whatever becomes of it, keeps the window well-formed and slides it |
| LivePlaylist.RestartIsGood | services/engine/engine.go:96-129 | a restart continues the last published playlist |
| LivePlaylist.RestartKeepsPublished | services/engine/engine.go:96-129 | in every run a restart keeps exactly the files of the last published playlist, with what was in them |
| LivePlaylist.PublishedPlaylistsSlide | services/engine/engine.go:189-200 | over every run with failures, failed prints and restarts, each published playlist is any earlier one with a suffix appended and a prefix dropped, numbers are consecutive, times grow, sizes stay within the limit and the discontinuity sequence grows by the tagged segments that left |
| LivePlaylist.ReachedWindowIsRestored | services/engine/stitch.go:643-726 | every window a run can reach comes back from its printed lines with its next number and last start, and prints the same again |
| LivePlaylist.NumbersAreStable | services/engine/stitch.go:643-665 | a sequence number stands for the same segment in all playlists |
| LivePlaylist.DiscontinuityNumbersAreStable | services/engine/stitch.go:443-443 | a segment keeps its discontinuity number while the window slides |
| LivePlaylist.EdgeMovesOn | services/engine/stitch.go:643-665 | the first number, the edge and the discontinuity sequence never go back |
| Airings.FirstOfStream | services/engine/stitch.go:498-512 | the first segment of a stream takes the number of its second and has no discontinuity |
| Airings.Gapless | services/engine/stitch.go:366-538 | in every run a segment without a discontinuity is the next index of the same source at the next second, and fragments that are back to back in the source, by their durations there, are so in the written bytes |
| Airings.BreaksAreAnnounced | services/engine/stitch.go:596-639 | in every run the markers of a segment are exactly those of its second in the configured form: the end of the break that the segment before it was in, and the start of one that begins there, with id, length and message |
| Airings.MarkersBracketBreaks | services/engine/stitch.go:596-639 | between two OUT markers an IN marker closes the first break with its id, before other markers, and every segment up to it belongs to that break |
| Airings.EndIsMarkedIff | services/engine/stitch.go:596-608 | behind a restart the end of the interrupted break is marked if and only if a segment of it was aired after the restart |
| RestartExample.EndIsLost | services/engine/stitch.go:680-726 | in every run that airs a break's first second, restarts and goes on behind the break, its start is marked and its end never |
| RestartExample.EndIsNeverMarked | services/engine/stitch.go:680-726 | one such run |
| PlaylistRules.TargetIsConstantIff | services/engine/stitch.go:643-645 | all playlists of every run print the same target duration if and only if no accepted segment can exceed it |
| PlaylistRules.TargetIsAnnounced | services/engine/stitch.go:643-649 | the printed target duration is the least whole second from the floor on that no printed segment duration exceeds |
| PlaylistRules.RemovalLeavesThreeTargetsIff | services/engine/stitch.go:440-448 | in every reached state a removal leaves three target durations if and only if a full window of the shortest accepted segments, and where the tolerance can raise the target to two seconds with one of 1001 ms, holds them |
| PlaylistRules.AvailableIff | services/engine/stitch.go:551-565 | in every run removed segments stay for their second and those of a full window if and only if the retention time is longer than the window |
| PlaylistRules.DefaultsFallShort | pkg/config/config.go:58-77 | with the defaults some run changes its target duration, some run drops a removed segment too early, and every removal leaves three target durations |
| Retention.ExpiryDeletesWhatIsDue | services/engine/stitch.go:551-577 | expiry removes exactly the due files that neither the window nor a later retirement uses |
| Retention.FilesAreRetained | services/engine/stitch.go:529-577 | in every run the window's files and those of segments that left less than the retention time ago are there, hold what was written, and there are at most window size plus retention seconds of segment files |
| Events.Hub.Publish | pkg/events/events.go:47-62 | an event enters the ring and every open subscription, and a full one is cut off |
| Events.Hub.Subscribe | pkg/events/events.go:80-88 | the replay is the events of the ring after the given id |
| Events.NewerIsSuffix | pkg/events/events.go:80-88 | a replay starts right after the last event seen, or at the oldest one left |
| Events.PushKeepsAccounts | pkg/events/webhook.go:84-101 | whatever the worker does meanwhile, a pushed event is kept and only older ones are dropped and counted |
| Events.PushDropsOnlyWhenFull | pkg/events/webhook.go:84-101 | a push into a queue of fewer than 512 events appends the event and drops nothing; into a full one it drops exactly one, unless the worker took all 512 before, and says what is then waiting and taken |
| Webhooks.PushToAll | pkg/events/webhook.go:84-101 | every queue gets the event by the three attempts of the sender |
| Webhooks.Loop.Reopen | pkg/events/webhook.go:108-113 | the sender takes up again after the last event it handed on |
| Webhooks.EventsAreDelivered | pkg/events/webhook.go:75-121 | in every interleaving ids strictly increase, an id is missing only when the ring had lost it at a subscription, which needs more than its capacity of events, per queue pushed equals waiting plus taken plus dropped, the taken are in order, and the newest waits or was taken |
| Webhooks.InTimeNothingIsLost | pkg/events/webhook.go:108-113 | if every subscription was in time the ids are consecutive |
| Webhooks.LostIffTooLate | pkg/events/webhook.go:108-113 | after a cut-off the next id is skipped if and only if the ring no longer had it |
| Webhooks.DropsAreOverflows | pkg/events/webhook.go:84-101 | in every run a queue has dropped exactly as many events as there were pushes that found 512 waiting of which the worker did not take all meanwhile |
| Webhooks.KeepingUpLosesNothing | pkg/events/webhook.go:84-101 | in every run in which at most 511 pushed events are not yet taken when the next one comes, all pushed events were taken or wait, in order |
| LostEvent.EventIsLost | pkg/events/webhook.go:108-113 | a run in which event 257 is never handed on |

## Left out

- HTTP servers and clients, server-sent events, webhook requests with signing and backoff, SQL, connections and migrations: only their effect on tables, queues and sources is modelled.
- `schedule:replace` as a step of a run: it deletes by start time only, so an entry that began before its window may overlap what it writes; the run invariants are for commands.
- The expiry of idempotency keys after 24 hours: keys are remembered for ever.
- The join of entries with the addresses of assets in the range read.
- Restarts in `Airings.Gapless`, `Airings.MarkersBracketBreaks`, `Retention.FilesAreRetained` and `OnePod.OnePodPerBreak`: the previous segment, the break on the air, the retired files and the pods are not restored. What a restart does to markers and pods is said by `Airings.EndIsMarkedIff`, `OnePod.RestartAsksAgain` and `OnePodClock.RestartSplitsABreak`. `Broadcast` is about one process too.
- Upstream.StartMarkerStarts: gives the length of the break as the seconds that hold its ticks, a product of 64 bits, and not as the seconds of the marker. The warnings and the keys of the endpoint for messages are not modelled.
- The pod of a moved break: the theorems of `Stream` are about pods that follow their breaks. A break with a new start is asked for again, and may get another pod.
- A playlist file that cannot be read on restart: the engine then starts fresh, which breaks the rules of a live playlist; `LivePlaylist` restarts from the file as it was written.
- A window of size 0 cannot be printed and a negative one cannot slide (the program stops), so runs ask for a size of at least 1, a duration tolerance below a second and a variant name that does not start with '#'.
- A tfdt box shorter than its fields: the program checks it only against the end of the segment, so the theorems about moved segments ask that the decode time lies inside its own box.
- Playlist rules: the duration of a removed segment and of its longest playlist is counted in seconds of the stream, and the conditions on three targets and on availability cover windows whose run fits into the first 2^40 seconds of the timeline.
- `ParseInit`, downloads, caches, allow lists, URI mapping and the reasons of failures: a source is what the network answers for it, and a track table is given.
- Spelling of dates, numbers and names in playlist lines: a line is the text it starts with and a value. Digests of init sections are taken as injective, so their name is their content.
- Deletions and temporary files that fail in the file system are not modelled: deleting a retired file succeeds.
- Sub-second start times of clips, clocks before 1970 and a negative lead or look-ahead: the planner's grid is whole seconds and these settings are natural numbers.
- Channel and asset management, configuration, metrics, logging, API keys, announcements, the counter of init changes and the master playlist: they would only add easy members.
