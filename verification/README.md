# Caudal, verified

A Dafny model of the stateful core of the live media server Caudal: the components every frame passes through,
without their sockets, tasks and clocks. Each component is modelled twice where the program changes state: as
functions on values that say what an operation does, and as a class whose methods and loops do it, proved equal.
The properties are lemmas about the functions, over whole runs and all interleavings.

| files | component |
|---|---|
| `PackagerModel`, `Packager` | the LL-HLS packager: pending frame, open part, open segment, window, init generations |
| `PlaylistWindow`, `PackagerInvariants`, `PackagerSteps`, `PackagerTheorems` | the packager's invariant, kept by every operation, and what it means for a player |
| `PackagerAudio` | where the second track's audio ends up |
| `Playlist`, `Follow` | the playlist printed and parsed, and the client that follows it by blocking reloads |
| `Fmp4`, `SegmentFile`, `SegmentRoundTrip` | fragments written to segment files and read back |
| `Clip`, `Mp4Source`, `ClipRoundTrip`, `RecordingRoundTrip`, `Mp4Player` | clips planned, opened and played: the byte pipeline end to end |
| `Ring`, `RingLog`, `RingDecode`, `Subscribers` | the live ring and its viewers, against an append-only log |
| `Timing`, `Stitcher`, `StitchRecord`, `OnAir` | clocks of pulled, failed-over and file-fed streams |
| `Shuffle` | the order a channel plays its files in |
| `Resampler`, `Chunker`, `Captions` | audio on its way to captions |
| `Handoff` | one packager a name, across republishes |
| `Switcher`, `Pacer` | which source is on air, and when datagrams go out |
| `Calendar`, `Util` | date arithmetic, and shared vocabulary |

`dafny verify dfyconfig.toml` checks the whole project.

Time is a parameter, integers are unbounded, and Rust's `/` on negative numbers is written out as `Util.TruncDiv`.
Some records carry fields that the program does not have, each marked where it is declared: they remember history
(evicted segments, the samples in a part, which ring entries were join points and which were video, which chunks a
piece was joined from) and no operation's behaviour depends on them.

Where the code and its own comments disagree the model follows the code:

- "No part exceeds PART-TARGET" (`crates/caudal-hls/src/packager.rs:10`) is false for a single long frame:
  `PartExceedsExactly`, `OneFrameCanExceed`.
- "After the first reordered frame" (`crates/caudal-cluster/src/timing.rs:10`) is not when decode times settle:
  `NeverLateExactly` gives the exact condition for no more late frames, from any clock on; `ConvergesOnceReserved` and
  `FewLateFrames` follow what meets it, `DenseNeverConverges` what never does.
- "Every frame still in the ring can be decoded" (`crates/caudal-core/src/stream.rs:10`) needs track lists that agree
  on one video track (`ListsMustAgree`, exact), and then fails exactly while some video frame and no join point fits
  under the byte cap (`DecodableExactly`): before the first keyframe, and when the newest group alone is over the cap
  (`LargeGroupFails`).
- "Deadlines never go backwards" (`crates/caudal-multicast/src/pacer.rs:45`) fails on an early re-anchor:
  `BackwardsExactly`, `BackwardsHappens`.
- A segment's exact shift in the stitcher goes stale exactly when the track that started it changes its timescale
  without `begin`: `TracksStayTogether`, `ReclockedExactly`, `RetrackingNeedsBegin`.
- The frame duration the stitcher keeps "on its clock" (`crates/caudal-failover/src/stitch.rs:32`) is on the track's
  clock in every run exactly if the last two frames out were on one clock: `DeltaIs`, `DistanceExactly`. Otherwise the
  next switch can land seconds off: `RetimedSwitchJumps`.
- The chunker's cut loop does not end when `max_ms` is under one analysis frame and the buffer is full:
  `CutsEndExactly`, `EndsExactly`.
- A channel file whose times are below zero can land before its base (`BeforeZeroItCanLandEarly`); `FileLandsExactly`
  and `FrameLandsExactly` say exactly when.
- A cue before any frame makes the ring's cutoff overflow (`crates/caudal-core/src/stream.rs:157`); the newest time is
  an option here, and with no frame there is no join point for the cutoff to matter to.

## Model

| member | source | states |
|---|---|---|
| Packager.Packager.constructor | crates/caudal-hls/src/packager.rs:223-260 | A new packager has no tracks, no segments and a target of the configured segment length, rounded up to a second. |
| Packager.Packager.SetTracks | crates/caudal-hls/src/packager.rs:371-438 | A new track list flushes and switches lanes and init segment (a new generation if anything is listed); the same one changes nothing and says so. |
| Packager.Packager.Push | crates/caudal-hls/src/packager.rs:441-450 | A frame goes to the primary or the secondary lane by its track; after the end, and for other tracks, nothing changes. |
| Packager.Packager.PushPrimary | crates/caudal-hls/src/packager.rs:452-502 | The held-back frame gets its duration from the next one, the cut rules run, a jump restarts with a discontinuity, and a segment opens only on a key frame. |
| Packager.Packager.Cut | crates/caudal-hls/src/packager.rs:471-495 | Before a key frame a long enough segment closes, or a part of 85% of the target, or part and segment; otherwise a part that would grow over its target closes. |
| Packager.Packager.Settle | crates/caudal-hls/src/packager.rs:452-495 | What becomes of the held-back frame, over all the cut rules and the timestamp jump. |
| Packager.Packager.PushSecondary | crates/caudal-hls/src/packager.rs:504-522 | Audio durations come from the next frame or a fallback, and without an open segment only the newest frames stay queued. |
| Packager.Packager.Trimmed | crates/caudal-hls/src/packager.rs:515-521 | The queue without an open segment is its newest frames only. |
| Packager.Packager.CommitPrimary | crates/caudal-hls/src/packager.rs:524-530 | A frame that would stretch the part over its target closes the part first. |
| Packager.Packager.OpenSegment | crates/caudal-hls/src/packager.rs:544-575 | A segment takes the next number, and is flagged after a track change, a resume, or a start gap outside 0 to 500 ms. |
| Packager.Packager.TakeAudio | crates/caudal-hls/src/packager.rs:577-595 | A part takes the queued audio that starts before it ends, except what ended before the floor; the rest stays queued in order. |
| Packager.Packager.ClosePart | crates/caudal-hls/src/packager.rs:577-613 | Closing a part encodes its samples as one fragment, appends it to the open segment and empties the part. |
| Packager.Packager.CloseSegment | crates/caudal-hls/src/packager.rs:615-649 | Closing a segment concatenates its parts, raises the target, evicts what exceeds the window and drops init segments nobody lists. |
| Packager.Packager.EvictOldest | crates/caudal-hls/src/packager.rs:639-645 | The oldest segments go until six complete ones are left, counting the discontinuities that go. |
| Packager.Packager.RetainInits | crates/caudal-hls/src/packager.rs:646-647 | Only init segments of generations still listed stay. |
| Packager.Packager.Concatenate | crates/caudal-hls/src/packager.rs:623-637 | A whole segment is its parts' bytes, one after the other, and each part stays a view of the same bytes. |
| Packager.Packager.Flush | crates/caudal-hls/src/packager.rs:653-672 | Held-back frames are committed with guessed durations, then part and segment close. |
| Packager.Packager.Lagged | crates/caudal-hls/src/packager.rs:675-679 | After a lag the packager flushes, forgets queued audio and waits for a key frame. |
| Packager.Packager.End | crates/caudal-hls/src/packager.rs:681-685 | Ending flushes and marks the playlist ended. |
| Packager.Packager.Suspend | crates/caudal-hls/src/packager.rs:690-693 | Suspending flushes and keeps the playlist open. |
| Packager.Packager.Resume | crates/caudal-hls/src/packager.rs:698-711 | Resuming marks the next segment as a discontinuity if anything is listed. |
| Packager.Packager.InitFor | crates/caudal-hls/src/packager.rs:715-720 | The current init segment or an old one, by generation. |
| Packager.Packager.LastPart | crates/caudal-hls/src/packager.rs:723-725 | The coordinates of the newest closed part. |
| Packager.Packager.LastComplete | crates/caudal-hls/src/packager.rs:736-738 | The number of the newest complete segment. |
| PackagerSteps.ApplyReady | crates/caudal-hls/src/packager.rs:371-711 | Every operation, in every state, keeps the whole invariant: numbering, tiling, init segments, discontinuities, window. |
| PackagerSteps.ReachReady | crates/caudal-hls/src/packager.rs:223-711 | The invariant holds after any sequence of operations. |
| PackagerTheorems.PartsFormAChain | crates/caudal-hls/src/packager.rs:728-733 | In every reachable state all parts ever closed are (0, 0) and then successors of each other, `next_part` follows the last, and segment numbers are contiguous. |
| PackagerTheorems.NextPartCloses | crates/caudal-hls/src/packager.rs:452-733 | Whatever the next operation is, the first part it closes is the one `next_part` named, and segment numbers never go down. |
| PackagerInvariants.FlushReady | crates/caudal-hls/src/packager.rs:653-672 | A flush keeps the number of segments there ever were, and everything but the newest: the branch that takes an empty segment's number back is never taken. |
| PackagerInvariants.CloseBothMid | crates/caudal-hls/src/packager.rs:577-649 | Closing part and segment when a key frame ends them completes the open segment, which is never empty, and keeps every other. |
| PackagerTheorems.SegmentsTile | crates/caudal-hls/src/packager.rs:471-542 | Each segment starts on a key sample, its samples follow without gap or overlap, every part of two samples or more spans at most the part target, and no segment is longer than the target duration. |
| PackagerTheorems.PartsMeet | crates/caudal-hls/src/packager.rs:577-613 | Each part starts at the tick where the one before it ends. |
| PackagerTheorems.PartsLongEnough | crates/caudal-hls/src/packager.rs:471-495 | With frames of at most 15% of the part target, every part that is not last in its segment spans at least 85% of it (section 4.4.4.9 of RFC 8216bis). |
| PackagerTheorems.PartExceedsExactly | crates/caudal-hls/src/packager.rs:9-12 | A part exceeds the part target exactly when it is one frame longer than the target. |
| PackagerTheorems.OneFrameCanExceed | crates/caudal-hls/src/packager.rs:9-12 | A reachable state with such a part: two key frames a second apart under a 200 ms target. |
| PackagerTheorems.InitForListed | crates/caudal-hls/src/packager.rs:401-425 | Every listed segment's generation resolves to the init segment that was in force when it was opened. |
| PackagerTheorems.OpenedUnderInit | crates/caudal-hls/src/packager.rs:544-571 | While a segment is open the init segment it remembers is the current one. |
| PackagerTheorems.DiscontinuitiesAreMarked | crates/caudal-hls/src/packager.rs:544-571 | Neighbouring segments without a discontinuity share their init generation and the second starts 0 to 500 ms after the first ends. |
| PackagerTheorems.DiscontinuitiesAreCounted | crates/caudal-hls/src/packager.rs:639-645 | `discontinuity_seq` plus the flagged segments in the window are all ever flagged (section 6.2.2 of RFC 8216). |
| PackagerTheorems.LookUpPart | crates/caudal-hls/src/packager.rs:745-770 | A part's URI is found exactly while its segment is in the window, with the part's bytes, and worth waiting for exactly if it is the next part of a live playlist. |
| PackagerTheorems.LookUpSegment | crates/caudal-hls/src/packager.rs:745-770 | A segment's URI is found exactly while the complete segment is in the window, as its parts concatenated, and worth waiting for exactly if it is the open one. |
| PackagerTheorems.BytesNeverChange | crates/caudal-hls/src/packager.rs:623-637 | Bytes found once are found again, the same, after any operation that does not evict the segment. |
| PlaylistWindow.EvictOk | crates/caudal-hls/src/packager.rs:639-645 | Eviction moves the oldest segments out of the window and keeps every count exact. |
| PackagerAudio.ApplyAudio | crates/caudal-hls/src/packager.rs:371-711 | Every operation keeps all the audio of the second track, published or waiting, in order, and adds what it brings; it leaves out only what a lag, a resume or a track change gives up, what ended before the first frame after a wait, and what lies beyond the tail kept without an open segment. |
| PackagerAudio.AudioAccounted | crates/caudal-hls/src/packager.rs:371-711 | Over any run, every audio sample pushed for the second track is in exactly one part or still waits, in the order of pushing, or was left out by one operation for one of those reasons. |
| Playlist.PrintPlaylist | crates/caudal-hls/src/packager.rs:793-888 | The printing loop writes exactly the lines of the specification, with a map line at each change of init segment. |
| Playlist.ParseMedia | bench/client/src/main.rs:397-437 | The client's loop over the lines computes the playlist the line-by-line reader defines. |
| Playlist.ParseOfRender | crates/caudal-hls/src/packager.rs:793-888 | Parsing a rendered playlist, which counts lines, recovers exactly the listed parts under their true numbers, and the open segment as that of the next part. |
| Playlist.ReadSegment | bench/client/src/main.rs:397-437 | A printed segment reads as its parts, its own init segment and, if complete, one sequence number. |
| Playlist.RenderResolves | crates/caudal-hls/src/packager.rs:715-888 | Everything a printed playlist points at resolves: parts and segments are found, every init segment is known, and the preload hint is the part the server waits for. |
| Follow.Client.Step | bench/client/src/main.rs:543-566 | One turn of the client fetches the listed parts from `next` on, in order, and moves `next` past the last. |
| Follow.ExactlyOnce | bench/client/src/main.rs:524-566 | Over any session of operations and answers the server gives, with at most two newer segments opened between a request and its answer, the client has fetched every part since it joined, once each and in order; every answer of a live stream brought at least one new part, and every part request before the next answer finds its bytes (section 6.2.5.2 of RFC 8216bis). |
| Follow.WaitsForNews | crates/caudal-hls/src/lib.rs:698-706 | For a client that has everything, the reload is satisfied exactly when the stream has ended or a part it does not have is published. |
| Follow.JoinTracks | bench/client/src/main.rs:524-542 | A client that joins fetches the newest part and follows from there. |
| Follow.NeverRefused | crates/caudal-hls/src/lib.rs:689-711 | A following client's request is never past the live edge, however late it arrives: it is not refused. |
| Follow.TooLateMisses | bench/client/src/main.rs:543-566 | The bound is exact: with three newer segments opened, the part asked for exists but is not fetched. |
| Follow.ListedCanBeFetched | crates/caudal-hls/src/packager.rs:745-770 | A listed part can still be fetched, with the same bytes, until four newer segments have opened. |
| Follow.AnswerTracks | crates/caudal-hls/src/lib.rs:689-711 | One answer, after any operations, brings the client up to the whole history. |
| Timing.TrackClock.Stamp | crates/caudal-cluster/src/timing.rs:38-67 | Decode time, possibly bumped presentation time and the new reserve of one frame. |
| Timing.DtsIncreases | crates/caudal-cluster/src/timing.rs:38-67 | Over any run decode times strictly increase. |
| Timing.InOrderIsExact | crates/caudal-cluster/src/timing.rs:38-67 | Input in presentation order gets decode times equal to presentation times throughout. |
| Timing.LateExactly | crates/caudal-cluster/src/timing.rs:38-67 | A frame's decode time is above its presentation time exactly when the last decode time had already reached that presentation time. |
| Timing.NeverLateExactly | crates/caudal-cluster/src/timing.rs:10-14 | For any clock and any input, so for any tail of a run: no frame is late if and only if counting up one tick a frame, from the last decode time and from each time the input asks for, never overtakes a presentation time. |
| Timing.ConvergesOnceReserved | crates/caudal-cluster/src/timing.rs:10-14 | By that condition, once a frame that is not bumped meets a reserve of twice the reordering depth, no later frame is late and the reserve stays. |
| Timing.FewLateFrames | crates/caudal-cluster/src/timing.rs:10-14 | From a fresh clock, times at least two ticks apart and at most r out of order give at most 4r^2 late frames over a whole run, however long. |
| Timing.DenseNeverConverges | crates/caudal-cluster/src/timing.rs:10-14 | Times one tick apart and one out of order: every second frame is late, for ever, so the module comment holds only in the sense above. |
| Timing.LateFramesWiden | crates/caudal-cluster/src/timing.rs:52-60 | Each late frame widens the reserve: a run has at most as many as the reserve grew. |
| Timing.Rebase.Map | crates/caudal-cluster/src/timing.rs:92-102 | One source time mapped onto the running clock. |
| Timing.RebaseContinues | crates/caudal-cluster/src/timing.rs:85-102 | Within a source all distances are kept, and a new source's first frame lands exactly 50 ms after the newest time handed out. |
| Calendar.DateIsValid | crates/caudal-hls/src/packager.rs:981-997 | Every day count gives a valid proleptic Gregorian date (section 5.6 and Appendix C of RFC 3339). |
| Calendar.EpochIsDayZero | crates/caudal-hls/src/packager.rs:981-997 | Day 0 is 1 January 1970. |
| Calendar.DayAfterDay | crates/caudal-hls/src/packager.rs:981-997 | The date of day n + 1 is the calendar successor of the date of day n, leap years included. |
| Calendar.CountsFromEpoch | crates/caudal-hls/src/packager.rs:981-997 | The date of day n is the epoch stepped n times. |
| Calendar.CivilOfDays | crates/caudal-hls/src/packager.rs:981-997 | The arithmetic inverts the day number of every valid date. |
| Calendar.TimestampRoundTrip | crates/caudal-hls/src/packager.rs:981-997 | Date and time of day recover the second and the millisecond they were made from. |
| Fmp4.SizeIgnoresOffsets | crates/caudal-cmaf/src/fmp4.rs:245-253 | The size of a `moof` does not depend on the offsets in it, so measuring it first is right. |
| Fmp4.PatchOffsets | crates/caudal-cmaf/src/fmp4.rs:249-253 | Each run's offset is where the run before it ends. |
| Fmp4.WriteFragment | crates/caudal-cmaf/src/fmp4.rs:219-264 | The writer's loops produce the fragment: record, header and every run's bytes in order, empty runs left out. |
| SegmentFile.ReadFile | crates/caudal-record/src/clip.rs:347-400 | The reading loops over boxes, track fragments and entries compute the references and times of the specification, with its two errors. |
| SegmentFile.AppendRun | crates/caudal-record/src/clip.rs:363-387 | One run: consecutive offsets, accumulated decode times, and an error for a sample outside the file. |
| SegmentRoundTrip.SegmentComesBack | crates/caudal-record/src/clip.rs:347-400 | Any fragments written to a file are read back: every sample of every known track, in order, with its own bytes, or the error for a file without primary samples, exactly then (section 8.8.8 of ISO/IEC 14496-12). |
| SegmentRoundTrip.GapFreeComesBack | crates/caudal-cmaf/src/fmp4.rs:227-239 | A run comes back with its own decode times exactly when it has no gaps and does not start before zero. |
| SegmentRoundTrip.BoxesAreTheFile | crates/caudal-cmaf/src/fmp4.rs:219-264 | The boxes read are exactly the bytes written. |
| Clip.BuildChunks | crates/caudal-record/src/clip.rs:176-198 | The chunk loop joins a sample to the last chunk exactly when track, file and offset continue it. |
| Clip.BuildRuns | crates/caudal-record/src/clip.rs:334-343 | The run-length loop computes the table of the specification. |
| Clip.RunLengthExpands | crates/caudal-record/src/clip.rs:334-343 | A run-length table expands to what it was made from, and is as short as it can be. |
| Clip.BuildStsc | crates/caudal-record/src/clip.rs:236-243 | An entry for each change of samples per chunk. |
| Clip.Fill | crates/caudal-record/src/clip.rs:298-309 | Every track gets the places of its own chunks, all chunks laid out in order from the base. |
| Clip.HeaderIgnoresOffsets | crates/caudal-record/src/clip.rs:316-322 | The header is as long with the real chunk offsets as with the probe's: `moov size changed` never happens. |
| Clip.LayOut | crates/caudal-record/src/clip.rs:172-329 | The two-pass layout computes the plan; of its size tests only the limit of 2 GiB on the whole clip can fail a clip, and the test of the header's size never does. |
| Clip.ReadTouched | crates/caudal-record/src/clip.rs:121-142 | The segments the range touches, and only those, are read in order. |
| RecordingRoundTrip.MakeClip | crates/caudal-record/src/clip.rs:88-331 | The whole plan, with the errors of an empty or negative range, no tracks, a start past the end, a foreign playlist entry, a sample outside its file, a segment without primary samples, no key sample, and a clip too large, in the source's order. |
| RecordingRoundTrip.StartsOnAKey | crates/caudal-record/src/clip.rs:144-155 | The clip starts on the last key sample at or before the start asked for, else on the first one, and fails only if there is none; it ends on the last primary sample before the end. |
| RecordingRoundTrip.FilterKeeps | crates/caudal-record/src/clip.rs:157-167 | A sample is kept exactly when the range wants it. |
| RecordingRoundTrip.SortedStays | crates/caudal-record/src/clip.rs:168-169 | Samples are read in file order already: the stable sort changes nothing. |
| Mp4Source.ExpandOffsets | crates/caudal-channel/src/source.rs:247-262 | The nested loops over chunks and samples compute the offsets of the specification, for any tables. |
| Mp4Source.ExpandTimes | crates/caudal-channel/src/source.rs:263-270 | Decode times are the running sums of the expanded durations. |
| Mp4Source.OpenTrack | crates/caudal-channel/src/source.rs:238-298 | The samples of an opened track, from its tables, unless one of them is over 64 MiB. |
| Mp4Source.LookupIs | crates/caudal-channel/src/source.rs:250-252 | Looking a chunk up in the table of samples per chunk gives back its own count (section 8.7.4 of ISO/IEC 14496-12). |
| Mp4Source.OffsetsAreLaid | crates/caudal-channel/src/source.rs:247-262 | Expanding the writer's tables lays out each chunk's samples by the chunk's own count. |
| ClipRoundTrip.ChunksAreTabled | crates/caudal-record/src/clip.rs:176-243 | For every interleaving of tracks and chunks, the tables of a track lay its samples out at the places of the samples' own sizes (sections 8.7.3 to 8.7.5 of ISO/IEC 14496-12). |
| ClipRoundTrip.BodyIsTheData | crates/caudal-record/src/clip.rs:176-198 | The byte ranges of the plan, end to end, are the chosen samples' bytes, end to end. |
| ClipRoundTrip.OpenedClip | crates/caudal-record/src/clip.rs:176-325 | Any chosen samples of any files: opening a track of the clip gives that track's samples, all and in order, each at an offset where the clip holds exactly its bytes, with its size, times and key flag. |
| RecordingRoundTrip.ClipComesBack | crates/caudal-record/src/clip.rs:88-331 | End to end: written by `fragment`, read back, cut and opened, every chosen sample is among those of one of the clip's tracks, and each track's come out in recording order as the recorded samples, with the same size, duration, composition offset and key flag and exactly the same bytes; opening is refused exactly if one is over 64 MiB. |
| Mp4Player.Source.NextFrame | crates/caudal-channel/src/source.rs:329-351 | The next frame is that of the track due first, the first of several, read from its own place in the file. |
| Mp4Player.EverySampleOnce | crates/caudal-channel/src/source.rs:329-351 | Over a whole file every track's samples are played once each, in order. |
| Mp4Player.PlayedInTimeOrder | crates/caudal-channel/src/source.rs:329-351 | If each track is in decode order, frames come out in time order. |
| Ring.Stream.DropTo | crates/caudal-core/src/stream.rs:140-149 | The two loops drop the items and join points before a sequence number. |
| Ring.Stream.Trim | crates/caudal-core/src/stream.rs:151-175 | The eviction loops compute the eviction of the specification. |
| Ring.Stream.Push | crates/caudal-core/src/stream.rs:278-303 | A frame enters the ring as a join point or not and the ring is trimmed; an unknown track or an ended stream is an error and changes nothing. |
| Ring.Stream.InjectCue | crates/caudal-core/src/stream.rs:310-324 | A cue enters the ring at the newest frame's time, and never moves the eviction clock. |
| Ring.Stream.SetTracks | crates/caudal-core/src/stream.rs:261-276 | A new track list takes the next version; the same one does not. |
| RingLog.EvictKeepsTheLog | crates/caudal-core/src/stream.rs:151-175 | After eviction the ring is still the end of the log with exact bytes and exact join points, within its bounds, and nothing went that could have stayed. |
| RingLog.KeysLostExactly | crates/caudal-core/src/stream.rs:151-175 | One eviction leaves no join point exactly when there was none or the newest group alone is over the byte cap. |
| RingDecode.LargeGroupFails | crates/caudal-core/src/stream.rs:7-11 | A run with one video track: a group over the cap leaves its delta frame without its keyframe. |
| RingLog.ApplyHolds | crates/caudal-core/src/stream.rs:261-335 | Every operation keeps the log and the bounds. |
| RingLog.StreamHolds | crates/caudal-core/src/stream.rs:130-335 | After any run from the start: bytes are the exact sum and within the cap unless one item is left, join points are those of the log, start at the base, and the second is newer than the cutoff. |
| RingDecode.OneEvictionWouldDo | crates/caudal-core/src/stream.rs:151-303 | After any run the ring is what a single eviction of everything ever pushed would leave: evicting after every push loses nothing more and nothing less. |
| RingDecode.RunKeysExactly | crates/caudal-core/src/stream.rs:151-303 | After any run the ring has a join point exactly when some join point pushed still fits under the byte cap. |
| RingDecode.DecodableByTrack | crates/caudal-core/src/stream.rs:7-11 | Every video frame left has a keyframe of its track at or before it in the ring exactly when the oldest video frame left of each track is a keyframe. |
| RingDecode.DecodableExactly | crates/caudal-core/src/stream.rs:7-11 | Over any run whose track lists agree on the video track: every video frame left can be decoded if and only if a join point pushed still fits under the byte cap or no video frame does. |
| RingDecode.ListsMustAgree | crates/caudal-core/src/stream.rs:7-11 | Track lists agree on the video track if and only if every run with no other lists whose ring has a join point can decode every video frame left. |
| Subscribers.Subscriber.Receive | crates/caudal-core/src/stream.rs:385-411 | One read: track change first, then joining, lagging, the next item, or the end. |
| Subscribers.Subscriber.JumpToLive | crates/caudal-core/src/stream.rs:430-440 | A jump goes to the newest join point, and only forward. |
| Subscribers.Subscriber.Behind | crates/caudal-core/src/stream.rs:443-446 | The backlog counts what is buffered from the viewer on, and nothing for one that waits. |
| Subscribers.BacklogIsWhatRemains | crates/caudal-core/src/stream.rs:443-446 | The backlog is exactly what remains to be read; for a viewer behind the ring, with one lag before it. |
| Subscribers.Subscriber.constructor | crates/caudal-core/src/stream.rs:349-360 | A viewer starts at the newest or oldest join point, or waits for the first. |
| Subscribers.StepSound | crates/caudal-core/src/stream.rs:278-440 | Every push, cue, track change, end, join, read and jump keeps every viewer's trace legal for the log. |
| Subscribers.AllRunsSound | crates/caudal-core/src/stream.rs:278-440 | In any interleaving of one publisher and any number of viewers every trace is legal. |
| Subscribers.DeliveriesIncrease | crates/caudal-core/src/stream.rs:404-409 | Deliveries are a strictly increasing subsequence of the log, item for item. |
| Subscribers.RunsAreContiguous | crates/caudal-core/src/stream.rs:396-409 | Between two deliveries with no lag or jump seen nothing of the log is missing. |
| Subscribers.StartsOnAJoinPoint | crates/caudal-core/src/stream.rs:349-403 | The first delivery after joining, lagging or jumping is a join point. |
| Subscribers.SkippedIsExact | crates/caudal-core/src/stream.rs:396-403 | While join points are buffered: joined plus delivered plus reported skipped is exactly where the viewer is. |
| Subscribers.ReadTakesOne | crates/caudal-core/src/stream.rs:385-411 | Each read takes exactly one of the events that remain; with none, it is the end of an ended stream or nothing yet. |
| Subscribers.EndIsReached | crates/caudal-core/src/stream.rs:385-411 | An ended stream reaches `End` after exactly the events that remain, and stays there. |
| Stitcher.Stitcher.StampFrame | crates/caudal-failover/src/stitch.rs:80-134 | One frame: dropped, bumped or shifted, starting a segment at a join point. |
| Stitcher.Stitcher.OutputEnd | crates/caudal-failover/src/stitch.rs:73-76 | Where the output left off: the latest video end, or the latest end without video. |
| Stitcher.Stitcher.CueAt | crates/caudal-failover/src/stitch.rs:138-140 | A cue moves with the segment, and has no time before the segment's join point. |
| Stitcher.CueJoins | crates/caudal-failover/src/stitch.rs:138-140 | A cue at the join point goes out exactly where the output left off. |
| Stitcher.CeilBounds | crates/caudal-failover/src/stitch.rs:54-57 | The scaling rounds up: the least integer not below the quotient. |
| Stitcher.OutputMovesForward | crates/caudal-failover/src/stitch.rs:80-134 | Over any switches, track and timescale changes, per track the output is strictly increasing in real time. |
| Stitcher.TracksStayTogether | crates/caudal-failover/src/stitch.rs:36-45 | In every segment any run reaches, the shifts of two tracks of any later list differ by less than one tick of each plus two microseconds, if and only if neither is the track that started the segment on another clock. |
| Stitcher.RunBegun | crates/caudal-failover/src/stitch.rs:80-107 | Over any run the segment is the one its starting track's frame made, with that track as it was then. |
| Stitcher.ReclockedExactly | crates/caudal-failover/src/stitch.rs:97-118 | On another clock the starting track's shift is off by exactly the segment's shift times the difference of the clock rates. |
| Stitcher.RetrackingNeedsBegin | crates/caudal-failover/src/stitch.rs:61-68 | A run: the starting track moved from 90 kHz to 1 kHz without `begin` is 89 s from the other track. |
| Stitcher.FirstUnmoved | crates/caudal-failover/src/stitch.rs:80-107 | The very first frame goes out as it came. |
| Stitcher.LandsAtTheEnd | crates/caudal-failover/src/stitch.rs:92-131 | Every segment's first frame is put within a tick and a microsecond of where the output ended, new track or other clock included; there it goes out, or if its track went out that far, video a tick after that and sound not at all. |
| Stitcher.JoinsAtTheEnd | crates/caudal-failover/src/stitch.rs:97-131 | If the join track's record ends the output on the new source's clock, the first frame goes out exactly `delta` ticks after the last one. |
| StitchRecord.RunRecords | crates/caudal-failover/src/stitch.rs:120-131 | Over any run, every track's record is its last frame out, with the last distance of two neighbouring frames out on one clock, and nothing before a frame went out. |
| StitchRecord.DeltaIs | crates/caudal-failover/src/stitch.rs:29-35 | So `delta` is the distance of the last two frames out if they were on one clock, and else still the number of ticks it was before the last of them. |
| StitchRecord.DistanceExactly | crates/caudal-failover/src/stitch.rs:29-35 | For two clocks in a row on a track: in every run `delta` is how far apart the last two frames out were if and only if the clocks are the same. |
| StitchRecord.ContinuesExactly | crates/caudal-failover/src/stitch.rs:97-131 | At a switch where the join track's record ends the output on the new source's clock, the track continues exactly one frame after its last one, as far as the last two were apart, if those were on one clock; otherwise by the last distance measured on an older clock. |
| StitchRecord.RetimedSwitchJumps | crates/caudal-failover/src/stitch.rs:120-131 | A run otherwise: after a track moved from 90 kHz to 1 kHz, 33 ms a frame, the next source's first frame goes out three seconds on. |
| Stitcher.OneVideoEndsHere | crates/caudal-failover/src/stitch.rs:73-107 | With one video record, it ends the output on the new source's clock exactly when that is its own clock. |
| Stitcher.DropsOnlyABeginning | crates/caudal-failover/src/stitch.rs:112-129 | In a segment with strictly increasing source times, the audio dropped is a prefix, and every later frame keeps its exact distance. |
| Resampler.Resampler.Run | crates/caudal-captions/src/audio.rs:117-148 | The loops extend, filter and drain the input as the specification does, with every index in range. |
| Resampler.DrainIsIdeal | crates/caudal-captions/src/audio.rs:124-138 | Each output is the filter over the whole input so far: draining never discarded a sample it needs. |
| Resampler.StreamingEqualsBatch | crates/caudal-captions/src/audio.rs:117-148 | However the input is cut into pieces, the outputs together are those of one call on the whole input. |
| Chunker.Chunker.PauseFrom | crates/caudal-captions/src/chunk.rs:108-124 | The run-counting loop finds the pause of the specification. |
| Chunker.Chunker.Feed | crates/caudal-captions/src/chunk.rs:71-91 | On every buffer on which the loop ends, pushing cuts all it can, keeps the chunks that are not silence and drops leading silence. |
| Chunker.Chunker.Finish | crates/caudal-captions/src/chunk.rs:94-99 | Flushing gives what is buffered, unless it is silence. |
| Chunker.CutBounds | crates/caudal-captions/src/chunk.rs:108-139 | With `min` + one frame at most `max`, every cut lies from `min` to under `max` + one frame, within the buffer. |
| Chunker.CutProgress | crates/caudal-captions/src/chunk.rs:108-139 | Every cut takes at least one sample: the loop ends. |
| Chunker.CutsEndExactly | crates/caudal-captions/src/chunk.rs:74-82 | No buffer has an empty cut exactly when `max` is at least one frame. |
| Chunker.EndsExactly | crates/caudal-captions/src/chunk.rs:74-82 | The loop ends on every buffer exactly when `max` is at least one frame. |
| Chunker.PushConserves | crates/caudal-captions/src/chunk.rs:71-91 | Every sample pushed lands in order in exactly one chunk, one stretch of below-threshold frames, or the buffer, at its sample index. |
| Chunker.RunConserves | crates/caudal-captions/src/chunk.rs:71-91 | The same over any run of pushes. |
| Chunker.PushesThenFlush | crates/caudal-captions/src/chunk.rs:71-99 | Pushed and then flushed, every sample is in exactly one chunk or stretch of silence: nothing is left over. |
| Captions.JobQueue.Offer | crates/caudal-captions/src/lib.rs:193-219 | A piece joins the stream's newest job if that has room, else becomes a job if fewer than four wait, else is refused. |
| Captions.JobQueue.Next | crates/caudal-captions/src/lib.rs:222-239 | One turn of the loop: nothing once closed, the oldest job if there is one, and otherwise to wait. |
| Captions.Held.Add | crates/caudal-captions/src/lib.rs:533-546 | Less than a second of audio is held; with more, all that was held goes on. |
| Captions.OfferedIs | crates/caudal-captions/src/lib.rs:193-219 | A piece taken by the queue comes last of its stream's chunks, and no other stream sees a change. |
| Captions.StepConserves | crates/caudal-captions/src/lib.rs:533-711 | Each step keeps every stream's chunks: each exactly once live, dropped or lost, the live ones in the stream's order. |
| Captions.StepTallies | crates/caudal-captions/src/lib.rs:643-711 | The counters count exactly the chunks transcribed and dropped. |
| Captions.RunSound | crates/caudal-captions/src/lib.rs:533-711 | Over any run every submitted chunk is held, in one queued job, transcribed or counted dropped (and nowhere else until the model fails), at most four jobs wait, and order per stream is kept. |
| Captions.EveryRunSound | crates/caudal-captions/src/lib.rs:533-711 | The same from the start; and with nothing held or queued and no failure, a stream's two counters add up to the chunks it submitted. |
| Handoff.Publishers.Claim | crates/caudal-core/src/registry.rs:116-131 | A name is claimed by one publisher at a time. |
| Handoff.Publishers.Drop | crates/caudal-core/src/registry.rs:202-211 | Dropping a publisher ends its stream, then frees the name if it still holds it. |
| Handoff.Packagers.StartStream | crates/caudal-hls/src/lib.rs:249-290 | An announced stream is ignored, handed to its name's runner, or gets a fresh entry. |
| Handoff.Packagers.TakeSuccessor | crates/caudal-hls/src/lib.rs:185-199 | The runner takes a queued successor, and past the deadline closes the entry to others. |
| Handoff.Packagers.SwitchOver | crates/caudal-hls/src/lib.rs:348-358 | The entry's current stream becomes the successor taken. |
| Handoff.Packagers.Remove | crates/caudal-hls/src/lib.rs:370-375 | After lingering the entry leaves the map unless a newer one has the name. |
| Handoff.StartLocates | crates/caudal-hls/src/lib.rs:249-290 | Starting a live stream makes it some entry's current or queued stream, and leaves other names alone. |
| Handoff.OthersAreAhead | crates/caudal-hls/src/lib.rs:293-305 | A stale announcement can displace a newer live stream only while that one's own announcement is still to come. |
| Handoff.StepSound | crates/caudal-hls/src/lib.rs:185-376 | Every step of publishers, channel, listener, runners and deadlines keeps every live publish pending or located. |
| Handoff.RunSound | crates/caudal-hls/src/lib.rs:185-376 | Over any interleaving, lag of the channel included, no live publish is lost. |
| Handoff.BootSound | crates/caudal-hls/src/lib.rs:109-119 | Subscribing before listing misses no publish in between. |
| Handoff.AllHeardMeansLocated | crates/caudal-hls/src/lib.rs:185-376 | Once all is announced and heard, every live stream is fed, queued or just taken by its name's entry. |
| Handoff.NoPublishIsLost | crates/caudal-hls/src/lib.rs:109-376 | From an empty registry, whatever publishers did before the listener started and since: both of the above. |
| Switcher.Switcher.Record | crates/caudal-failover/src/switcher.rs:57-65 | The loop updates how long each source has been healthy. |
| Switcher.Switcher.Choose | crates/caudal-failover/src/switcher.rs:73-87 | The loops over the ranked list make the decision of the specification. |
| Switcher.RankIsTheOrder | crates/caudal-failover/src/switcher.rs:52-54 | Ranks are configuration order with the preferred source first. |
| Switcher.DecisionIs | crates/caudal-failover/src/switcher.rs:73-87 | What each decision means: always a healthy source; the best one at start, the best other one after silence, a strictly better ranked one healthy for the hold otherwise, and none only if there is none. |
| Switcher.SinceIsExact | crates/caudal-failover/src/switcher.rs:57-70 | The time kept for a source is the start of its unbroken health over all ticks. |
| Switcher.RecoveryWaits | crates/caudal-failover/src/switcher.rs:82-86 | A source unhealthy at some tick is not recovered to until at least the hold after it. |
| Switcher.SettlesOnTheBest | crates/caudal-failover/src/switcher.rs:73-87 | With constant health for the hold, the best ranked healthy source is on air. |
| Switcher.BestStays | crates/caudal-failover/src/switcher.rs:73-87 | And it never moves again. |
| Pacer.Pacer.DeadlineOf | crates/caudal-multicast/src/pacer.rs:72-96 | The deadline, and when the timeline is pinned anew. |
| Pacer.Pacer.RecordOutput | crates/caudal-multicast/src/pacer.rs:100-114 | The window loop drops what is older than a second. |
| Pacer.DeadlineIsNear | crates/caudal-multicast/src/pacer.rs:72-96 | A deadline lies from half a second behind the clock to two seconds ahead of it. |
| Pacer.BackwardsExactly | crates/caudal-multicast/src/pacer.rs:45-47 | Deadlines go backwards exactly when a jump ahead pins the timeline anew while the last deadline is still to come. |
| Pacer.BackwardsHappens | crates/caudal-multicast/src/pacer.rs:45-47 | Such a jump. |
| Pacer.RecordOk | crates/caudal-multicast/src/pacer.rs:100-114 | The window's byte count stays exact and the window no longer than a second. |
| Pacer.RatePositive | crates/caudal-multicast/src/pacer.rs:117-125 | A rate, when there is one, is positive: dividing by it is safe. |
| Pacer.SentInBounds | crates/caudal-multicast/src/pacer.rs:131-141 | A send time lies from the deadline to a second after it. |
| Pacer.SendsKeepTheRate | crates/caudal-multicast/src/pacer.rs:131-141 | For deadlines that do not go back, send times do not either, and are spaced by the rate's gap unless clamped. |
| OnAir.OnAir.NextFile | crates/caudal-channel/src/player.rs:81-95 | The base moves to the latest end, and each track gets its offset. |
| OnAir.OnAir.StampFrame | crates/caudal-channel/src/player.rs:98-115 | A frame shifted onto the channel clock, after the last of its track. |
| OnAir.FileBeginsAtTheEnd | crates/caudal-channel/src/player.rs:70-95 | The base never goes back and is at or after the end of everything that went out; offsets are at or after the base. |
| OnAir.OutputIncreases | crates/caudal-channel/src/player.rs:98-115 | Over any number of files, per track the output is strictly increasing. |
| OnAir.LandsExactly | crates/caudal-channel/src/player.rs:98-115 | A frame of a file lands at or after any tick exactly if its track's last frame, the frame itself or an earlier one of the track reaches that far, counting one tick a frame. |
| OnAir.FrameLandsExactly | crates/caudal-channel/src/player.rs:81-115 | A frame of a new file, below zero or not, lands at or after the file's base if and only if counting up from its track's last frame reaches the base, or counting up from it or an earlier frame of the track reaches the file's start as rounded. |
| OnAir.FileLandsExactly | crates/caudal-channel/src/player.rs:81-115 | All of a file's frames on a track land at or after its base if and only if the track's last frame was there or just before, or the file's first frame on the track is not before the file's start as rounded. |
| OnAir.FileLandsAfterBase | crates/caudal-channel/src/player.rs:81-115 | So they do whenever that first frame's time is from zero on and not before the file's start. |
| OnAir.BeforeZeroItCanLandEarly | crates/caudal-channel/src/player.rs:98-104 | A file whose first frame is below zero and misses the condition by the rounding: a tick before the base. |
| Shuffle.ShuffleInPlace | crates/caudal-channel/src/player.rs:160-165 | The swaps in place give the shuffle of the specification. |
| Shuffle.ShufflePermutes | crates/caudal-channel/src/player.rs:160-165 | Whatever the random numbers, every file is played once. |
| Shuffle.EveryOrderCanCome | crates/caudal-channel/src/player.rs:160-165 | No order is left out: some random numbers give it. |

## Left out

- Tokio tasks, locks, HTTP handlers, sockets and file reads: operations are atomic steps, and the blocking reload is
  a request answered in some later state.
- Machine integers: overflow of 32- and 64-bit times, sizes and offsets, other than the tests that make a clip
  `TooLarge`.
- Box serialization by `mp4-atom` and codec records: a `moof`, or `ftyp` and `moov`, is a record with an encoded size
  that does not depend on offsets; its bytes are filler, and a segment file is read as its list of boxes.
- Which tracks are picked and how an init segment is built from codec data: a track list arrives as a selection.
- Playlist text: `EXT-X` lines are values of a datatype; DATERANGE, CUE-OUT, rendition reports, subtitles, tokens and
  the master playlist are not printed.
- Floating point: durations are exact reals, the resampler's centre is an exact ratio and its kernel any function,
  loudness and energy are any functions; send times are reals.
- PackagerAudio.AudioAccounted: speaks of samples but for their durations, which are known only when the next one comes.
- Packager.Packager.SetTracks: the program's flat fields are grouped into records, one field of the class each.
- Follow.ExactlyOnce: an answer is the playlist of one state; rendering is not interleaved with other operations, and
  the wait that ends in an error is not modelled.
- Subscribers.AllRunsSound: a read and a push are atomic steps, as under the ring's lock; wake-ups are not modelled.
- Subscribers.SkippedIsExact: without a buffered join point the reported number covers only what was in the ring, as
  in the program, and the position is picked up again at the next join.
- Clip.BuildChunks: a file is its place in the list of files read, so two entries of one name are two files.
- Mp4Source.OpenTrack: the binary search in the table of key samples is membership; finding `moov`, the codec records
  and which tracks are kept are not modelled.
- RecordingRoundTrip.MakeClip: reading and decoding `init.mp4` (with an init file without `moov`) and failing file reads
  are not modelled.
- RecordingRoundTrip.ClipComesBack: decode times of a clip start at zero and are scaled to the opened track's
  timescale, and an audio sample is always a key sample when opened; edit lists and movie durations are not modelled.
- Stitcher.Stitcher.StampFrame: the per-track record is a list in place of a hash map; only its maximum is taken over
  all tracks.
- Captions.RunSound: the decoder thread's anchors are not modelled; giving up after a model failure is the ledger
  `lost`.
- Captions.JobQueue.Next: waiting on the condition variable is the result `Wait`, and asking again.
- Handoff.StepSound: viewers, the packager of an entry and the length of the grace are not modelled; a deadline may
  pass at any time.
- Switcher.DecisionIs: a manual switch is a change of the preferred source between runs.
- Chunker.CutBounds: for limits closer than one frame only progress is stated, in `CutProgress` and `EndsExactly`.
- Chunker.Chunker.Feed: a call that would never return is excluded by `Ends`.
- The random number generator's arithmetic, the recorder's segmenter, MPEG-TS, RTMP, SRT, WebRTC, MoQ, access control, configuration,
  Whisper and the audio decoders.
