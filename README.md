# FFXIV observer: a Dafny model of its core logic

This project models the logic of the FFXIV observer tools. The tools are:

- an Electron/React auto-recorder that records raid pulls, started by hand or by an ONNX pull detector;
- a Discord bot with these cogs: scheduled-event reminders, discussion summaries, stream recording with a Dropbox upload, and patch-note summaries;
- the label and metric bookkeeping of the pull-detector training code (`pyffxivdata`).

Each source file is one Dafny module:

| module | source file | form |
|---|---|---|
| `RecordList` | `components/RecordList.tsx` | class `Recorder` over a `State` value, with step functions and lemmas |
| `PullDetector` | `components/PullDetectorModel.tsx` | class `InferenceGate` (the `inferBusy` flag); the tensor fill is a method over a fresh `array<real>` |
| `ElectronMain` | `electron/main.js` | functions: the source choice, the `\s*` pattern and the permission handlers |
| `EventReminder` | `scheduled_event_reminder.py` | class `ReminderCog` (config map and notified set); the check loop is a method with nested loops |
| `DiscussionSummarizer` | `ai_observer_bot/discussion_summarizer.py` | class `Summarizer` (history, processed ids, channel mappings); collect and sort loops as methods |
| `DropboxUpload` | `ffxiv_stream_collector/dropbox.py` | path construction as a method; the chunked upload plan as a loop method |
| `StreamRecorder` | `ffxiv_stream_collector/live_stream_recorder.py` | functions |
| `PatchScraper` | `ffxiv_info_scraper.py` | functions |
| `LabelDataset`, `LabelMetric`, `TrainMetrics` | `pyffxivdata/dataset.py`, `metric.py`, `train.py` | functions and loop methods; class `TrainingRun` for the per-epoch state of `train` |
| `Wrappers`, `TextUtil` | (shared) | `Option`/`Result`; prefix, suffix, last index, `str.replace` and fixed-size slicing |

Browser media objects are modelled as opaque values. So are Discord channels, ONNX sessions, the Dropbox SDK and torch tensors. What such a call returns or raises is a parameter of the operation.

Behaviour of the code worth noting, which the model keeps:

- The detector tick passes the captured `ImageData` straight to `pullStartDetected` and `pullEndDetected`. Those functions expect a pair of score arrays, not an image. As written, the tick therefore never starts or stops anything (see Findings).
- `summarize_discussion_result` does not record the new messages it summarised. It appends only the last one, and adds the id of the last message scanned (see Findings).
- If `recorder.start()` throws after `setIsRecording(true)`, `isRecording` stays true. No entry is added and `activeId` is unchanged, so later starts are ignored and `stopRecording` has nothing to stop (`RecordList.StuckAfterFailedStart`).
- The `@everyone` mention and the plain mention always say "starting soon", even on the one-day alarm.
- An event first seen within 30 minutes of its start gets both the one-day reminder and the 30-minute reminder in the same check.
- A configured channel that no longer exists is not replaced by the system channel, so no reminder is sent.
- Inside `summarize_discussion_result`, the channels are read (`.history()`) before the `not discussion_channel` test. A missing channel therefore raises first, and the test never fires. The model reports this case as `ChannelMissing` with nothing changed.
- In the share-link handler of `upload_to_dropbox`, an `ApiError` from the first `sharing_list_shared_links` reaches `e.error.is_shared_link_already_exists()`. That error is a `ListSharedLinksError`, and in the Dropbox SDK that type has no such test. The handler therefore raises `AttributeError`, which leaves `upload_to_dropbox`.
- A `register_channel` whose history read raises part-way has already registered the mapping and appended the records read so far. That history is left unsorted.
- `request_gemini` returns the response object, not its text. The model takes the reply as a parameter: either its text, or `Raised` when summarising ends in the exception handler (the `in` test on a response object raises there).

## Model

| member | source | states |
|---|---|---|
| `TextUtil.LastIndexOf` | pyobserver/ffxiv_stream_collector/live_stream_recorder.py:18 | the result is -1 or an index holding the character, and no later index holds it |
| `TextUtil.AfterLast` | pyobserver/ffxiv_stream_collector/live_stream_recorder.py:18 | `split('/')[-1]` never contains the separator |
| `TextUtil.SplitAtLast` | pyobserver/ffxiv_stream_collector/dropbox.py:19-25 | the part before the last '/', the '/' and the basename put back together give the path |
| `TextUtil.SlicesConcat` | pyobserver/ffxiv_info_scraper.py:50-52 | the slices `text[i:i+n]` for `i` in `range(0, len, n)` concatenate to the text |
| `TextUtil.SlicesShape` | pyobserver/ffxiv_info_scraper.py:50-52 | every slice is non-empty and at most n long, all but the last are exactly n, and there are ⌈len/n⌉ of them |
| `TextUtil.SliceAt` | pyobserver/ffxiv_info_scraper.py:50-51 | slice k is `text[k*n : min((k+1)*n, len)]`, the index the loop computes |
| `PatchScraper.ReplyMessages` | pyobserver/ffxiv_info_scraper.py:49-55 | text of at most 1500 characters, 1500 included, is one message; longer text gives at least two |
| `PatchScraper.ReplyMessagesConcat` | pyobserver/ffxiv_info_scraper.py:49-55 | the posted messages concatenate to the reply text |
| `PatchScraper.ReplyMessagesShape` | pyobserver/ffxiv_info_scraper.py:50-52 | a long reply is cut at 0, 1500, 3000, …; every piece is 1..1500 characters, all but the last exactly 1500 |
| `PatchScraper.SummarizePatchnote` | pyobserver/ffxiv_info_scraper.py:27-55 | raises KeyError iff the version is not in `patch_note_urls`, and then only the "Scraping" line was sent; otherwise the messages after the two announcements give the reply text |
| `DropboxUpload.RemoteDir` | pyobserver/ffxiv_stream_collector/dropbox.py:19-33 | the Dropbox directory starts and ends with '/' |
| `DropboxUpload.DropboxPath` | pyobserver/ffxiv_stream_collector/dropbox.py:19-34 | the path built by reassigning `dropbox_dir` starts with '/' and ends with '/' + the basename |
| `DropboxUpload.BareNameGoesToRoot` | pyobserver/ffxiv_stream_collector/dropbox.py:19-34 | a bare file name "x.mkv" becomes "/x.mkv" |
| `DropboxUpload.AbsolutePathKept` | pyobserver/ffxiv_stream_collector/dropbox.py:19-34 | an absolute path with a non-empty directory part is unchanged |
| `DropboxUpload.RelativePathRooted` | pyobserver/ffxiv_stream_collector/dropbox.py:19-34 | a relative path with a directory part gains only a leading '/' |
| `DropboxUpload.ReadLength` | pyobserver/ffxiv_stream_collector/dropbox.py:53-63 | `f.read(n)` returns n bytes, or all the bytes that remain when fewer are left |
| `DropboxUpload.PlanFromShape` | pyobserver/ffxiv_stream_collector/dropbox.py:52-70 | from a cursor inside the file, the session calls are 4 MiB appends then exactly one finish of 1..4 MiB; they carry the remaining bytes, and each offset is the cursor plus the bytes before it |
| `DropboxUpload.SessionPlanShape` | pyobserver/ffxiv_stream_collector/dropbox.py:48-70 | above 4 MiB: a 4 MiB session start, 4 MiB appends, then exactly one finish of 1..4 MiB, each cursor offset equal to the bytes sent before it, all bytes sent |
| `DropboxUpload.PlanShape` | pyobserver/ffxiv_stream_collector/dropbox.py:39-72 | the plan sends the whole file; at most 4 MiB goes in one upload call; otherwise a session start, matching offsets and a final finish |
| `DropboxUpload.UploadPlan` | pyobserver/ffxiv_stream_collector/dropbox.py:39-72 | the read loop makes exactly the planned calls |
| `DropboxUpload.ShareLink` | pyobserver/ffxiv_stream_collector/dropbox.py:83-109 | each path separately: a failing first listing raises `AttributeError`; otherwise the first listed link; else the created link; after "already exists" from creating, the first relisted link, or `None` for an empty relisting, or the relisting's `ApiError`; `None` after any other creation error; failures are exactly those two cases |
| `DropboxUpload.UploadToDropbox` | pyobserver/ffxiv_stream_collector/dropbox.py:7-109 | the remote path is `RemotePath`; a missing local file raises `FileNotFoundError` before any upload call and the share-link step does not run; otherwise the calls are exactly the plan (all bytes sent, one call up to 4 MiB, else session start, matching offsets, a finish) or, when call number k raises, the plan's first k+1 calls (all of it if shorter), carrying no more than the file's bytes; the share-link outcome is returned whatever the upload did |
| `DropboxUpload.SentPrefix` | pyobserver/ffxiv_stream_collector/dropbox.py:41-81 | the calls made before an upload exception carry no more bytes than the whole plan |
| `DropboxUpload.ReplaceKeepsLength` | pyobserver/ffxiv_stream_collector/dropbox.py:93 | replacing 'dl=0' with 'dl=1' keeps the URL's length |
| `DropboxUpload.DirectUrlFirst` | pyobserver/ffxiv_stream_collector/dropbox.py:93 | the rewrite keeps the URL's first character |
| `DropboxUpload.DirectUrlHasNoDl0` | pyobserver/ffxiv_stream_collector/dropbox.py:93 | no 'dl=0' is left in the direct URL |
| `DropboxUpload.DirectUrlUnchanged` | pyobserver/ffxiv_stream_collector/dropbox.py:93 | a URL without 'dl=0' is returned unchanged |
| `StreamRecorder.GetOr` | pyobserver/ffxiv_stream_collector/live_stream_recorder.py:89-90 | `dict.get(key, default)`: the default only for a missing key; a stored `None` is returned |
| `StreamRecorder.GetChannelNameYtdlp` | pyobserver/ffxiv_stream_collector/live_stream_recorder.py:76-98 | `None` iff the lookup failed; a missing channel reads 'Unknown' and a missing id reads '' |
| `StreamRecorder.ChannelName` | pyobserver/ffxiv_stream_collector/live_stream_recorder.py:17-20 | for a Twitch URL, exactly the text after the last '/' (`split('/')[-1]`, empty after a trailing '/'); otherwise the yt-dlp channel, "Unknown" when the key is missing and "None" when it holds `None`, and an error iff the lookup failed |
| `StreamRecorder.Timestamp` | pyobserver/ffxiv_stream_collector/live_stream_recorder.py:23 | `%Y%m%d_%H%M%S` is 15 characters: digits, with '_' at position 8 |
| `StreamRecorder.Pad2Value` | pyobserver/ffxiv_stream_collector/live_stream_recorder.py:23 | a two-digit zero-padded field reads back as its number |
| `StreamRecorder.Pad4Value` | pyobserver/ffxiv_stream_collector/live_stream_recorder.py:23 | the four-digit year field reads back as the year |
| `StreamRecorder.TimestampRoundTrip` | pyobserver/ffxiv_stream_collector/live_stream_recorder.py:23 | the timestamp encodes the time: digits 0-3 are the year, 4-5 the month, 6-7 the day, 9-10 the hour, 11-12 the minute, 13-14 the second |
| `StreamRecorder.ReportedTimestampRoundTrip` | pyobserver/ffxiv_stream_collector/live_stream_recorder.py:23-34 | the reported timestamp (last path segment minus 4 characters) equals the formatted time, whatever the channel name |
| `StreamRecorder.RecordStreamPath` | pyobserver/ffxiv_stream_collector/live_stream_recorder.py:17-23 | the output path exists iff the channel name does, and is exactly "recordings/" + channel + "/" + timestamp + ".mkv"; the reported timestamp decodes back to the recording's start time |
| `ElectronMain.FindIndex` | autorecorder/ffxiv-auto-recorder/electron/main.js:70 | `Array.prototype.find`: the first index accepted, or none when no element is |
| `ElectronMain.SelectDesktopSource` | autorecorder/ffxiv-auto-recorder/electron/main.js:67-73 | throws iff there are no sources; the first source named /Screen\s*\d+/i, otherwise the first source |
| `ElectronMain.SelectPrimaryScreen` | autorecorder/ffxiv-auto-recorder/electron/main.js:75-83 | throws iff there are no sources; the first source on the primary display, then the first named /Screen\s*1/i, then the first source |
| `ElectronMain.ScreenOneIsScreenDigit` | autorecorder/ffxiv-auto-recorder/electron/main.js:70-79 | a name that matches /Screen\s*1/i also matches /Screen\s*\d+/i |
| `ElectronMain.PermissionHandlersAgree` | autorecorder/ffxiv-auto-recorder/electron/main.js:49-59 | a request is granted iff the permission is media, display-capture or fullscreen; the check handler answers the same |
| `ElectronMain.ScreenPatternExamples` | autorecorder/ffxiv-auto-recorder/electron/main.js:70 | "Screen 2" and "screen1" match, "Entire screen" does not |
| `PullDetector.PickEPs` | autorecorder/ffxiv-auto-recorder/components/PullDetectorModel.tsx:28-35 | wasm is always last; webgpu is present iff a GPU is, and then it is first; no provider is listed twice |
| `PullDetector.Plane` | autorecorder/ffxiv-auto-recorder/components/PullDetectorModel.tsx:82-89 | one colour plane holds one value per pixel |
| `PullDetector.Tensor` | autorecorder/ffxiv-auto-recorder/components/PullDetectorModel.tsx:77-92 | the tensor holds exactly 3·H·W values |
| `PullDetector.TensorLayout` | autorecorder/ffxiv-auto-recorder/components/PullDetectorModel.tsx:82-89 | output index c·H·W + y·W + x holds the normalised value of source index 4·(y·W+x)+c, and both indices are in range |
| `PullDetector.ShapeMatchesTensor` | autorecorder/ffxiv-auto-recorder/components/PullDetectorModel.tsx:79-91 | the product of the shape [1,3,H,W] equals the tensor length |
| `PullDetector.AlphaNeverRead` | autorecorder/ffxiv-auto-recorder/components/PullDetectorModel.tsx:84-88 | two images that agree on R, G and B give the same tensor: alpha is never read |
| `PullDetector.PlanesFilled` | autorecorder/ffxiv-auto-recorder/components/PullDetectorModel.tsx:82-89 | once every pixel has been written in all three planes, the buffer is the three planes in order |
| `PullDetector.ImageDataToTensor` | autorecorder/ffxiv-auto-recorder/components/PullDetectorModel.tsx:77-92 | the nested loops fill a fresh array with exactly the planar tensor, and the dims are [1,3,H,W] |
| `PullDetector.WritePixel` | autorecorder/ffxiv-auto-recorder/components/PullDetectorModel.tsx:84-88 | writing pixel di's red, green and blue into its slot of each plane extends the converted prefix of all three planes by that pixel |
| `PullDetector.Outcome` | autorecorder/ffxiv-auto-recorder/components/PullDetectorModel.tsx:135-147 | raises iff a session run throws; scores iff both outputs are Float32 data, and they are that data; a missing or other-typed output gives null |
| `PullDetector.InferenceGate.constructor` | autorecorder/ffxiv-auto-recorder/components/PullDetectorModel.tsx:10 | the gate starts free |
| `PullDetector.InferenceGate.Begin` | autorecorder/ffxiv-auto-recorder/components/PullDetectorModel.tsx:122-123 | the gate is acquired iff it was free, and it is busy afterwards |
| `PullDetector.InferenceGate.Release` | autorecorder/ffxiv-auto-recorder/components/PullDetectorModel.tsx:148-150 | the `finally` block frees the gate |
| `PullDetector.InferenceGate.PredictScores` | autorecorder/ffxiv-auto-recorder/components/PullDetectorModel.tsx:121-151 | while busy, the frame is dropped (null) and no session runs; otherwise the gate is free again on every exit, and the result is the sessions' outcome on the tensor of the frame, resized only when it is not 384×384 |
| `PullDetector.DetectionMonotone` | autorecorder/ffxiv-auto-recorder/components/PullDetectorModel.tsx:154-160 | a higher score never undoes a detection, and a score exactly at the threshold is not a detection |
| `PullDetector.NoScoreNoDetection` | autorecorder/ffxiv-auto-recorder/components/PullDetectorModel.tsx:154-160 | an empty score array (`undefined > t` is false) never detects a start or an end |
| `RecordList.FirstSupportedFrom` | autorecorder/ffxiv-auto-recorder/components/RecordList.tsx:34-38 | the first supported candidate from position i on, or none when none is supported |
| `RecordList.PickSupportedMime` | autorecorder/ffxiv-auto-recorder/components/RecordList.tsx:27-39 | the first of vp9, vp8, h264, plain webm that is supported; undefined when none is, or when MediaRecorder is missing |
| `RecordList.ScaleCases` | autorecorder/ffxiv-auto-recorder/components/RecordList.tsx:128 | the scale is 1 up to 512 px wide and 512/vw beyond |
| `RecordList.DetectorCanvasBounds` | autorecorder/ffxiv-auto-recorder/components/RecordList.tsx:125-130 | width is 2..512 and height at least 2; 0 dimensions read as 1280×720; frames up to 512 wide keep their size; wider frames become 512 × ⌊vh·512/vw⌋ |
| `RecordList.NarrowCanvas` | autorecorder/ffxiv-auto-recorder/components/RecordList.tsx:128-130 | a frame at most 512 wide is not scaled: each side is kept, raised to 2 if smaller |
| `RecordList.WideCanvas` | autorecorder/ffxiv-auto-recorder/components/RecordList.tsx:128-130 | a frame wider than 512 becomes exactly 512 wide, its height ⌊vh·512/vw⌋ (at least 2) |
| `RecordList.WideSide` | autorecorder/ffxiv-auto-recorder/components/RecordList.tsx:128-130 | past 512 wide, the real-valued scaling of a side rounds down to the integer quotient side·512/vw |
| `RecordList.CoalesceFirst` | autorecorder/ffxiv-auto-recorder/components/RecordList.tsx:146-147 | a `??` chain yields the first non-nullish field, or a nullish value when all are nullish |
| `RecordList.CallBoolean` | autorecorder/ffxiv-auto-recorder/components/RecordList.tsx:140-151 | true only for a present detector that returned a boolean or an object; a boolean passes through unchanged |
| `RecordList.CallBooleanObject` | autorecorder/ffxiv-auto-recorder/components/RecordList.tsx:145-148 | an object result is the truthiness of the first non-nullish of pullStarted/started/isStart/start (or the end keys); an object with none of them gives false |
| `RecordList.DisplayStream` | autorecorder/ffxiv-auto-recorder/components/RecordList.tsx:41-73 | the desktop source at 60 fps iff the bridge gave a non-empty id (an empty id is falsy) and getUserMedia succeeded; else the picker with audio; else video-only; else an error |
| `RecordList.DetectorStream` | autorecorder/ffxiv-auto-recorder/components/RecordList.tsx:88-111 | the desktop source at 30 fps iff the bridge gave a non-empty id and getUserMedia succeeded, else a video-only picker, else no detector |
| `RecordList.BridgeFailureFallsThrough` | autorecorder/ffxiv-auto-recorder/components/RecordList.tsx:45-65 | a missing bridge, a throwing bridge and a bridge without an id all lead to the same fallback |
| `RecordList.FinishActive` | autorecorder/ffxiv-auto-recorder/components/RecordList.tsx:286 | mapping over the list keeps its length |
| `RecordList.TickAsWrittenIsInert` | autorecorder/ffxiv-auto-recorder/components/RecordList.tsx:153-164 | as written, the tick leaves the state unchanged whatever the frame |
| `RecordList.TickStartsOnScore` | autorecorder/ffxiv-auto-recorder/components/RecordList.tsx:161-163 | with the scores passed, an idle recorder whose start score exceeds 0.7 starts a recording: one new entry, which becomes the active one |
| `RecordList.TickGuards` | autorecorder/ffxiv-auto-recorder/components/RecordList.tsx:161-164 | a tick changes the state only by a start (start && !manual && !activeId) or a stop (end && !manual && activeId); during a manual recording it changes nothing |
| `RecordList.InitialValid` | autorecorder/ffxiv-auto-recorder/components/RecordList.tsx:21-23 | the empty list with no active id satisfies the state invariant |
| `RecordList.AtMostOneRecording` | autorecorder/ffxiv-auto-recorder/components/RecordList.tsx:219-263 | in a valid state at most one entry has status 'recording' |
| `RecordList.PrependValid` | autorecorder/ffxiv-auto-recorder/components/RecordList.tsx:256 | prepending an entry with a fresh id keeps the invariant |
| `RecordList.StartPreserves` | autorecorder/ffxiv-auto-recorder/components/RecordList.tsx:219-263 | starting keeps the invariant (ids unique and below the counter, active id is the one recording entry) |
| `RecordList.StartWhileRecordingIsNoOp` | autorecorder/ffxiv-auto-recorder/components/RecordList.tsx:221 | a start while `isRecording` changes nothing |
| `RecordList.StartAddsOneEntry` | autorecorder/ffxiv-auto-recorder/components/RecordList.tsx:242-257 | a successful start prepends exactly one 'recording' entry with a fresh id, makes it active, sets `isRecording`, and leaves older entries unchanged |
| `RecordList.StartFailure` | autorecorder/ffxiv-auto-recorder/components/RecordList.tsx:258-262 | a failed start leaves the list and `activeId` alone, sets the error (the no-video-track message when that was the cause) and clicks the file picker |
| `RecordList.StuckAfterFailedStart` | autorecorder/ffxiv-auto-recorder/components/RecordList.tsx:242-262 | when `recorder.start()` throws, `isRecording` stays true with no new active entry, so later starts and stops do nothing |
| `RecordList.StopOnlyActive` | autorecorder/ffxiv-auto-recorder/components/RecordList.tsx:265-291 | no active id, or one that names no entry: nothing changes. Otherwise only the active entry becomes 'completed', with endedAt/src set and recorder/chunks/stream cleared; afterwards there is no active id and `isRecording` is false |
| `RecordList.StopPreserves` | autorecorder/ffxiv-auto-recorder/components/RecordList.tsx:265-291 | stopping keeps the invariant |
| `RecordList.AddPickedPreserves` | autorecorder/ffxiv-auto-recorder/components/RecordList.tsx:331-339 | no file: nothing changes. A file prepends one completed entry with its URL; the recording state is untouched and the invariant holds |
| `RecordList.TickPreserves` | autorecorder/ffxiv-auto-recorder/components/RecordList.tsx:153-168 | a tick keeps the invariant |
| `RecordList.Recorder.constructor` | autorecorder/ffxiv-auto-recorder/components/RecordList.tsx:21-23 | the component starts with an empty list and no active recording |
| `RecordList.Recorder.Fail` | autorecorder/ffxiv-auto-recorder/components/RecordList.tsx:258-262 | the catch block sets the error and clicks the picker |
| `RecordList.Recorder.StartRecording` | autorecorder/ffxiv-auto-recorder/components/RecordList.tsx:219-263 | the fields change as the start step says, and the invariant is kept |
| `RecordList.Recorder.StopRecording` | autorecorder/ffxiv-auto-recorder/components/RecordList.tsx:265-291 | the fields change as the stop step says, and the invariant is kept |
| `RecordList.Recorder.StartManualRecording` | autorecorder/ffxiv-auto-recorder/components/RecordList.tsx:293-296 | sets `isManualRecording`, then starts |
| `RecordList.Recorder.StopManualRecording` | autorecorder/ffxiv-auto-recorder/components/RecordList.tsx:298-301 | clears `isManualRecording`, then stops |
| `RecordList.Recorder.DetectorTick` | autorecorder/ffxiv-auto-recorder/components/RecordList.tsx:153-168 | one detector tick on the current state, with the invariant kept |
| `RecordList.Recorder.AddPickedFile` | autorecorder/ffxiv-auto-recorder/components/RecordList.tsx:331-339 | the file-picker handler prepends a completed entry |
| `EventReminder.Lower` | pyobserver/scheduled_event_reminder.py:72 | lower-casing keeps the length and lower-cases each character in place |
| `EventReminder.LowerIdempotent` | pyobserver/scheduled_event_reminder.py:72 | lower-casing twice is lower-casing once |
| `EventReminder.GuildConfigOf` | pyobserver/scheduled_event_reminder.py:37-43 | the stored entry, or the default (no channel, no role, no event settings) |
| `EventReminder.SetGuildEffect` | pyobserver/scheduled_event_reminder.py:45-58 | creates the guild's entry if missing; overwrites channel and role only when given; keeps event settings and other guilds; applying it twice is applying it once |
| `EventReminder.SetEventEffect` | pyobserver/scheduled_event_reminder.py:62-79 | the setting is found under any spelling with the same lower case, and given fields overwrite; other events, the guild defaults and other guilds are unchanged |
| `EventReminder.FirstSendable` | pyobserver/scheduled_event_reminder.py:136-139 | the first text channel where the bot may send, or none when there is none |
| `EventReminder.ChannelPriority` | pyobserver/scheduled_event_reminder.py:123-143 | event channel, else guild default (either only if the guild still has it), else system channel, else first sendable text channel; 0 and None count as unset |
| `EventReminder.MentionPriority` | pyobserver/scheduled_event_reminder.py:145-153 | the event's role, else the guild's default role, is mentioned when the guild has it (a missing event role does not fall back to the default role); else `@everyone` iff the bot may mention everyone in that channel; else no mention |
| `EventReminder.WholeMinutes` | pyobserver/scheduled_event_reminder.py:171 | the remaining time in whole minutes, truncated toward zero on both sides of zero |
| `EventReminder.Send` | pyobserver/scheduled_event_reminder.py:121-210 | at most one reminder, sent iff a channel resolves, carrying the event, guild and alarm kind, the resolved channel, the mention chosen for it and the whole minutes remaining |
| `EventReminder.CheckEventNotified` | pyobserver/scheduled_event_reminder.py:93-112 | the notified set grows only by a scheduled event within a day, and shrinks only by one whose start has passed; non-scheduled events change nothing |
| `EventReminder.CheckEventReminders` | pyobserver/scheduled_event_reminder.py:95-108 | a one-day reminder iff not yet notified and 0 ≤ time ≤ 1 day; a soon reminder at every check with 0 ≤ time ≤ 30 min; at most two reminders |
| `EventReminder.StartingNow` | pyobserver/scheduled_event_reminder.py:107-112 | at exactly 0 the soon reminder is sent and the id stays notified (the `elif` binds to the 30-minute test) |
| `EventReminder.EventsKeepUnlessPassed` | pyobserver/scheduled_event_reminder.py:93-112 | within one guild a notified id is removed only by a passed scheduled event with that id |
| `EventReminder.CheckKeepsUnlessPassed` | pyobserver/scheduled_event_reminder.py:88-115 | the same across all guilds, a guild whose fetch raised included |
| `EventReminder.RunCheck` | pyobserver/scheduled_event_reminder.py:84-115 | the nested loops compute the guild-by-guild, event-by-event check |
| `EventReminder.ReminderCog.constructor` | pyobserver/scheduled_event_reminder.py:14-19 | the loaded config and an empty notified set |
| `EventReminder.ReminderCog.GetGuildConfig` | pyobserver/scheduled_event_reminder.py:37-43 | the stored entry or the default, without inserting it |
| `EventReminder.ReminderCog.SetGuildConfig` | pyobserver/scheduled_event_reminder.py:45-60 | the config is updated as `SetGuildEffect` describes, and the notified set is untouched |
| `EventReminder.ReminderCog.SetEventConfig` | pyobserver/scheduled_event_reminder.py:62-81 | the config is updated as `SetEventEffect` describes, and the notified set is untouched |
| `EventReminder.ReminderCog.ClearEventSettings` | pyobserver/scheduled_event_reminder.py:321-330 | removes the guild's entry, and reports whether there was one |
| `EventReminder.ReminderCog.CheckScheduledEvents` | pyobserver/scheduled_event_reminder.py:83-115 | the notified set and the reminders are those of the check; the config is untouched |
| `DiscussionSummarizer.Recent` | pyobserver/ai_observer_bot/discussion_summarizer.py:121 | `history(limit=…)`: the newest messages, at most the limit |
| `DiscussionSummarizer.Sorted` | pyobserver/ai_observer_bot/discussion_summarizer.py:138 | sorting keeps the length and the multiset of records |
| `DiscussionSummarizer.SortedIsSorted` | pyobserver/ai_observer_bot/discussion_summarizer.py:138 | the result is in ascending timestamp order and a permutation of the input |
| `DiscussionSummarizer.SortBy` | pyobserver/ai_observer_bot/discussion_summarizer.py:227 | the insertion loop computes the sorted sequence |
| `DiscussionSummarizer.CollectEffect` | pyobserver/ai_observer_bot/discussion_summarizer.py:121-135 | the history only grows at its end, by non-bot messages whose ids were not processed; every non-bot id ends up processed; history ids stay unique and within the processed set |
| `DiscussionSummarizer.CollectComplete` | pyobserver/ai_observer_bot/discussion_summarizer.py:121-135 | no message is lost: every non-bot message whose id was not processed has its id on an appended record, and every newly processed id belongs to a non-bot message of the list |
| `DiscussionSummarizer.CollectMessages` | pyobserver/ai_observer_bot/discussion_summarizer.py:121-135 | the loop appends and marks as the collection says; `message_count` is the number appended |
| `DiscussionSummarizer.SortedConsistent` | pyobserver/ai_observer_bot/discussion_summarizer.py:138 | sorting the history keeps its ids unique and within the processed set |
| `DiscussionSummarizer.RegisterHistory` | pyobserver/ai_observer_bot/discussion_summarizer.py:119-138 | collect then sort: the history is sorted by timestamp, with unique ids all within the processed set; every earlier record stays, every fetched non-bot message with an unprocessed id is on it, only fetched non-bot ids are newly marked, and the count is the growth in length |
| `DiscussionSummarizer.NewMessages` | pyobserver/ai_observer_bot/discussion_summarizer.py:209-219 | a scanned message is new iff it is not a bot's and its id is not processed |
| `DiscussionSummarizer.SummaryPostsReassemble` | pyobserver/ai_observer_bot/discussion_summarizer.py:241-268 | nothing is posted iff the summary is empty or holds the "no decision yet" sentence; otherwise an embed and then plain pieces of at most 2000 characters that concatenate to the summary, and a single embed when it fits |
| `DiscussionSummarizer.PostSummary` | pyobserver/ai_observer_bot/discussion_summarizer.py:241-264 | the chunking loop produces those posts |
| `DiscussionSummarizer.RecordAsWrittenLosesMessages` | pyobserver/ai_observer_bot/discussion_summarizer.py:276-278 | as written, two new messages followed by a bot message store only the second; neither id is marked processed, the bot's id is, and the first message is lost |
| `DiscussionSummarizer.RecordNewEffect` | pyobserver/ai_observer_bot/discussion_summarizer.py:209-278 | recording every new message keeps the old history as a prefix and the ids unique and processed, and marks every non-bot scanned message processed |
| `DiscussionSummarizer.RecordNewComplete` | pyobserver/ai_observer_bot/discussion_summarizer.py:209-278 | recording loses no new message: each non-bot scanned message whose id was unprocessed has a record appended |
| `DiscussionSummarizer.HistoryWithinProcessed` | pyobserver/ai_observer_bot/discussion_summarizer.py:312-336 | a consistent history is never longer than its processed set |
| `DiscussionSummarizer.Summarizer.constructor` | pyobserver/ai_observer_bot/discussion_summarizer.py:17-27 | empty history, processed ids and mappings |
| `DiscussionSummarizer.Summarizer.RegisterChannel` | pyobserver/ai_observer_bot/discussion_summarizer.py:91-156 | a missing discussion or summary channel changes nothing. Otherwise "<name>-논의" maps to "<name>-최종정리" and existing history is kept; when reading the history raises part-way, the records appended so far stay, unsorted, and the outcome is the load error; otherwise the recent 1000 messages are collected and sorted, every fetched new message is on the history, and the loaded count is its growth |
| `DiscussionSummarizer.Summarizer.SummarizeDiscussionResult` | pyobserver/ai_observer_bot/discussion_summarizer.py:158-278 | the outcome is "not registered" exactly for an unregistered channel and "channel missing" exactly when a registered channel's discussion or summary channel is gone, and neither changes anything; otherwise it is "no new messages" exactly when the scan finds none, with nothing changed, and a summary in every other case: the summary is posted when there is one, and every new message scanned gets a record appended to that channel's history, which is the only one changed |
| `DiscussionSummarizer.Summarizer.ClearHistory` | pyobserver/ai_observer_bot/discussion_summarizer.py:281-293 | empties the list and the set only for a channel with history; otherwise nothing changes |
| `DiscussionSummarizer.Summarizer.ShowStats` | pyobserver/ai_observer_bot/discussion_summarizer.py:312-336 | none when no channel is registered; otherwise one entry per mapping: the name without "-논의", the history length and the processed count, the first never above the second |
| `LabelDataset.ParseChoice` | pyffxivdata/dataset.py:40-43 | `ChoiceLabels(s)`: the member whose value is s, else ValueError naming s |
| `LabelDataset.ParseName` | pyffxivdata/dataset.py:40-43 | every member's value parses back to the member |
| `LabelDataset.GetValue` | pyffxivdata/dataset.py:45-51 | IsCombat 0, HasRedCircle 1, PullEnded 2 |
| `LabelDataset.GetValueInjective` | pyffxivdata/dataset.py:45-51 | distinct members take distinct positions |
| `LabelDataset.SetChoices` | pyffxivdata/dataset.py:56-57 | succeeds iff every choice parses; on failure the error is the first invalid choice; on success exactly the named positions are set to 1 |
| `LabelDataset.HitCons` | pyffxivdata/dataset.py:56-57 | when the first choice parses, a position is set iff the first choice names it or a later choice does |
| `LabelDataset.AllValidCons` | pyffxivdata/dataset.py:56-57 | when the first choice parses, every choice parses iff every later one does |
| `LabelDataset.FirstInvalidCons` | pyffxivdata/dataset.py:56-57 | when the first choice parses, the first invalid later choice is the first invalid choice overall |
| `LabelDataset.LabelVector` | pyffxivdata/dataset.py:53-59 | the three-entry vector with 1 exactly where some choice points, or the first invalid choice |
| `LabelDataset.ToTorchTensor` | pyffxivdata/dataset.py:53-59 | the loop over the choices computes that vector |
| `LabelDataset.LabelVectorSetOnly` | pyffxivdata/dataset.py:53-59 | order and repetition of the choices do not matter |
| `LabelDataset.ExtractChoices` | pyffxivdata/dataset.py:77 | no annotations raises IndexError; an empty result gives no choices; otherwise the first result's choices |
| `LabelDataset.GetItem` | pyffxivdata/dataset.py:71-87 | an index outside −n..n−1 raises IndexError; inside, the record at the Python index gives its image name and the label vector with 1 exactly at the positions its choices name, IndexError for a record without annotations, and ValueError for the first invalid choice |
| `LabelDataset.LenIndexRange` | pyffxivdata/dataset.py:68-77 | `__len__` bounds `__getitem__`: outside −len..len−1 IndexError; inside, IndexError only for a record without annotations |
| `LabelDataset.NegativeIndex` | pyffxivdata/dataset.py:77-78 | index i − len reads the same frame as i |
| `LabelDataset.EmptyResultIsAllZero` | pyffxivdata/dataset.py:77-81 | a frame whose first annotation has an empty result gets the all-zero label |
| `LabelMetric.CountTrue` | pyffxivdata/metric.py:49-52 | a count is at most the number of elements |
| `LabelMetric.ConfusionSums` | pyffxivdata/metric.py:49-52 | tp+fn counts the true labels, tp+fp the positive predictions, tn+fp the false labels |
| `LabelMetric.ConfusionTotal` | pyffxivdata/metric.py:49-52 | every element falls in exactly one of the four counts |
| `LabelMetric.ConfusionSwap` | pyffxivdata/metric.py:49-52 | swapping prediction and truth swaps fp and fn |
| `LabelMetric.TruthColumn` | pyffxivdata/metric.py:39-42 | one truth per row, true exactly when that row's column is ≥ 0.5 for floats, == 1 otherwise |
| `LabelMetric.PredColumn` | pyffxivdata/metric.py:45-46 | one prediction per row, true exactly when that row's probability reaches the threshold |
| `LabelMetric.LabelCounts` | pyffxivdata/metric.py:15-59 | exactly the labels pull_start and pull_end, each counting every row once |
| `LabelMetric.CalculateAccuracyForEachLabel` | pyffxivdata/metric.py:9-61 | the per-label loop computes those counts |
| `TrainMetrics.LabelIdx` | pyffxivdata/train.py:131-138 | column 1, column 2 or columns [1,2] for the three model names; any other name raises ValueError |
| `TrainMetrics.Selected` | pyffxivdata/train.py:62 | the selected columns keep one row per frame, two columns each |
| `TrainMetrics.BatchCounts` | pyffxivdata/train.py:62 | a batch's counts have exactly the two labels |
| `TrainMetrics.AllBatchCounts` | pyffxivdata/train.py:56-62 | one count map per validation batch, in order |
| `TrainMetrics.BatchCountsCoverFrames` | pyffxivdata/metric.py:49-52 | each label of a batch counts each of its frames once |
| `TrainMetrics.SumBatchesPositive` | pyffxivdata/train.py:67-79 | a label that some batch counts has a positive total |
| `TrainMetrics.SumBatchesUnseen` | pyffxivdata/train.py:67-79 | a label no batch counts stays at zero |
| `TrainMetrics.AccumulatedPositive` | pyffxivdata/train.py:64-79 | counters that start positive stay positive |
| `TrainMetrics.AccumulatedStep` | pyffxivdata/train.py:67-79 | after one more batch, each label's counters are the earlier ones plus the batch's |
| `TrainMetrics.MergeBatch` | pyffxivdata/train.py:67-79 | the inner loop adds the batch's counters, creating new labels at zero |
| `TrainMetrics.BatchMetrics` | pyffxivdata/train.py:56-62 | the batch loop computes each batch's counts |
| `TrainMetrics.Accumulate` | pyffxivdata/train.py:56-79 | the counters after all batches |
| `TrainMetrics.AllBatchCountsNonEmpty` | pyffxivdata/train.py:56-62 | every count of a well-formed batch is positive |
| `TrainMetrics.MetricsInUnitRange` | pyffxivdata/train.py:87-99 | accuracy, precision and recall are in [0,1], so a label adds 0..3 to the score |
| `TrainMetrics.SumScoresRemove` | pyffxivdata/train.py:86-99 | the score sum may start from any label, so the dictionary order does not matter |
| `TrainMetrics.SumScoresBounds` | pyffxivdata/train.py:81-99 | the score lies in [0, 3·labels] |
| `TrainMetrics.GroupedExtend` | pyffxivdata/train.py:94-102 | a label's three metric lists exist together, with equal non-zero lengths, after an append |
| `TrainMetrics.AppendedStep` | pyffxivdata/train.py:86-102 | recording one more label extends that label's lists |
| `TrainMetrics.AppendLabelMetrics` | pyffxivdata/train.py:94-102 | the lists are created together when missing and one value is appended to each |
| `TrainMetrics.RecordedStep` | pyffxivdata/train.py:86-102 | one more label keeps the loop state: history appended, score increased by that label's sum |
| `TrainMetrics.HistoryValidExtend` | pyffxivdata/train.py:94-102 | appending a label's metrics keeps the history valid |
| `TrainMetrics.RecordLabelMetrics` | pyffxivdata/train.py:81-104 | every label's metrics are appended, and the score is the sum of their scores, in [0, 3·labels] |
| `TrainMetrics.Lasts` | pyffxivdata/train.py:182 | the snapshot has one entry per history key, and it is that list's last value |
| `TrainMetrics.LastsOfLogged` | pyffxivdata/train.py:175-182 | after the end-of-epoch appends every list is non-empty, and the snapshot holds this epoch's step count and loss and each metric's latest value |
| `TrainMetrics.ValCounters` | pyffxivdata/train.py:56-79 | the summed counters of the validation batches all have a positive total |
| `TrainMetrics.TrainingRun.constructor` | pyffxivdata/train.py:122-128 | empty step and loss lists, best score 0, no best metrics |
| `TrainMetrics.TrainingRun.EvaluateValMetrics` | pyffxivdata/train.py:55-104 | fails (shape mismatch, history unchanged) exactly for one label column with batches; otherwise the score is the sum over the validation counters and the history gains their metrics; the best score is untouched |
| `TrainMetrics.TrainingRun.RunEpoch` | pyffxivdata/train.py:141-185 | one epoch fails with a shape mismatch exactly when a single label column has training steps or validation batches; failing that, with an unbound local exactly when it has no steps and no earlier loss; otherwise it succeeds. The step count grows by the number of steps and the loss is the last step's; on success the history is the old one plus this epoch's metrics, step and loss, and the best score and snapshot (the last values) are replaced exactly when the save dir is set and the score is higher; the unbound local comes after the metrics and the step count were appended, but not a loss; a failure never changes the best score; the run stays well formed unless it ends with the unbound local |
| `TrainMetrics.TrainingRun.TrainEpoch` | pyffxivdata/train.py:141-185 | an epoch with a save directory set, seen from the epoch loop: the same error selection, and on success the best score becomes the higher of the old one and the epoch's score |
| `TrainMetrics.TrainingRun.TrainEpochs` | pyffxivdata/train.py:123-185 | the epoch loop of a fresh run: it succeeds exactly when there are no epochs or the pair selection's first epoch has training steps, otherwise the first epoch's shape mismatch or unbound local; on success the best score is the maximum of 0 and the epoch scores |
| `TrainMetrics.MaxScore` | pyffxivdata/train.py:123-181 | the best score after some epochs starts at 0 and is never negative |
| `TrainMetrics.MaxScoreStep` | pyffxivdata/train.py:180-181 | one more epoch replaces the best score exactly when its score is strictly higher |
| `TrainMetrics.MaxScoreBounds` | pyffxivdata/train.py:123-181 | the best score is at least every epoch's score, and it is 0 or one of them |
| `TrainMetrics.TrainingRun.EndEpoch` | pyffxivdata/train.py:175-185 | step and loss are appended; the best score and snapshot (the last value of every list) are replaced only when the save dir is set and the score is higher; the best score never decreases |
| `TrainMetrics.Train` | pyffxivdata/train.py:107-191 | no save dir fails at `makedirs`; an unknown model name raises ValueError; otherwise training succeeds exactly when there are no epochs or the pair model's first epoch has training steps, and else fails with that epoch's shape mismatch or unbound local; on success the best score is the maximum of 0 and the epoch scores, and a snapshot exists iff it is positive; only the pair selection trains on batches |

## Left out

- `TrainMetrics.TrainingRun.RunEpoch`: does not keep `Valid()` after the unbound-local failure. In that case the source has appended the step count but not the loss, so the two lists differ in length, and training ends with the exception.
- `DropboxUpload.ShareLink`: the error type raised by a failing first listing comes from the Dropbox SDK, whose `ListSharedLinksError` has no "already exists" test. The SDK is not part of this model.
- I/O is left out: Discord message sending, the JSON config and history files (`load_config`, `save_config`, `load_history`, `save_history`), the CSV and model checkpoints, logging and `print`. Each operation returns what it would send.
- External calls are parameters of the operation that needs them: MediaRecorder, getDisplayMedia/getUserMedia, ONNX Runtime sessions, canvas drawing and resizing, the Dropbox SDK, yt-dlp, streamlink, requests/BeautifulSoup and Gemini.
- `resizeToModel` (canvas scaling) is a parameter: the resized frame is an input of `PredictScores`.
- Time is a parameter. `Date.now()` and `toLocaleTimeString` are inputs of the step functions. `datetime.now` is a `DateTime` value, and the time until an event is given in integer microseconds (timedelta resolution).
- `crypto.randomUUID()` is modelled as a counter, so new ids are distinct from all earlier ones.
- Concurrency is left out: each async handler runs to completion. This hides the stale `activeId`/`list` closures of the interval and key handlers and the race between two overlapping `startRecording` calls.
- Floating point is modelled as exact reals: the normalisation, the detector scale and the metric ratios. `Math.floor` of the scaled size is proved equal to integer division. In IEEE doubles `vw * (512 / vw)` can round just below 512, so for some widths above 512 (561 is the first) the source gets a 511-pixel-wide canvas where the model gives 512.
- `sigmoid` is left out: `LabelMetric` takes the models' probabilities directly.
- The network, the optimiser, the loss, the MLflow logging and `main` are left out of `train.py`; an epoch is a list of training-step losses and validation batches.
- `str.lower()` is ASCII lower-casing only, with no Unicode case folding.
- Guild ids are `nat` keys, not the `str(guild_id)` keys of the JSON config.
- The ffxiv_info_scraper's `scrape_webpage` and prompt text are left out. The announcement and reply messages are modelled.
- `show_history`, `show_history_all`, `upcoming_events`, `event_info`, `show_event_settings` and the bots' help text only display state and are left out. `show_history` looks the channel up by its bare name, without the "-논의" suffix.
- The embed layout (titles, colours, footers, fields) is left out; posts are either embeds or plain text.
- `record_local` (the streamlink subprocess) and the result-channel report are left out, apart from the reported timestamp.
- The `toCanvasStream` capture, the blob URL creation and the unmount cleanup are left out; a blob URL is an input of the stop step.
- `DiscussionSummarizer.Sorted`: does not state stability. Python's sort is stable, and the model is an insertion sort that keeps equal timestamps in order, but no lemma says so.
- `DiscussionSummarizer.Recent`: states a prefix of at most the limit, not that exactly `min(limit, len)` messages are returned, since Discord's history may return fewer.
- `PullDetector.Tensor`: the 8-bit clamping of the RGBA data and Float32 rounding are not modelled.

## Findings

| source | as written | input that shows it | evidently intended | confidence | as-written member | corrected member |
|---|---|---|---|---|---|---|
| autorecorder/ffxiv-auto-recorder/components/RecordList.tsx:153-164 | the tick passes the `ImageData` to `pullStartDetected`/`pullEndDetected`, which index `scores[0][0]`; `img[0]` is undefined, the access throws, and `callBoolean` turns that into false | any frame, e.g. one whose start score would be 0.9 | score the frame (`predictScores`) and pass the scores to the detectors, so a start score above 0.7 starts a recording | not executed | `RecordList.TickAsWrittenIsInert` | `RecordList.TickStartsOnScore` |
| pyobserver/ai_observer_bot/discussion_summarizer.py:276-278 | after the scan, the leaked loop variables are recorded: only the last new message's data, and the id of the last message scanned | new messages 1 and 2 followed by an older bot message 3: only message 2 is stored, id 3 is marked processed, and 1 and 2 stay unprocessed | append every new message and mark each of their ids processed | not executed | `DiscussionSummarizer.RecordAsWrittenLosesMessages` | `DiscussionSummarizer.RecordNewEffect`, `DiscussionSummarizer.RecordNewComplete` |
