# Audio/video chat bot: session registries

This project models the core of a chat bot that does two jobs for each user.
It joins several audio clips into one file ("merge mode"). It also turns a
photo and a sound into a video ("video mode"). The bot remembers what each
user is doing in two module-level dictionaries:

- `user_audio_files` maps a user id to the ordered list of clip files
  downloaded so far (merge mode).
- `user_images` maps a user id to `{mode, image, audio}` (video mode).

The command handlers `/merge`, `/video`, `/cancel` and `/done` and the
message handlers for audio, voice and photo messages move users between
these registries. They download files into the working directory, run the
merge or the encoder, send the result and delete files.

The model has three parts:

- `Session` models the registries and the working directory as a value
  (`State`) and each handler as a function from the old state to the new
  state and the reply the user sees.
- `Handlers.Bot` is a class with the same three pieces of state, updated in
  place, with one method per handler. Each method's postcondition equates
  its effect with the `Session` function.
- `SessionLemmas` proves what the handlers guarantee.

Side effects are inputs. An `Outcomes` value says whether the download
succeeds, whether the message sent once a file is in place (a confirmation or
a "please wait" notice) is delivered, what each file decodes to, and whether
the export, the encoder run and the final send succeed.

`FileNames` models the names the handlers give their files:
`audio_{user}_{n}.mp3`, `voice_{user}_{n}.ogg`, `merged_{user}.mp3`,
`image_{user}.jpg`, `video_audio_{user}.mp3`, `video_voice_{user}.ogg` and
`video_{user}.mp4`. Every such name is a bare file name in the working
directory. A user id is rendered as Python's `str` renders an int,
so it contains only digits and perhaps a minus sign. The `_` or `.` after the
id therefore marks where the id ends. `Parse` reads a name back, and
`ParseRender` proves that it undoes `Render`. So no two files share a name,
whether they belong to one user or to two. For example, `audio_1_23.mp3` and
`audio_12_3.mp3` differ at their eighth character. `StepIsolatesUsers` builds
on this: an update from one user never creates or deletes another user's file.

`MergeJob` models the two loops of `/done`:

- The decoding loop appends each clip in list order and stops at the first
  clip that fails to decode.
- The cleanup loop removes the listed files that exist.

Behaviour of the code that the model keeps:

- A user can be in both registries. `/merge` does not clear the video entry,
  and `/video` does not clear the clip list. Audio and voice then go to merge
  mode (`BothModesMergeWins`).
- A second photo replaces the first.
- `/cancel` forgets the user but deletes no file.
- A failed `/done` keeps the list. If the merged file was exported but could
  not be sent, it stays on disk.
- In video mode, a sound that downloads but cannot be turned into a video
  stays recorded in the entry's `audio` slot.
- A clip or photo whose confirmation cannot be sent is still kept, but the
  user is told the download failed. If the "please wait" notice of `/done`
  cannot be sent, the handler stops before its `try`: nothing changes and
  the user gets no reply.

`bot.py` has no flow that appends to a previous result, no reaper of
inactive sessions, no progress reporting, no size or queue limits, and no
cancel that deletes files, so neither does the model.

## Model

| member | source | states |
|---|---|---|
| `FileNames.Render` | bot.py:110-298 | the seven f-string names (bot.py:110, 143, 161, 170, 223, 240, 298) are non-empty bare file names with no `/`; `ParseRender` shows each reads back to what it was built from |
| `FileNames.IntToString` | bot.py:143 | a user id renders as a non-empty string of digits and `-`, starting with a digit exactly when the id is not negative |
| `FileNames.ParseRender` | bot.py:143 | every name the handlers build (clips, merged file, photo, video-mode sound, video) parses back to the file, user and position it was built from |
| `FileNames.RenderInjective` | bot.py:223 | two different files, of the same user or of different users, never get the same name |
| `FileNames.OwnerRender` | bot.py:298 | every name the handlers build is owned by the user id it embeds |
| `FileNames.ClipNamesKeepUsersApart` | bot.py:143 | user 12's clip 3 is `audio_12_3.mp3`, user 1's clip 23 is `audio_1_23.mp3`, and the two differ |
| `MergeJob.Concatenate` | bot.py:104-107 | the decoding loop yields a result exactly when every clip decodes, and the result is the clips joined in list order |
| `MergeJob.RemoveFiles` | bot.py:122-124 | after the cleanup loop a file exists exactly when it existed before and is not in the list |
| `MergeJob.Joined` | bot.py:104-107 | the clips appended in list order give a sound that lasts as long as the clips' durations added up |
| `MergeJob.JoinedAppend` | bot.py:105-107 | merging a list in two parts equals merging the parts and joining the results |
| `MergeJob.ClipInPlace` | bot.py:105-107 | each clip appears whole in the merged sound, starting where the clips before it end |
| `Session.MergeCommand` | bot.py:59-61 | `/merge` changes only the user's own clip list: other users' lists, the video registry and the files are unchanged (details in `MergeStartsEmptyList`) |
| `Session.VideoCommand` | bot.py:70-72 | `/video` changes only the user's own video entry: other users' entries, the clip registry and the files are unchanged (details in `VideoStartsEmptyEntry`) |
| `Session.CancelCommand` | bot.py:80-85 | `/cancel` leaves the user in neither registry, keeps every other user's entries, and keeps every file (details in `CancelForgetsUser`) |
| `Session.DoneCommand` | bot.py:89-132 | `/done` never touches the video registry or other users' lists; the user's list is gone afterwards exactly when the merge was sent, and a sent merge counts at least two clips, the whole list (details in `DoneClearsOnlyOnSuccess`, `DoneSuccess`) |
| `Session.ClipMessage` | bot.py:135-288 | an audio or voice message never makes a user enter or leave merge mode, can only end video mode, and leaves other users' entries unchanged (details in `ClipAppendedInMergeMode`, `VideoSuccessDeletesEntry`, `VideoFailureKeepsEntry`) |
| `Session.PhotoMessage` | bot.py:291-313 | a photo never touches the clip registry, never adds or removes a video entry, and leaves other users' entries unchanged (details in `PhotoFillsImage`) |
| `Session.Run` | bot.py:337 | after any sequence of updates, a user who sent none of them has the clip list and video entry they had before |
| `Session.Step` | bot.py:327-333 | an update from one user leaves every other user's clip list and video entry unchanged |
| `SessionLemmas.MergeStartsEmptyList` | bot.py:59-61 | `/merge` sets the user's clip list to empty; the video registry, the files and other users are unchanged |
| `SessionLemmas.VideoStartsEmptyEntry` | bot.py:70-72 | `/video` replaces the user's entry by `{mode: video, image: None, audio: None}`; the clip registry and the files are unchanged |
| `SessionLemmas.CancelForgetsUser` | bot.py:80-85 | `/cancel` removes the user from both registries, keeps every file, leaves other users alone, is idempotent, and changes nothing for an unknown user |
| `SessionLemmas.CancelLeavesClipFiles` | bot.py:82-85 | after `/cancel` the user's collected clip files are still on disk |
| `SessionLemmas.DoneNeedsTwoClips` | bot.py:92-98 | with no list, an empty list, or a single clip, `/done` changes nothing and replies "no audio" or "at least two" |
| `SessionLemmas.DoneClearsOnlyOnSuccess` | bot.py:102-132 | `/done` deletes the user's list exactly when there are two or more clips and decoding, export and sending all succeed; otherwise both registries are unchanged |
| `SessionLemmas.DoneSuccess` | bot.py:104-128 | a successful `/done` sends the clips joined in list order, lasting their total duration, and deletes the clips and the merged file and no other file |
| `SessionLemmas.DoneNoticeFailureChangesNothing` | bot.py:100 | when the "please wait" notice of `/done` fails, outside the `try`, nothing changes and the user gets no reply |
| `SessionLemmas.DoneSendFailureKeepsOutput` | bot.py:110-132 | when sending fails after export, the list is kept and the merged file stays on disk |
| `SessionLemmas.ClipAppendedInMergeMode` | bot.py:139-154 | in merge mode, audio or voice appends exactly one file, named with the list length, and only after a successful download; a failed download changes nothing; the video registry is untouched |
| `SessionLemmas.ClipListDistinct` | bot.py:143-146 | a user's clip list never holds the same file twice |
| `SessionLemmas.ClipWithoutModeChangesNothing` | bot.py:210-213 | audio or voice from a user who is not in merge mode and has no photo in video mode changes nothing and gets the "start with /merge or /video" reply |
| `SessionLemmas.VideoSuccessDeletesEntry` | bot.py:157-204 | in video mode with a photo, a sound that downloads, decodes, encodes and is sent deletes the entry and the photo, sound and video files |
| `SessionLemmas.VideoFailureKeepsEntry` | bot.py:157-208 | any failure in video mode keeps the entry and its photo; once the sound is downloaded, the entry records it |
| `SessionLemmas.PhotoFillsImage` | bot.py:294-313 | a photo changes state only for a user in video mode; a successful download sets or replaces the image; otherwise nothing changes |
| `SessionLemmas.StepPreservesConsistency` | bot.py:135-313 | every handler keeps the invariant: clip i of a user's list is on disk and named for that user and index i, and a video entry holds only that user's photo and sound, both on disk |
| `SessionLemmas.RunPreservesConsistency` | bot.py:337 | the invariant holds after any sequence of updates, starting from empty registries |
| `SessionLemmas.StepIsolatesUsers` | bot.py:89-313 | an update from one user creates and deletes only files named for that user |
| `SessionLemmas.BothModesMergeWins` | bot.py:139-157 | after `/merge` and `/video` a user is in both registries, and the next audio is appended as clip 0 without touching the video entry |
| `Handlers.Bot.constructor` | bot.py:16-17 | both registries start empty |
| `Handlers.Bot.MergeCommand` | bot.py:59-61 | the in-place `/merge` has the effect of `Session.MergeCommand` and keeps the invariant |
| `Handlers.Bot.VideoCommand` | bot.py:70-72 | the in-place `/video` has the effect of `Session.VideoCommand` and keeps the invariant |
| `Handlers.Bot.CancelCommand` | bot.py:80-85 | the in-place `/cancel` has the effect of `Session.CancelCommand` and keeps the invariant |
| `Handlers.Bot.DoneCommand` | bot.py:89-132 | the in-place `/done`, with its decoding and cleanup loops, has the effect of `Session.DoneCommand` and keeps the invariant |
| `Handlers.Bot.HandleAudio` | bot.py:135-213 | the in-place audio handler has the effect of `Session.ClipMessage` for audio files and keeps the invariant |
| `Handlers.Bot.HandleVoice` | bot.py:216-288 | the in-place voice handler has the effect of `Session.ClipMessage` for voice notes and keeps the invariant |
| `Handlers.Bot.ReceiveClip` | bot.py:135-213 | the body shared by the audio and voice handlers picks merge mode first, then video mode with a photo, otherwise the hint, with the effect of `Session.ClipMessage`, and keeps the invariant |
| `Handlers.Bot.AppendClip` | bot.py:139-154 | the merge-mode branch appends the downloaded clip as `Session.ClipMessage` says |
| `Handlers.Bot.MakeVideo` | bot.py:157-208 | the video-mode branch records the sound, then produces the video and deletes the entry, as `Session.ClipMessage` says |
| `Handlers.Bot.HandlePhoto` | bot.py:291-313 | the in-place photo handler has the effect of `Session.PhotoMessage` and keeps the invariant |
| `Handlers.Bot.Handle` | bot.py:325-333 | each kind of update reaches the handler registered for it, with the effect of `Session.Step` |

## Left out

- The chat transport (`reply_text`, `get_file`, `download_to_drive`, `reply_audio`, `reply_video`) is not modelled. Whether a download or the final send succeeds is an input. A download that fails is assumed to write no file.
- Only the last message a handler sends is modelled, as `Reply`; the confirmation and "please wait" texts themselves are not. Whether each is delivered is the `confirmed` outcome, and its failure path is modelled: bot.py:100 ends `/done` with no reply (`NoReply`); bot.py:148, 228 and 303 keep the clip or photo and answer with the download-failure text; bot.py:166 and 245 answer like a failed video with the sound recorded.
- A failure to send the failure text inside an `except` (for example bot.py:154) is not modelled; the state is the same either way.
- Decoding, `export` and the encoder are not modelled. Decoding is a map from path to decoded samples; a path missing from the map is one that raises. Export and the encoder run are each one success flag. A failed export or encode is assumed to leave no output file.
- MergeJob.Joined: the decoded clips are assumed to share one format. pydub's `+` first converts both sounds to the larger channel count, frame rate and sample width, then appends; that conversion (and the rounding it brings to durations) is not modelled, so `Joined` is plain concatenation of samples.
- MergeJob.ClipInPlace: holds for clips of one format; a clip whose format differs from the others is converted by pydub before it is appended, so it does not appear sample for sample in the merged sound.
- The duration computation `len(audio) / 1000` (bot.py:174, 253) is left out. It is floating point and only feeds encoder arguments. Sound lengths appear only as segment lengths in `MergeJob`.
- `os.path.exists` and `os.remove` are modelled as removal from a set of present files. Removal is assumed never to raise.
- `/start` and `/help` (bot.py:20-56) only send fixed text and touch no state.
- `main`'s token check and `Application` setup (bot.py:316-337) are left out, as is the whole health-check server (server.py).
- Concurrency is not modelled. Each update is handled to completion before the next, as the polling loop delivers them.
- Each handler's log line is not modelled.

