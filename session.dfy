/**
 The per-user session registries of the bot, as values, and the effect of each
 command and message handler on them.

 The bot keeps two dictionaries keyed by user id: `user_audio_files` (a user in
 merge mode and the clips collected so far) and `user_images` (a user in video
 mode and the photo and sound received so far). `State` holds both, with the
 set of files present in the working directory. Each handler becomes a
 function from the old state to the new state and the reply the user sees.

 Everything the handlers do outside the registries, such as downloading,
 decoding, exporting, running the encoder or sending a file, comes in as an
 `Outcomes` value that says which of those steps succeed.
 */
module Session {
  import opened FileNames
  import opened MergeJob

  /** The only mode `/video` ever stores. */
  const VIDEO_MODE: string := "video"

  /** One value of `user_images`: `{'mode': ..., 'image': ..., 'audio': ...}`. */
  datatype VideoEntry = VideoEntry(mode: string, image: Option<Path>, audio: Option<Path>)

  datatype State = State(
    clips: map<UserId, seq<Path>>,     // user_audio_files
    videos: map<UserId, VideoEntry>,   // user_images
    disk: set<Path>)                   // files present in the working directory

  /** The registries when the process starts: empty, whatever files are lying around. */
  function Initial(disk: set<Path>): State
  {
    State(map[], map[], disk)
  }

  /** The updates the bot registers a handler for (bot.py:327-333). */
  datatype Event = Merge | Video | Cancel | Done | Audio | Voice | Photo

  /**
   How the steps outside the model turn out while one update is handled:
   - downloaded: `get_file` and `download_to_drive` succeed;
   - confirmed: the message sent once a file is in place is delivered: the
     "clip added" or "photo received" confirmation, or the "please wait"
     notice of `/done` and of video making;
   - decoded: what `AudioSegment.from_file` returns for each path; a path that
     is not a key is one it raises on;
   - exported: `combined.export` writes the merged file;
   - encoded: the encoder run by `subprocess.run(..., check=True)` exits with 0;
   - sent: `reply_audio` or `reply_video` delivers the result.
   */
  datatype Outcomes = Outcomes(
    downloaded: bool,
    confirmed: bool,
    decoded: map<Path, Segment>,
    exported: bool,
    encoded: bool,
    sent: bool)

  /** The last message a handler sends the user. */
  datatype Reply =
    | MergeStarted
    | VideoStarted
    | Cancelled
    | NoClips
    | TooFewClips
    | MergeSent(count: nat, audio: Segment)
    | MergeFailed
    | ClipAdded(kind: ClipKind, number: nat)
    | ClipDownloadFailed(kind: ClipKind)
    | VideoSent
    | VideoFailed
    | NoModeSelected
    | PhotoReceived
    | PhotoDownloadFailed
    | VideoModeNeeded
    | NoReply   // the handler raised outside its `try`: the user is sent nothing

  /** `/merge`: start (or restart) the user's clip list; nothing but that list changes. */
  function MergeCommand(s: State, u: UserId): (r: (State, Reply))
    ensures r.0.clips - {u} == s.clips - {u}
    ensures r.0.videos == s.videos && r.0.disk == s.disk
  {
    (s.(clips := s.clips[u := []]), MergeStarted)
  }

  /** `/video`: start (or restart) the user's video entry; nothing but that entry changes. */
  function VideoCommand(s: State, u: UserId): (r: (State, Reply))
    ensures r.0.videos - {u} == s.videos - {u}
    ensures r.0.clips == s.clips && r.0.disk == s.disk
  {
    (s.(videos := s.videos[u := VideoEntry(VIDEO_MODE, None, None)]), VideoStarted)
  }

  /** `/cancel`: forget the user in both registries; the files stay where they are. */
  function CancelCommand(s: State, u: UserId): (r: (State, Reply))
    ensures u !in r.0.clips && u !in r.0.videos
    ensures r.0.clips - {u} == s.clips - {u} && r.0.videos - {u} == s.videos - {u}
    ensures r.0.disk == s.disk
  {
    (s.(clips := s.clips - {u}, videos := s.videos - {u}), Cancelled)
  }

  /**
   `/done`: merge the user's clips in list order, send the result, delete the
   clips and the result, and forget the list. Any failure on the way leaves the
   list as it was; a merged file that was exported but not sent stays on disk.
   The "please wait" notice is sent before the `try`, so when it fails the
   handler stops with nothing changed and no reply.
   */
  function DoneCommand(s: State, u: UserId, o: Outcomes): (r: (State, Reply))
    ensures r.0.clips - {u} == s.clips - {u} && r.0.videos == s.videos
    ensures u in s.clips && u !in r.0.clips <==> r.1.MergeSent?
    ensures r.1.MergeSent? ==> r.1.count == |s.clips[u]| >= 2
  {
    if u !in s.clips || |s.clips[u]| == 0 then (s, NoClips)
    else if |s.clips[u]| < 2 then (s, TooFewClips)
    else if !o.confirmed then (s, NoReply)
    else
      var paths := s.clips[u];
      if !AllDecoded(paths, o.decoded) || !o.exported then (s, MergeFailed)
      else
        var out := Render(Merged(u));
        if !o.sent then (s.(disk := s.disk + {out}), MergeFailed)
        else
          var left := (s.disk + {out}) - (set p | p in paths) - {out};
          (State(s.clips - {u}, s.videos, left), MergeSent(|paths|, Joined(paths, o.decoded)))
  }

  /**
   `handle_audio` and `handle_voice`. Merge mode is checked first: the clip is
   downloaded under a name holding its position and appended. Otherwise, in
   video mode with a photo present, the sound is downloaded, recorded in the
   entry, and the video is encoded and sent, after which the three files and
   the entry are deleted. A confirmation that cannot be sent after the clip is
   appended makes the handler's `except` report a failed download, though the
   clip stays in the list.
   */
  function ClipMessage(s: State, u: UserId, kind: ClipKind, o: Outcomes): (r: (State, Reply))
    ensures r.0.clips - {u} == s.clips - {u} && r.0.videos - {u} == s.videos - {u}
    ensures r.0.clips.Keys == s.clips.Keys && r.0.videos.Keys <= s.videos.Keys
  {
    if u in s.clips then
      if !o.downloaded then (s, ClipDownloadFailed(kind))
      else
        var list := s.clips[u];
        var p := Render(Clip(kind, u, |list|));
        var reply := if o.confirmed then ClipAdded(kind, |list| + 1) else ClipDownloadFailed(kind);
        (s.(clips := s.clips[u := list + [p]], disk := s.disk + {p}), reply)
    else if u in s.videos && s.videos[u].image.Some? then
      if !o.downloaded then (s, VideoFailed)
      else
        var sound := Render(VideoSound(kind, u));
        var entry := s.videos[u].(audio := Some(sound));
        var withSound := s.(videos := s.videos[u := entry], disk := s.disk + {sound});
        if !o.confirmed || sound !in o.decoded || !o.encoded then (withSound, VideoFailed)
        else
          var out := Render(VideoOut(u));
          if !o.sent then (withSound.(disk := withSound.disk + {out}), VideoFailed)
          else
            var left := withSound.disk + {out} - {entry.image.value, sound, out};
            (State(s.clips, s.videos - {u}, left), VideoSent)
    else
      (s, NoModeSelected)
  }

  /**
   `handle_photo`: in video mode, download the photo and store it, replacing
   any earlier one. A confirmation that cannot be sent makes the `except`
   report a failed download, though the photo is stored.
   */
  function PhotoMessage(s: State, u: UserId, o: Outcomes): (r: (State, Reply))
    ensures r.0.clips == s.clips
    ensures r.0.videos - {u} == s.videos - {u} && r.0.videos.Keys == s.videos.Keys
  {
    if u in s.videos && s.videos[u].mode == VIDEO_MODE then
      if !o.downloaded then (s, PhotoDownloadFailed)
      else
        var p := Render(Image(u));
        var reply := if o.confirmed then PhotoReceived else PhotoDownloadFailed;
        (s.(videos := s.videos[u := s.videos[u].(image := Some(p))], disk := s.disk + {p}), reply)
    else
      (s, VideoModeNeeded)
  }

  /**
   Handling one update from user `u`. Only `u`'s registry entries can change:
   every other user's clip list and video entry are left as they were.
   */
  function Step(s: State, u: UserId, e: Event, o: Outcomes): (r: (State, Reply))
    ensures r.0.clips - {u} == s.clips - {u}
    ensures r.0.videos - {u} == s.videos - {u}
  {
    match e
    case Merge => MergeCommand(s, u)
    case Video => VideoCommand(s, u)
    case Cancel => CancelCommand(s, u)
    case Done => DoneCommand(s, u, o)
    case Audio => ClipMessage(s, u, AudioClip, o)
    case Voice => ClipMessage(s, u, VoiceNote, o)
    case Photo => PhotoMessage(s, u, o)
  }

  /** One update as the dispatcher delivers it: sender, kind, and how its side effects turn out. */
  datatype Update = Update(user: UserId, event: Event, outcomes: Outcomes)

  /** The users who sent at least one of `updates`. */
  function Senders(updates: seq<Update>): set<UserId>
  {
    set i | 0 <= i < |updates| :: updates[i].user
  }

  /**
   Handling a sequence of updates one after the other, as the polling loop
   does. A user who sent none of them keeps their clip list and video entry.
   */
  function Run(s: State, updates: seq<Update>): (r: State)
    ensures r.clips - Senders(updates) == s.clips - Senders(updates)
    ensures r.videos - Senders(updates) == s.videos - Senders(updates)
    decreases |updates|
  {
    if updates == [] then s
    else
      var init, last := updates[..|updates| - 1], updates[|updates| - 1];
      var prev := Run(s, init);
      var next := Step(prev, last.user, last.event, last.outcomes).0;
      assert Senders(updates) == Senders(init) + {last.user} by {
        forall i | 0 <= i < |init| ensures init[i] == updates[i] { }
      }
      assert next.clips - Senders(updates) == (next.clips - {last.user}) - Senders(init);
      assert prev.clips - Senders(updates) == (prev.clips - Senders(init)) - {last.user};
      assert s.clips - Senders(updates) == (s.clips - Senders(init)) - {last.user};
      assert next.videos - Senders(updates) == (next.videos - {last.user}) - Senders(init);
      assert prev.videos - Senders(updates) == (prev.videos - Senders(init)) - {last.user};
      assert s.videos - Senders(updates) == (s.videos - Senders(init)) - {last.user};
      next
  }

  // ---------------------------------------------------------------------------
  // What the registries always satisfy

  /** `p` is the name of clip number `i` of user `u`. */
  predicate NamesClip(p: Path, u: UserId, i: nat)
  {
    match Parse(p)
    case Some(Clip(_, v, j)) => v == u && j == i
    case _ => false
  }

  /** `p` is the name of a video-mode sound of user `u`. */
  predicate NamesVideoSound(p: Path, u: UserId)
  {
    match Parse(p)
    case Some(VideoSound(_, v)) => v == u
    case _ => false
  }

  /** A video entry of user `u` holds only `u`'s photo and sound, and both are on disk. */
  predicate EntryConsistent(e: VideoEntry, u: UserId, disk: set<Path>)
  {
    && e.mode == VIDEO_MODE
    && (e.image.Some? ==> e.image.value in disk && Parse(e.image.value) == Some(Image(u)))
    && (e.audio.Some? ==> e.audio.value in disk && NamesVideoSound(e.audio.value, u))
  }

  /**
   Every clip in a user's list is on disk and is named for that user and for
   its position in the list; every video entry is consistent.
   */
  predicate Consistent(s: State)
  {
    && (forall u, i :: u in s.clips && 0 <= i < |s.clips[u]| ==>
          s.clips[u][i] in s.disk && NamesClip(s.clips[u][i], u, i))
    && (forall u :: u in s.videos ==> EntryConsistent(s.videos[u], u, s.disk))
  }
}
