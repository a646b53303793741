/**
 What each handler does to the registries, and what every handler preserves.
 */
module SessionLemmas {
  import opened FileNames
  import opened MergeJob
  import opened Session

  // ---------------------------------------------------------------------------
  // Commands

  /** `/merge` gives the user an empty clip list and touches nothing else. */
  lemma MergeStartsEmptyList(s: State, u: UserId)
    ensures var (t, reply) := MergeCommand(s, u);
      && u in t.clips && t.clips[u] == []
      && t.clips - {u} == s.clips - {u}
      && t.videos == s.videos && t.disk == s.disk
      && reply == MergeStarted
  {
  }

  /** `/video` replaces the user's video entry by an empty one and touches nothing else. */
  lemma VideoStartsEmptyEntry(s: State, u: UserId)
    ensures var (t, reply) := VideoCommand(s, u);
      && u in t.videos && t.videos[u] == VideoEntry(VIDEO_MODE, None, None)
      && t.videos - {u} == s.videos - {u}
      && t.clips == s.clips && t.disk == s.disk
      && reply == VideoStarted
  {
  }

  /**
   `/cancel` removes the user from both registries, leaves every file on disk
   and every other user alone; it does nothing to a user it does not know, and
   a second `/cancel` changes nothing.
   */
  lemma CancelForgetsUser(s: State, u: UserId)
    ensures var (t, reply) := CancelCommand(s, u);
      && u !in t.clips && u !in t.videos
      && t.clips - {u} == s.clips - {u} && t.videos - {u} == s.videos - {u}
      && t.disk == s.disk
      && CancelCommand(t, u).0 == t
      && (u !in s.clips && u !in s.videos ==> t == s)
      && reply == Cancelled
  {
  }

  /** Files of a cancelled merge stay on disk, no longer listed anywhere. */
  lemma CancelLeavesClipFiles(s: State, u: UserId, i: nat)
    requires Consistent(s) && u in s.clips && i < |s.clips[u]|
    ensures var t := CancelCommand(s, u).0;
      s.clips[u][i] in t.disk && u !in t.clips
  {
  }

  // ---------------------------------------------------------------------------
  // /done

  /** Without a list, or with fewer than two clips, `/done` changes nothing and says why. */
  lemma DoneNeedsTwoClips(s: State, u: UserId, o: Outcomes)
    requires u !in s.clips || |s.clips[u]| < 2
    ensures var (t, reply) := DoneCommand(s, u, o);
      t == s && reply == (if u !in s.clips || s.clips[u] == [] then NoClips else TooFewClips)
  {
  }

  /**
   `/done` forgets the user's list exactly when there were at least two clips,
   the "please wait" notice went out, and decoding, exporting and sending all
   succeeded. Otherwise both registries are left exactly as they were.
   */
  lemma DoneClearsOnlyOnSuccess(s: State, u: UserId, o: Outcomes)
    requires u in s.clips
    ensures var (t, reply) := DoneCommand(s, u, o);
      var ok := |s.clips[u]| >= 2 && o.confirmed && AllDecoded(s.clips[u], o.decoded) && o.exported && o.sent;
      && (u !in t.clips <==> ok)
      && (!ok ==> t.clips == s.clips && t.videos == s.videos)
      && (ok ==> t.clips == s.clips - {u} && t.videos == s.videos)
  {
  }

  /**
   A successful `/done` sends the user's clips merged in list order, then
   deletes the clips and the merged file, and no other file.
   */
  lemma DoneSuccess(s: State, u: UserId, o: Outcomes)
    requires u in s.clips && |s.clips[u]| >= 2 && o.confirmed
    requires AllDecoded(s.clips[u], o.decoded) && o.exported && o.sent
    ensures var (t, reply) := DoneCommand(s, u, o);
      var paths := s.clips[u];
      && reply == MergeSent(|paths|, Joined(paths, o.decoded))
      && |reply.audio| == TotalDuration(paths, o.decoded)
      && (forall i :: 0 <= i < |paths| ==> paths[i] !in t.disk)
      && Render(Merged(u)) !in t.disk
      && (forall p :: p in s.disk && p !in paths && p != Render(Merged(u)) ==> p in t.disk)
      && t.disk <= s.disk
  {
  }

  /**
   When the "please wait" notice of `/done` cannot be sent, the handler stops
   before its `try`: nothing changes and the user gets no reply.
   */
  lemma DoneNoticeFailureChangesNothing(s: State, u: UserId, o: Outcomes)
    requires u in s.clips && |s.clips[u]| >= 2 && !o.confirmed
    ensures DoneCommand(s, u, o) == (s, NoReply)
  {
  }

  /** A `/done` whose sending fails leaves the exported file behind, and the list as it was. */
  lemma DoneSendFailureKeepsOutput(s: State, u: UserId, o: Outcomes)
    requires u in s.clips && |s.clips[u]| >= 2 && o.confirmed
    requires AllDecoded(s.clips[u], o.decoded) && o.exported && !o.sent
    ensures var (t, reply) := DoneCommand(s, u, o);
      t.clips == s.clips && t.disk == s.disk + {Render(Merged(u))} && reply == MergeFailed
  {
  }

  // ---------------------------------------------------------------------------
  // Audio and voice messages

  /**
   In merge mode a clip is appended under the name that holds its position,
   only when its download succeeds; the video registry is left alone even
   when the user is also in video mode. If the confirmation cannot be sent the
   clip is kept but the user is told the download failed.
   */
  lemma ClipAppendedInMergeMode(s: State, u: UserId, kind: ClipKind, o: Outcomes)
    requires u in s.clips
    ensures var (t, reply) := ClipMessage(s, u, kind, o);
      var list := s.clips[u];
      var p := Render(Clip(kind, u, |list|));
      && t.videos == s.videos
      && t.clips - {u} == s.clips - {u}
      && (o.downloaded ==> u in t.clips && t.clips[u] == list + [p] && t.disk == s.disk + {p}
                           && reply == (if o.confirmed then ClipAdded(kind, |list| + 1) else ClipDownloadFailed(kind)))
      && (!o.downloaded ==> t == s && reply == ClipDownloadFailed(kind))
  {
  }

  /** A user's clip list never holds the same file twice. */
  lemma ClipListDistinct(s: State, u: UserId)
    requires Consistent(s) && u in s.clips
    ensures forall i, j :: 0 <= i < j < |s.clips[u]| ==> s.clips[u][i] != s.clips[u][j]
  {
  }

  /**
   Sound goes to video mode only when the user is not in merge mode and a
   photo is present; a user in neither situation gets a hint and nothing changes.
   */
  lemma ClipWithoutModeChangesNothing(s: State, u: UserId, kind: ClipKind, o: Outcomes)
    requires u !in s.clips && (u !in s.videos || s.videos[u].image.None?)
    ensures ClipMessage(s, u, kind, o) == (s, NoModeSelected)
  {
  }

  /**
   In video mode with a photo, a sound whose download, "please wait" notice,
   decoding, encoding and sending all succeed produces the video and deletes the entry, the photo, the
   sound and the video file.
   */
  lemma VideoSuccessDeletesEntry(s: State, u: UserId, kind: ClipKind, o: Outcomes)
    requires u !in s.clips && u in s.videos && s.videos[u].image.Some?
    requires o.downloaded && o.confirmed && Render(VideoSound(kind, u)) in o.decoded && o.encoded && o.sent
    ensures var (t, reply) := ClipMessage(s, u, kind, o);
      && reply == VideoSent
      && u !in t.videos && t.videos == s.videos - {u} && t.clips == s.clips
      && s.videos[u].image.value !in t.disk
      && Render(VideoSound(kind, u)) !in t.disk && Render(VideoOut(u)) !in t.disk
  {
  }

  /**
   In video mode with a photo, any failure keeps the entry and its photo. Once
   the sound was downloaded, the entry records it even though no video was made.
   */
  lemma VideoFailureKeepsEntry(s: State, u: UserId, kind: ClipKind, o: Outcomes)
    requires u !in s.clips && u in s.videos && s.videos[u].image.Some?
    requires !(o.downloaded && o.confirmed && Render(VideoSound(kind, u)) in o.decoded && o.encoded && o.sent)
    ensures var (t, reply) := ClipMessage(s, u, kind, o);
      && reply == VideoFailed
      && u in t.videos && t.clips == s.clips
      && t.videos[u].image == s.videos[u].image
      && t.videos[u].audio == (if o.downloaded then Some(Render(VideoSound(kind, u))) else s.videos[u].audio)
  {
  }

  // ---------------------------------------------------------------------------
  // Photos

  /**
   A photo changes something only for a user in video mode: after a
   successful download it becomes the entry's image, replacing any earlier
   photo, even when the confirmation then fails and the user is told the
   download failed. For anyone else nothing changes.
   */
  lemma PhotoFillsImage(s: State, u: UserId, o: Outcomes)
    requires Consistent(s)
    ensures var (t, reply) := PhotoMessage(s, u, o);
      && t.clips == s.clips
      && (u in s.videos && o.downloaded ==>
            u in t.videos && t.videos[u] == s.videos[u].(image := Some(Render(Image(u))))
            && t.videos - {u} == s.videos - {u}
            && reply == (if o.confirmed then PhotoReceived else PhotoDownloadFailed))
      && (u in s.videos && !o.downloaded ==> t == s && reply == PhotoDownloadFailed)
      && (u !in s.videos ==> t == s && reply == VideoModeNeeded)
  {
  }

  // ---------------------------------------------------------------------------
  // Every handler keeps the registries consistent

  lemma DonePreservesConsistency(s: State, u: UserId, o: Outcomes)
    requires Consistent(s)
    ensures Consistent(DoneCommand(s, u, o).0)
  {
    var t := DoneCommand(s, u, o).0;
    if u in s.clips && |s.clips[u]| >= 2 && o.confirmed && AllDecoded(s.clips[u], o.decoded) && o.exported && o.sent {
      var paths, out := s.clips[u], Render(Merged(u));
      ParseRender(Merged(u));
      forall v, i | v in t.clips && 0 <= i < |t.clips[v]|
        ensures t.clips[v][i] in t.disk
      {
        var p := s.clips[v][i];
        assert NamesClip(p, v, i);
        forall j | 0 <= j < |paths| ensures p != paths[j] {
          assert NamesClip(paths[j], u, j);
        }
      }
      forall w | w in t.videos ensures EntryConsistent(t.videos[w], w, t.disk) {
        var e := s.videos[w];
        assert EntryConsistent(e, w, s.disk);
        if e.image.Some? {
          forall j | 0 <= j < |paths| ensures e.image.value != paths[j] {
            assert NamesClip(paths[j], u, j);
          }
        }
        if e.audio.Some? {
          forall j | 0 <= j < |paths| ensures e.audio.value != paths[j] {
            assert NamesClip(paths[j], u, j);
          }
        }
      }
    }
  }

  lemma ClipMessagePreservesConsistency(s: State, u: UserId, kind: ClipKind, o: Outcomes)
    requires Consistent(s)
    ensures Consistent(ClipMessage(s, u, kind, o).0)
  {
    var t := ClipMessage(s, u, kind, o).0;
    if u in s.clips {
      if o.downloaded {
        ParseRender(Clip(kind, u, |s.clips[u]|));
      }
    } else if u in s.videos && s.videos[u].image.Some? && o.downloaded {
      var sound, out := Render(VideoSound(kind, u)), Render(VideoOut(u));
      ParseRender(VideoSound(kind, u));
      ParseRender(VideoOut(u));
      var image := s.videos[u].image.value;
      assert Parse(image) == Some(Image(u));
      forall v, i | v in t.clips && 0 <= i < |t.clips[v]|
        ensures t.clips[v][i] in t.disk
      {
        assert NamesClip(s.clips[v][i], v, i);
      }
      forall w | w in t.videos ensures EntryConsistent(t.videos[w], w, t.disk) {
        assert EntryConsistent(s.videos[w], w, s.disk);
      }
    }
  }

  lemma PhotoMessagePreservesConsistency(s: State, u: UserId, o: Outcomes)
    requires Consistent(s)
    ensures Consistent(PhotoMessage(s, u, o).0)
  {
    ParseRender(Image(u));
  }

  /** No handler breaks `Consistent`. */
  lemma StepPreservesConsistency(s: State, u: UserId, e: Event, o: Outcomes)
    requires Consistent(s)
    ensures Consistent(Step(s, u, e, o).0)
  {
    match e
    case Merge =>
    case Video =>
    case Cancel =>
    case Done => DonePreservesConsistency(s, u, o);
    case Audio => ClipMessagePreservesConsistency(s, u, AudioClip, o);
    case Voice => ClipMessagePreservesConsistency(s, u, VoiceNote, o);
    case Photo => PhotoMessagePreservesConsistency(s, u, o);
  }

  /** The registries stay consistent through any sequence of updates from the empty start. */
  lemma {:induction false} RunPreservesConsistency(disk: set<Path>, updates: seq<Update>)
    ensures Consistent(Run(Initial(disk), updates))
    decreases |updates|
  {
    if updates != [] {
      var last := updates[|updates| - 1];
      RunPreservesConsistency(disk, updates[..|updates| - 1]);
      StepPreservesConsistency(Run(Initial(disk), updates[..|updates| - 1]), last.user, last.event, last.outcomes);
    }
  }

  // ---------------------------------------------------------------------------
  // Users do not disturb each other

  /**
   Handling an update from `u` creates and deletes only files named for `u`:
   the files of every other user, and files the bot never names, stay as they were.
   */
  lemma StepIsolatesUsers(s: State, u: UserId, e: Event, o: Outcomes)
    requires Consistent(s)
    ensures var t := Step(s, u, e, o).0;
      forall p :: Owner(p) != Some(u) ==> (p in t.disk <==> p in s.disk)
  {
    var t := Step(s, u, e, o).0;
    forall p | Owner(p) != Some(u) ensures p in t.disk <==> p in s.disk {
      match e
      case Done =>
        OwnerRender(Merged(u));
        if u in s.clips {
          var paths := s.clips[u];
          forall j | 0 <= j < |paths| ensures p != paths[j] {
            assert NamesClip(paths[j], u, j);
          }
        }
      case Audio =>
        ClipMessageIsolates(s, u, AudioClip, o, p);
      case Voice =>
        ClipMessageIsolates(s, u, VoiceNote, o, p);
      case Photo =>
        OwnerRender(Image(u));
      case _ =>
    }
  }

  lemma ClipMessageIsolates(s: State, u: UserId, kind: ClipKind, o: Outcomes, p: Path)
    requires Consistent(s) && Owner(p) != Some(u)
    ensures var t := ClipMessage(s, u, kind, o).0;
      p in t.disk <==> p in s.disk
  {
    if u in s.clips {
      OwnerRender(Clip(kind, u, |s.clips[u]|));
    } else if u in s.videos && s.videos[u].image.Some? {
      OwnerRender(VideoSound(kind, u));
      OwnerRender(VideoOut(u));
      assert Parse(s.videos[u].image.value) == Some(Image(u));
    }
  }

  // ---------------------------------------------------------------------------
  // Both modes at once

  /**
   `/merge` followed by `/video` leaves a user in both registries, and an audio
   message then goes to merge mode: it is appended as the first clip and the
   video entry is not touched.
   */
  lemma BothModesMergeWins(disk: set<Path>, u: UserId, o: Outcomes)
    requires o.downloaded
    ensures var s := Run(Initial(disk), [Update(u, Merge, o), Update(u, Video, o)]);
      && u in s.clips && u in s.videos
      && var t := Step(s, u, Audio, o).0;
         t.clips[u] == [Render(Clip(AudioClip, u, 0))] && t.videos == s.videos
  {
  }
}
