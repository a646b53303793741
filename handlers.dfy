/**
 The bot's handlers as they run: two registries and the working directory,
 updated in place by one method per command or message handler.

 Each method states its new registries, the working directory and its reply
 as the matching function of `Session` applied to the old ones; the
 properties proved in `SessionLemmas` therefore hold of every call.
 */
module Handlers {
  import opened FileNames
  import opened MergeJob
  import opened Session
  import opened SessionLemmas

  class Bot {
    var audioFiles: map<UserId, seq<Path>>   // user_audio_files
    var images: map<UserId, VideoEntry>      // user_images
    var disk: set<Path>                      // files in the working directory

    function Snapshot(): State
      reads this
    {
      State(audioFiles, images, disk)
    }

    ghost predicate Valid()
      reads this
    {
      Consistent(Snapshot())
    }

    /** Both registries start empty; the working directory holds whatever it holds. */
    constructor (files: set<Path>)
      ensures Snapshot() == Initial(files) && Valid()
    {
      audioFiles := map[];
      images := map[];
      disk := files;
    }

    method MergeCommand(u: UserId) returns (reply: Reply)
      requires Valid()
      modifies this
      ensures Valid()
      ensures (Snapshot(), reply) == Session.MergeCommand(old(Snapshot()), u)
    {
      audioFiles := audioFiles[u := []];
      reply := MergeStarted;
    }

    method VideoCommand(u: UserId) returns (reply: Reply)
      requires Valid()
      modifies this
      ensures Valid()
      ensures (Snapshot(), reply) == Session.VideoCommand(old(Snapshot()), u)
    {
      images := images[u := VideoEntry(VIDEO_MODE, None, None)];
      reply := VideoStarted;
    }

    method CancelCommand(u: UserId) returns (reply: Reply)
      requires Valid()
      modifies this
      ensures Valid()
      ensures (Snapshot(), reply) == Session.CancelCommand(old(Snapshot()), u)
    {
      if u in audioFiles {
        audioFiles := audioFiles - {u};
      }
      if u in images {
        images := images - {u};
      }
      assert audioFiles == old(audioFiles) - {u} && images == old(images) - {u};
      reply := Cancelled;
    }

    method DoneCommand(u: UserId, o: Outcomes) returns (reply: Reply)
      requires Valid()
      modifies this
      ensures Valid()
      ensures (Snapshot(), reply) == Session.DoneCommand(old(Snapshot()), u, o)
    {
      DonePreservesConsistency(Snapshot(), u, o);
      if u !in audioFiles || |audioFiles[u]| == 0 {
        return NoClips;
      }
      if |audioFiles[u]| < 2 {
        return TooFewClips;
      }
      if !o.confirmed {
        return NoReply;   // the "please wait" notice raised before the `try`
      }
      var paths := audioFiles[u];
      var combined := Concatenate(paths, o.decoded);
      if combined.None? || !o.exported {
        return MergeFailed;
      }
      var out := Render(Merged(u));
      disk := disk + {out};
      if !o.sent {
        return MergeFailed;
      }
      var left := RemoveFiles(disk, paths);
      assert left - {out} == old(disk) + {out} - (set p | p in paths) - {out};
      disk := left - {out};
      audioFiles := audioFiles - {u};
      reply := MergeSent(|paths|, combined.value);
    }

    method HandleAudio(u: UserId, o: Outcomes) returns (reply: Reply)
      requires Valid()
      modifies this
      ensures Valid()
      ensures (Snapshot(), reply) == ClipMessage(old(Snapshot()), u, AudioClip, o)
    {
      reply := ReceiveClip(u, AudioClip, o);
    }

    method HandleVoice(u: UserId, o: Outcomes) returns (reply: Reply)
      requires Valid()
      modifies this
      ensures Valid()
      ensures (Snapshot(), reply) == ClipMessage(old(Snapshot()), u, VoiceNote, o)
    {
      reply := ReceiveClip(u, VoiceNote, o);
    }

    /** The body `handle_audio` and `handle_voice` share, for either kind of sound. */
    method ReceiveClip(u: UserId, kind: ClipKind, o: Outcomes) returns (reply: Reply)
      requires Valid()
      modifies this
      ensures Valid()
      ensures (Snapshot(), reply) == ClipMessage(old(Snapshot()), u, kind, o)
    {
      ClipMessagePreservesConsistency(Snapshot(), u, kind, o);
      if u in audioFiles {
        reply := AppendClip(u, kind, o);
      } else if u in images && images[u].image.Some? {
        reply := MakeVideo(u, kind, o);
      } else {
        reply := NoModeSelected;
      }
    }

    /** Merge mode: download the clip under the name that holds its position, then append it. */
    method AppendClip(u: UserId, kind: ClipKind, o: Outcomes) returns (reply: Reply)
      requires u in audioFiles
      modifies this
      ensures (Snapshot(), reply) == ClipMessage(old(Snapshot()), u, kind, o)
    {
      if !o.downloaded {
        return ClipDownloadFailed(kind);
      }
      var p := Render(Clip(kind, u, |audioFiles[u]|));
      disk := disk + {p};
      audioFiles := audioFiles[u := audioFiles[u] + [p]];
      reply := if o.confirmed then ClipAdded(kind, |audioFiles[u]|) else ClipDownloadFailed(kind);
    }

    /**
     Video mode with a photo: download the sound and record it, encode and send
     the video, then delete the three files and the entry.
     */
    method MakeVideo(u: UserId, kind: ClipKind, o: Outcomes) returns (reply: Reply)
      requires u !in audioFiles && u in images && images[u].image.Some?
      modifies this
      ensures (Snapshot(), reply) == ClipMessage(old(Snapshot()), u, kind, o)
    {
      if !o.downloaded {
        return VideoFailed;
      }
      var sound := Render(VideoSound(kind, u));
      disk := disk + {sound};
      images := images[u := images[u].(audio := Some(sound))];
      if !o.confirmed || sound !in o.decoded || !o.encoded {
        return VideoFailed;
      }
      var out := Render(VideoOut(u));
      disk := disk + {out};
      if !o.sent {
        return VideoFailed;
      }
      var image := images[u].image.value;
      disk := disk - {image, sound, out};
      assert images - {u} == old(images) - {u};
      images := images - {u};
      reply := VideoSent;
    }

    method HandlePhoto(u: UserId, o: Outcomes) returns (reply: Reply)
      requires Valid()
      modifies this
      ensures Valid()
      ensures (Snapshot(), reply) == PhotoMessage(old(Snapshot()), u, o)
    {
      PhotoMessagePreservesConsistency(Snapshot(), u, o);
      if u in images && images[u].mode == VIDEO_MODE {
        if !o.downloaded {
          return PhotoDownloadFailed;
        }
        var p := Render(Image(u));
        disk := disk + {p};
        images := images[u := images[u].(image := Some(p))];
        reply := if o.confirmed then PhotoReceived else PhotoDownloadFailed;
      } else {
        reply := VideoModeNeeded;
      }
    }

    /** The dispatcher: each kind of update goes to the handler registered for it. */
    method Handle(u: UserId, e: Event, o: Outcomes) returns (reply: Reply)
      requires Valid()
      modifies this
      ensures Valid()
      ensures (Snapshot(), reply) == Step(old(Snapshot()), u, e, o)
    {
      match e
      case Merge => reply := MergeCommand(u);
      case Video => reply := VideoCommand(u);
      case Cancel => reply := CancelCommand(u);
      case Done => reply := DoneCommand(u, o);
      case Audio => reply := HandleAudio(u, o);
      case Voice => reply := HandleVoice(u, o);
      case Photo => reply := HandlePhoto(u, o);
    }
  }
}
