/**
 The two loops of the `/done` handler: the one that decodes each collected
 clip and appends it to the combined sound (bot.py:104-107), and the one that
 deletes the collected files afterwards (bot.py:122-124).

 Decoding is outside the model. A `map<Path, Segment>` says what each file
 decodes to, and a file missing from the map is one whose decoding raises.
 A decoded sound is a sequence of samples; its length is its duration. All
 clips are taken to share one format (channels, frame rate, sample width), so
 appending one sound to another is plain concatenation of their samples.
 */
module MergeJob {
  import opened FileNames

  type Sample = int

  /** A decoded sound, as pydub's `AudioSegment` holds it. */
  type Segment = seq<Sample>

  /** Every path of `paths` decodes. */
  predicate AllDecoded(paths: seq<Path>, decoded: map<Path, Segment>)
  {
    forall i :: 0 <= i < |paths| ==> paths[i] in decoded
  }

  /** The sum of the clips' durations. */
  function TotalDuration(paths: seq<Path>, decoded: map<Path, Segment>): nat
    requires AllDecoded(paths, decoded)
    decreases |paths|
  {
    if paths == [] then 0
    else TotalDuration(paths[..|paths| - 1], decoded) + |decoded[paths[|paths| - 1]]|
  }

  /**
   The decoded clips of `paths` played one after the other, in list order. The
   merged sound lasts exactly as long as all clips together.
   */
  function Joined(paths: seq<Path>, decoded: map<Path, Segment>): (r: Segment)
    requires AllDecoded(paths, decoded)
    ensures |r| == TotalDuration(paths, decoded)
    decreases |paths|
  {
    if paths == [] then []
    else Joined(paths[..|paths| - 1], decoded) + decoded[paths[|paths| - 1]]
  }

  /**
   The decoding loop: starts from an empty segment and appends every clip in
   list order; the first clip that does not decode aborts the whole merge.
   */
  method Concatenate(paths: seq<Path>, decoded: map<Path, Segment>) returns (combined: Option<Segment>)
    ensures combined.Some? <==> AllDecoded(paths, decoded)
    ensures combined.Some? ==> combined.value == Joined(paths, decoded)
  {
    var acc: Segment := [];
    for i := 0 to |paths|
      invariant AllDecoded(paths[..i], decoded)
      invariant acc == Joined(paths[..i], decoded)
    {
      if paths[i] !in decoded {
        return None;
      }
      assert paths[..i + 1][..i] == paths[..i];
      acc := acc + decoded[paths[i]];
    }
    assert paths[..|paths|] == paths;
    return Some(acc);
  }

  /**
   The cleanup loop: every listed file that still exists is removed, and
   nothing else is touched. `disk` is the set of files present beforehand.
   */
  method RemoveFiles(disk: set<Path>, paths: seq<Path>) returns (left: set<Path>)
    ensures forall p :: p in left <==> p in disk && p !in paths
  {
    left := disk;
    for i := 0 to |paths|
      invariant forall p :: p in left <==> p in disk && p !in paths[..i]
    {
      assert paths[..i + 1] == paths[..i] + [paths[i]];
      if paths[i] in left {
        left := left - {paths[i]};
      }
    }
    assert paths[..|paths|] == paths;
  }

  /** Merging a list in two parts gives the merge of the first part followed by the merge of the second. */
  lemma {:induction false} JoinedAppend(a: seq<Path>, b: seq<Path>, decoded: map<Path, Segment>)
    requires AllDecoded(a, decoded) && AllDecoded(b, decoded)
    ensures AllDecoded(a + b, decoded)
    ensures Joined(a + b, decoded) == Joined(a, decoded) + Joined(b, decoded)
    decreases |b|
  {
    var ab := a + b;
    assert AllDecoded(ab, decoded) by {
      forall i | 0 <= i < |ab| ensures ab[i] in decoded {
        if i < |a| { assert ab[i] == a[i]; } else { assert ab[i] == b[i - |a|]; }
      }
    }
    if b == [] {
      assert ab == a;
    } else {
      var init := b[..|b| - 1];
      assert ab[..|ab| - 1] == a + init;
      assert AllDecoded(init, decoded) by {
        forall i | 0 <= i < |init| ensures init[i] in decoded { assert init[i] == b[i]; }
      }
      JoinedAppend(a, init, decoded);
    }
  }

  /**
   Clip `i` is played whole, right after the clips before it: the merged sound
   holds its samples, in order, starting at the total duration of `paths[..i]`.
   */
  lemma ClipInPlace(paths: seq<Path>, decoded: map<Path, Segment>, i: nat)
    requires AllDecoded(paths, decoded) && i < |paths|
    ensures AllDecoded(paths[..i], decoded)
    ensures var start := TotalDuration(paths[..i], decoded);
      start + |decoded[paths[i]]| <= |Joined(paths, decoded)| &&
      Joined(paths, decoded)[start .. start + |decoded[paths[i]]|] == decoded[paths[i]]
  {
    var before, after := paths[..i + 1], paths[i + 1..];
    assert AllDecoded(before, decoded) by {
      forall j | 0 <= j < |before| ensures before[j] in decoded { assert before[j] == paths[j]; }
    }
    assert AllDecoded(after, decoded) by {
      forall j | 0 <= j < |after| ensures after[j] in decoded { assert after[j] == paths[i + 1 + j]; }
    }
    assert before + after == paths;
    assert before[..i] == paths[..i];
    JoinedAppend(before, after, decoded);
    var start := TotalDuration(paths[..i], decoded);
    var head := Joined(paths[..i], decoded) + decoded[paths[i]];
    assert Joined(before, decoded) == head;
    assert Joined(paths, decoded) == head + Joined(after, decoded);
    assert head[start..] == decoded[paths[i]];
  }
}
