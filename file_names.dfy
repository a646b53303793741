/**
 The names of the files the bot writes to its working directory.

 Every name is a fixed stem, the user id rendered as Python's `str` renders an
 int, and a fixed tail (for clips: `_`, the clip's position in the user's list,
 and an extension). `Render` builds a name, `Parse` reads one back, and
 `ParseRender` proves that `Parse` undoes `Render`. Since a user id is
 rendered with digits and an optional minus sign only, the `_` after it marks
 where it ends. So different users, and different positions, never share a
 file name (`RenderInjective`).
 */
module FileNames {

  datatype Option<T> = None | Some(value: T)

  /** A chat user's numeric identifier. */
  type UserId = int

  /** A file name relative to the bot's working directory. */
  type Path = string

  /** The two message kinds that carry sound: an audio file and a voice note. */
  datatype ClipKind = AudioClip | VoiceNote

  /** Every file the handlers name. */
  datatype FileName =
    | Clip(kind: ClipKind, user: UserId, index: nat)   // a clip collected in merge mode
    | Merged(user: UserId)                              // the exported merge result
    | Image(user: UserId)                               // the photo of video mode
    | VideoSound(kind: ClipKind, user: UserId)          // the sound of video mode
    | VideoOut(user: UserId)                            // the encoded video

  // ---------------------------------------------------------------------------
  // Decimal numerals

  predicate IsDigit(c: char) { '0' <= c <= '9' }

  /** The characters `str` can produce for an int. */
  predicate IsNumeral(c: char) { IsDigit(c) || c == '-' }

  predicate AllDigits(s: string) { forall i :: 0 <= i < |s| ==> IsDigit(s[i]) }

  predicate AllNumeral(s: string) { forall i :: 0 <= i < |s| ==> IsNumeral(s[i]) }

  function DigitValue(c: char): nat
    requires IsDigit(c)
  {
    c as int - '0' as int
  }

  function DigitChar(d: nat): (c: char)
    requires d < 10
    ensures IsDigit(c) && DigitValue(c) == d
  {
    ('0' as int + d) as char
  }

  /** Decimal rendering of a natural number, most significant digit first. */
  function NatToString(n: nat): (s: string)
    ensures s != [] && AllDigits(s)
    decreases n
  {
    if n < 10 then [DigitChar(n)] else NatToString(n / 10) + [DigitChar(n % 10)]
  }

  /** Rendering of an int as Python's `str` does it: a minus sign for negatives. */
  function IntToString(u: int): (s: string)
    ensures s != [] && AllNumeral(s)
    ensures IsDigit(s[0]) <==> u >= 0
  {
    if u < 0 then "-" + NatToString(-u) else NatToString(u)
  }

  /** The value of a string of decimal digits. */
  function DigitsValue(s: string): nat
    requires AllDigits(s)
    decreases |s|
  {
    if s == [] then 0 else 10 * DigitsValue(s[..|s| - 1]) + DigitValue(s[|s| - 1])
  }

  function ParseNat(s: string): Option<nat>
  {
    if s != [] && AllDigits(s) then Some(DigitsValue(s)) else None
  }

  function ParseInt(s: string): Option<int>
  {
    if s != [] && s[0] == '-' then
      var r: Option<int> := match ParseNat(s[1..]) case Some(n) => Some(0 - n) case None => None;
      r
    else
      match ParseNat(s)
      case Some(n) => Some(n)
      case None => None
  }

  lemma {:induction false} ParseNatToString(n: nat)
    ensures ParseNat(NatToString(n)) == Some(n)
  {
    var s := NatToString(n);
    if n < 10 {
      assert s[..|s| - 1] == [];
      assert DigitsValue(s) == 10 * DigitsValue([]) + DigitValue(s[0]);
    } else {
      assert s[..|s| - 1] == NatToString(n / 10);
      ParseNatToString(n / 10);
    }
  }

  lemma ParseIntToString(u: int)
    ensures ParseInt(IntToString(u)) == Some(u)
  {
    if u < 0 {
      assert IntToString(u)[1..] == NatToString(-u);
      ParseNatToString(-u);
    } else {
      ParseNatToString(u);
    }
  }

  /**
   Splits `s` into its longest prefix of numeral characters and the rest; the
   rest is empty or starts with a character `str` of an int never produces.
   */
  function SpanNumeral(s: string): (r: (string, string))
    ensures r.0 + r.1 == s && AllNumeral(r.0)
    ensures r.1 != [] ==> !IsNumeral(r.1[0])
  {
    if s != [] && IsNumeral(s[0]) then
      var (num, rest) := SpanNumeral(s[1..]);
      ([s[0]] + num, rest)
    else
      ([], s)
  }

  /** A numeral followed by a non-numeral tail is split exactly there. */
  lemma {:induction false} SpanNumeralSplit(num: string, rest: string)
    requires AllNumeral(num)
    requires rest != [] ==> !IsNumeral(rest[0])
    ensures SpanNumeral(num + rest) == (num, rest)
  {
    if num == [] {
      assert num + rest == rest;
    } else {
      var s := num + rest;
      assert s[0] == num[0] && s[1..] == num[1..] + rest;
      SpanNumeralSplit(num[1..], rest);
      assert [num[0]] + num[1..] == num;
    }
  }

  // ---------------------------------------------------------------------------
  // File names

  /** `p` names a file directly in the working directory: it holds no `/`. */
  predicate BareName(p: string)
  {
    forall i :: 0 <= i < |p| ==> p[i] != '/'
  }

  /** A number spliced between two bare pieces keeps the name bare. */
  lemma BareJoin(a: string, num: string, b: string)
    requires BareName(a) && AllNumeral(num) && BareName(b)
    ensures BareName(a + num + b)
  {
    var s := a + num + b;
    forall i | 0 <= i < |s| ensures s[i] != '/' {
      if i < |a| { assert s[i] == a[i]; }
      else if i < |a| + |num| { assert s[i] == num[i - |a|]; }
      else { assert s[i] == b[i - |a| - |num|]; }
    }
  }

  /**
   The f-string names of bot.py, one per kind of file. Every one is a bare
   file name: a user id cannot steer a file out of the working directory.
   */
  function Render(f: FileName): (r: Path)
    ensures r != [] && BareName(r)
  {
    match f
    case Clip(AudioClip, u, i) =>
      BareJoin("audio_", IntToString(u), "_");
      BareJoin("audio_" + IntToString(u) + "_", NatToString(i), ".mp3");
      "audio_" + IntToString(u) + "_" + NatToString(i) + ".mp3"
    case Clip(VoiceNote, u, i) =>
      BareJoin("voice_", IntToString(u), "_");
      BareJoin("voice_" + IntToString(u) + "_", NatToString(i), ".ogg");
      "voice_" + IntToString(u) + "_" + NatToString(i) + ".ogg"
    case Merged(u) =>
      BareJoin("merged_", IntToString(u), ".mp3");
      "merged_" + IntToString(u) + ".mp3"
    case Image(u) =>
      BareJoin("image_", IntToString(u), ".jpg");
      "image_" + IntToString(u) + ".jpg"
    case VideoSound(AudioClip, u) =>
      BareJoin("video_audio_", IntToString(u), ".mp3");
      "video_audio_" + IntToString(u) + ".mp3"
    case VideoSound(VoiceNote, u) =>
      BareJoin("video_voice_", IntToString(u), ".ogg");
      "video_voice_" + IntToString(u) + ".ogg"
    case VideoOut(u) =>
      BareJoin("video_", IntToString(u), ".mp4");
      "video_" + IntToString(u) + ".mp4"
  }

  predicate HasPrefix(p: string, stem: string)
  {
    |stem| <= |p| && p[..|stem|] == stem
  }

  /** The user id at the head of `q`, when what follows it is exactly `ext`. */
  function UserBefore(q: string, ext: string): Option<UserId>
  {
    var (num, rest) := SpanNumeral(q);
    if rest == ext then ParseInt(num) else None
  }

  /** A clip name's user id, `_`, position and extension `ext`, as found at the head of `q`. */
  function ClipBefore(kind: ClipKind, q: string, ext: string): Option<FileName>
  {
    var (num, rest) := SpanNumeral(q);
    if rest != [] && rest[0] == '_' then
      var (digits, tail) := SpanNumeral(rest[1..]);
      match (ParseInt(num), ParseNat(digits))
      case (Some(u), Some(i)) => if tail == ext then Some(Clip(kind, u, i)) else None
      case _ => None
    else
      None
  }

  /** Reads a file name back; `None` for names the bot never writes. */
  function Parse(p: Path): Option<FileName>
  {
    if HasPrefix(p, "audio_") then ClipBefore(AudioClip, p[6..], ".mp3")
    else if HasPrefix(p, "voice_") then ClipBefore(VoiceNote, p[6..], ".ogg")
    else if HasPrefix(p, "merged_") then
      match UserBefore(p[7..], ".mp3") case Some(u) => Some(Merged(u)) case None => None
    else if HasPrefix(p, "image_") then
      match UserBefore(p[6..], ".jpg") case Some(u) => Some(Image(u)) case None => None
    else if HasPrefix(p, "video_audio_") then
      match UserBefore(p[12..], ".mp3") case Some(u) => Some(VideoSound(AudioClip, u)) case None => None
    else if HasPrefix(p, "video_voice_") then
      match UserBefore(p[12..], ".ogg") case Some(u) => Some(VideoSound(VoiceNote, u)) case None => None
    else if HasPrefix(p, "video_") then
      match UserBefore(p[6..], ".mp4") case Some(u) => Some(VideoOut(u)) case None => None
    else None
  }

  /** The user a file is named for, if it is one of the bot's names. */
  function Owner(p: Path): Option<UserId>
  {
    match Parse(p)
    case Some(f) => Some(f.user)
    case None => None
  }

  lemma UserBeforeRender(u: UserId, ext: string)
    requires ext != [] && !IsNumeral(ext[0])
    ensures UserBefore(IntToString(u) + ext, ext) == Some(u)
  {
    SpanNumeralSplit(IntToString(u), ext);
    ParseIntToString(u);
  }

  lemma ClipBeforeRender(kind: ClipKind, u: UserId, i: nat, ext: string)
    requires ext != [] && !IsNumeral(ext[0])
    ensures ClipBefore(kind, IntToString(u) + "_" + NatToString(i) + ext, ext) == Some(Clip(kind, u, i))
  {
    var num, digits := IntToString(u), NatToString(i);
    var rest := "_" + digits + ext;
    assert num + "_" + digits + ext == num + rest;
    SpanNumeralSplit(num, rest);
    assert rest[1..] == digits + ext;
    assert AllNumeral(digits) by { assert forall j :: 0 <= j < |digits| ==> IsDigit(digits[j]); }
    SpanNumeralSplit(digits, ext);
    ParseIntToString(u);
    ParseNatToString(i);
  }

  lemma HasStem(p: string, stem: string, rest: string)
    requires p == stem + rest
    ensures HasPrefix(p, stem) && p[|stem|..] == rest
  {
  }

  lemma LacksStem(p: string, stem: string, k: nat)
    requires k < |stem| && k < |p| && p[k] != stem[k]
    ensures !HasPrefix(p, stem)
  {
  }

  // One lemma per stem: `Parse` picks the branch of that stem and no earlier one.

  lemma ParseAudioStem(rest: string)
    ensures Parse("audio_" + rest) == ClipBefore(AudioClip, rest, ".mp3")
  {
    var p := "audio_" + rest;
    HasStem(p, "audio_", rest);
  }

  lemma ParseVoiceStem(rest: string)
    ensures Parse("voice_" + rest) == ClipBefore(VoiceNote, rest, ".ogg")
  {
    var p := "voice_" + rest;
    LacksStem(p, "audio_", 0);
    HasStem(p, "voice_", rest);
  }

  lemma ParseMergedStem(rest: string)
    ensures Parse("merged_" + rest) == match UserBefore(rest, ".mp3") case Some(u) => Some(Merged(u)) case None => None
  {
    var p := "merged_" + rest;
    LacksStem(p, "audio_", 0);
    LacksStem(p, "voice_", 0);
    HasStem(p, "merged_", rest);
  }

  lemma ParseImageStem(rest: string)
    ensures Parse("image_" + rest) == match UserBefore(rest, ".jpg") case Some(u) => Some(Image(u)) case None => None
  {
    var p := "image_" + rest;
    LacksStem(p, "audio_", 0);
    LacksStem(p, "voice_", 0);
    LacksStem(p, "merged_", 0);
    HasStem(p, "image_", rest);
  }

  lemma ParseVideoAudioStem(rest: string)
    ensures Parse("video_audio_" + rest) ==
      match UserBefore(rest, ".mp3") case Some(u) => Some(VideoSound(AudioClip, u)) case None => None
  {
    var p := "video_audio_" + rest;
    LacksStem(p, "audio_", 0);
    LacksStem(p, "voice_", 1);
    LacksStem(p, "merged_", 0);
    LacksStem(p, "image_", 0);
    HasStem(p, "video_audio_", rest);
  }

  lemma ParseVideoVoiceStem(rest: string)
    ensures Parse("video_voice_" + rest) ==
      match UserBefore(rest, ".ogg") case Some(u) => Some(VideoSound(VoiceNote, u)) case None => None
  {
    var p := "video_voice_" + rest;
    LacksStem(p, "audio_", 0);
    LacksStem(p, "voice_", 1);
    LacksStem(p, "merged_", 0);
    LacksStem(p, "image_", 0);
    LacksStem(p, "video_audio_", 6);
    HasStem(p, "video_voice_", rest);
  }

  lemma ParseVideoStem(rest: string)
    requires rest != [] && IsNumeral(rest[0])
    ensures Parse("video_" + rest) == match UserBefore(rest, ".mp4") case Some(u) => Some(VideoOut(u)) case None => None
  {
    var p := "video_" + rest;
    LacksStem(p, "audio_", 0);
    LacksStem(p, "voice_", 1);
    LacksStem(p, "merged_", 0);
    LacksStem(p, "image_", 0);
    assert p[6] == rest[0];
    LacksStem(p, "video_audio_", 6);
    LacksStem(p, "video_voice_", 6);
    HasStem(p, "video_", rest);
  }

  lemma ParseClipName(kind: ClipKind, u: UserId, i: nat)
    ensures Parse(Render(Clip(kind, u, i))) == Some(Clip(kind, u, i))
  {
    var num, digits := IntToString(u), NatToString(i);
    if kind == AudioClip {
      assert Render(Clip(kind, u, i)) == "audio_" + (num + "_" + digits + ".mp3");
      ParseAudioStem(num + "_" + digits + ".mp3");
      ClipBeforeRender(kind, u, i, ".mp3");
    } else {
      assert Render(Clip(kind, u, i)) == "voice_" + (num + "_" + digits + ".ogg");
      ParseVoiceStem(num + "_" + digits + ".ogg");
      ClipBeforeRender(kind, u, i, ".ogg");
    }
  }

  lemma ParseUserName(f: FileName)
    requires !f.Clip?
    ensures Parse(Render(f)) == Some(f)
  {
    var num := IntToString(f.user);
    match f
    case Merged(u) =>
      assert Render(f) == "merged_" + (num + ".mp3");
      ParseMergedStem(num + ".mp3");
      UserBeforeRender(u, ".mp3");
    case Image(u) =>
      assert Render(f) == "image_" + (num + ".jpg");
      ParseImageStem(num + ".jpg");
      UserBeforeRender(u, ".jpg");
    case VideoSound(AudioClip, u) =>
      assert Render(f) == "video_audio_" + (num + ".mp3");
      ParseVideoAudioStem(num + ".mp3");
      UserBeforeRender(u, ".mp3");
    case VideoSound(VoiceNote, u) =>
      assert Render(f) == "video_voice_" + (num + ".ogg");
      ParseVideoVoiceStem(num + ".ogg");
      UserBeforeRender(u, ".ogg");
    case VideoOut(u) =>
      assert Render(f) == "video_" + (num + ".mp4");
      ParseVideoStem(num + ".mp4");
      UserBeforeRender(u, ".mp4");
  }

  /** `Parse` undoes `Render`: a name the bot writes determines the file it stands for. */
  lemma ParseRender(f: FileName)
    ensures Parse(Render(f)) == Some(f)
  {
    if f.Clip? {
      ParseClipName(f.kind, f.user, f.index);
    } else {
      ParseUserName(f);
    }
  }

  /** Distinct files have distinct names, across users as well as within one user. */
  lemma RenderInjective(f: FileName, g: FileName)
    requires Render(f) == Render(g)
    ensures f == g
  {
    ParseRender(f);
    ParseRender(g);
  }

  /** Every name the bot writes is owned by the user it was written for. */
  lemma OwnerRender(f: FileName)
    ensures Owner(Render(f)) == Some(f.user)
  {
    ParseRender(f);
  }

  /**
   The third clip of user 12 and the twenty-fourth clip of user 1 get different
   names, `audio_12_3.mp3` and `audio_1_23.mp3`: the `_` after the user id keeps
   the two numbers apart.
   */
  lemma ClipNamesKeepUsersApart()
    ensures Render(Clip(AudioClip, 12, 3)) == "audio_12_3.mp3"
    ensures Render(Clip(AudioClip, 1, 23)) == "audio_1_23.mp3"
    ensures Render(Clip(AudioClip, 12, 3)) != Render(Clip(AudioClip, 1, 23))
  {
  }
}
