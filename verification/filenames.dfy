/**
  The file-name tests of main.py: the case-insensitive extension checks
  (`name.lower().endswith(".mp4")`, `".mp3"`), the four-character guard,
  and the stem `name[:-4]` that joins a video, its audio and its
  transcript.
 */
module FileNames {

  /** Lower-cases an ASCII capital; every other character is kept. */
  function LowerChar(c: char): char {
    if 'A' <= c <= 'Z' then (c as int + 32) as char else c
  }

  /**
    `str.lower()` on ASCII: no capital is left, each capital becomes its
    small letter, and every other character is kept in place.
   */
  function Lower(s: string): (r: string)
    ensures |r| == |s|
    ensures forall i :: 0 <= i < |r| ==> !('A' <= r[i] <= 'Z')
    ensures forall i :: 0 <= i < |s| && 'A' <= s[i] <= 'Z' ==> r[i] as int == s[i] as int + 32
    ensures forall i :: 0 <= i < |s| && !('A' <= s[i] <= 'Z') ==> r[i] == s[i]
  {
    seq(|s|, i requires 0 <= i < |s| => LowerChar(s[i]))
  }

  /** Lower-casing twice is lower-casing once. */
  lemma LowerIdempotent(s: string)
    ensures Lower(Lower(s)) == Lower(s)
  {
  }

  predicate EndsWith(s: string, suffix: string) {
    |suffix| <= |s| && s[|s| - |suffix|..] == suffix
  }

  /** `name.lower().endswith(".mp4")` */
  predicate IsVideoName(name: string) {
    EndsWith(Lower(name), ".mp4")
  }

  /** `name.lower().endswith(".mp3")` */
  predicate IsAudioName(name: string) {
    EndsWith(Lower(name), ".mp3")
  }

  /** The guard `len(name) < 4` negated: the name is long enough to have a stem. */
  predicate IsLong(name: string) {
    |name| >= 4
  }

  /**
    Python's `name[:-4]`: the name without its last four characters, and
    the empty string for shorter names.
   */
  function Stem(name: string): (r: string)
    ensures IsLong(name) ==> |r| == |name| - 4 && r + name[|name| - 4..] == name
    ensures !IsLong(name) ==> r == ""
  {
    if |name| >= 4 then name[..|name| - 4] else ""
  }

  /** `mp4File[:-4] + ".mp3"`: where the extracted audio of a video is written. */
  function AudioNameFor(video: string): (r: string)
    ensures IsLong(video) ==> |r| == |video|
    ensures |r| >= 4 && r[|r| - 4..] == ".mp3"
  {
    Stem(video) + ".mp3"
  }

  /** `mp3File[:-4] + ".txt"`: where the transcript of a staged file is written. */
  function TextNameFor(audio: string): (r: string)
    ensures IsLong(audio) ==> |r| == |audio|
    ensures |r| >= 4 && r[|r| - 4..] == ".txt"
    ensures r != AudioNameFor(audio)
  {
    Stem(audio) + ".txt"
  }

  /**
    The extension tests spelled out character by character: a name passes
    exactly when its last four characters are a dot, `m` or `M`, `p` or
    `P`, and the digit.
   */
  lemma VideoNameChars(name: string)
    ensures IsVideoName(name) <==>
      && |name| >= 4
      && name[|name| - 4] == '.'
      && name[|name| - 3] in "mM"
      && name[|name| - 2] in "pP"
      && name[|name| - 1] == '4'
  {
    var l := Lower(name);
    if |name| >= 4 {
      var t := l[|l| - 4..];
      assert t == [l[|l| - 4], l[|l| - 3], l[|l| - 2], l[|l| - 1]];
    }
  }

  lemma AudioNameChars(name: string)
    ensures IsAudioName(name) <==>
      && |name| >= 4
      && name[|name| - 4] == '.'
      && name[|name| - 3] in "mM"
      && name[|name| - 2] in "pP"
      && name[|name| - 1] == '3'
  {
    var l := Lower(name);
    if |name| >= 4 {
      var t := l[|l| - 4..];
      assert t == [l[|l| - 4], l[|l| - 3], l[|l| - 2], l[|l| - 1]];
    }
  }

  /** The tests ignore case: a name and its lower-cased form are judged alike. */
  lemma ExtensionTestsIgnoreCase(name: string)
    ensures IsVideoName(Lower(name)) <==> IsVideoName(name)
    ensures IsAudioName(Lower(name)) <==> IsAudioName(name)
  {
    VideoNameChars(name);
    VideoNameChars(Lower(name));
    AudioNameChars(name);
    AudioNameChars(Lower(name));
  }

  /**
    Every accepted name has a stem: the extension test implies the length
    guard, so `name[:-4]` drops exactly the four extension characters and
    the derived audio name keeps the length of the video name.
   */
  lemma AcceptedNamesAreLong(name: string)
    ensures IsVideoName(name) ==> IsLong(name) && |AudioNameFor(name)| == |name|
    ensures IsAudioName(name) ==> IsLong(name) && |TextNameFor(name)| == |name|
  {
  }

  /**
    The join key, first half: the audio extracted from a video is itself
    an audio name with the same stem, so it is filed beside the video.
   */
  lemma AudioNameKeepsStem(video: string)
    requires IsVideoName(video)
    ensures IsAudioName(AudioNameFor(video))
    ensures Stem(AudioNameFor(video)) == Stem(video)
  {
    var a := AudioNameFor(video);
    AudioNameChars(a);
    assert a[|a| - 4..] == ".mp3";
    assert a[..|a| - 4] == Stem(video);
  }

  /**
    The join key, second half: the transcript of any long staged name has
    that name's stem, so it is filed beside the audio.
   */
  lemma TextNameKeepsStem(audio: string)
    requires IsLong(audio)
    ensures Stem(TextNameFor(audio)) == Stem(audio)
  {
    var t := TextNameFor(audio);
    assert t[..|t| - 4] == Stem(audio);
  }

  /**
    The stem is positional, not the real extension: `clip.flac` has stem
    `clip.` and a three-character `abc` has the empty stem.
   */
  lemma StemIsPositional()
    ensures Stem("clip.flac") == "clip."
    ensures Stem("clip.MP4") == "clip"
    ensures Stem("abc") == ""
  {
  }
}
