/**
  The working directories of main.py as an abstract file system: each
  folder maps to the set of entry names it holds. This module covers the
  steps that run before filing: creating the folders, extracting audio
  from the videos, staging the input audio, and writing the transcripts.
 */
module Workspace {
  import opened FileNames
  import opened Transcript

  /**
    `inputs`, `inputs/input_mp3s`, `inputs/input_mp4s`, `temp_outputs`,
    `temp_outputs/temp_mp3s`, `temp_outputs/temp_transcriptions`,
    `final_outputs`, and one `final_outputs/<stem>` per filed stem.
   */
  datatype Folder =
    | Inputs | InputAudio | InputVideos
    | TempOutputs | StagedAudio | StagedText
    | FinalRoot | Final(stem: string)

  /** Each existing folder and the names of the entries in it. */
  type FileSystem = map<Folder, set<string>>

  /** The folders created at start-up, in the order main.py lists them. */
  const WorkFolders: seq<Folder> :=
    [Inputs, InputAudio, InputVideos, TempOutputs, StagedAudio, StagedText, FinalRoot]

  /** The entries of `f`, or none when `f` does not exist. */
  function Contents(fs: FileSystem, f: Folder): set<string> {
    if f in fs then fs[f] else {}
  }

  /** `order` is an `os.listdir` result for `names`: every name exactly once. */
  predicate IsListing(order: seq<string>, names: set<string>) {
    && (forall i, j :: 0 <= i < j < |order| ==> order[i] != order[j])
    && (forall n :: n in order ==> n in names)
    && (forall n :: n in names ==> n in order)
  }

  /** All start-up folders exist. */
  predicate Ready(fs: FileSystem) {
    forall f :: f in WorkFolders ==> f in fs
  }

  /**
    `os.makedirs(folder, exist_ok=True)` for every start-up folder: missing
    ones are created empty, existing ones keep their contents, and nothing
    else appears.
   */
  function Initialize(fs: FileSystem): (r: FileSystem)
    ensures Ready(r)
    ensures forall f :: f in fs ==> f in r && r[f] == fs[f]
    ensures forall f :: f in r && f !in fs ==> f in WorkFolders && r[f] == {}
  {
    fs + map f | f in WorkFolders && f !in fs :: {}
  }

  /** Running the start-up step twice is the same as running it once. */
  lemma InitializeIdempotent(fs: FileSystem)
    ensures Initialize(Initialize(fs)) == Initialize(fs)
  {
    var once := Initialize(fs);
    var twice := Initialize(once);
    assert twice.Keys == once.Keys;
  }

  /** Result of the extraction loop: the file system and `mp4FilesConverted`. */
  datatype Extraction = Extraction(fs: FileSystem, converted: nat)

  /**
    The extraction loop: every listed video name is handed to the external
    converter, whose verdict is the parameter `converts`; a success writes
    `<stem>.mp3` into the audio staging folder and bumps the counter. The
    videos stay where they are, and no other folder changes.
   */
  function ExtractAll(fs: FileSystem, videos: seq<string>, converts: string -> bool): (r: Extraction)
    requires StagedAudio in fs
    ensures r.fs.Keys == fs.Keys
    ensures forall f :: f in fs && f != StagedAudio ==> r.fs[f] == fs[f]
    ensures forall a :: a in r.fs[StagedAudio] <==>
      a in fs[StagedAudio] || exists v :: v in videos && IsVideoName(v) && converts(v) && a == AudioNameFor(v)
    ensures r.converted <= |videos|
    decreases |videos|
  {
    if |videos| == 0 then Extraction(fs, 0)
    else
      var v := videos[0];
      assert forall w :: w in videos <==> w == v || w in videos[1..];
      if IsVideoName(v) && converts(v) then
        var rest := ExtractAll(fs[StagedAudio := fs[StagedAudio] + {AudioNameFor(v)}], videos[1..], converts);
        Extraction(rest.fs, rest.converted + 1)
      else
        ExtractAll(fs, videos[1..], converts)
  }

  /** The names among `videos` that are videos the converter accepts. */
  function Converted(videos: seq<string>, converts: string -> bool): set<string> {
    set v | v in videos && IsVideoName(v) && converts(v)
  }

  /** The converted names of a list are those of its tail plus, possibly, its head. */
  lemma ConvertedCons(videos: seq<string>, converts: string -> bool)
    requires |videos| > 0
    ensures var v := videos[0];
      Converted(videos, converts) ==
        Converted(videos[1..], converts) + (if IsVideoName(v) && converts(v) then {v} else {})
  {
    assert forall w :: w in videos <==> w == videos[0] || w in videos[1..];
  }

  /** The tail of a list without repeats has no repeats and lacks the head. */
  lemma DistinctTail(s: seq<string>)
    requires |s| > 0
    requires forall i, j :: 0 <= i < j < |s| ==> s[i] != s[j]
    ensures s[0] !in s[1..]
    ensures forall i, j :: 0 <= i < j < |s| - 1 ==> s[1..][i] != s[1..][j]
  {
    var tail := s[1..];
    forall j | 0 <= j < |tail| ensures tail[j] != s[0] {
      assert tail[j] == s[j + 1];
    }
  }

  /** Over a listing, the counter is the number of videos converted. */
  lemma {:induction false} ExtractCount(fs: FileSystem, videos: seq<string>, converts: string -> bool)
    requires StagedAudio in fs
    requires forall i, j :: 0 <= i < j < |videos| ==> videos[i] != videos[j]
    ensures ExtractAll(fs, videos, converts).converted == |Converted(videos, converts)|
    decreases |videos|
  {
    if |videos| > 0 {
      var v := videos[0];
      var tail := videos[1..];
      ConvertedCons(videos, converts);
      var before := Converted(tail, converts);
      DistinctTail(videos);
      if IsVideoName(v) && converts(v) {
        ExtractCount(fs[StagedAudio := fs[StagedAudio] + {AudioNameFor(v)}], tail, converts);
        assert v !in before;
        assert |before + {v}| == |before| + 1;
      } else {
        ExtractCount(fs, tail, converts);
        assert before + {} == before;
      }
    }
  }

  /**
    The staging loop: every listed audio name moves from the audio input
    folder to the audio staging folder; other names stay, and no other
    folder changes.
   */
  function StageAll(fs: FileSystem, audio: seq<string>): (r: FileSystem)
    requires InputAudio in fs && StagedAudio in fs
    requires forall i :: 0 <= i < |audio| ==> audio[i] in fs[InputAudio]
    requires forall i, j :: 0 <= i < j < |audio| ==> audio[i] != audio[j]
    ensures r.Keys == fs.Keys
    ensures forall f :: f in fs && f != InputAudio && f != StagedAudio ==> r[f] == fs[f]
    ensures forall n :: n in r[InputAudio] <==> n in fs[InputAudio] && !(n in audio && IsAudioName(n))
    ensures forall n :: n in r[StagedAudio] <==> n in fs[StagedAudio] || (n in audio && IsAudioName(n))
    decreases |audio|
  {
    if |audio| == 0 then fs
    else
      var n := audio[0];
      assert forall w :: w in audio <==> w == n || w in audio[1..];
      if IsAudioName(n) then
        StageAll(fs[InputAudio := fs[InputAudio] - {n}][StagedAudio := fs[StagedAudio] + {n}], audio[1..])
      else
        StageAll(fs, audio[1..])
  }

  /**
    Staging over a full listing leaves only non-audio names in the input
    folder and adds every audio name to staging: nothing is lost.
   */
  lemma StageAllListing(fs: FileSystem, audio: seq<string>)
    requires InputAudio in fs && StagedAudio in fs
    requires IsListing(audio, fs[InputAudio])
    ensures var r := StageAll(fs, audio);
      && (forall n :: n in r[InputAudio] <==> n in fs[InputAudio] && !IsAudioName(n))
      && (forall n :: n in r[StagedAudio] <==> n in fs[StagedAudio] || (n in fs[InputAudio] && IsAudioName(n)))
  {
  }

  /**
    The transcript files written by the transcription loop, name to text:
    every long staged name writes `<stem>.txt` with `open(..., "w")`, so a
    later name with the same stem overwrites an earlier one. Short names
    are skipped.
   */
  function Transcripts(staged: seq<string>, transcribe: string -> seq<Segment>, easier: bool): (files: map<string, string>)
    ensures forall t :: t in files <==> exists n :: n in staged && IsLong(n) && t == TextNameFor(n)
    ensures forall t :: t in files ==>
      exists n :: n in staged && IsLong(n) && t == TextNameFor(n) && files[t] == Document(transcribe(n), easier)
    decreases |staged|
  {
    if |staged| == 0 then map[]
    else
      var init := staged[..|staged| - 1];
      var n := staged[|staged| - 1];
      assert forall w :: w in staged <==> w == n || w in init;
      var prev := Transcripts(init, transcribe, easier);
      if IsLong(n) then prev[TextNameFor(n) := Document(transcribe(n), easier)] else prev
  }

  /** A staged name whose stem no other long staged name shares gets its own transcript. */
  lemma TranscriptOfUniqueStem(staged: seq<string>, transcribe: string -> seq<Segment>, easier: bool, n: string)
    requires n in staged && IsLong(n)
    requires forall m :: m in staged && IsLong(m) && Stem(m) == Stem(n) ==> m == n
    ensures TextNameFor(n) in Transcripts(staged, transcribe, easier)
    ensures Transcripts(staged, transcribe, easier)[TextNameFor(n)] == Document(transcribe(n), easier)
  {
    var files := Transcripts(staged, transcribe, easier);
    var t := TextNameFor(n);
    var m :| m in staged && IsLong(m) && t == TextNameFor(m) && files[t] == Document(transcribe(m), easier);
    assert Stem(m) == t[..|t| - 4] == Stem(n);
  }

  /**
    The transcription step on the file system: the transcript names join
    the text staging folder; the staged audio stays for filing.
   */
  function TranscribeAll(fs: FileSystem, staged: seq<string>, transcribe: string -> seq<Segment>, easier: bool): (r: FileSystem)
    requires StagedText in fs
    ensures r.Keys == fs.Keys
    ensures forall f :: f in fs && f != StagedText ==> r[f] == fs[f]
    ensures forall t :: t in r[StagedText] <==>
      t in fs[StagedText] || exists n :: n in staged && IsLong(n) && t == TextNameFor(n)
  {
    fs[StagedText := fs[StagedText] + Transcripts(staged, transcribe, easier).Keys]
  }
}
