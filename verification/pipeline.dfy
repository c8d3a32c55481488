/**
  The whole run of main.py in order: create the folders, extract audio
  from the videos, stage the input audio, transcribe everything staged,
  and file the results. The six `os.listdir` results, the converter's
  verdicts and the recogniser's segments are parameters.
 */
module Pipeline {
  import opened FileNames
  import opened Transcript
  import opened Workspace
  import opened Filing

  /**
    The six `os.listdir` results of a run, in the order main.py takes them:
    the video input folder before extraction, the audio input folder before
    staging, the audio staging folder before transcription, and the three
    source folders once more as the filing loop reaches each of them.
   */
  datatype Listings = Listings(videos: seq<string>, inputAudio: seq<string>, staged: seq<string>,
                               filedVideos: seq<string>, filedAudio: seq<string>, filedTexts: seq<string>)

  /** After start-up and the extraction loop. */
  function Extracted(fs: FileSystem, ls: Listings, converts: string -> bool): Extraction {
    ExtractAll(Initialize(fs), ls.videos, converts)
  }

  /** After the staging loop. */
  function Staged(fs: FileSystem, ls: Listings, converts: string -> bool): FileSystem
    requires IsListing(ls.inputAudio, Contents(Initialize(fs), InputAudio))
  {
    StageAll(Extracted(fs, ls, converts).fs, ls.inputAudio)
  }

  /** After the transcription loop. */
  function Transcribed(fs: FileSystem, ls: Listings, converts: string -> bool,
                       transcribe: string -> seq<Segment>, easier: bool): FileSystem
    requires IsListing(ls.inputAudio, Contents(Initialize(fs), InputAudio))
  {
    TranscribeAll(Staged(fs, ls, converts), ls.staged, transcribe, easier)
  }

  datatype Run = Run(converted: nat, transcripts: map<string, string>, outcome: Outcome)

  /** One run: the four loops of main.py one after the other. */
  function RunAll(fs: FileSystem, ls: Listings, converts: string -> bool,
                  transcribe: string -> seq<Segment>, easier: bool): (r: Run)
    requires IsListing(ls.inputAudio, Contents(Initialize(fs), InputAudio))
    ensures r.converted <= |ls.videos|
    ensures r.transcripts.Keys <= Contents(Transcribed(fs, ls, converts, transcribe, easier), StagedText)
  {
    var fs3 := Transcribed(fs, ls, converts, transcribe, easier);
    Run(Extracted(fs, ls, converts).converted,
        Transcripts(ls.staged, transcribe, easier),
        FilingPass(fs3, ls.filedVideos, ls.filedAudio, ls.filedTexts))
  }

  /** Each listing is an `os.listdir` result of its folder at the moment it is taken. */
  predicate ListedAsRun(fs: FileSystem, ls: Listings, converts: string -> bool,
                        transcribe: string -> seq<Segment>, easier: bool)
  {
    && IsListing(ls.videos, Contents(Initialize(fs), InputVideos))
    && IsListing(ls.inputAudio, Contents(Initialize(fs), InputAudio))
    && IsListing(ls.staged, Contents(Staged(fs, ls, converts), StagedAudio))
    && ListsSources(Transcribed(fs, ls, converts, transcribe, easier), ls.filedVideos, ls.filedAudio, ls.filedTexts)
  }

  /** The outcome of a run is the filing pass over the state after transcription. */
  lemma RunOutcome(fs: FileSystem, ls: Listings, converts: string -> bool,
                   transcribe: string -> seq<Segment>, easier: bool)
    requires ListedAsRun(fs, ls, converts, transcribe, easier)
    ensures var fs3 := Transcribed(fs, ls, converts, transcribe, easier);
      && ListsSources(fs3, ls.filedVideos, ls.filedAudio, ls.filedTexts)
      && RunAll(fs, ls, converts, transcribe, easier).outcome == FilingPass(fs3, ls.filedVideos, ls.filedAudio, ls.filedTexts)
  {
  }

  /** Before filing, a converted video sits beside its extracted audio and that audio's transcript name. */
  lemma VideoArtifactsBeforeFiling(fs: FileSystem, ls: Listings, converts: string -> bool,
                                   transcribe: string -> seq<Segment>, easier: bool, v: string)
    requires ListedAsRun(fs, ls, converts, transcribe, easier)
    requires v in ls.videos && IsVideoName(v) && converts(v)
    ensures var fs3 := Transcribed(fs, ls, converts, transcribe, easier);
      && v in Contents(fs3, InputVideos)
      && AudioNameFor(v) in Contents(fs3, StagedAudio)
      && TextNameFor(AudioNameFor(v)) in Contents(fs3, StagedText)
  {
    var e := Extracted(fs, ls, converts);
    var fs2 := Staged(fs, ls, converts);
    var a := AudioNameFor(v);
    AcceptedNamesAreLong(v);
    AudioNameKeepsStem(v);
    assert a in e.fs[StagedAudio];
    assert a in fs2[StagedAudio];
    assert a in ls.staged;
  }

  /**
    The join-key invariant of a completed run: a listed video that the
    converter accepts ends up in `final_outputs/<stem>` together with its
    extracted audio `<stem>.mp3` and its transcript `<stem>.txt`; and the
    counter is the number of videos converted.
   */
  lemma RunFilesVideoWithArtifacts(fs: FileSystem, ls: Listings, converts: string -> bool,
                                   transcribe: string -> seq<Segment>, easier: bool, v: string)
    requires ListedAsRun(fs, ls, converts, transcribe, easier)
    requires RunAll(fs, ls, converts, transcribe, easier).outcome.Filed?
    requires v in ls.videos && IsVideoName(v) && converts(v)
    ensures var r := RunAll(fs, ls, converts, transcribe, easier);
      && r.converted == |Converted(ls.videos, converts)|
      && v in Contents(r.outcome.fs, Final(Stem(v)))
      && AudioNameFor(v) in Contents(r.outcome.fs, Final(Stem(v)))
      && Stem(v) + ".txt" in Contents(r.outcome.fs, Final(Stem(v)))
  {
    var fs3 := Transcribed(fs, ls, converts, transcribe, easier);
    ExtractCount(Initialize(fs), ls.videos, converts);
    var a := AudioNameFor(v);
    var t := TextNameFor(a);
    AcceptedNamesAreLong(v);
    AudioNameKeepsStem(v);
    TextNameKeepsStem(a);
    VideoArtifactsBeforeFiling(fs, ls, converts, transcribe, easier, v);
    RunOutcome(fs, ls, converts, transcribe, easier);
    FilingPassFilesName(fs3, ls.filedVideos, ls.filedAudio, ls.filedTexts, InputVideos, v);
    FilingPassFilesName(fs3, ls.filedVideos, ls.filedAudio, ls.filedTexts, StagedAudio, a);
    FilingPassFilesName(fs3, ls.filedVideos, ls.filedAudio, ls.filedTexts, StagedText, t);
  }

  /**
    A long name in the video input folder is filed into its stem folder in
    a completed run whether or not its conversion succeeded.
   */
  lemma RunFilesEveryVideo(fs: FileSystem, ls: Listings, converts: string -> bool,
                           transcribe: string -> seq<Segment>, easier: bool, v: string)
    requires ListedAsRun(fs, ls, converts, transcribe, easier)
    requires RunAll(fs, ls, converts, transcribe, easier).outcome.Filed?
    requires v in ls.videos && IsLong(v)
    ensures var r := RunAll(fs, ls, converts, transcribe, easier);
      && v in Contents(r.outcome.fs, Final(Stem(v)))
      && v !in Contents(r.outcome.fs, InputVideos)
  {
    var fs3 := Transcribed(fs, ls, converts, transcribe, easier);
    RunOutcome(fs, ls, converts, transcribe, easier);
    assert v in Contents(fs3, InputVideos);
    FilingPassFilesName(fs3, ls.filedVideos, ls.filedAudio, ls.filedTexts, InputVideos, v);
  }

  /** Before filing, an input audio name has moved to staging and its transcript name exists. */
  lemma InputAudioBeforeFiling(fs: FileSystem, ls: Listings, converts: string -> bool,
                               transcribe: string -> seq<Segment>, easier: bool, a: string)
    requires ListedAsRun(fs, ls, converts, transcribe, easier)
    requires a in ls.inputAudio && IsAudioName(a)
    ensures var fs3 := Transcribed(fs, ls, converts, transcribe, easier);
      && a in ls.staged
      && a !in Contents(fs3, InputAudio)
      && TextNameFor(a) in Contents(fs3, StagedText)
  {
    InputAudioStaged(fs, ls, converts, a);
    AcceptedNamesAreLong(a);
  }

  /** The staging loop moves an input audio name from its input folder to staging. */
  lemma InputAudioStaged(fs: FileSystem, ls: Listings, converts: string -> bool, a: string)
    requires IsListing(ls.inputAudio, Contents(Initialize(fs), InputAudio))
    requires a in ls.inputAudio && IsAudioName(a)
    ensures var fs2 := Staged(fs, ls, converts);
      && a in Contents(fs2, StagedAudio)
      && a !in Contents(fs2, InputAudio)
  {
    var e := Extracted(fs, ls, converts);
    assert StagedAudio in e.fs && InputAudio in e.fs;
  }

  /**
    An audio file dropped into the audio input folder bypasses extraction,
    and a completed run files it with its transcript `<stem>.txt`.
   */
  lemma RunFilesInputAudio(fs: FileSystem, ls: Listings, converts: string -> bool,
                           transcribe: string -> seq<Segment>, easier: bool, a: string)
    requires ListedAsRun(fs, ls, converts, transcribe, easier)
    requires RunAll(fs, ls, converts, transcribe, easier).outcome.Filed?
    requires a in ls.inputAudio && IsAudioName(a)
    ensures var r := RunAll(fs, ls, converts, transcribe, easier);
      && a in Contents(r.outcome.fs, Final(Stem(a)))
      && Stem(a) + ".txt" in Contents(r.outcome.fs, Final(Stem(a)))
      && a !in Contents(r.outcome.fs, InputAudio)
  {
    var fs3 := Transcribed(fs, ls, converts, transcribe, easier);
    InputAudioBeforeFiling(fs, ls, converts, transcribe, easier, a);
    AcceptedNamesAreLong(a);
    TextNameKeepsStem(a);
    var t := TextNameFor(a);
    RunOutcome(fs, ls, converts, transcribe, easier);
    assert a in Contents(fs3, StagedAudio);
    FilingPassFilesName(fs3, ls.filedVideos, ls.filedAudio, ls.filedTexts, StagedAudio, a);
    FilingPassFilesName(fs3, ls.filedVideos, ls.filedAudio, ls.filedTexts, StagedText, t);
    FilingPassKeepsFolder(fs3, ls.filedVideos, ls.filedAudio, ls.filedTexts, InputAudio);
  }
}
