# Automated audio/video transcriber — a Dafny model of its core

The system is a batch job (`main.py`). It creates a fixed set of working folders. It converts every `.mp4` in `inputs/input_mp4s` into an `.mp3` in `temp_outputs/temp_mp3s`, using an external converter, and counts the successes. It moves every `.mp3` from `inputs/input_mp3s` into the same staging folder. It transcribes every staged file into `temp_outputs/temp_transcriptions/<stem>.txt`, one line per recognised segment, of the form `<start> - <end>: <text>`. Finally it files every entry of the video input folder and of both staging folders into `final_outputs/<name[:-4]>`.

This project models the pure parts exactly and the file-system parts abstractly:

- `Decimal` — `{n:02d}` rendering (`Pad2`) and a digit reader (`ValueOf`) used to state round trips.
- `Timestamp` — `convertSecondToHHMMSS` as `Format` over a whole second count. `Split` covers the `//`/`%` arithmetic. `Parse` reads the output back.
- `Transcript` — the line written per segment (`Entry`), the whole file (`Document`) and the write loop (`WriteDocument`). `ParseDocument` reads a file back into its segments.
- `FileNames` — the case-insensitive extension tests, the four-character guard and the stem `name[:-4]`.
- `Workspace` — folders as `map<Folder, set<string>>`. It covers start-up (`Initialize`), the extraction loop (`ExtractAll`), the staging loop (`StageAll`) and the transcription loop (`Transcripts`, `TranscribeAll`).
- `Filing` — the filing loop as a state transition (`FileItem`, `FileAll`, `FilingPass`). `shutil.move` raises when the destination already holds a same-named entry; that is modelled as an `Aborted` outcome that keeps every earlier move.
- `Pipeline` — one whole run, composed from the passes above.

main.py calls `os.listdir` six times: on the video input folder (line 69), on the audio input folder (line 77), on the audio staging folder (line 91), and on each of the three source folders of the filing loop (line 106). Each result is its own field of `Pipeline.Listings`. `IsListing` states that a result lists its folder's entries at that moment, each exactly once, in any order. The converter's verdict (`converts`) and the recogniser's segments (`transcribe`) are parameters as well.

Three facts about main.py shape the model:

- The stem is positional: always `name[:-4]` (main.py:110), whatever the real extension is.
- When the destination folder already holds an entry of the same name, `shutil.move` raises (main.py:117). Nothing catches it, so the run ends there with every earlier move kept.
- The transcription loop takes every staged name of length at least 4 (main.py:91-93), not only `.mp3` names.

## Model

| member | source | states |
|---|---|---|
| Decimal.Pad2 | main.py:54-56 | `{n:02d}` reads back as `n`. It is at least two characters wide, exactly two iff `n < 100`, and has no padding zero beyond width two. |
| Decimal.ToDecimal | main.py:54-56 | The decimal rendering of `n` is digits only. It has one character iff `n < 10`, and no leading zero. |
| Decimal.ValueOfToDecimal | main.py:54-56 | Reading the decimal rendering of `n` back gives `n`. |
| Timestamp.Split | main.py:49-51 | Minutes and seconds are below 60, hours are unbounded, and `hours*3600 + minutes*60 + seconds` is the input. |
| Timestamp.SplitUnique | main.py:49-51 | Any clock with minutes and seconds below 60 that sums to the input is the split. The `//`/`%` split is the only one. |
| Timestamp.Format | main.py:46-56 | The output has at least 5 characters, and exactly 5 iff the input is below one hour. |
| Timestamp.FormatShortForm | main.py:49-54 | Below 3600 s the output is `pad2(s/60) + ":" + pad2(s%60)`, five characters long. |
| Timestamp.FormatLongForm | main.py:49-56 | From 3600 s on, the output is `pad2(s/3600):pad2((s%3600)/60):pad2(s%60)`. The hour field has at least 2 digits and reads back as `s/3600` with no wrap-around. The output is 8 characters iff `s < 360000`. |
| Timestamp.FormatShape | main.py:53-56 | There is one colon, at index 2, below one hour, and two colons, 6 and 3 from the end, otherwise. Every other character is a decimal digit. |
| Timestamp.ParseFormat | main.py:46-56 | Parsing the formatted string recovers the second count. |
| Timestamp.FormatInjective | main.py:46-56 | Distinct second counts never format alike. |
| Timestamp.FormatExampleMinutes | main.py:49-54 | 125 s formats as `02:05`. This is the truncated value of 125.9 s. |
| Timestamp.FormatExampleHour | main.py:55-56 | 3600 s formats as `01:00:00`. |
| Timestamp.FormatExampleHundredHours | main.py:55-56 | 100 hours format as `100:00:00`. The hour field widens. |
| Transcript.Line | main.py:103 | The f-string `<start> - <end>: <text>`. ParseLineOfLine and SplitLineOfFields state that it reads back as its segment, and LineHasNoNewline that it adds no line break. |
| Transcript.Entry | main.py:103 | Each written entry ends with a line break and is longer than its segment text plus the fixed separators. |
| Transcript.EntryBlankLine | main.py:103 | An entry is `<line>\n`, and `<line>\n\n` exactly when `easierReadingOutput` is set. |
| Transcript.ShippedEntry | main.py:103 | With `easierReadingOutput` as shipped (`False` at line 11), an entry is its line and a single line break. |
| Transcript.LineHasNoNewline | main.py:103 | The two formatted times add no line break to an entry line, so a line break can only come from the segment text. |
| Transcript.DocumentEasierLength | main.py:102-103 | Easier-reading mode adds exactly one character per segment. |
| Transcript.Document | main.py:102-103 | The file written by the loop over `result["segments"]`. DocumentAppend states that segments are written in order, and ParseDocumentOfDocument that the file reads back as its segments. |
| Transcript.DocumentAppend | main.py:102-103 | The file for `a + b` is the file for `a` followed by the file for `b`. Segments are written in order. |
| Transcript.SplitLineOfFields | main.py:103 | A line `<start> - <end>: <text>` splits back into its three fields at its first two spaces, whatever the text holds. |
| Transcript.ParseLineOfLine | main.py:103 | Every entry line reads back as the segment it was written from. |
| Transcript.ParseDocumentOfDocument | main.py:101-103 | The file reads back as exactly its segments, one entry per segment, in input order. |
| Transcript.WriteDocument | main.py:101-103 | The write loop produces the transcript of all segments, and that transcript reads back as them. |
| Transcript.DocumentExample | main.py:102-103 | Segments `(0,5,"hello")` and `(5,12,"world")` give `00:00 - 00:05: hello\n00:05 - 00:12: world\n`. With easier reading, a blank line follows each entry. |
| FileNames.Stem | main.py:110 | For a long name, the stem is the name minus its last four characters, and the two parts rejoin to the name. A shorter name has the empty stem. |
| FileNames.AudioNameFor | main.py:72 | `name[:-4] + ".mp3"` ends in `.mp3` and has the length of an accepted video name. |
| FileNames.TextNameFor | main.py:101 | `name[:-4] + ".txt"` ends in `.txt`, has the length of a long staged name, and never coincides with the audio name `name[:-4] + ".mp3"`. |
| FileNames.VideoNameChars | main.py:71 | A name passes `lower().endswith(".mp4")` iff its last four characters are `.`, `m`/`M`, `p`/`P`, `4`. |
| FileNames.AudioNameChars | main.py:78 | A name passes `lower().endswith(".mp3")` iff its last four characters are `.`, `m`/`M`, `p`/`P`, `3`. |
| FileNames.ExtensionTestsIgnoreCase | main.py:71 | A name and its lower-cased form are judged alike by both extension tests. |
| FileNames.AcceptedNamesAreLong | main.py:71-72 | Accepted names have at least 4 characters, and the derived audio or text name has the same length. |
| FileNames.AudioNameKeepsStem | main.py:72 | The audio extracted from a video is an audio name with the video's stem. |
| FileNames.TextNameKeepsStem | main.py:101 | The transcript of a long staged name has that name's stem. |
| FileNames.StemIsPositional | main.py:110 | `clip.flac` has stem `clip.`, `clip.MP4` has stem `clip`, and `abc` has the empty stem. |
| FileNames.Lower | main.py:71 | `str.lower()` on ASCII: same length, no capital left, each capital becomes its small letter, and every other character stays. |
| FileNames.LowerIdempotent | main.py:71 | Lower-casing twice is lower-casing once. |
| FileNames.IsVideoName | main.py:71 | `name.lower().endswith(".mp4")`. VideoNameChars states it character by character, and ExtensionTestsIgnoreCase states that case does not matter. |
| FileNames.IsAudioName | main.py:78 | `name.lower().endswith(".mp3")`. AudioNameChars states it character by character. |
| FileNames.IsLong | main.py:107 | The negated guard `len(name) < 4`, also used at line 92. ShortNamesStay and FileAllShortNames state what the guard skips. |
| Workspace.Initialize | main.py:62-65 | After start-up every working folder exists. Existing folders keep their contents, and only missing working folders are added, empty. |
| Workspace.InitializeIdempotent | main.py:62-65 | Running start-up twice equals running it once. |
| Workspace.ExtractAll | main.py:68-73 | Staging gains exactly `<stem>.mp3` for each listed video the converter accepts. No other folder changes, and the counter never exceeds the listing. |
| Workspace.ExtractCount | main.py:68-74 | Over a listing, the counter equals the number of converted videos. |
| Workspace.StageAll | main.py:77-79 | Listed audio names leave the input folder and join staging. Other names stay, and no other folder changes. |
| Workspace.StageAllListing | main.py:77-79 | Over a full listing, only non-audio names remain in the audio input folder, and every audio name is staged. |
| Workspace.Transcripts | main.py:91-103 | A transcript `<stem>.txt` exists exactly for the long staged names. Each holds the document of a staged name with that text name. |
| Workspace.TranscriptOfUniqueStem | main.py:101-103 | A staged name whose stem no other long staged name shares gets its own document. |
| Workspace.TranscribeAll | main.py:91-101 | The text staging folder gains exactly the transcript names. Staged audio stays in place. |
| Filing.FileItem | main.py:106-117 | A short name changes nothing. The step aborts exactly when the present entry already exists in its destination. Otherwise the entry leaves its source for `final_outputs/<stem>`. |
| Filing.Destination | main.py:110 | `final_outputs/<name[:-4]>`. FileItem and FilingPassFilesName state that a long name is filed there. |
| Filing.FileAll | main.py:106-117 | The inner loop, stopping at the first raise. FileAllCompletes, FileAllAbortsOnCollision and FileAllKeepsEverything state its outcomes. |
| Filing.FilingPass | main.py:105-117 | The loop over the three source folders in main.py's order. FilingPassCorrect states when it completes and the end state it then leaves. |
| Filing.FileAllCompletes | main.py:105-117 | A collision-free pass completes. Each source folder loses exactly its long names, and each stem folder holds its old entries plus every long name with that stem. |
| Filing.FileAllAbortsOnCollision | main.py:113-117 | A pass that would collide stops with an error. |
| Filing.FileAllKeepsEverything | main.py:105-117 | Whatever the outcome, stem folders only gain entries. An entry that left a source folder is a long name now present in its stem folder. |
| Filing.ShortNamesStay | main.py:107-108 | Names shorter than four characters are never moved. |
| Filing.FileAllShortNames | main.py:106-108 | A pass over short names only changes nothing. |
| Filing.PassWorkFacts | main.py:105-106 | The filing loop visits every entry of the three source folders exactly once. |
| Filing.PassCollisionFreeMeans | main.py:113-117 | At the work-list level, collision freedom is the folder-level condition. |
| Filing.FilingPassCorrect | main.py:105-117 | The pass completes iff no long source name is already filed under its stem and no long name occurs in two source folders. A completed pass leaves the expected end state. |
| Filing.FilingPassIdempotent | main.py:105-117 | A second pass after a completed one changes nothing. |
| Filing.FilingPassFilesName | main.py:105-117 | In a completed pass, a long name from a source folder has left that folder and sits in `final_outputs/<stem>`. |
| Filing.FilingPassKeepsFolder | main.py:105-117 | A completed pass leaves every folder other than the three source folders and the stem folders as it was. |
| Pipeline.RunAll | main.py:62-117 | One run. The counter never exceeds the video listing, and every transcript written is a name in the text staging folder after transcription. RunOutcome and the `RunFiles` lemmas state what the run files. |
| Pipeline.RunOutcome | main.py:62-117 | A run's outcome is the filing pass over the state after transcription, using the three listings taken at line 106, which list that state's source folders. |
| Pipeline.InputAudioStaged | main.py:77-79 | After staging, an input audio name has left the audio input folder and sits in the audio staging folder. |
| Pipeline.InputAudioBeforeFiling | main.py:77-103 | Before filing, an input audio name has left the audio input folder, is listed in staging, and its transcript name is in the text staging folder. |
| Pipeline.VideoArtifactsBeforeFiling | main.py:68-103 | Before filing, a converted video is still in the video folder, its audio is staged, and that audio's transcript name exists. |
| Pipeline.RunFilesVideoWithArtifacts | main.py:69-117 | In a completed run, a converted video lands in `final_outputs/<stem>` with `<stem>.mp3` and `<stem>.txt`. The counter equals the number of converted videos. |
| Pipeline.RunFilesEveryVideo | main.py:105-117 | In a completed run, every long video-folder name is filed under its stem, whether or not conversion succeeded. |
| Pipeline.RunFilesInputAudio | main.py:77-117 | In a completed run, input audio bypasses extraction and is filed with its transcript `<stem>.txt`. |

## Left out

- The external converter (`mp4ToMp3`, main.py:27-44) is the parameter `converts`. Its command line and its diagnostic message are not modelled.
- The speech model is the parameter `transcribe`. That covers device selection, `whisper.load_model` and `model.transcribe` (main.py:83-97). A failing transcription would raise and stop the run; that path is not modelled.
- `int(inputSeconds)` truncation of floating-point segment times (main.py:47) is not modelled. Times are whole seconds already. Negative input is unguarded in the source and is outside `nat`.
- Console `print` output and the paths built with `os.path.join` (main.py:15-25) are not modelled.
- Folders hold entry names only. Audio and video contents are not modelled. Transcript texts are modelled by `Transcripts` but are not carried through filing.
- The parent folders `inputs`, `temp_outputs` and `final_outputs` are modelled as folders, but their sub-folders are not listed among their entries.
- Stems `""`, `.` and `..` name `final_outputs` itself or its parent. The model treats them as an ordinary stem folder.
- A plain file in `final_outputs` that carries a stem's name is not modelled. In the source, `makedirs` would be skipped and the move would replace that file.
- An existing staged `.mp3` for a converted video is not modelled. The converter would prompt before overwriting it.
- Lower-casing handles ASCII letters only. Python's `str.lower` lower-cases more characters, but none of them lower-case to `.`, `m`, `p`, `3` or `4`, so the extension tests agree.
- ParseDocumentOfDocument: holds only when no segment text contains a line break. A text with one makes the written file ambiguous.
- Transcripts: when two staged names share a stem, the later one overwrites the transcript. The contract says only that the file holds the document of one of them; `TranscriptOfUniqueStem` covers the unique case.
