/**
  The filing pass at the end of main.py: every entry of the video input
  folder, the audio staging folder and the text staging folder whose name
  has at least four characters is moved into `final_outputs/<name[:-4]>`,
  which is created first when it does not exist.

  `shutil.move(src, dir)` refuses to overwrite an entry of the same name
  already in `dir` and raises; nothing in main.py catches it, so the run
  stops there with every earlier move kept. That is the `Aborted` outcome.
 */
module Filing {
  import opened FileNames
  import opened Workspace

  /** One entry of a listed source folder, waiting to be filed. */
  datatype Pending = Pending(from: Folder, name: string)

  datatype FilingError = AlreadyFiled(folder: Folder, name: string)

  /** The file system after the pass, or where it stood when the pass raised. */
  datatype Outcome = Filed(fs: FileSystem) | Aborted(fs: FileSystem, error: FilingError)

  /** Where a long name is filed. */
  function Destination(name: string): Folder {
    Final(Stem(name))
  }

  /**
    One iteration of the inner loop: skip short names; otherwise create the
    destination folder if absent, then move the entry when it still exists
    in its source folder.
   */
  function FileItem(fs: FileSystem, p: Pending): (o: Outcome)
    requires !p.from.Final?
    ensures !IsLong(p.name) ==> o == Filed(fs)
    ensures o.Aborted? <==>
      IsLong(p.name) && p.name in Contents(fs, p.from) && p.name in Contents(fs, Destination(p.name))
    ensures o.Filed? && IsLong(p.name) && p.name in Contents(fs, p.from) ==>
      p.name !in Contents(o.fs, p.from) && p.name in Contents(o.fs, Destination(p.name))
    ensures forall k :: Contents(fs, Final(k)) <= Contents(o.fs, Final(k))
  {
    if !IsLong(p.name) then Filed(fs)
    else
      var dst := Destination(p.name);
      var fs1 := if dst in fs then fs else fs[dst := {}];
      if p.from in fs1 && p.name in fs1[p.from] then
        if p.name in fs1[dst] then Aborted(fs1, AlreadyFiled(dst, p.name))
        else Filed(fs1[p.from := fs1[p.from] - {p.name}][dst := fs1[dst] + {p.name}])
      else
        Filed(fs1)
  }

  predicate FromSources(work: seq<Pending>) {
    forall i :: 0 <= i < |work| ==> !work[i].from.Final?
  }

  /** The inner loop over a sequence of pending entries, stopping at the first error. */
  function FileAll(fs: FileSystem, work: seq<Pending>): (o: Outcome)
    requires FromSources(work)
    decreases |work|
  {
    if |work| == 0 then Filed(fs)
    else
      match FileItem(fs, work[0])
      case Aborted(fs1, e) => Aborted(fs1, e)
      case Filed(fs1) => FileAll(fs1, work[1..])
  }

  /** `[(folder, item) for item in listing]` */
  function Tag(from: Folder, names: seq<string>): seq<Pending> {
    seq(|names|, i requires 0 <= i < |names| => Pending(from, names[i]))
  }

  /** The three source folders in the order main.py visits them. */
  function PassWork(videos: seq<string>, audio: seq<string>, texts: seq<string>): (work: seq<Pending>)
    ensures FromSources(work)
  {
    Tag(InputVideos, videos) + Tag(StagedAudio, audio) + Tag(StagedText, texts)
  }

  /** The whole filing pass, given the listing of each source folder. */
  function FilingPass(fs: FileSystem, videos: seq<string>, audio: seq<string>, texts: seq<string>): Outcome {
    FileAll(fs, PassWork(videos, audio, texts))
  }

  // ---------------------------------------------------------------------
  // What the pass does to a well-formed work list.

  /** Every pending entry exists in its (non-final) source folder, and none is listed twice. */
  predicate WellFormed(fs: FileSystem, work: seq<Pending>) {
    && FromSources(work)
    && (forall p :: p in work ==> p.name in Contents(fs, p.from))
    && (forall i, j :: 0 <= i < j < |work| ==> work[i] != work[j])
  }

  /**
    No move can collide: no long name is already in its destination, and
    no two long pending entries share a name (they would share the
    destination too).
   */
  predicate CollisionFree(fs: FileSystem, work: seq<Pending>) {
    && (forall p :: p in work && IsLong(p.name) ==> p.name !in Contents(fs, Destination(p.name)))
    && (forall p, q :: p in work && q in work && p != q && IsLong(p.name) ==> p.name != q.name)
  }

  /** The long names listed from `from`. */
  function Leaving(work: seq<Pending>, from: Folder): set<string> {
    set p | p in work && p.from == from && IsLong(p.name) :: p.name
  }

  /** The long names filed under `stem`. */
  function Arriving(work: seq<Pending>, stem: string): set<string> {
    set p | p in work && IsLong(p.name) && Stem(p.name) == stem :: p.name
  }

  /**
    The end state of a pass that completes: each source folder has lost
    exactly its long listed names; `final_outputs/<stem>` exists exactly
    when it did before or some long name has that stem, and holds its old
    entries plus every long name with that stem; nothing else changes.
   */
  ghost predicate FiledAsExpected(fs: FileSystem, work: seq<Pending>, fs': FileSystem) {
    && (forall f: Folder :: !f.Final? ==> (f in fs' <==> f in fs))
    && (forall f: Folder :: !f.Final? && f in fs ==> fs'[f] == fs[f] - Leaving(work, f))
    && (forall k :: Final(k) in fs' <==> Final(k) in fs || Arriving(work, k) != {})
    && (forall k :: Final(k) in fs' ==> fs'[Final(k)] == Contents(fs, Final(k)) + Arriving(work, k))
  }

  lemma LeavingCons(w: Pending, rest: seq<Pending>, f: Folder)
    ensures Leaving([w] + rest, f) == Leaving(rest, f) + (if w.from == f && IsLong(w.name) then {w.name} else {})
  {
    var work := [w] + rest;
    assert forall p :: p in work <==> p == w || p in rest;
  }

  lemma ArrivingCons(w: Pending, rest: seq<Pending>, k: string)
    ensures Arriving([w] + rest, k) == Arriving(rest, k) + (if IsLong(w.name) && Stem(w.name) == k then {w.name} else {})
  {
    var work := [w] + rest;
    assert forall p :: p in work <==> p == w || p in rest;
  }

  /** After the head of a well-formed list is filed, the rest is still well formed. */
  lemma FileHeadWellFormed(fs: FileSystem, work: seq<Pending>)
    requires |work| > 0 && WellFormed(fs, work)
    requires FileItem(fs, work[0]).Filed?
    ensures WellFormed(FileItem(fs, work[0]).fs, work[1..])
  {
    var w := work[0];
    var rest := work[1..];
    var fs1 := FileItem(fs, w).fs;
    forall p | p in rest
      ensures p.name in Contents(fs1, p.from)
    {
      var j :| 0 <= j < |rest| && rest[j] == p;
      assert work[j + 1] == p;
    }
  }

  lemma LeavingSingle(w: Pending, f: Folder)
    ensures Leaving([w], f) == if w.from == f && IsLong(w.name) then {w.name} else {}
  {
    assert forall p :: p in [w] <==> p == w;
  }

  lemma ArrivingSingle(w: Pending, k: string)
    ensures Arriving([w], k) == if IsLong(w.name) && Stem(w.name) == k then {w.name} else {}
  {
    assert forall p :: p in [w] <==> p == w;
  }

  /** Filing one long present entry that does not collide moves it and touches nothing else. */
  lemma FileOneMoves(fs: FileSystem, w: Pending)
    requires !w.from.Final? && w.name in Contents(fs, w.from) && IsLong(w.name)
    requires w.name !in Contents(fs, Destination(w.name))
    ensures FileItem(fs, w).Filed?
    ensures var fs1, dst := FileItem(fs, w).fs, Destination(w.name);
      && fs1.Keys == fs.Keys + {dst}
      && fs1[w.from] == fs[w.from] - {w.name}
      && fs1[dst] == Contents(fs, dst) + {w.name}
      && (forall f :: f in fs && f != w.from && f != dst ==> fs1[f] == fs[f])
  {
  }

  /** Filing one present entry that does not collide has the expected effect. */
  lemma FileOneExpected(fs: FileSystem, w: Pending)
    requires !w.from.Final? && w.name in Contents(fs, w.from)
    requires IsLong(w.name) ==> w.name !in Contents(fs, Destination(w.name))
    ensures FileItem(fs, w).Filed?
    ensures FiledAsExpected(fs, [w], FileItem(fs, w).fs)
  {
    var fs1 := FileItem(fs, w).fs;
    if IsLong(w.name) {
      FileOneMoves(fs, w);
    }
    forall f: Folder | !f.Final?
      ensures f in fs1 <==> f in fs
      ensures f in fs ==> fs1[f] == fs[f] - Leaving([w], f)
    {
      LeavingSingle(w, f);
    }
    forall k
      ensures Final(k) in fs1 <==> Final(k) in fs || Arriving([w], k) != {}
      ensures Final(k) in fs1 ==> fs1[Final(k)] == Contents(fs, Final(k)) + Arriving([w], k)
    {
      ArrivingSingle(w, k);
    }
  }

  /** The first step of a collision-free, well-formed list files its head and keeps the rest so. */
  lemma FileHeadStep(fs: FileSystem, work: seq<Pending>)
    requires |work| > 0
    requires WellFormed(fs, work) && CollisionFree(fs, work)
    ensures FileItem(fs, work[0]).Filed?
    ensures var fs1 := FileItem(fs, work[0]).fs;
      && WellFormed(fs1, work[1..]) && CollisionFree(fs1, work[1..])
      && FiledAsExpected(fs, [work[0]], fs1)
  {
    var w := work[0];
    var rest := work[1..];
    FileOneExpected(fs, w);
    var fs1 := FileItem(fs, w).fs;
    FileHeadWellFormed(fs, work);
    forall p | p in rest && IsLong(p.name)
      ensures p.name !in Contents(fs1, Destination(p.name))
    {
      var j :| 0 <= j < |rest| && rest[j] == p;
      assert work[j + 1] == p;
      if IsLong(w.name) { assert w != p; }
    }
    assert forall p :: p in rest ==> p in work;
  }

  /** The source folders' part of `ExpectedCompose`. */
  lemma ExpectedComposeSources(fs: FileSystem, fs1: FileSystem, fs2: FileSystem, w: Pending, rest: seq<Pending>, f: Folder)
    requires FiledAsExpected(fs, [w], fs1)
    requires FiledAsExpected(fs1, rest, fs2)
    requires !f.Final? && f in fs
    ensures fs2[f] == fs[f] - Leaving([w] + rest, f)
  {
    LeavingCons(w, rest, f);
    LeavingSingle(w, f);
  }

  /** The stem folders' part of `ExpectedCompose`, for one stem `k`. */
  lemma ExpectedComposeStems(fs: FileSystem, fs1: FileSystem, fs2: FileSystem, w: Pending, rest: seq<Pending>, k: string)
    requires Final(k) in fs1 <==> Final(k) in fs || Arriving([w], k) != {}
    requires Final(k) in fs1 ==> fs1[Final(k)] == Contents(fs, Final(k)) + Arriving([w], k)
    requires Final(k) in fs2 <==> Final(k) in fs1 || Arriving(rest, k) != {}
    requires Final(k) in fs2 ==> fs2[Final(k)] == Contents(fs1, Final(k)) + Arriving(rest, k)
    ensures Final(k) in fs2 <==> Final(k) in fs || Arriving([w] + rest, k) != {}
    ensures Final(k) in fs2 ==> fs2[Final(k)] == Contents(fs, Final(k)) + Arriving([w] + rest, k)
  {
    ArrivingCons(w, rest, k);
    ArrivingSingle(w, k);
  }

  /** Expected effects compose: filing `[w]` then `rest` is filing `[w] + rest`. */
  lemma ExpectedCompose(fs: FileSystem, fs1: FileSystem, fs2: FileSystem, w: Pending, rest: seq<Pending>)
    requires FiledAsExpected(fs, [w], fs1)
    requires FiledAsExpected(fs1, rest, fs2)
    ensures FiledAsExpected(fs, [w] + rest, fs2)
  {
    forall f: Folder | !f.Final? && f in fs
      ensures fs2[f] == fs[f] - Leaving([w] + rest, f)
    {
      ExpectedComposeSources(fs, fs1, fs2, w, rest, f);
    }
    forall k
      ensures Final(k) in fs2 <==> Final(k) in fs || Arriving([w] + rest, k) != {}
      ensures Final(k) in fs2 ==> fs2[Final(k)] == Contents(fs, Final(k)) + Arriving([w] + rest, k)
    {
      ExpectedComposeStems(fs, fs1, fs2, w, rest, k);
    }
  }

  /** A collision-free pass over a well-formed list completes, with the expected end state. */
  lemma {:induction false} FileAllCompletes(fs: FileSystem, work: seq<Pending>)
    requires WellFormed(fs, work) && CollisionFree(fs, work)
    ensures FileAll(fs, work).Filed?
    ensures FiledAsExpected(fs, work, FileAll(fs, work).fs)
    decreases |work|
  {
    if |work| == 0 {
      assert forall f :: Leaving(work, f) == {};
      assert forall k :: Arriving(work, k) == {};
    } else {
      var w := work[0];
      FileHeadStep(fs, work);
      var fs1 := FileItem(fs, w).fs;
      FileAllCompletes(fs1, work[1..]);
      ExpectedCompose(fs, fs1, FileAll(fs1, work[1..]).fs, w, work[1..]);
      assert [w] + work[1..] == work;
    }
  }

  /** A collision that the head's step does not hit is still ahead in the rest of the list. */
  lemma CollisionPersists(fs: FileSystem, work: seq<Pending>)
    requires |work| > 0 && WellFormed(fs, work) && !CollisionFree(fs, work)
    requires FileItem(fs, work[0]).Filed?
    ensures !CollisionFree(FileItem(fs, work[0]).fs, work[1..])
  {
    var w := work[0];
    var rest := work[1..];
    var fs1 := FileItem(fs, w).fs;
    assert forall p :: p in work ==> p == w || p in rest;
    if p :| p in work && IsLong(p.name) && p.name in Contents(fs, Destination(p.name)) {
      assert p != w;
      assert p in rest && p.name in Contents(fs1, Destination(p.name));
    } else {
      var p, q :| p in work && q in work && p != q && IsLong(p.name) && p.name == q.name;
      if p == w {
        assert q in rest && q.name in Contents(fs1, Destination(q.name));
      } else if q == w {
        assert p in rest && p.name in Contents(fs1, Destination(p.name));
      } else {
        assert p in rest && q in rest;
      }
    }
  }

  /** A pass over a well-formed list that would collide stops with an error. */
  lemma {:induction false} FileAllAbortsOnCollision(fs: FileSystem, work: seq<Pending>)
    requires WellFormed(fs, work) && !CollisionFree(fs, work)
    ensures FileAll(fs, work).Aborted?
    decreases |work|
  {
    if FileItem(fs, work[0]).Filed? {
      FileHeadWellFormed(fs, work);
      CollisionPersists(fs, work);
      FileAllAbortsOnCollision(FileItem(fs, work[0]).fs, work[1..]);
    }
  }

  /**
    Whatever the outcome, nothing is lost: final folders only gain entries,
    and an entry that left a source folder is a long name now present in
    its destination. Short names never leave.
   */
  lemma {:induction false} FileAllKeepsEverything(fs: FileSystem, work: seq<Pending>)
    requires FromSources(work)
    ensures var o := FileAll(fs, work);
      && (forall k :: Contents(fs, Final(k)) <= Contents(o.fs, Final(k)))
      && (forall f: Folder, n :: !f.Final? && n in Contents(fs, f) && n !in Contents(o.fs, f) ==>
            IsLong(n) && n in Contents(o.fs, Destination(n)))
    decreases |work|
  {
    if |work| > 0 {
      var o1 := FileItem(fs, work[0]);
      FileItemKeepsEverything(fs, work[0]);
      if o1.Filed? {
        FileAllKeepsEverything(o1.fs, work[1..]);
        var r := FileAll(o1.fs, work[1..]).fs;
        assert FileAll(fs, work).fs == r;
        forall f: Folder, n | !f.Final? && n in Contents(fs, f) && n !in Contents(r, f)
          ensures IsLong(n) && n in Contents(r, Destination(n))
        {
          if n !in Contents(o1.fs, f) {
            assert n in Contents(o1.fs, Destination(n));
          }
        }
      }
    }
  }

  /** One step of `FileAllKeepsEverything`. */
  lemma FileItemKeepsEverything(fs: FileSystem, p: Pending)
    requires !p.from.Final?
    ensures var o := FileItem(fs, p);
      forall f: Folder, n :: !f.Final? && n in Contents(fs, f) && n !in Contents(o.fs, f) ==>
        IsLong(n) && n in Contents(o.fs, Destination(n))
  {
  }

  /** Names shorter than four characters stay in their source folder, whatever the outcome. */
  lemma ShortNamesStay(fs: FileSystem, work: seq<Pending>, f: Folder, n: string)
    requires FromSources(work)
    requires !f.Final? && n in Contents(fs, f) && !IsLong(n)
    ensures n in Contents(FileAll(fs, work).fs, f)
  {
    FileAllKeepsEverything(fs, work);
  }

  /** A pass over names that are all short changes nothing. */
  lemma {:induction false} FileAllShortNames(fs: FileSystem, work: seq<Pending>)
    requires FromSources(work)
    requires forall p :: p in work ==> !IsLong(p.name)
    ensures FileAll(fs, work) == Filed(fs)
    decreases |work|
  {
    if |work| > 0 {
      assert work[0] in work;
      assert forall p :: p in work[1..] ==> p in work;
      FileAllShortNames(fs, work[1..]);
    }
  }

  // ---------------------------------------------------------------------
  // The pass over the three listed source folders.

  /** The folders the filing pass empties: `input_mp4s`, `temp_mp3s`, `temp_transcriptions`. */
  predicate IsSource(f: Folder) {
    f == InputVideos || f == StagedAudio || f == StagedText
  }

  /** Every name in any of the three source folders. */
  function SourceNames(fs: FileSystem): set<string> {
    Contents(fs, InputVideos) + Contents(fs, StagedAudio) + Contents(fs, StagedText)
  }

  /** The listings are `os.listdir` results of the three source folders. */
  predicate ListsSources(fs: FileSystem, videos: seq<string>, audio: seq<string>, texts: seq<string>) {
    && IsListing(videos, Contents(fs, InputVideos))
    && IsListing(audio, Contents(fs, StagedAudio))
    && IsListing(texts, Contents(fs, StagedText))
  }

  /**
    The pass cannot collide: no long source name is already in its
    destination folder, and no long name occurs in two source folders.
   */
  ghost predicate PassCollisionFree(fs: FileSystem) {
    && (forall f, n :: IsSource(f) && n in Contents(fs, f) && IsLong(n) ==> n !in Contents(fs, Destination(n)))
    && (forall f, g, n :: IsSource(f) && IsSource(g) && f != g && n in Contents(fs, f) && n in Contents(fs, g) ==> !IsLong(n))
  }

  predicate Distinct(work: seq<Pending>) {
    forall i, j :: 0 <= i < j < |work| ==> work[i] != work[j]
  }

  lemma TagFacts(from: Folder, names: seq<string>, contents: set<string>)
    requires IsListing(names, contents)
    ensures Distinct(Tag(from, names))
    ensures forall p :: p in Tag(from, names) <==> p.from == from && p.name in contents
  {
    var t := Tag(from, names);
    forall p: Pending | p.from == from && p.name in contents
      ensures p in t
    {
      var i :| 0 <= i < |names| && names[i] == p.name;
      assert t[i] == p;
    }
  }

  lemma DistinctConcat(a: seq<Pending>, b: seq<Pending>)
    requires Distinct(a) && Distinct(b)
    requires forall p :: p in a ==> p !in b
    ensures Distinct(a + b)
  {
    var c := a + b;
    forall i, j | 0 <= i < j < |c|
      ensures c[i] != c[j]
    {
      if i < |a| && j >= |a| {
        assert c[i] in a && c[j] == b[j - |a|];
      }
    }
  }

  /** The pass's work list is exactly the entries of the three source folders, each once. */
  lemma PassWorkFacts(fs: FileSystem, videos: seq<string>, audio: seq<string>, texts: seq<string>)
    requires ListsSources(fs, videos, audio, texts)
    ensures var work := PassWork(videos, audio, texts);
      && WellFormed(fs, work)
      && (forall p :: p in work <==> IsSource(p.from) && p.name in Contents(fs, p.from))
  {
    var tv, ta, tt := Tag(InputVideos, videos), Tag(StagedAudio, audio), Tag(StagedText, texts);
    TagFacts(InputVideos, videos, Contents(fs, InputVideos));
    TagFacts(StagedAudio, audio, Contents(fs, StagedAudio));
    TagFacts(StagedText, texts, Contents(fs, StagedText));
    DistinctConcat(tv, ta);
    assert forall p :: p in tv + ta <==> p in tv || p in ta;
    DistinctConcat(tv + ta, tt);
    var work := PassWork(videos, audio, texts);
    assert work == tv + ta + tt;
    assert forall p :: p in work <==> p in tv || p in ta || p in tt;
  }

  /** At the level of work items, collision freedom is the folder-level condition. */
  lemma PassCollisionFreeMeans(fs: FileSystem, videos: seq<string>, audio: seq<string>, texts: seq<string>)
    requires ListsSources(fs, videos, audio, texts)
    ensures CollisionFree(fs, PassWork(videos, audio, texts)) <==> PassCollisionFree(fs)
  {
    var work := PassWork(videos, audio, texts);
    PassWorkFacts(fs, videos, audio, texts);
    if CollisionFree(fs, work) {
      forall f, n | IsSource(f) && n in Contents(fs, f) && IsLong(n)
        ensures n !in Contents(fs, Destination(n))
      {
        assert Pending(f, n) in work;
      }
      forall f, g, n | IsSource(f) && IsSource(g) && f != g && n in Contents(fs, f) && n in Contents(fs, g)
        ensures !IsLong(n)
      {
        assert Pending(f, n) in work && Pending(g, n) in work;
      }
    }
  }

  /**
    The end state of a completed pass, stated on folders: each source
    folder keeps exactly its short names; `final_outputs/<k>` holds its old
    entries plus every long source name whose stem is `k`; no other folder
    changes.
   */
  ghost predicate PassExpected(fs: FileSystem, r: FileSystem) {
    SourcesExpected(fs, r) && OthersExpected(fs, r) && StemsExpected(fs, r)
  }

  /** Each source folder keeps exactly its short names. */
  ghost predicate SourcesExpected(fs: FileSystem, r: FileSystem) {
    forall f, n :: IsSource(f) ==> (n in Contents(r, f) <==> n in Contents(fs, f) && !IsLong(n))
  }

  /** No folder other than the sources and the stem folders changes. */
  ghost predicate OthersExpected(fs: FileSystem, r: FileSystem) {
    forall f: Folder :: !f.Final? && !IsSource(f) ==> (f in r <==> f in fs) && Contents(r, f) == Contents(fs, f)
  }

  /** `final_outputs/<k>` holds its old entries plus every long source name whose stem is `k`. */
  ghost predicate StemsExpected(fs: FileSystem, r: FileSystem) {
    forall k, n :: n in Contents(r, Final(k)) <==>
      n in Contents(fs, Final(k)) || (IsLong(n) && Stem(n) == k && n in SourceNames(fs))
  }

  /** The source folders after the pass, read at the level of folders. */
  lemma PassExpectedSources(fs: FileSystem, videos: seq<string>, audio: seq<string>, texts: seq<string>, r: FileSystem)
    requires ListsSources(fs, videos, audio, texts)
    requires FiledAsExpected(fs, PassWork(videos, audio, texts), r)
    ensures SourcesExpected(fs, r)
  {
    var work := PassWork(videos, audio, texts);
    PassWorkFacts(fs, videos, audio, texts);
    forall f, n | IsSource(f) && n in Contents(fs, f) && IsLong(n)
      ensures n !in Contents(r, f)
    {
      assert Pending(f, n) in work;
      assert n in Leaving(work, f);
    }
  }

  /** One stem folder after the pass, read at the level of folders. */
  lemma PassExpectedStem(fs: FileSystem, work: seq<Pending>, r: FileSystem, k: string, n: string)
    requires FiledAsExpected(fs, work, r)
    requires forall p :: p in work <==> IsSource(p.from) && p.name in Contents(fs, p.from)
    ensures n in Contents(r, Final(k)) <==>
      n in Contents(fs, Final(k)) || (IsLong(n) && Stem(n) == k && n in SourceNames(fs))
  {
    var arriving := IsLong(n) && Stem(n) == k && n in SourceNames(fs);
    if arriving {
      var f :| IsSource(f) && n in Contents(fs, f);
      assert Pending(f, n) in work;
      assert n in Arriving(work, k);
    }
    assert n in Arriving(work, k) <==> arriving;
    if Final(k) !in r {
      assert Arriving(work, k) == {};
    }
  }

  /** The stem folders after the pass, read at the level of folders. */
  lemma PassExpectedStems(fs: FileSystem, videos: seq<string>, audio: seq<string>, texts: seq<string>, r: FileSystem)
    requires ListsSources(fs, videos, audio, texts)
    requires FiledAsExpected(fs, PassWork(videos, audio, texts), r)
    ensures StemsExpected(fs, r)
  {
    var work := PassWork(videos, audio, texts);
    PassWorkFacts(fs, videos, audio, texts);
    forall k, n
      ensures n in Contents(r, Final(k)) <==>
        n in Contents(fs, Final(k)) || (IsLong(n) && Stem(n) == k && n in SourceNames(fs))
    {
      PassExpectedStem(fs, work, r, k, n);
    }
  }

  /** The other folders after the pass, read at the level of folders. */
  lemma PassExpectedOthers(fs: FileSystem, videos: seq<string>, audio: seq<string>, texts: seq<string>, r: FileSystem)
    requires ListsSources(fs, videos, audio, texts)
    requires FiledAsExpected(fs, PassWork(videos, audio, texts), r)
    ensures OthersExpected(fs, r)
  {
    var work := PassWork(videos, audio, texts);
    PassWorkFacts(fs, videos, audio, texts);
    forall f: Folder | !f.Final? && !IsSource(f)
      ensures Leaving(work, f) == {}
    {
    }
  }

  /** The work-level expected state, read at the level of folders. */
  lemma PassExpectedMeans(fs: FileSystem, videos: seq<string>, audio: seq<string>, texts: seq<string>, r: FileSystem)
    requires ListsSources(fs, videos, audio, texts)
    requires FiledAsExpected(fs, PassWork(videos, audio, texts), r)
    ensures PassExpected(fs, r)
  {
    PassExpectedSources(fs, videos, audio, texts, r);
    PassExpectedOthers(fs, videos, audio, texts, r);
    PassExpectedStems(fs, videos, audio, texts, r);
  }

  /**
    The filing pass over listings of the three source folders completes
    exactly when it cannot collide, and then it leaves the expected end
    state.
   */
  lemma FilingPassCorrect(fs: FileSystem, videos: seq<string>, audio: seq<string>, texts: seq<string>)
    requires ListsSources(fs, videos, audio, texts)
    ensures FilingPass(fs, videos, audio, texts).Filed? <==> PassCollisionFree(fs)
    ensures FilingPass(fs, videos, audio, texts).Filed? ==> PassExpected(fs, FilingPass(fs, videos, audio, texts).fs)
  {
    var work := PassWork(videos, audio, texts);
    PassWorkFacts(fs, videos, audio, texts);
    PassCollisionFreeMeans(fs, videos, audio, texts);
    if CollisionFree(fs, work) {
      FileAllCompletes(fs, work);
      PassExpectedMeans(fs, videos, audio, texts, FileAll(fs, work).fs);
    } else {
      FileAllAbortsOnCollision(fs, work);
    }
  }

  /** One long source name after a completed pass: gone from its folder, present in its stem folder. */
  lemma FilingPassFilesName(fs: FileSystem, videos: seq<string>, audio: seq<string>, texts: seq<string>,
                            f: Folder, n: string)
    requires ListsSources(fs, videos, audio, texts)
    requires FilingPass(fs, videos, audio, texts).Filed?
    requires IsSource(f) && n in Contents(fs, f) && IsLong(n)
    ensures var r := FilingPass(fs, videos, audio, texts).fs;
      n !in Contents(r, f) && n in Contents(r, Final(Stem(n)))
  {
    FilingPassCorrect(fs, videos, audio, texts);
    var r := FilingPass(fs, videos, audio, texts).fs;
    assert n in SourceNames(fs);
    assert PassExpected(fs, r);
  }

  /** A folder that is neither a source nor a stem folder is not touched by a completed pass. */
  lemma FilingPassKeepsFolder(fs: FileSystem, videos: seq<string>, audio: seq<string>, texts: seq<string>, f: Folder)
    requires ListsSources(fs, videos, audio, texts)
    requires FilingPass(fs, videos, audio, texts).Filed?
    requires !f.Final? && !IsSource(f)
    ensures Contents(FilingPass(fs, videos, audio, texts).fs, f) == Contents(fs, f)
  {
    FilingPassCorrect(fs, videos, audio, texts);
  }

  /**
    Filing again after a completed pass changes nothing: the source
    folders hold only short names, so every item is skipped.
   */
  lemma FilingPassIdempotent(fs: FileSystem, videos: seq<string>, audio: seq<string>, texts: seq<string>,
                             videos': seq<string>, audio': seq<string>, texts': seq<string>)
    requires ListsSources(fs, videos, audio, texts)
    requires FilingPass(fs, videos, audio, texts).Filed?
    requires ListsSources(FilingPass(fs, videos, audio, texts).fs, videos', audio', texts')
    ensures var r := FilingPass(fs, videos, audio, texts).fs;
      FilingPass(r, videos', audio', texts') == Filed(r)
  {
    var r := FilingPass(fs, videos, audio, texts).fs;
    FilingPassCorrect(fs, videos, audio, texts);
    PassWorkFacts(r, videos', audio', texts');
    FileAllShortNames(r, PassWork(videos', audio', texts'));
  }
}
