/** What YouTubeVideo promises, stated over the behaviour functions of
    module Downloader (pyconverter/main.py:19-77) and the caller's
    exception split (pyconverter/main.py:245-262). */
module Properties {
  import opened Streams
  import opened Effects
  import opened Downloader

  /** Dropping the requested tier from its hierarchy leaves the hierarchy of
      the next tier down. */
  lemma HierarchyTail(k: nat)
    requires k + 1 < |QualityList|
    ensures Hierarchy(QualityList[k])[1..] == Hierarchy(QualityList[k + 1])
  {
    IndexOfQualityList(k);
    IndexOfQualityList(k + 1);
  }

  /** download_low_quality either finds nothing, raising with no effect, or
      makes exactly one download into the output directory: the first stream
      of the first tier of the hierarchy that has a progressive mp4 stream. */
  lemma LowQualityChoosesFirstTier(yt: Catalog, h: seq<string>, out: string, env: Platform)
    ensures var r := LowQuality(yt, h, out, env);
      r.outcome == NoStream <==> forall j :: 0 <= j < |h| ==> ProgressiveMp4(yt.streams, h[j]) == []
    ensures var r := LowQuality(yt, h, out, env);
      r.outcome == NoStream ==> r.trace == []
    ensures var r := LowQuality(yt, h, out, env);
      r.outcome != NoStream ==>
        exists i :: 0 <= i < |h| && ProgressiveMp4(yt.streams, h[i]) != []
          && (forall j :: 0 <= j < i ==> ProgressiveMp4(yt.streams, h[j]) == [])
          && r.trace == [Download(ProgressiveMp4(yt.streams, h[i])[0], out, None)]
    ensures var r := LowQuality(yt, h, out, env);
      r.outcome != NoStream ==>
        var s := r.trace[0].stream;
        s in yt.streams && s.progressive && s.fileExtension == "mp4" && s.res in h
    ensures var r := LowQuality(yt, h, out, env);
      r.outcome == Success <==> r.outcome != NoStream && r.trace[0] !in env.failing
  {
    match FirstTier(yt.streams, h)
    case None =>
    case Some(i) =>
      var s := ProgressiveMp4(yt.streams, h[i])[0];
      assert s in ProgressiveMp4(yt.streams, h[i]);
  }

  /** The stream downloaded is `.first()` of its tier: no progressive mp4
      stream of that resolution comes before it in the catalog. */
  lemma LowQualityTakesFirstOfTier(yt: Catalog, h: seq<string>, out: string, env: Platform)
    ensures var r := LowQuality(yt, h, out, env);
      r.outcome != NoStream ==>
        r.trace != [] &&
        var s := r.trace[0].stream;
        forall k ::
          0 <= k < |yt.streams| && yt.streams[k].progressive && yt.streams[k].fileExtension == "mp4" && yt.streams[k].res == s.res ==>
            s in yt.streams[..k + 1]
  {
    match FirstTier(yt.streams, h)
    case None =>
    case Some(i) =>
      var s := ProgressiveMp4(yt.streams, h[i])[0];
      assert s in ProgressiveMp4(yt.streams, h[i]);
      ProgressiveHeadIsFirst(yt.streams, h[i]);
  }

  /** The first-tier search over a suffix `ladder[n..]`, read as positions
      of the whole ladder. */
  lemma {:induction false} FirstTierOfSuffix(streams: seq<Stream>, ladder: seq<string>, n: nat)
    requires n <= |ladder|
    ensures FirstTier(streams, ladder[n..]).None? <==>
      forall k :: n <= k < |ladder| ==> ProgressiveMp4(streams, ladder[k]) == []
    ensures var r := FirstTier(streams, ladder[n..]);
      r.Some? ==> && n + r.value < |ladder|
                  && ProgressiveMp4(streams, ladder[n + r.value]) != []
                  && forall k :: n <= k < n + r.value ==> ProgressiveMp4(streams, ladder[k]) == []
  {
    var h := ladder[n..];
    assert forall k :: n <= k < |ladder| ==> ladder[k] == h[k - n];
  }

  /** Over the hierarchy of a requested quality, the downloaded stream is of
      the best tier that is not better than the request and has a
      progressive mp4 stream; with none in that range nothing is fetched. */
  lemma LowQualityHighestTier(yt: Catalog, q: string, out: string, env: Platform)
    requires q in QualityList
    ensures var r := LowQuality(yt, Hierarchy(q), out, env);
      r.outcome == NoStream <==>
        forall k :: IndexOf(QualityList, q) <= k < |QualityList| ==> ProgressiveMp4(yt.streams, QualityList[k]) == []
    ensures var r := LowQuality(yt, Hierarchy(q), out, env);
      r.outcome != NoStream ==>
        var s := r.trace[0].stream;
        && s.res in QualityList
        && IndexOf(QualityList, q) <= IndexOf(QualityList, s.res)
        && ProgressiveMp4(yt.streams, s.res) != [] && s == ProgressiveMp4(yt.streams, s.res)[0]
        && forall k :: IndexOf(QualityList, q) <= k < IndexOf(QualityList, s.res) ==>
             ProgressiveMp4(yt.streams, QualityList[k]) == []
  {
    var n := IndexOf(QualityList, q);
    var h := Hierarchy(q);
    assert h == QualityList[n..];
    FirstTierOfSuffix(yt.streams, QualityList, n);
    assert LowQuality(yt, h, out, env).outcome == NoStream <==> FirstTier(yt.streams, h).None?;
    if FirstTier(yt.streams, h).Some? {
      HighestTierChosen(yt, q, out, env);
    }
  }

  /** The stream the search over a requested quality's hierarchy downloads,
      read as a position of the whole ladder. */
  lemma HighestTierChosen(yt: Catalog, q: string, out: string, env: Platform)
    requires q in QualityList
    requires FirstTier(yt.streams, Hierarchy(q)).Some?
    ensures var n, i := IndexOf(QualityList, q), FirstTier(yt.streams, Hierarchy(q)).value;
      var s := ProgressiveMp4(yt.streams, QualityList[n + i])[0];
      && n + i < |QualityList|
      && LowQuality(yt, Hierarchy(q), out, env).trace == [Download(s, out, None)]
      && s.res == QualityList[n + i]
      && IndexOf(QualityList, s.res) == n + i
      && forall k :: n <= k < n + i ==> ProgressiveMp4(yt.streams, QualityList[k]) == []
  {
    var n := IndexOf(QualityList, q);
    var h := Hierarchy(q);
    assert h == QualityList[n..];
    FirstTierOfSuffix(yt.streams, QualityList, n);
    var i := FirstTier(yt.streams, h).value;
    var tier := QualityList[n + i];
    assert h[i] == tier;
    var s := ProgressiveMp4(yt.streams, tier)[0];
    assert s in ProgressiveMp4(yt.streams, tier);
    IndexOfQualityList(n + i);
  }

  /** download picks the two-stream path, the only one that creates a
      temporary directory, exactly when the quality is 1080p and a
      1080p stream exists; otherwise its behaviour is the
      low-quality search over the hierarchy as it stands. */
  lemma DownloadPaths(quality: string, h: seq<string>, yt: Catalog, out: string, env: Platform)
    ensures var r := DownloadSpec(quality, h, yt, out, env);
      (exists e :: e in r.trace && e.MkTemp?) <==> quality == TopQuality && AtResolution(yt.streams, TopQuality) != []
    ensures quality != TopQuality || AtResolution(yt.streams, TopQuality) == [] ==>
      DownloadSpec(quality, h, yt, out, env) == LowQuality(yt, h, out, env)
  {
    var r := DownloadSpec(quality, h, yt, out, env);
    if quality == TopQuality && AtResolution(yt.streams, TopQuality) != [] {
      assert r.trace[0] == MkTemp(env.tempDir);
    } else {
      LowQualityChoosesFirstTier(yt, h, out, env);
    }
  }

  /** The fallback as written: the search restarts at 1080p, not at 720p.
      The fallback is taken only when the catalog has no 1080p stream at
      all, so the 1080p tier is passed over and the result is that of a
      720p request. */
  lemma FallbackMatchesNextTier(yt: Catalog, out: string, env: Platform)
    requires AtResolution(yt.streams, TopQuality) == []
    ensures DownloadSpec(TopQuality, Hierarchy(TopQuality), yt, out, env)
         == DownloadSpec(FallbackQuality, Hierarchy(FallbackQuality), yt, out, env)
  {
    HierarchyTail(0);
    ProgressiveIsAtResolution(yt.streams, TopQuality);
    var h := Hierarchy(TopQuality);
    assert DownloadSpec(TopQuality, h, yt, out, env) == LowQuality(yt, h, out, env);
    LowQualitySkipsEmptyTier(yt, h, out, env);
  }

  /** A top tier without a progressive mp4 stream is passed over. */
  lemma LowQualitySkipsEmptyTier(yt: Catalog, h: seq<string>, out: string, env: Platform)
    requires h != [] && ProgressiveMp4(yt.streams, h[0]) == []
    ensures LowQuality(yt, h, out, env) == LowQuality(yt, h[1..], out, env)
  {
    match FirstTier(yt.streams, h[1..])
    case None =>
    case Some(i) =>
      assert h[i + 1] == h[1..][i];
  }

  /** The two-stream query keeps progressive streams too: a catalog whose
      only 1080p stream is progressive, with no audio-only stream, takes the
      two-stream path, transfers that stream into the temporary directory
      and fails on the missing audio stream, where a 720p request downloads
      its 720p stream. */
  lemma ProgressiveTopTakesTwoStreamPath(out: string, env: Platform)
    requires MkTemp(env.tempDir) !in env.failing
    ensures var top := Stream(TopQuality, true, "mp4", "top.mp4");
      var next := Stream(FallbackQuality, true, "mp4", "next.mp4");
      var yt := Catalog([top, next], None);
      var tmp := env.tempDir;
      && AtResolution(yt.streams, TopQuality) == [top]
      && DownloadSpec(TopQuality, Hierarchy(TopQuality), yt, out, env)
         == Report([MkTemp(tmp), Download(top, tmp, Some(VideoFile)), RmTemp(tmp)], OtherError)
      && DownloadSpec(FallbackQuality, Hierarchy(FallbackQuality), yt, out, env).trace == [Download(next, out, None)]
  {
    var top := Stream(TopQuality, true, "mp4", "top.mp4");
    var next := Stream(FallbackQuality, true, "mp4", "next.mp4");
    var yt := Catalog([top, next], None);
    IndexOfQualityList(1);
    assert TopQuality != FallbackQuality;
    assert yt.streams[1..] == [next] && [next][1..] == [];
    assert Filter([next], (s: Stream) => s.res == TopQuality) == [];
    assert AtResolution(yt.streams, TopQuality) == [top];
    assert Filter([top, next], (s: Stream) => s.progressive && s.fileExtension == "mp4" && s.res == FallbackQuality) == [next];
    assert ProgressiveMp4(yt.streams, FallbackQuality) == [next];
  }

  /** Inside the `with` block: the video download, then the audio download,
      then the combine, the first one that raises ending the block; only
      transfers into the directory and the combine happen, and the block
      never reports NoStream. */
  lemma TwoStreamBodyOrder(yt: Catalog, v: Stream, out: string, env: Platform)
    ensures var b := TwoStreamBody(yt, v, out, env).trace; var tmp := env.tempDir;
      && 1 <= |b| <= 3
      && b[0] == Download(v, tmp, Some(VideoFile))
      && (|b| >= 2 ==> yt.audioOnly.Some? && b[1] == Download(yt.audioOnly.value, tmp, Some(AudioFile)))
      && (|b| == 3 ==> b[2] == Combine(Join(tmp, VideoFile), Join(tmp, AudioFile), Join(out, v.defaultFilename)))
    ensures var b := TwoStreamBody(yt, v, out, env).trace;
      forall e :: e in b ==> e.Combine? || (e.Download? && e.dir == env.tempDir)
    ensures var r := TwoStreamBody(yt, v, out, env);
      && r.outcome != NoStream
      && (r.outcome == Success <==> |r.trace| == 3 && r.trace[2] !in env.failing)
  {
  }

  /** The video stream of the two-stream path is `.first()` of the 1080p
      query: a 1080p catalog stream, and the earliest one. */
  lemma TwoStreamVideoChoice(yt: Catalog)
    requires AtResolution(yt.streams, TopQuality) != []
    ensures var v := AtResolution(yt.streams, TopQuality)[0];
      && v in yt.streams && v.res == TopQuality
      && forall k :: 0 <= k < |yt.streams| && yt.streams[k].res == TopQuality ==> v in yt.streams[..k + 1]
  {
    assert AtResolution(yt.streams, TopQuality)[0] in AtResolution(yt.streams, TopQuality);
    AtResolutionHeadIsFirst(yt.streams, TopQuality);
  }

  /** The two-stream path, once the temporary directory exists: the video
      stream first, then the audio stream, both into the directory under
      fixed names, then the combine into the output directory under the
      video stream's default name, and the removal last. */
  lemma TwoStreamOrder(yt: Catalog, h: seq<string>, out: string, env: Platform)
    requires AtResolution(yt.streams, TopQuality) != []
    requires MkTemp(env.tempDir) !in env.failing
    ensures var r := HighQuality(yt, h, out, env); var tmp := env.tempDir;
      && 3 <= |r.trace| <= 5
      && r.trace[0] == MkTemp(tmp)
      && r.trace[1] == Download(AtResolution(yt.streams, TopQuality)[0], tmp, Some(VideoFile))
      && r.trace[|r.trace| - 1] == RmTemp(tmp)
    ensures var r := HighQuality(yt, h, out, env); var tmp := env.tempDir;
      |r.trace| >= 4 ==> yt.audioOnly.Some? && r.trace[2] == Download(yt.audioOnly.value, tmp, Some(AudioFile))
    ensures var r := HighQuality(yt, h, out, env); var tmp := env.tempDir;
      var v := AtResolution(yt.streams, TopQuality)[0];
      |r.trace| == 5 ==> r.trace[3] == Combine(Join(tmp, VideoFile), Join(tmp, AudioFile), Join(out, v.defaultFilename))
    ensures var r := HighQuality(yt, h, out, env);
      r.outcome == Success <==> |r.trace| == 5 && r.trace[3] !in env.failing
    ensures var r := HighQuality(yt, h, out, env);
      forall e :: e in r.trace && e.Download? ==> e.dir == env.tempDir
  {
    var tmp := env.tempDir;
    var v := AtResolution(yt.streams, TopQuality)[0];
    var body := TwoStreamBody(yt, v, out, env);
    TwoStreamBodyOrder(yt, v, out, env);
    assert HighQuality(yt, h, out, env) == Report([MkTemp(tmp)] + body.trace + [RmTemp(tmp)], body.outcome);
    var t := [MkTemp(tmp)] + body.trace + [RmTemp(tmp)];
    assert t[1] == body.trace[0];
    assert |body.trace| >= 2 ==> t[2] == body.trace[1];
    assert |body.trace| == 3 ==> t[3] == body.trace[2];
    assert forall e :: e in t ==> e == MkTemp(tmp) || e == RmTemp(tmp) || e in body.trace;
  }

  /** The two transient files never overwrite each other. */
  lemma TransientFilesDistinct(tmp: string)
    ensures Join(tmp, VideoFile) != Join(tmp, AudioFile)
  {
    var v, a := Join(tmp, VideoFile), Join(tmp, AudioFile);
    assert v[|v| - 9..] == VideoFile;
    assert a[|a| - 9..] == AudioFile;
    assert v[|v| - 9] != a[|a| - 9];
  }

  /** The guarantee of the `with` scope, read off a trace: at most the one
      temporary directory is created; it is removed exactly when its
      creation succeeded, as the last effect, and never before. */
  ghost predicate ScopedTemp(t: seq<Event>, env: Platform)
  {
    && (forall e :: e in t && e.MkTemp? ==> e == MkTemp(env.tempDir))
    && (forall i, j :: 0 <= i < j < |t| && t[i].MkTemp? ==> !t[j].MkTemp?)
    && ((MkTemp(env.tempDir) in t && MkTemp(env.tempDir) !in env.failing)
        <==> (t != [] && t[|t| - 1] == RmTemp(env.tempDir)))
    && (forall j :: 0 <= j < |t| - 1 ==> !t[j].RmTemp?)
  }

  /** A successfully created scope around transfers and combines is cleaned
      up by the scope's exit. */
  lemma ScopeAroundBody(b: seq<Event>, env: Platform)
    requires MkTemp(env.tempDir) !in env.failing
    requires forall e :: e in b ==> e.Download? || e.Combine?
    ensures ScopedTemp([MkTemp(env.tempDir)] + b + [RmTemp(env.tempDir)], env)
  {
    var t := [MkTemp(env.tempDir)] + b + [RmTemp(env.tempDir)];
    assert forall j :: 1 <= j < |t| - 1 ==> t[j] == b[j - 1] && b[j - 1] in b;
  }

  /** Contacting the platform first keeps the guarantee. */
  lemma ScopeAfterOpen(link: string, t: seq<Event>, env: Platform)
    requires ScopedTemp(t, env)
    ensures ScopedTemp([OpenCatalog(link)] + t, env)
  {
    var u := [OpenCatalog(link)] + t;
    assert forall j :: 1 <= j < |u| ==> u[j] == t[j - 1];
  }

  /** The `with` scope within one download call. */
  lemma DownloadCleanup(quality: string, h: seq<string>, yt: Catalog, out: string, env: Platform)
    ensures ScopedTemp(DownloadSpec(quality, h, yt, out, env).trace, env)
  {
    var t := DownloadSpec(quality, h, yt, out, env).trace;
    var tmp := env.tempDir;
    if quality == TopQuality && AtResolution(yt.streams, TopQuality) != [] {
      var v := AtResolution(yt.streams, TopQuality)[0];
      if MkTemp(tmp) !in env.failing {
        TwoStreamBodyOrder(yt, v, out, env);
        ScopeAroundBody(TwoStreamBody(yt, v, out, env).trace, env);
      } else {
        assert t == [MkTemp(tmp)];
      }
    } else {
      DownloadPaths(quality, h, yt, out, env);
      LowQualityChoosesFirstTier(yt, h, out, env);
      assert |t| <= 1 && forall e :: e in t ==> e.Download?;
    }
  }

  /** The `with` scope over a whole run, whatever way it ends. */
  lemma WorkspaceAlwaysRemoved(link: string, quality: string, out: string, env: Platform)
    ensures ScopedTemp(Run(link, quality, out, env).trace, env)
  {
    if ValidInput(link, quality, out, env) && env.fetch(link).Some? {
      var yt := env.fetch(link).value;
      var h := Hierarchy(quality);
      var steps := DownloadSpec(quality, h, yt, out, env).trace;
      assert Run(link, quality, out, env).trace == [OpenCatalog(link)] + steps;
      DownloadCleanup(quality, h, yt, out, env);
      ScopeAfterOpen(link, steps, env);
    }
  }

  /** Validation comes first: when a check of __init__ fails nothing at all
      happens, and otherwise the platform is contacted before anything else. */
  lemma ValidationPrecedesPlatform(link: string, quality: string, out: string, env: Platform)
    ensures !ValidInput(link, quality, out, env) ==> Run(link, quality, out, env) == Report([], OtherError)
    ensures ValidInput(link, quality, out, env) ==> Run(link, quality, out, env).trace[0] == OpenCatalog(link)
    ensures !env.linkMatches(link) ==> Run(link, quality, out, env).trace == []
  {
  }

  /** For one download call: NoStream exactly when the search ran and found
      nothing on its ladder, and then nothing at all was done. */
  lemma DownloadNoStream(quality: string, yt: Catalog, out: string, env: Platform)
    requires quality in QualityList
    ensures var r := DownloadSpec(quality, Hierarchy(quality), yt, out, env);
      r.outcome == NoStream <==>
        && (quality == TopQuality ==> AtResolution(yt.streams, TopQuality) == [])
        && forall k :: IndexOf(QualityList, quality) <= k < |QualityList| ==>
             ProgressiveMp4(yt.streams, QualityList[k]) == []
    ensures var r := DownloadSpec(quality, Hierarchy(quality), yt, out, env);
      r.outcome == NoStream ==> r.trace == []
  {
    var h := Hierarchy(quality);
    if quality == TopQuality && AtResolution(yt.streams, TopQuality) != [] {
      TwoStreamBodyOrder(yt, AtResolution(yt.streams, TopQuality)[0], out, env);
      assert DownloadSpec(quality, h, yt, out, env).outcome != NoStream;
    } else {
      DownloadPaths(quality, h, yt, out, env);
      LowQualityHighestTier(yt, quality, out, env);
      LowQualityChoosesFirstTier(yt, h, out, env);
    }
  }

  /** For a whole run: NoStream exactly when validation and the platform
      succeeded and the search found nothing; nothing but the contact with
      the platform happened. */
  lemma NoStreamMeansNothingFetched(link: string, quality: string, out: string, env: Platform)
    ensures var r := Run(link, quality, out, env);
      r.outcome == NoStream <==>
        && ValidInput(link, quality, out, env)
        && env.fetch(link).Some?
        && (quality == TopQuality ==> AtResolution(env.fetch(link).value.streams, TopQuality) == [])
        && forall k :: IndexOf(QualityList, quality) <= k < |QualityList| ==>
             ProgressiveMp4(env.fetch(link).value.streams, QualityList[k]) == []
    ensures var r := Run(link, quality, out, env);
      r.outcome == NoStream ==> r.trace == [OpenCatalog(link)]
  {
    if ValidInput(link, quality, out, env) && env.fetch(link).Some? {
      var yt := env.fetch(link).value;
      var r := DownloadSpec(quality, Hierarchy(quality), yt, out, env);
      assert Run(link, quality, out, env) == Report([OpenCatalog(link)] + r.trace, r.outcome);
      DownloadNoStream(quality, yt, out, env);
      assert r.outcome == NoStream ==> [OpenCatalog(link)] + r.trace == [OpenCatalog(link)];
    } else {
      assert Run(link, quality, out, env).outcome == OtherError;
    }
  }

  /** The two traces a successful download call can leave: a single
      download of a progressive mp4 stream of the hierarchy into the output
      directory under its default name, or the two-stream sequence whose
      only write outside the temporary directory is the combined file. */
  ghost predicate SuccessTrace(t: seq<Event>, quality: string, h: seq<string>, yt: Catalog, out: string, env: Platform)
  {
    || (&& |t| == 1 && t[0].Download? && t[0].dir == out && t[0].filename.None?
        && var s := t[0].stream;
           s in yt.streams && s.progressive && s.fileExtension == "mp4" && s.res in h)
    || (&& quality == TopQuality && AtResolution(yt.streams, TopQuality) != [] && yt.audioOnly.Some?
        && var v, tmp := AtResolution(yt.streams, TopQuality)[0], env.tempDir;
           t == [MkTemp(tmp), Download(v, tmp, Some(VideoFile)),
                 Download(yt.audioOnly.value, tmp, Some(AudioFile)),
                 Combine(Join(tmp, VideoFile), Join(tmp, AudioFile), Join(out, v.defaultFilename)),
                 RmTemp(tmp)])
  }

  /** A successful two-stream download: the directory, both transfers, the
      combine and the removal, in that order and nothing else. */
  lemma TwoStreamSuccessTrace(yt: Catalog, h: seq<string>, out: string, env: Platform)
    requires AtResolution(yt.streams, TopQuality) != []
    requires HighQuality(yt, h, out, env).outcome == Success
    ensures yt.audioOnly.Some?
    ensures var v, tmp := AtResolution(yt.streams, TopQuality)[0], env.tempDir;
      HighQuality(yt, h, out, env).trace ==
        [MkTemp(tmp), Download(v, tmp, Some(VideoFile)),
         Download(yt.audioOnly.value, tmp, Some(AudioFile)),
         Combine(Join(tmp, VideoFile), Join(tmp, AudioFile), Join(out, v.defaultFilename)),
         RmTemp(tmp)]
  {
    var tmp := env.tempDir;
    var v := AtResolution(yt.streams, TopQuality)[0];
    var body := TwoStreamBody(yt, v, out, env);
    assert MkTemp(tmp) !in env.failing;
    assert HighQuality(yt, h, out, env) == Report([MkTemp(tmp)] + body.trace + [RmTemp(tmp)], body.outcome);
    assert Download(v, tmp, Some(VideoFile)) !in env.failing && yt.audioOnly.Some?;
    assert Download(yt.audioOnly.value, tmp, Some(AudioFile)) !in env.failing;
    assert body.trace == [Download(v, tmp, Some(VideoFile)),
                          Download(yt.audioOnly.value, tmp, Some(AudioFile)),
                          Combine(Join(tmp, VideoFile), Join(tmp, AudioFile), Join(out, v.defaultFilename))];
  }

  /** Every successful download call leaves one of those two traces. */
  lemma DownloadSuccessTraces(quality: string, h: seq<string>, yt: Catalog, out: string, env: Platform)
    requires DownloadSpec(quality, h, yt, out, env).outcome == Success
    ensures SuccessTrace(DownloadSpec(quality, h, yt, out, env).trace, quality, h, yt, out, env)
  {
    if quality == TopQuality && AtResolution(yt.streams, TopQuality) != [] {
      assert DownloadSpec(quality, h, yt, out, env) == HighQuality(yt, h, out, env);
      TwoStreamSuccessTrace(yt, h, out, env);
    } else {
      assert DownloadSpec(quality, h, yt, out, env) == LowQuality(yt, h, out, env);
      LowQualityChoosesFirstTier(yt, h, out, env);
    }
  }

  /** A successful run passed validation, reached the platform first and then
      left one of the two successful download traces over the hierarchy of
      the requested quality. */
  lemma SuccessfulRunTraces(link: string, quality: string, out: string, env: Platform)
    requires Run(link, quality, out, env).outcome == Success
    ensures ValidInput(link, quality, out, env) && env.fetch(link).Some?
    ensures var t := Run(link, quality, out, env).trace;
      t != [] && t[0] == OpenCatalog(link)
      && SuccessTrace(t[1..], quality, Hierarchy(quality), env.fetch(link).value, out, env)
  {
    var yt := env.fetch(link).value;
    var h := Hierarchy(quality);
    var r := DownloadSpec(quality, h, yt, out, env);
    assert Run(link, quality, out, env) == Report([OpenCatalog(link)] + r.trace, r.outcome);
    DownloadSuccessTraces(quality, h, yt, out, env);
    assert ([OpenCatalog(link)] + r.trace)[1..] == r.trace;
  }
}
