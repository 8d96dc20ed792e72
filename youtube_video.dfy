/** YouTubeVideo (pyconverter/main.py:19-77): resolving a requested quality
    into a single progressive download or a video+audio download combined
    through a temporary directory, with the effects recorded as a trace.

    The functions give the observable behaviour (trace and outcome) of each
    method; the class and its methods follow the source step by step and are
    proved to produce exactly that behaviour. */
module Downloader {
  import opened Streams
  import opened Effects

  /** The fixed names of the two transient files of the two-stream path. */
  const VideoFile: string := "video.mp4"
  const AudioFile: string := "audio.mp4"

  /** The three checks of __init__, in order, each of which raises
      ValueError. A request that passes names a tier of the ladder, so its
      hierarchy exists and starts at that tier. */
  predicate ValidInput(link: string, quality: string, outputPath: string, env: Platform): (ok: bool)
    ensures ok <==> env.linkMatches(link) && env.isDirectory(outputPath) && quality in QualityList
    ensures ok ==> Hierarchy(quality)[0] == quality
  {
    if !env.linkMatches(link) then false
    else if !env.isDirectory(outputPath) then false
    else quality in QualityList
  }

  /** Behaviour of download_low_quality: the first stream of the first tier
      of `hierarchy` with a progressive mp4 stream is downloaded into
      `outputPath` under its default name; no such tier raises
      StreamDoesNotExistError. */
  function LowQuality(yt: Catalog, hierarchy: seq<string>, outputPath: string, env: Platform): Report
  {
    match FirstTier(yt.streams, hierarchy)
    case None => Report([], NoStream)
    case Some(i) =>
      var d := Download(ProgressiveMp4(yt.streams, hierarchy[i])[0], outputPath, None);
      Report([d], if d in env.failing then OtherError else Success)
  }

  /** Behaviour of the body of the `with` block of download_high_quality,
      once the temporary directory exists: the first exception ends it. */
  function TwoStreamBody(yt: Catalog, video: Stream, outputPath: string, env: Platform): Report
  {
    var tmp := env.tempDir;
    var dv := Download(video, tmp, Some(VideoFile));
    if dv in env.failing then Report([dv], OtherError)
    else match yt.audioOnly
      // get_audio_only() returned None: calling download on it raises
      case None => Report([dv], OtherError)
      case Some(a) =>
        var da := Download(a, tmp, Some(AudioFile));
        if da in env.failing then Report([dv, da], OtherError)
        else
          var c := Combine(Join(tmp, VideoFile), Join(tmp, AudioFile), Join(outputPath, video.defaultFilename));
          Report([dv, da, c], if c in env.failing then OtherError else Success)
  }

  /** Behaviour of download_high_quality. Without a top-tier stream it is the low-quality search over the unchanged hierarchy;
      otherwise the body runs inside the temporary directory's scope, which
      is removed on leaving it however the body ends. */
  function HighQuality(yt: Catalog, hierarchy: seq<string>, outputPath: string, env: Platform): Report
  {
    var videos := AtResolution(yt.streams, TopQuality);
    if videos == [] then LowQuality(yt, hierarchy, outputPath, env)
    else
      var mk := MkTemp(env.tempDir);
      if mk in env.failing then Report([mk], OtherError)
      else
        var body := TwoStreamBody(yt, videos[0], outputPath, env);
        Report([mk] + body.trace + [RmTemp(env.tempDir)], body.outcome)
  }

  /** Behaviour of download. */
  function DownloadSpec(quality: string, hierarchy: seq<string>, yt: Catalog, outputPath: string, env: Platform): Report
  {
    if quality != TopQuality then LowQuality(yt, hierarchy, outputPath, env)
    else HighQuality(yt, hierarchy, outputPath, env)
  }

  /** Behaviour of `YouTubeVideo(link, quality, output_path).download()` as
      the caller sees it, with every exception sorted into an Outcome. */
  function Run(link: string, quality: string, outputPath: string, env: Platform): Report
  {
    if !ValidInput(link, quality, outputPath, env) then Report([], OtherError)
    else match env.fetch(link)
      case None => Report([OpenCatalog(link)], OtherError)
      case Some(yt) =>
        var r := DownloadSpec(quality, Hierarchy(quality), yt, outputPath, env);
        Report([OpenCatalog(link)] + r.trace, r.outcome)
  }

  class YouTubeVideo {
    var quality: string
    var outputPath: string
    var qualityHierarchy: seq<string>
    var yt: Catalog

    /** The hierarchy is the ladder from the current quality down. The
        constructor establishes it; the 1080p fallback breaks it. */
    ghost predicate Consistent()
      reads this
    {
      quality in QualityList && qualityHierarchy == Hierarchy(quality)
    }

    /** The field assignments of __init__, once its checks have passed and
        the client has produced the catalog. */
    constructor (quality: string, outputPath: string, yt: Catalog)
      requires quality in QualityList
      ensures Consistent()
      ensures this.quality == quality && this.outputPath == outputPath && this.yt == yt
    {
      this.quality := quality;
      this.outputPath := outputPath;
      this.qualityHierarchy := QualityList[IndexOf(QualityList, quality)..];
      this.yt := yt;
    }

    /** __init__: the three ValueError checks, in order, and only then the
        platform client. */
    static method Open(link: string, quality: string, outputPath: string, env: Platform)
      returns (trace: seq<Event>, video: Option<YouTubeVideo>)
      ensures trace == if ValidInput(link, quality, outputPath, env) then [OpenCatalog(link)] else []
      ensures video.Some? <==> ValidInput(link, quality, outputPath, env) && env.fetch(link).Some?
      ensures video.Some? ==> fresh(video.value) && video.value.Consistent()
      ensures video.Some? ==> video.value.quality == quality && video.value.outputPath == outputPath
      ensures video.Some? ==> video.value.yt == env.fetch(link).value
    {
      trace, video := [], None;
      if !env.linkMatches(link) {
        return;
      }
      if !env.isDirectory(outputPath) {
        return;
      }
      if quality !in QualityList {
        return;
      }
      trace := [OpenCatalog(link)];
      match env.fetch(link)
      case None =>
      case Some(yt) =>
        var v := new YouTubeVideo(quality, outputPath, yt);
        video := Some(v);
    }

    /** download_low_quality: walk the hierarchy, download the first
        progressive mp4 stream found, or report that there is none. */
    method DownloadLowQuality(env: Platform) returns (trace: seq<Event>, outcome: Outcome)
      ensures Report(trace, outcome) == LowQuality(yt, qualityHierarchy, outputPath, env)
    {
      var i := 0;
      while i < |qualityHierarchy|
        invariant i <= |qualityHierarchy|
        invariant forall j :: 0 <= j < i ==> ProgressiveMp4(yt.streams, qualityHierarchy[j]) == []
      {
        var videoStreams := ProgressiveMp4(yt.streams, qualityHierarchy[i]);
        if videoStreams != [] {
          var d := Event.Download(videoStreams[0], outputPath, None);
          trace := [d];
          outcome := if d in env.failing then OtherError else Success;
          return;
        }
        i := i + 1;
      }
      trace, outcome := [], NoStream;
    }

    /** The body of the `with` block of download_high_quality: the video
        stream, then the audio stream, into the temporary directory, then the
        combine into the output directory; the first effect that raises ends
        the body. */
    method FetchAndCombine(video: Stream, env: Platform) returns (trace: seq<Event>, outcome: Outcome)
      ensures Report(trace, outcome) == TwoStreamBody(yt, video, outputPath, env)
    {
      var tmpdir := env.tempDir;
      var videoDownload := Event.Download(video, tmpdir, Some(VideoFile));
      trace := [videoDownload];
      if videoDownload in env.failing {
        outcome := OtherError;
        return;
      }
      if yt.audioOnly.None? {
        outcome := OtherError;
        return;
      }
      var audioDownload := Event.Download(yt.audioOnly.value, tmpdir, Some(AudioFile));
      trace := trace + [audioDownload];
      if audioDownload in env.failing {
        outcome := OtherError;
        return;
      }
      var videoPath := Join(tmpdir, VideoFile);
      var audioPath := Join(tmpdir, AudioFile);
      var outPath := Join(outputPath, video.defaultFilename);
      var combine := Combine(videoPath, audioPath, outPath);
      trace := trace + [combine];
      outcome := if combine in env.failing then OtherError else Success;
    }

    /** download_high_quality. */
    method DownloadHighQuality(env: Platform) returns (trace: seq<Event>, outcome: Outcome)
      modifies this
      ensures Report(trace, outcome) == HighQuality(old(yt), old(qualityHierarchy), old(outputPath), env)
      ensures quality == if AtResolution(yt.streams, TopQuality) == [] then FallbackQuality else old(quality)
      ensures qualityHierarchy == old(qualityHierarchy) && yt == old(yt) && outputPath == old(outputPath)
      ensures old(Consistent()) && old(quality) == TopQuality && AtResolution(yt.streams, TopQuality) == [] ==> !Consistent()
    {
      var videoStreams := AtResolution(yt.streams, TopQuality);
      if videoStreams == [] {
        // The hierarchy is not recomputed: the search below still starts at 1080p.
        FallbackHierarchyShorter();
        quality := FallbackQuality;
        trace, outcome := DownloadLowQuality(env);
        return;
      }
      var tmpdir := env.tempDir;
      trace := [MkTemp(tmpdir)];
      if MkTemp(tmpdir) in env.failing {
        outcome := OtherError;
        return;
      }
      var steps;
      steps, outcome := FetchAndCombine(videoStreams[0], env);
      // Leaving the scope removes the directory on every exit.
      trace := trace + steps + [RmTemp(tmpdir)];
    }

    /** download: the two-stream path exactly when the quality is 1080p. */
    method Download(env: Platform) returns (trace: seq<Event>, outcome: Outcome)
      modifies this
      ensures Report(trace, outcome) == DownloadSpec(old(quality), old(qualityHierarchy), old(yt), old(outputPath), env)
      ensures quality == if old(quality) == TopQuality && AtResolution(yt.streams, TopQuality) == [] then FallbackQuality else old(quality)
      ensures qualityHierarchy == old(qualityHierarchy) && yt == old(yt) && outputPath == old(outputPath)
      ensures old(Consistent()) ==> (Consistent() <==> !(old(quality) == TopQuality && AtResolution(yt.streams, TopQuality) == []))
    {
      if quality != TopQuality {
        trace, outcome := DownloadLowQuality(env);
      } else {
        trace, outcome := DownloadHighQuality(env);
      }
    }
  }

  /** The try/except around `YouTubeVideo(link, quality, output_path).download()`
      in the caller: StreamDoesNotExistError and every other exception are
      told apart, nothing escapes. */
  method DownloadVideo(link: string, quality: string, outputPath: string, env: Platform)
    returns (trace: seq<Event>, outcome: Outcome)
    ensures Report(trace, outcome) == Run(link, quality, outputPath, env)
  {
    var video;
    trace, video := YouTubeVideo.Open(link, quality, outputPath, env);
    match video
    case None =>
      outcome := OtherError;
    case Some(v) =>
      var steps;
      steps, outcome := v.Download(env);
      trace := trace + steps;
  }
}
