/** Worked catalogs for the downloader (pyconverter/main.py:44-71). */
module Scenarios {
  import opened Streams
  import opened Effects
  import opened Downloader

  /** Requesting 720p from a catalog whose progressive mp4 streams are at
      480p and 360p downloads the 480p one, the first match going down. */
  lemma MediumRequestTakes480(out: string, env: Platform)
    ensures var s480 := Stream("480p", true, "mp4", "a.mp4");
      var s360 := Stream("360p", true, "mp4", "b.mp4");
      DownloadSpec("720p", Hierarchy("720p"), Catalog([s360, s480], None), out, env).trace
        == [Download(s480, out, None)]
  {
    var s480 := Stream("480p", true, "mp4", "a.mp4");
    var s360 := Stream("360p", true, "mp4", "b.mp4");
    var streams := [s360, s480];
    IndexOfQualityList(1);
    var h := Hierarchy("720p");
    assert h[0] == "720p" && h[1] == "480p";
    assert streams[1..] == [s480] && [s480][1..] == [];
    assert Filter([s480], (s: Stream) => s.progressive && s.fileExtension == "mp4" && s.res == "720p") == [];
    assert ProgressiveMp4(streams, "720p") == [];
    assert Filter([s480], (s: Stream) => s.progressive && s.fileExtension == "mp4" && s.res == "480p") == [s480];
    assert ProgressiveMp4(streams, "480p") == [s480];
    assert FirstTier(streams, h[1..]) == Some(0);
    assert FirstTier(streams, h) == Some(1);
  }

  /** Requesting 1080p from a catalog with a separate 1080p video stream and
      an audio stream: both go into the temporary directory, are combined
      into the output directory under the video's default name, and the
      directory is removed last; a failing combine leaves the same trace. */
  lemma TopRequestCombines(out: string, env: Platform)
    requires var v := Stream("1080p", false, "mp4", "clip.mp4");
      var a := Stream("", false, "mp4", "clip.mp4");
      && MkTemp(env.tempDir) !in env.failing
      && Download(v, env.tempDir, Some(VideoFile)) !in env.failing
      && Download(a, env.tempDir, Some(AudioFile)) !in env.failing
    ensures var v := Stream("1080p", false, "mp4", "clip.mp4");
      var a := Stream("", false, "mp4", "clip.mp4");
      var tmp := env.tempDir;
      var mux := Combine(Join(tmp, VideoFile), Join(tmp, AudioFile), Join(out, "clip.mp4"));
      var r := DownloadSpec("1080p", Hierarchy("1080p"), Catalog([v, a], Some(a)), out, env);
      && r.trace == [MkTemp(tmp), Download(v, tmp, Some(VideoFile)), Download(a, tmp, Some(AudioFile)), mux, RmTemp(tmp)]
      && (r.outcome == Success <==> mux !in env.failing)
  {
    var v := Stream("1080p", false, "mp4", "clip.mp4");
    var a := Stream("", false, "mp4", "clip.mp4");
    assert [v, a][1..] == [a] && [a][1..] == [];
    assert Filter([a], (s: Stream) => s.res == TopQuality) == [];
    assert AtResolution([v, a], TopQuality) == [v];
  }
}
