/** The effects a download performs, recorded as a trace instead of being
    performed, the environment that decides which of them fail, and the
    outcome the caller of YouTubeVideo sees (pyconverter/main.py). */
module Effects {
  import opened Streams

  /** One attempted side effect. An attempt that raises is still recorded. */
  datatype Event =
    | OpenCatalog(link: string)                                  // YouTube(link)
    | Download(stream: Stream, dir: string, filename: Option<string>)  // stream.download(dir[, filename])
    | MkTemp(dir: string)                                        // entering TemporaryDirectory()
    | Combine(video: string, audio: string, out: string)         // combine_video_and_audio
    | RmTemp(dir: string)                                        // leaving TemporaryDirectory()

  /** How one download ends for the caller: StreamDoesNotExistError is
      NoStream, any other exception (ValueError included) is OtherError. */
  datatype Outcome = Success | NoStream | OtherError

  /** Everything outside the downloader: the link regex and the directory
      check as uninterpreted predicates, the platform client (None when
      YouTube(link) raises), the name the temporary directory gets, and the
      effects that raise when attempted. */
  datatype Platform = Platform(
    linkMatches: string -> bool,
    isDirectory: string -> bool,
    fetch: string -> Option<Catalog>,
    tempDir: string,
    failing: set<Event>)

  /** The trace of a run together with its outcome. */
  datatype Report = Report(trace: seq<Event>, outcome: Outcome)

  /** os.path.join(a, b) on POSIX: an absolute `b` replaces `a`; otherwise a
      separator is inserted unless `a` is empty or already ends with one. */
  function Join(a: string, b: string): (p: string)
    ensures |p| >= |b| && p[|p| - |b|..] == b
    ensures |b| > 0 && b[0] == '/' ==> p == b
    ensures !(|b| > 0 && b[0] == '/') ==> |a| + |b| <= |p| <= |a| + 1 + |b| && p[..|a|] == a
    ensures !(|b| > 0 && b[0] == '/') ==> (|p| == |a| + |b| + 1 <==> a != [] && a[|a| - 1] != '/')
    ensures |p| == |a| + |b| + 1 ==> p[|a|] == '/'
  {
    if |b| > 0 && b[0] == '/' then b
    else if a == [] || a[|a| - 1] == '/' then a + b
    else a + "/" + b
  }
}
