/** The platform's stream catalog as data, the fixed quality ladder of
    YouTubeVideo, and the search over that ladder (pyconverter/main.py). */
module Streams {

  datatype Option<+T> = None | Some(value: T)

  /** One entry of the catalog, reduced to the attributes the downloader reads:
      the resolution label (empty for audio), whether the stream carries both
      audio and video, its container and the file name the client would give it. */
  datatype Stream = Stream(res: string, progressive: bool, fileExtension: string, defaultFilename: string)

  /** What the platform client offers for one video: its streams in catalog
      order, and the stream its audio-only selector picks (None when it finds none). */
  datatype Catalog = Catalog(streams: seq<Stream>, audioOnly: Option<Stream>)

  /** The quality ladder, best first. */
  const QualityList: seq<string> := ["1080p", "720p", "480p", "360p", "240p", "144p"]

  /** The one tier that is fetched as separate video and audio streams. */
  const TopQuality: string := "1080p"

  /** The quality the two-stream path falls back to. */
  const FallbackQuality: string := "720p"

  /** Position of the first occurrence of `x` in `s` (Python's list.index). */
  function IndexOf(s: seq<string>, x: string): (i: nat)
    requires x in s
    ensures i < |s| && s[i] == x
    ensures forall j :: 0 <= j < i ==> s[j] != x
  {
    if s[0] == x then 0 else 1 + IndexOf(s[1..], x)
  }

  /** The ladder the low-quality search walks: QualityList from `quality` down. */
  function Hierarchy(quality: string): (h: seq<string>)
    requires quality in QualityList
    ensures |h| == |QualityList| - IndexOf(QualityList, quality)
    ensures h[0] == quality && h[|h| - 1] == "144p"
    ensures QualityList[|QualityList| - |h|..] == h
  {
    QualityList[IndexOf(QualityList, quality)..]
  }

  /** The ladder holds six distinct tiers. */
  lemma QualityListDistinct()
    ensures |QualityList| == 6
    ensures forall i, j :: 0 <= i < j < |QualityList| ==> QualityList[i] != QualityList[j]
  {
  }

  /** The tier index of a ladder entry is its position in the ladder. */
  lemma IndexOfQualityList(k: nat)
    requires k < |QualityList|
    ensures IndexOf(QualityList, QualityList[k]) == k
  {
    QualityListDistinct();
  }

  /** The hierarchy of the fallback quality is one tier shorter than that
      of the top quality. */
  lemma FallbackHierarchyShorter()
    ensures |Hierarchy(TopQuality)| == |Hierarchy(FallbackQuality)| + 1
  {
    IndexOfQualityList(0);
    IndexOfQualityList(1);
  }

  /** The streams of `s` that satisfy `p`, in catalog order (the client's filter). */
  function Filter(s: seq<Stream>, p: Stream -> bool): (r: seq<Stream>)
    ensures |r| <= |s|
    ensures forall x :: x in r <==> x in s && p(x)
  {
    if s == [] then []
    else if p(s[0]) then [s[0]] + Filter(s[1..], p)
    else Filter(s[1..], p)
  }

  /** The head of a filtered catalog, what `.first()` returns, is the
      earliest matching stream: it occurs no later than any match. */
  lemma {:induction false} FilterHeadIsFirstMatch(s: seq<Stream>, p: Stream -> bool)
    ensures forall j :: 0 <= j < |s| && p(s[j]) ==> Filter(s, p) != [] && Filter(s, p)[0] in s[..j + 1]
  {
    if s != [] && !p(s[0]) {
      FilterHeadIsFirstMatch(s[1..], p);
      assert forall j :: 1 <= j < |s| ==> s[j] == s[1..][j - 1] && s[1..][..j] == s[1..j + 1];
    }
  }

  /** filter(progressive=True, file_extension="mp4", res=quality) */
  function ProgressiveMp4(streams: seq<Stream>, quality: string): (r: seq<Stream>)
    ensures forall x :: x in r <==> x in streams && x.progressive && x.fileExtension == "mp4" && x.res == quality
  {
    Filter(streams, (s: Stream) => s.progressive && s.fileExtension == "mp4" && s.res == quality)
  }

  /** filter(res=quality, progressive=False). The client adds a keyword
      condition only when its value is truthy, so `progressive=False` selects
      nothing away: every stream of that resolution is kept, progressive or not. */
  function AtResolution(streams: seq<Stream>, quality: string): (r: seq<Stream>)
    ensures forall x :: x in r <==> x in streams && x.res == quality
  {
    Filter(streams, (s: Stream) => s.res == quality)
  }

  /** `.first()` of the progressive query is the earliest matching stream of the catalog. */
  lemma ProgressiveHeadIsFirst(streams: seq<Stream>, quality: string)
    ensures forall k :: 0 <= k < |streams| && streams[k].progressive && streams[k].fileExtension == "mp4" && streams[k].res == quality ==>
        ProgressiveMp4(streams, quality) != [] && ProgressiveMp4(streams, quality)[0] in streams[..k + 1]
  {
    FilterHeadIsFirstMatch(streams, (s: Stream) => s.progressive && s.fileExtension == "mp4" && s.res == quality);
  }

  /** `.first()` of the resolution query is the earliest stream of that resolution. */
  lemma AtResolutionHeadIsFirst(streams: seq<Stream>, quality: string)
    ensures forall k :: 0 <= k < |streams| && streams[k].res == quality ==>
        AtResolution(streams, quality) != [] && AtResolution(streams, quality)[0] in streams[..k + 1]
  {
    FilterHeadIsFirstMatch(streams, (s: Stream) => s.res == quality);
  }

  /** A tier with a progressive mp4 stream has a stream at that resolution. */
  lemma ProgressiveIsAtResolution(streams: seq<Stream>, quality: string)
    ensures ProgressiveMp4(streams, quality) != [] ==> AtResolution(streams, quality) != []
  {
    if ProgressiveMp4(streams, quality) != [] {
      assert ProgressiveMp4(streams, quality)[0] in AtResolution(streams, quality);
    }
  }

  /** Index in `hierarchy` of the first tier that has a progressive mp4 stream,
      None when no tier has one. */
  function FirstTier(streams: seq<Stream>, hierarchy: seq<string>): (r: Option<nat>)
    ensures r.None? <==> forall j :: 0 <= j < |hierarchy| ==> ProgressiveMp4(streams, hierarchy[j]) == []
    ensures r.Some? ==> r.value < |hierarchy| && ProgressiveMp4(streams, hierarchy[r.value]) != []
    ensures r.Some? ==> forall j :: 0 <= j < r.value ==> ProgressiveMp4(streams, hierarchy[j]) == []
  {
    if hierarchy == [] then None
    else if ProgressiveMp4(streams, hierarchy[0]) != [] then Some(0)
    else match FirstTier(streams, hierarchy[1..])
      case None => None
      case Some(i) => Some(i + 1)
  }
}
