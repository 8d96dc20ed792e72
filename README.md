# pyconverter download core in Dafny

This project models `YouTubeVideo`, the download core of pyconverter
(`pyconverter/main.py:19-77`). The class turns a requested quality (`"1080p"`
… `"144p"`) into a concrete download. It takes one of two paths:

- a single progressive (audio and video) mp4 stream, found by walking the
  quality ladder downwards from the requested tier;
- for 1080p, the first 1080p stream (meant as a video-only stream) and the
  audio-only stream, fetched into a scoped temporary directory and combined
  into the output directory.

The model also covers the caller's split of exceptions into outcomes
(`pyconverter/main.py:245-262`).

The platform's catalog is data: a `Catalog` holds a sequence of `Stream`
records (`res`, `progressive`, `fileExtension`, `defaultFilename`) and the
audio-only selection as an `Option`. The client's `filter(...)` is `Filter`,
and `.first()` is the head of the filtered sequence. Side effects are not
performed. They are recorded as a trace of `Event`s:

- `OpenCatalog(link)`: the client is created;
- `Download(stream, dir, filename)`: `filename` is `None` when the client's default name is used;
- `MkTemp(dir)` and `RmTemp(dir)`: entering and leaving the temporary directory;
- `Combine(video, audio, out)`: the ffmpeg call.

A `Platform` value holds everything outside the core:

- the link regex and the directory check, as uninterpreted predicates;
- the client, which yields a `Catalog` or raises (`None`);
- the name the temporary directory gets;
- the set of events that raise when they are attempted.

An `Outcome` is `Success`, `NoStream` (`StreamDoesNotExistError`) or
`OtherError` (any other exception, `ValueError` included).

Layout:

- `streams.dfy` (module `Streams`): the catalog, `QUALITY_LIST`,
  `list.index`, the hierarchy, the client's filters and `FirstTier`, the
  specification of the ladder search.
- `effects.dfy` (module `Effects`): events, outcomes, the platform and
  `os.path.join`.
- `youtube_video.dfy` (module `Downloader`): the behaviour of each method as a
  function on values (`LowQuality`, `TwoStreamBody`, `HighQuality`,
  `DownloadSpec`, `Run`). It also holds the class `YouTubeVideo`, whose fields
  are those of the source (`quality`, `outputPath`, `qualityHierarchy`, `yt`),
  and whose methods follow the source step by step. Each method is proved to
  produce exactly the trace and outcome of its function. `DownloadVideo` is
  the caller's `try`/`except`.
- `properties.dfy` (module `Properties`): what the core promises, proved
  about those functions.
- `scenarios.dfy` (module `Scenarios`): two worked catalogs.

### Behaviour a reader might expect, and what the code does (the model follows the code)

- The 1080p query. `filter(res="1080p", progressive=False)` (`pyconverter/main.py:56`) reads like a query for separate video-only streams. The client library adds a keyword condition only when its value is truthy, so `progressive=False` removes nothing. The query keeps every 1080p stream, progressive or not, and `AtResolution` models it that way. The client library's code is not part of this model; the model relies on that behaviour of its `filter`. As a result, a catalog whose only 1080p stream is progressive still takes the two-stream path. `ProgressiveTopTakesTwoStreamPath` shows such a catalog without an audio-only stream: the code creates the directory, transfers the progressive stream to `tmpdir/video.mp4`, fails on the missing audio stream and removes the directory. A 720p request on the same catalog downloads its 720p stream.
- Fallback from 1080p. A 1080p request with no stream for the two-stream path might be expected to behave like a 720p request. The code sets `self.quality = "720p"` but does not recompute `self.quality_hierarchy` (`pyconverter/main.py:59-60`), so the search still starts at `"1080p"`. This path is taken only when the catalog has no 1080p stream at all, so the 1080p tier is always passed over. `FallbackMatchesNextTier` proves that the result is then exactly that of a 720p request. One difference remains: after the fallback the object's `Consistent()` invariant (`qualityHierarchy == Hierarchy(quality)`) no longer holds (`YouTubeVideo.DownloadHighQuality`).
- Error kinds. A reader might expect invalid input, an unavailable catalog, a missing stream, a failed transfer and a failed combine to be reported apart. The code tells apart only `StreamDoesNotExistError` and every other exception, so the model has three outcomes.
- Order of transfers. Nothing outside the code fixes the order of the video and the audio transfer. The code downloads the video first, and `TwoStreamOrder` states that order.

## Model

| member | source | states |
|---|---|---|
| `Streams.IndexOf` | pyconverter/main.py:41 | `QUALITY_LIST.index(quality)`: the result is a position holding `quality`, and no earlier position holds it |
| `Streams.QualityListDistinct` | pyconverter/main.py:21 | the ladder has six tiers, all different |
| `Streams.IndexOfQualityList` | pyconverter/main.py:21 | the index of any ladder entry is its own position |
| `Streams.FallbackHierarchyShorter` | pyconverter/main.py:59-60 | the hierarchy of `"1080p"` is one tier longer than that of `"720p"`, so the fallback, which keeps the old hierarchy, leaves the object inconsistent |
| `Streams.Hierarchy` | pyconverter/main.py:41 | `quality_hierarchy` is a suffix of the ladder: its length is 6 minus the tier's index, its first element is the requested quality and its last is `"144p"` |
| `Streams.Filter` | pyconverter/main.py:46-48 | a stream is in the filtered catalog exactly when it is in the catalog and matches; the result is never longer than the catalog |
| `Streams.FilterHeadIsFirstMatch` | pyconverter/main.py:51 | `.first()` of a filtered catalog is its earliest matching stream: whenever a catalog stream matches, the head exists and occurs no later than it |
| `Streams.ProgressiveMp4` | pyconverter/main.py:46-48 | the progressive query of one tier: a stream is in it exactly when it is a catalog stream that is progressive, an mp4 and of that resolution |
| `Streams.ProgressiveHeadIsFirst` | pyconverter/main.py:46-51 | `.first()` of the progressive query is the earliest progressive mp4 stream of that resolution in the catalog |
| `Streams.AtResolution` | pyconverter/main.py:56 | `filter(res="1080p", progressive=False)`: a stream is in it exactly when it is a catalog stream of that resolution. A false keyword selects nothing away, so progressive streams are kept |
| `Streams.AtResolutionHeadIsFirst` | pyconverter/main.py:56-64 | `.first()` of the resolution query is the earliest catalog stream of that resolution |
| `Streams.ProgressiveIsAtResolution` | pyconverter/main.py:46-56 | a tier with a progressive mp4 stream is never empty under the resolution query |
| `Streams.FirstTier` | pyconverter/main.py:45-53 | None exactly when no tier of the hierarchy has a progressive mp4 stream; otherwise the index of a tier that has one, with none before it |
| `Effects.Join` | pyconverter/main.py:66-70 | `os.path.join`: the result ends with the file name, and an absolute name replaces the directory. Otherwise the result starts with the directory and continues with the whole name. Exactly one extra character is added, and it is `/`, exactly when the directory is non-empty and does not already end with `/` |
| `Downloader.ValidInput` | pyconverter/main.py:33-38 | the three `ValueError` checks of `__init__`, in order: a request passes exactly when the link matches, the output path is a directory and the quality is in the ladder. A request that passes has a hierarchy starting at its own tier |
| `Downloader.YouTubeVideo.constructor` | pyconverter/main.py:39-42 | the fields are set from the arguments, and the hierarchy is the ladder from the requested quality down |
| `Downloader.YouTubeVideo.Open` | pyconverter/main.py:32-42 | `__init__`: the object exists exactly when the link predicate, the path predicate and the quality check pass and the client does not raise; the client is contacted only after all three checks pass |
| `Downloader.YouTubeVideo.DownloadLowQuality` | pyconverter/main.py:44-53 | the loop over the hierarchy yields exactly the trace and outcome of `LowQuality`, the specification the `Properties` lemmas describe |
| `Downloader.YouTubeVideo.FetchAndCombine` | pyconverter/main.py:63-71 | the body of the `with` block, step by step, yields exactly `TwoStreamBody`, the specification `Properties.TwoStreamBodyOrder` describes |
| `Downloader.YouTubeVideo.DownloadHighQuality` | pyconverter/main.py:55-71 | yields exactly `HighQuality`. Without a 1080p stream, `quality` becomes `"720p"` while the hierarchy is left unchanged, which breaks `Consistent()`. No other field changes |
| `Downloader.YouTubeVideo.Download` | pyconverter/main.py:73-77 | the low-quality path exactly when the quality is not `"1080p"`, the high-quality path otherwise; the object stays consistent except on the 1080p fallback |
| `Downloader.DownloadVideo` | pyconverter/main.py:245-262 | constructing and downloading yields exactly `Run`: every exception ends as `NoStream` or `OtherError`, and none escapes |
| `Properties.HierarchyTail` | pyconverter/main.py:41 | dropping the first tier of a hierarchy leaves the hierarchy of the next tier down |
| `Properties.LowQualityChoosesFirstTier` | pyconverter/main.py:44-53 | `NoStream` exactly when no tier of the hierarchy has a progressive mp4 stream, and then there is no download. Otherwise there is exactly one download, into the output directory under the default name, of the first stream of the first tier that has one. That stream is a progressive mp4 catalog stream. The outcome is `Success` exactly when that download does not raise |
| `Properties.LowQualityTakesFirstOfTier` | pyconverter/main.py:46-51 | the downloaded stream is `.first()` of its tier: no progressive mp4 stream of the same resolution comes before it in the catalog |
| `Properties.FirstTierOfSuffix` | pyconverter/main.py:41-52 | the search over a suffix of the ladder, restated as positions in the whole ladder |
| `Properties.LowQualityHighestTier` | pyconverter/main.py:41-53 | over the hierarchy of a requested quality, the stream downloaded is the first of the best tier at or below the request that has a progressive mp4 stream. Every tier between the request and that tier has none. `NoStream` exactly when no tier from the request down has one |
| `Properties.HighestTierChosen` | pyconverter/main.py:41-52 | when the search over the hierarchy of a requested quality finds a tier, the one download is the first stream of the ladder tier at that position, and every ladder tier from the request down to it has no progressive mp4 stream |
| `Properties.DownloadPaths` | pyconverter/main.py:56-61 | a temporary directory is created exactly when the quality is `"1080p"` and the catalog has a 1080p stream; otherwise `download` behaves as the low-quality search over the hierarchy as it stands |
| `Properties.FallbackMatchesNextTier` | pyconverter/main.py:56-61 | with no 1080p stream at all, the only case in which the fallback is taken, a 1080p request behaves exactly like a 720p request even though the hierarchy is not recomputed |
| `Properties.TwoStreamVideoChoice` | pyconverter/main.py:56-64 | the video stream of the two-stream path is a 1080p catalog stream, and the earliest one in the catalog |
| `Properties.TwoStreamOrder` | pyconverter/main.py:63-71 | once the directory exists: the first 1080p stream goes to `tmpdir/video.mp4`, then the audio stream goes to `tmpdir/audio.mp4`. Then they are combined into `output_path/<video default name>`, and `RmTemp` comes last. Every download goes into the temporary directory. `Success` exactly when all these steps ran and the combine did not raise |
| `Properties.TransientFilesDistinct` | pyconverter/main.py:66-67 | the video and audio paths in the temporary directory differ |
| `Properties.TwoStreamBodyOrder` | pyconverter/main.py:64-71 | inside the `with` block the video transfer comes first, then the audio transfer, then the combine; the first one that raises ends the block. Only transfers into the temporary directory and the combine happen (one to three of them). The block never ends as `NoStream`, and it is `Success` exactly when the combine ran and did not raise |
| `Properties.ScopeAroundBody` | pyconverter/main.py:63-71 | a scope whose creation succeeded, wrapped around transfers and combines, satisfies the cleanup guarantee `ScopedTemp` |
| `Properties.DownloadCleanup` | pyconverter/main.py:55-77 | each `download` call satisfies `ScopedTemp`. It attempts to create a temporary directory at most once, and only that one directory. The directory is removed exactly when its creation succeeded, as the last effect, and never earlier |
| `Properties.WorkspaceAlwaysRemoved` | pyconverter/main.py:63-71 | `ScopedTemp` holds for every whole run, however it ends (success, a raising transfer, a missing audio stream, a raising combine) |
| `Properties.ValidationPrecedesPlatform` | pyconverter/main.py:32-42 | a failed check of `__init__` ends the run with `OtherError` and no effect at all; after the checks pass, the first effect is contacting the platform |
| `Properties.DownloadNoStream` | pyconverter/main.py:44-61 | a `download` call reports `NoStream` exactly when the two-stream path is not taken and no tier from the requested one down has a progressive mp4 stream. It then has no effect |
| `Properties.NoStreamMeansNothingFetched` | pyconverter/main.py:245-253 | a run reports `NoStream` exactly when validation and the client succeeded and the search found nothing. Then the only effect is contacting the platform |
| `Properties.LowQualitySkipsEmptyTier` | pyconverter/main.py:45-52 | a first tier without a progressive mp4 stream is passed over: the search behaves as the search over the remaining tiers |
| `Properties.ProgressiveTopTakesTwoStreamPath` | pyconverter/main.py:56-67 | a catalog with progressive 1080p and 720p mp4 streams and no audio stream: a 1080p request takes the two-stream path, transfers the progressive 1080p stream to `tmpdir/video.mp4`, fails with `OtherError` and removes the directory. A 720p request downloads the 720p stream |
| `Properties.TwoStreamSuccessTrace` | pyconverter/main.py:56-71 | a successful two-stream download has an audio stream and leaves exactly `MkTemp`, the video transfer, the audio transfer, the combine and `RmTemp` |
| `Properties.DownloadSuccessTraces` | pyconverter/main.py:44-77 | a successful `download` leaves one of two traces. The first is one download of a progressive mp4 stream of the hierarchy into the output directory. The second is `MkTemp`, the video download, the audio download, the combine into the output directory, and `RmTemp` |
| `Properties.SuccessfulRunTraces` | pyconverter/main.py:245-249 | a successful run passed every check, contacted the platform first, and then left one of those two traces |
| `Scenarios.MediumRequestTakes480` | pyconverter/main.py:44-52 | a 720p request on a catalog with progressive mp4 streams at 360p and 480p downloads the 480p one |
| `Scenarios.TopRequestCombines` | pyconverter/main.py:63-71 | a 1080p request on a catalog with a 1080p video stream and an audio stream: the full five-event trace. `Success` exactly when the combine does not raise, and the directory is removed either way |

## Left out

- The Tk application (`App`, `main`, `src/main.py`): widgets, message boxes, the clipboard and the thread per click. Only the exception-to-outcome split of `async_download_video` is modelled (`DownloadVideo`).
- The semantics of `LINK_REGEX` and of the filesystem checks of `validate_path`: both are the uninterpreted `Platform.linkMatches` and `Platform.isDirectory`.
- The pytube client. A catalog is data. The client's lazy fetching of streams is folded into construction: nothing is done between `YouTube(link)` and the first `.streams` access, so the trace and the outcome are the same. The client's `filter` is not part of this model: `ProgressiveMp4` and `AtResolution` follow its rule that a keyword adds a condition only when its value is truthy. A client version that honoured `progressive=False` would make `AtResolution` the video-only query instead. `get_audio_only` is the `Catalog.audioOnly` selection; its ordering by bitrate is not modelled. The bytes transferred and the progress are not modelled either.
- `combine_video_and_audio` (`pyconverter/util.py:47-50`) and ffmpeg: an abstract `Combine` event that may raise. Its overwrite behaviour is not modelled.
- `tempfile.TemporaryDirectory`: the name it picks is `Platform.tempDir`. Its creation may fail. A failure of the removal itself is not modelled.
- Whether an effect raises is decided per event, by membership in `Platform.failing`. Partial files that a raising download may leave behind are not modelled.
- `get_base_path` and the download-directory lookups of `pyconverter/util.py`: environment, registry and filesystem queries outside the core.
- `Effects.Join`: only the two-argument POSIX form of `os.path.join` is modelled. The Windows form is left out.
