# vidyodl core, modelled in Dafny

vidyodl downloads a video through a Piped relay. It probes a list of relay instances and
remembers the fastest one. It fetches the video's metadata once per job and saves the
first audio and video stream of the manifest with ffmpeg. It then muxes the two files.
The Celery tasks around this retry a failed step, or return the result.

This project models that core and proves properties about the model:

- `py_values.dfy` holds the Python values the code handles: JSON bodies, raised
  exceptions, `d[key]`, `xs[0]`, `str(n)`. Exceptions are values of `Result`.
- `config.dfy` holds the settings record and its shipped defaults (app/config.py).
- `proxy.dfy` is the `Proxy` class (app/proxy.py): fields updated in place.
- `proxy_functions.dfy` holds `UP_PROXIES` and `FASTEST_PROXY` as the two fields of one
  `ProxyRegistry` object, plus the pure stable-minimum selection behind
  `get_fastest_proxy` (app/proxy_functions.py).
- `stream.dfy` covers the stream record, the extension table and the output path
  (app/Stream.py).
- `piped.dfy` is the `Piped` class (app/Piped.py): a lazily filled metadata cache, with a
  ghost log of the requests issued.
- `download_utils.dfy` covers the download compositions and the status dictionaries
  (app/download_utils.py).
- `tasks.dfy` covers the Redis URLs and the retry-or-return decisions of the two tasks
  (app/tasks.py).

The outside world is passed in as parameters:

- The metadata server is a function from URL to `FetchResult`: a transport error, or a
  body that does or does not decode as JSON.
- ffmpeg is a function from an `FfmpegJob` (inputs, output file, format, copied codecs)
  to `Pass` or `Fail(message)`.
- A health probe is a `ProbeOutcome`: a status code with a latency, or an exception.
- `FASTEST_PROXY` is passed explicitly as a `Proxy`.
- Celery's retry counter is an `int`.

The model follows the code as written, including these behaviours:

- The metadata request goes to `{default_proxy}/streams/{video_id}?instance={FASTEST_PROXY.url}`.
  The base is the configured default relay, not the fastest proxy.
  `set_base_url` stores a URL that no request uses.
- `update_fastest_proxy` removes `FASTEST_PROXY` from `UP_PROXIES` by identity, because
  `Proxy` has no `__eq__`. The candidates of a probe cycle are new objects built by
  `get_proxies_from_file`, so `FASTEST_PROXY` is never in `UP_PROXIES`: the removal
  raises ValueError. `UpdateFastest` models this as written, and `OnlyCandidatesSurvive`
  states why the removal can never succeed after such a cycle.
- `combine_audio_video` writes `{path}/completed/{title}.{fmt}` but reports
  `{path}/{title}.{fmt}`. `ReportedPathIsNotWritten` proves that the reported file is
  never the written one.
- `download_audio_from_piped` saves the audio stream through `download_video_stream`.
  The file therefore lands in the `video` directory, and ffmpeg copies the video codec.
- `download_piped_audio_task` retries only when the retry count equals `celery_retry_max`.
  Every other run returns OK, including one whose download failed.

## Model

| member | source | states |
|---|---|---|
| `PyValues.Subscript` | app/Piped.py:52 | `d[key]` succeeds exactly on a dict holding the key and yields its value; a missing key raises KeyError naming the key; any other value raises TypeError |
| `PyValues.First` | app/Piped.py:74 | `xs[0]` yields the first item of a non-empty list and the first character of a non-empty string; an empty list or string raises IndexError; a dict raises KeyError(0); None, a bool or a number raises TypeError |
| `PyValues.KeyErrorFor` | app/Piped.py:52 | the KeyError of a missing key is the key between two single quotes, as `str(e)` shows it |
| `PyValues.Decimal` | app/tasks.py:15 | `str(n)` of an integer is non-empty and made of digits after an optional leading '-' |
| `PyValues.DigitsRoundTrip` | app/tasks.py:15 | the decimal digits of a natural number read back as that number |
| `PyValues.DecimalRoundTrip` | app/tasks.py:15 | `str(n)` starts with '-' exactly when n < 0, and its digits read back as the absolute value of n |
| `PyValues.PyStr` | app/Stream.py:39 | `str()` of a string is the string itself; of a number, its decimal form `Decimal(n)`; of None, "None"; of a bool, "True" or "False" according to its value |
| `PyValues.DecimalHasNoSeparators` | app/tasks.py:15 | the decimal form of a port or db number contains neither ':' nor '@' |
| `ProxyRecord.Proxy.constructor` | app/proxy.py:5-9 | a new proxy has the given name and url and unknown `up` and `speed` |
| `ProxyRecord.FromDict` | app/proxy.py:5-9 | `Proxy(d)` succeeds iff `d` has "name" and "url"; a missing "name" raises KeyError('name') before "url" is looked at; on success the object is new, with the dict's name and url and unknown health |
| `ProxyRecord.Proxy.ToString` | app/proxy.py:11-12 | `str(proxy)` starts with "Proxy <" followed by the url, and ends with '>' |
| `ProxyRecord.Proxy.Update` | app/proxy.py:14-18 | after `p.update(q)` all four fields of p equal q's old fields; q is unchanged when it is a different object; p keeps its identity |
| `ProxyRecord.UpdateTwice` | app/proxy.py:14-18 | updating twice from the same proxy gives the same state as updating once |
| `ProxyFunctions.ProxiesFromEntries` | app/proxy_functions.py:15-22 | one new, distinct Proxy per entry, in order, each with the entry's name and url and unknown health; fails exactly when some entry lacks a key, with the KeyError of the first such entry |
| `ProxyFunctions.StableMinUnique` | app/proxy_functions.py:25-27 | at most one position is the stable minimum, so the proxy `sorted(...)[0]` picks is determined |
| `ProxyFunctions.EarliestMin` | app/proxy_functions.py:25-27 | with every speed known, the earliest position of a minimal speed is the stable minimum |
| `ProxyFunctions.FastestIndex` | app/proxy_functions.py:25-27 | `sorted(speeds)[0]` raises IndexError on an empty list and TypeError when two or more speeds include an unknown one; otherwise it is the stable minimum: no later speed is smaller, every earlier one is larger |
| `ProxyFunctions.FastestOf` | app/proxy_functions.py:25-27 | the fastest proxy is an element of the list at its stable-minimum position; it fails exactly when the index selection fails |
| `ProxyFunctions.RemoveFirst` | app/proxy_functions.py:37 | `list.remove(x)` leaves a list without `x` unchanged and shortens one holding `x` by exactly one element; `RemoveFirstSplits` states which element goes |
| `ProxyFunctions.RemoveFirstSplits` | app/proxy_functions.py:37 | `list.remove(x)` deletes exactly the first element that is `x` and keeps the rest in order |
| `ProxyFunctions.Survivors` | app/proxy_functions.py:41-60 | the list a probe cycle leaves; `SurvivorsMembership` states that it holds exactly the proxies a probe found up |
| `ProxyFunctions.SurvivorsMembership` | app/proxy_functions.py:41-60 | a proxy is in the list after a probe cycle iff one of its probes answered 200 |
| `ProxyFunctions.OnlyCandidatesSurvive` | app/proxy_functions.py:56-60 | a proxy that was not probed is never in the list after a probe cycle |
| `ProxyFunctions.ProxyRegistry.constructor` | app/proxy_functions.py:11-12 | at start-up `UP_PROXIES` is empty; `FASTEST_PROXY` is named "default proxy", points at the default relay and has unknown health |
| `ProxyFunctions.ProxyRegistry.GetFastest` | app/proxy_functions.py:25-27 | the result is a member of `UP_PROXIES` at its stable-minimum position; an empty list raises IndexError |
| `ProxyFunctions.ProxyRegistry.SetFastest` | app/proxy_functions.py:30-32 | copies the fastest up proxy's fields into the same `FASTEST_PROXY` object; `UP_PROXIES` is unchanged; an error leaves `FASTEST_PROXY` as it was |
| `ProxyFunctions.ProxyRegistry.UpdateFastest` | app/proxy_functions.py:35-38 | raises ValueError and changes nothing when the `FASTEST_PROXY` object is absent; otherwise removes its first occurrence and copies the fastest remaining proxy into it |
| `ProxyFunctions.ProxyRegistry.Healthcheck` | app/proxy_functions.py:41-53 | a 200 marks the proxy up, with the elapsed time as speed, and appends it; any other status or an exception marks it down with no speed and leaves the list alone |
| `ProxyFunctions.ProxyRegistry.ProbeCycle` | app/proxy_functions.py:56-60 | the list is cleared, then holds exactly the candidates whose probe answered 200, in probe order; each candidate carries its last probe's result; names and urls are unchanged |
| `StreamFiles.Build` | app/Stream.py:9-29 | every one of the nineteen fields is the entry's value under its key, and the entry itself is kept |
| `StreamFiles.FirstMissing` | app/Stream.py:11-29 | the keys are read in order: the first key the entry lacks, or none when all are present |
| `StreamFiles.FromJson` | app/Stream.py:9-29 | `Stream(entry)` succeeds iff the entry is a dict with all nineteen keys and copies each value unchanged; a non-dict raises TypeError; otherwise the first missing key raises KeyError |
| `StreamFiles.FileExt` | app/Stream.py:65-82 | the result is "webm" exactly for the five WEBM formats and "mp4" for every other format |
| `StreamFiles.FileExtTable` | app/Stream.py:65-82 | "M4A" and "MPEG_4" map to "mp4", each WEBM variant to "webm", and every format to one of the two |
| `StreamFiles.ExtOf` | app/Stream.py:41 | the extension of any `format` value, string or not, is "mp4" or "webm" |
| `StreamFiles.StreamPath` | app/Stream.py:37-41 | `{download_path}/{file_type}/{file_type}_{title}.{ext}`; `StreamPathRoundTrip` states its directory prefix and that the title reads back from it |
| `StreamFiles.TranscodeJob` | app/Stream.py:43-60 | the ffmpeg run for a saved stream: its url in, the path out, the extension as format, and the video codec copied for "video" or the audio codec for "audio"; `DownloadStream` states when it runs |
| `StreamFiles.StreamPathRoundTrip` | app/Stream.py:37-41 | the saved path lies under `{download_path}/{file_type}/` and the title can be read back from it, so distinct titles give distinct files |
| `StreamFiles.StreamPathIgnoresOtherFields` | app/Stream.py:37-41 | two streams with the same format get the same path from `download_stream`, whatever their url, codec or other fields |
| `StreamFiles.DownloadStream` | app/Stream.py:32-62 | "video" and "audio" run ffmpeg on the stream url, and ffmpeg's failure raises; any other file type runs nothing; on success the path is `{root}/{type}/{type}_{title}.{ext}` |
| `PipedApi.FetchOutcome` | app/Piped.py:27-31 | the fetched dict is the decoded body; a transport error or an undecodable body raises; a non-dict body raises unless it is an empty list or string |
| `PipedApi.CacheAfterFetch` | app/Piped.py:27-31 | the cache holds the fetched dict, or `{}` when the fetch raised, because the empty dict is stored before the request |
| `PipedApi.BestStream` | app/Piped.py:70-79 | `Stream(video_properties[key][0])`; `BestStreamIsFirst` states that it is built from element 0 and that an empty list raises IndexError |
| `PipedApi.SaveStream` | app/Piped.py:82-91 | `download_stream` under the cached title; `DownloadAvLayout` and `DownloadVideoOnlyLayout` state the paths it produces |
| `PipedApi.BestStreamIsFirst` | app/Piped.py:70-79 | the best stream is built from element 0 of the manifest list; an empty list raises IndexError |
| `PipedApi.Piped.constructor` | app/Piped.py:14-20 | the stream URL is `{default_proxy}/streams/`, the base url is the fixed initial relay, and the cache is empty with no request issued |
| `PipedApi.Piped.VideoProperties` | app/Piped.py:22-33 | the first access issues exactly one request to `{stream_url}{video_id}?instance={FASTEST_PROXY.url}` and caches its dict; later accesses return the cache and issue none |
| `PipedApi.Piped.AudioStreams` | app/Piped.py:35-41 | `audioStreams` of the cached metadata, fetched at most once |
| `PipedApi.Piped.VideoStreams` | app/Piped.py:43-47 | `videoStreams` of the cached metadata, fetched at most once |
| `PipedApi.Piped.Title` | app/Piped.py:49-53 | `title` of the cached metadata, fetched at most once |
| `PipedApi.Piped.Description` | app/Piped.py:55-59 | `description` of the cached metadata, fetched at most once |
| `PipedApi.Piped.SetBaseUrl` | app/Piped.py:61-68 | stores and returns the fastest proxy's url |
| `PipedApi.Piped.GetBestAudioStream` | app/Piped.py:70-74 | the stream built from element 0 of the cached `audioStreams` |
| `PipedApi.Piped.GetBestVideoStream` | app/Piped.py:76-79 | the stream built from element 0 of the cached `videoStreams` |
| `PipedApi.Piped.DownloadAudioStream` | app/Piped.py:82-85 | saves the stream as file type "audio" under the cached title |
| `PipedApi.Piped.DownloadVideoStream` | app/Piped.py:88-91 | saves the stream as file type "video" under the cached title |
| `DownloadUtils.DownloadAv` | app/download_utils.py:61-70 | best audio, best video, both saved, then the title, stopping at the first exception; `DownloadAvLayout` states the result on success |
| `DownloadUtils.DownloadVideoOnly` | app/download_utils.py:73-80 | best video saved as "video", then the title; `DownloadVideoOnlyLayout` states the result on success |
| `DownloadUtils.DownloadAudioOnly` | app/download_utils.py:83-90 | best audio saved as "video", then the title; `AudioOnlyUsesVideoLayout` states the result on success |
| `DownloadUtils.MuxJob` | app/download_utils.py:45-55 | the mux run: audio and video in, `{path}/completed/{title}.{fmt}` out; `CombineDefaults` and `ReportedPathIsNotWritten` state its defaults and its output |
| `DownloadUtils.DownloadAvLayout` | app/download_utils.py:61-70 | both files come from the same metadata: the first audio entry saved as "audio", the first video entry as "video", both named after its title |
| `DownloadUtils.DownloadVideoOnlyLayout` | app/download_utils.py:73-80 | on success the video file is the first video entry saved as "video" under the metadata's title, after a successful ffmpeg copy |
| `DownloadUtils.AudioOnlyUsesVideoLayout` | app/download_utils.py:83-90 | the audio-only file lies in the video directory with the "video_" prefix, and its ffmpeg run copies the video codec, not the audio codec |
| `DownloadUtils.StatusOf` | app/download_utils.py:21-27 | the status is OK exactly when the download succeeded, with its paths and title; otherwise ERROR with `str(e)` |
| `DownloadUtils.DownloadAvFromPiped` | app/download_utils.py:61-70 | one Piped object, one metadata request; the result is best audio, best video, both saved, then the title |
| `DownloadUtils.DownloadVideoFromPiped` | app/download_utils.py:73-80 | one metadata request; the best video stream saved as "video", with the title |
| `DownloadUtils.DownloadAudioFromPiped` | app/download_utils.py:83-90 | one metadata request; the best audio stream saved as "video", with the title |
| `DownloadUtils.DownloadPipedVideo` | app/download_utils.py:21-27 | never raises: it returns the status of the audio-and-video download |
| `DownloadUtils.CombineAudioVideo` | app/download_utils.py:43-58 | never raises: OK exactly when the mux of audio and video succeeds, reporting `{path}/{title}.{fmt}`; otherwise ERROR with ffmpeg's message |
| `DownloadUtils.CombineDefaults` | app/download_utils.py:43-55 | by default the mux writes an mp4 and copies both codecs |
| `DownloadUtils.ReportedPathIsNotWritten` | app/download_utils.py:50-58 | the reported path never equals the file ffmpeg was told to write |
| `Tasks.RedisScheme` | app/tasks.py:13 | "redis" exactly when `redis_tls` is 0, "rediss" otherwise |
| `Tasks.RedisUrl` | app/tasks.py:15-16 | `{scheme}://{user}[:{password}@]{host}:{port}/{db}`; `RedisUrlSeparators` and `EmptyPasswordJoinsUserAndHost` state its separators |
| `Tasks.BrokerUrl` | app/tasks.py:15 | the broker URL from the broker settings; `DefaultUrls` states its default |
| `Tasks.BackendUrl` | app/tasks.py:16 | the backend URL from the backend settings; `DefaultUrls` states its default |
| `Tasks.RedisUrlCount` | app/tasks.py:15-16 | a character occurs in the URL as often as in its pieces together |
| `Tasks.RedisUrlSeparators` | app/tasks.py:15-16 | apart from those in the settings, the URL has one '@' and one ':' more exactly when the password is non-empty; two further ':' come from "://" and the port |
| `Tasks.EmptyPasswordJoinsUserAndHost` | app/tasks.py:15-16 | with an empty password the user name runs straight into the host name |
| `Tasks.DefaultUrls` | app/tasks.py:13-16 | the default broker is `redis://:pass123@celery-redis:6379/0` and the default backend is the same on db 1 |
| `Tasks.AfterDownload` | app/tasks.py:43-56 | a failed download is retried with its error; otherwise a failed mux is retried with its error, and a successful mux result is returned unchanged; nothing else escapes |
| `Tasks.FailedDownloadSkipsMux` | app/tasks.py:43-45 | after a failed download the outcome does not depend on ffmpeg: the mux is never run |
| `Tasks.VideoTask` | app/tasks.py:41-56 | a payload without "video_id" raises KeyError before anything runs; it is the only way the task raises |
| `Tasks.VideoTaskReturnsMux` | app/tasks.py:47-56 | a returning video task downloaded both files, muxed them to mp4, and reports `{download_path}/{title}.mp4` |
| `Tasks.DownloadPipedVideoTask` | app/tasks.py:41-56 | the task body is the composition above, on the one metadata fetch of its Piped object |
| `Tasks.AudioAttempt` | app/tasks.py:66-67 | the payload lookup is inside the try block: a missing "video_id" is an ordinary failure of the attempt |
| `Tasks.AudioTaskDecision` | app/tasks.py:66-72 | a retry, carrying `str(e)`, happens exactly when the attempt failed and the retry count equals `celery_retry_max`; every other run returns OK |
| `Tasks.AudioFailureBeforeLastAttemptReportsOk` | app/tasks.py:68-72 | a failure on any other attempt is swallowed and reported as OK |
| `Tasks.DownloadPipedAudioTask` | app/tasks.py:65-72 | the task body is that decision on the attempt through one Piped object |

## Left out

- I/O goes through oracle parameters: the `proxy.json` file read, HTTP, and ffmpeg.
  Reading the file and the `json.load` of its `proxy_list` are not modelled.
  `ProxiesFromEntries` starts from the decoded entries.
- `ProxiesFromEntries` takes each `proxy_list` entry as a dict from strings to strings.
  A non-dict entry, which raises TypeError in `Proxy(proxy)`, and non-string name or url
  values are outside the model.
- The probes of `set_proxies_async` run concurrently under `asyncio.gather`. The model
  runs them one after another in a given order, which stands for completion order.
- `ProxyFunctions.ProxyRegistry.Healthcheck` does not model the request to
  `{url}/healthcheck`. Only the probe's outcome is an input.
- `speed` is a float of seconds in the source. It is an integer latency here, because
  only its order is used.
- `PyValues.PyStr`, which stands for `str()`, renders a list or dict as a placeholder
  rather than Python's repr.
- `PipedApi.FetchOutcome`: every non-empty list body gives ValueError in the model.
  CPython accepts a list of two-element sequences as key/value pairs, and raises TypeError
  for elements that are not sequences.
- JSON numbers are integers. Floats in a manifest are not modelled.
- Error messages follow CPython's wording where it matters to the model. They are
  otherwise approximate; only the exception kind and the KeyError key are relied upon.
- `set_base_url` has a `random.choice` branch and a default-proxy branch. Neither is
  modelled, because `FASTEST_PROXY` is never None and both are unreachable.
- `_audio_streams` and `_video_streams` are never assigned, so they are not fields and
  their branches are not modelled.
- Celery's own retry machinery is not modelled: counting, the delay, `autoretry_for`,
  and the `retries=` decorator option. `Retry` stands for `raise self.retry(...)`.
- The coroutine semantics of the `async def` audio task are not modelled; its body is
  modelled as if run to completion.
- The `print` in `download_piped_video` is not modelled.
- `download_youtube_playlist` and `get_youtube_video_list_from_playlist` are not part of
  this model. They are a pytube loop, and the first calls `download_piped_video` with the
  wrong number of arguments.
- The settings are passed in as a value (`Config.Settings`). Loading them from the
  environment and from `.env` is not modelled.
- server/main.py, app/auth.py and app/connections.py are not part of this model.
