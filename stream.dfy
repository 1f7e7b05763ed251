/** One stream descriptor from a manifest, its file extension table and the
    output path of a downloaded stream (app/Stream.py). */
module StreamFiles {
  import opened PyValues

  /** The manifest keys a stream entry must carry, in the order they are read. */
  const StreamKeys: seq<string> := [
    "url", "format", "quality", "mimeType", "codec", "audioTrackId", "audioTrackName",
    "audioTrackLocale", "videoOnly", "itag", "bitrate", "initStart", "initEnd",
    "indexStart", "indexEnd", "width", "height", "fps", "contentLength"]

  /** A Stream: the entry it was built from and its nineteen fields, each copied unchanged. */
  datatype Stream = Stream(
    data: Json,
    url: Json, format: Json, quality: Json, mimeType: Json, codec: Json,
    audioTrackId: Json, audioTrackName: Json, audioTrackLocale: Json, videoOnly: Json,
    itag: Json, bitrate: Json, initStart: Json, initEnd: Json, indexStart: Json,
    indexEnd: Json, width: Json, height: Json, fps: Json, contentLength: Json)
  {
    /** The field filled from manifest key `StreamKeys[i]`. */
    function FieldAt(i: nat): Json
      requires i < |StreamKeys|
    {
      match i
      case 0 => url
      case 1 => format
      case 2 => quality
      case 3 => mimeType
      case 4 => codec
      case 5 => audioTrackId
      case 6 => audioTrackName
      case 7 => audioTrackLocale
      case 8 => videoOnly
      case 9 => itag
      case 10 => bitrate
      case 11 => initStart
      case 12 => initEnd
      case 13 => indexStart
      case 14 => indexEnd
      case 15 => width
      case 16 => height
      case 17 => fps
      case _ => contentLength
    }
  }

  /** The Stream whose every field is the entry's value under the matching key. */
  function Build(j: Json): (s: Stream)
    requires j.JObj? && forall i :: 0 <= i < |StreamKeys| ==> StreamKeys[i] in j.fields
    ensures s.data == j
    ensures forall i :: 0 <= i < |StreamKeys| ==> s.FieldAt(i) == j.fields[StreamKeys[i]]
  {
    var m := j.fields;
    Stream(j,
      m[StreamKeys[0]], m[StreamKeys[1]], m[StreamKeys[2]], m[StreamKeys[3]], m[StreamKeys[4]],
      m[StreamKeys[5]], m[StreamKeys[6]], m[StreamKeys[7]], m[StreamKeys[8]], m[StreamKeys[9]],
      m[StreamKeys[10]], m[StreamKeys[11]], m[StreamKeys[12]], m[StreamKeys[13]], m[StreamKeys[14]],
      m[StreamKeys[15]], m[StreamKeys[16]], m[StreamKeys[17]], m[StreamKeys[18]])
  }

  /** Position of the first key of `keys` that `m` lacks. */
  function FirstMissing(keys: seq<string>, m: map<string, Json>): (r: Option<nat>)
    ensures r.None? <==> forall i :: 0 <= i < |keys| ==> keys[i] in m
    ensures r.Some? ==> r.value < |keys| && keys[r.value] !in m
    ensures r.Some? ==> forall i :: 0 <= i < r.value ==> keys[i] in m
  {
    if keys == [] then None
    else if keys[0] !in m then Some(0)
    else match FirstMissing(keys[1..], m)
      case None => None
      case Some(i) => Some(i + 1)
  }

  /** `Stream(stream_data)`: indexing a non-dict raises TypeError; otherwise the first
      missing key, in reading order, raises KeyError; otherwise every key is copied. */
  function FromJson(j: Json): (r: Result<Stream, PyError>)
    ensures r.Ok? <==> j.JObj? && forall i :: 0 <= i < |StreamKeys| ==> StreamKeys[i] in j.fields
    ensures r.Ok? ==> r.value.data == j
    ensures r.Ok? ==> forall i :: 0 <= i < |StreamKeys| ==> r.value.FieldAt(i) == j.fields[StreamKeys[i]]
    ensures !j.JObj? ==> r.Err? && r.error == Subscript(j, "url").error
    ensures j.JObj? && r.Err? ==> exists i ::
      && 0 <= i < |StreamKeys|
      && r.error == KeyErrorFor(StreamKeys[i])
      && StreamKeys[i] !in j.fields
      && forall h :: 0 <= h < i ==> StreamKeys[h] in j.fields
  {
    if !j.JObj? then
      match Subscript(j, "url")
      case Err(e) => Err(e)
    else
      var m := j.fields;
      match FirstMissing(StreamKeys, m)
      case Some(i) => Err(KeyErrorFor(StreamKeys[i]))
      case None => Ok(Build(j))
  }

  const WebmFormats: set<string> := {"WEBMA_OPUS", "WEBMA_VORBIS", "WEBM", "WEBM_OPUS", "WEBM_VORBIS"}

  /** `get_file_ext_from_format`: the five WEBM variants give "webm"; "M4A", "MPEG_4"
      and every other format give "mp4". */
  function FileExt(format: string): (ext: string)
    ensures ext == "webm" <==> format in WebmFormats
    ensures ext == "mp4" <==> format !in WebmFormats
  {
    match format
    case "M4A" => "mp4"
    case "WEBMA_OPUS" => "webm"
    case "WEBMA_VORBIS" => "webm"
    case "WEBM" => "webm"
    case "WEBM_OPUS" => "webm"
    case "WEBM_VORBIS" => "webm"
    case "MPEG_4" => "mp4"
    case _ => "mp4"
  }

  /** Every listed format maps to its container, and the result is always one of two. */
  lemma FileExtTable(format: string)
    ensures FileExt("M4A") == "mp4" && FileExt("MPEG_4") == "mp4"
    ensures forall f :: f in WebmFormats ==> FileExt(f) == "webm"
    ensures FileExt(format) in {"mp4", "webm"}
  {
  }

  /** The extension for a stream's `format` value; a non-string matches no case. */
  function ExtOf(format: Json): (ext: string)
    ensures ext == "mp4" || ext == "webm"
  {
    if format.JStr? then FileExt(format.s) else "mp4"
  }

  /** One ffmpeg run: inputs, output file, container format and copied codecs. */
  datatype FfmpegJob = FfmpegJob(inputs: seq<string>, output: string, format: string, vcodec: Option<string>, acodec: Option<string>)

  /** `{download_path}/{file_type}/{file_type}_{title}.{ext}` */
  function StreamPath(root: string, fileType: string, title: string, format: Json): string {
    root + "/" + fileType + "/" + fileType + "_" + title + "." + ExtOf(format)
  }

  /** The title part of a path laid out by StreamPath. */
  function TitleOfPath(path: string, root: string, fileType: string, ext: string): string
    requires |root| + 2 * |fileType| + 3 <= |path| - |ext| - 1
  {
    path[|root| + 2 * |fileType| + 3 .. |path| - |ext| - 1]
  }

  /** The title can be read back from the path: distinct titles give distinct files. */
  lemma StreamPathRoundTrip(root: string, fileType: string, title: string, format: Json)
    ensures var path := StreamPath(root, fileType, title, format);
      && |root| + 2 * |fileType| + 3 <= |path| - |ExtOf(format)| - 1
      && TitleOfPath(path, root, fileType, ExtOf(format)) == title
      && path[..|root| + |fileType| + 2] == root + "/" + fileType + "/"
  {
    var ext := ExtOf(format);
    var head := root + "/" + fileType + "/" + fileType + "_";
    var path := StreamPath(root, fileType, title, format);
    assert path == head + title + "." + ext;
    assert |head| == |root| + 2 * |fileType| + 3;
    assert path[|head|..|head| + |title|] == title;
    assert path[..|root| + |fileType| + 2] == head[..|root| + |fileType| + 2];
  }

  /** The path `download_stream` returns depends on the stream only through its format:
      two streams with the same format but any other url, codec or sizes give one path. */
  lemma StreamPathIgnoresOtherFields(root: string, fileType: string, title: string, s1: Stream, s2: Stream,
                                     ffmpeg: FfmpegJob -> Outcome<string>)
    requires s1.format == s2.format
    requires DownloadStream(root, s1, title, fileType, ffmpeg).Ok? && DownloadStream(root, s2, title, fileType, ffmpeg).Ok?
    ensures DownloadStream(root, s1, title, fileType, ffmpeg).value == DownloadStream(root, s2, title, fileType, ffmpeg).value
  {
  }

  /** The ffmpeg run that saves a "video" or "audio" stream: stream url in, codec copied. */
  function TranscodeJob(stream: Stream, path: string, fileType: string): FfmpegJob {
    FfmpegJob([PyStr(stream.url)], path, ExtOf(stream.format),
      if fileType == "video" then Some("copy") else None,
      if fileType == "audio" then Some("copy") else None)
  }

  /** `download_stream`: for "video" and "audio" it runs ffmpeg (whose failure raises);
      any other file type runs nothing; the same-shaped path is returned either way. */
  function DownloadStream(root: string, stream: Stream, title: string, fileType: string,
                          ffmpeg: FfmpegJob -> Outcome<string>): (r: Result<string, PyError>)
    ensures var job := TranscodeJob(stream, StreamPath(root, fileType, title, stream.format), fileType);
      && (r.Ok? <==> (fileType != "video" && fileType != "audio") || ffmpeg(job).Pass?)
      && (r.Err? ==> r.error == PyError(FfmpegError, ffmpeg(job).error))
    ensures r.Ok? ==> r.value == StreamPath(root, fileType, title, stream.format)
  {
    var path := StreamPath(root, fileType, title, stream.format);
    if fileType == "video" || fileType == "audio" then
      match ffmpeg(TranscodeJob(stream, path, fileType))
      case Pass => Ok(path)
      case Fail(msg) => Err(PyError(FfmpegError, msg))
    else Ok(path)
  }
}
