/** The download steps a job composes (app/download_utils.py): pick and save the best
    streams of one video through one Piped object, and mux audio with video. Exceptions
    of the steps become status values where the source catches them. */
module DownloadUtils {
  import opened PyValues
  import opened Config
  import opened StreamFiles
  import opened ProxyRecord
  import opened PipedApi

  datatype Status = OK | ERROR

  /** `(audio_path, video_path, title)` */
  datatype AvFiles = AvFiles(audioPath: string, videoPath: string, title: Json)

  /** `{"status": OK, "audio_path", "video_path", "title"}` or `{"status": ERROR, "error"}` */
  datatype DownloadStatus =
    | Downloaded(audioPath: string, videoPath: string, title: Json)
    | DownloadFailed(error: string)
  {
    function Status(): Status { if Downloaded? then OK else ERROR }
  }

  /** `{"status": OK, "info"}` or `{"status": ERROR, "error"}` */
  datatype CombineStatus = Combined(info: string) | CombineFailed(error: string) {
    function Status(): Status { if Combined? then OK else ERROR }
  }

  /** `download_av_from_piped` given the metadata its one Piped object resolved. */
  function DownloadAv(props: Result<Props, PyError>, root: string, ffmpeg: FfmpegJob -> Outcome<string>): Result<AvFiles, PyError> {
    var audio :- BestStream(props, "audioStreams");
    var video :- BestStream(props, "videoStreams");
    var audioPath :- SaveStream(props, root, audio, "audio", ffmpeg);
    var videoPath :- SaveStream(props, root, video, "video", ffmpeg);
    var title :- Lookup(props, "title");
    Ok(AvFiles(audioPath, videoPath, title))
  }

  /** On success both files come from the same metadata: the first audio entry saved as
      "audio" and the first video entry saved as "video", both named after its title. */
  lemma DownloadAvLayout(props: Result<Props, PyError>, root: string, ffmpeg: FfmpegJob -> Outcome<string>)
    requires DownloadAv(props, root, ffmpeg).Ok?
    ensures var files := DownloadAv(props, root, ffmpeg).value;
      && props.Ok? && "title" in props.value && files.title == props.value["title"]
      && BestStream(props, "audioStreams").Ok? && BestStream(props, "videoStreams").Ok?
      && files.audioPath == StreamPath(root, "audio", PyStr(files.title), BestStream(props, "audioStreams").value.format)
      && files.videoPath == StreamPath(root, "video", PyStr(files.title), BestStream(props, "videoStreams").value.format)
  {
  }

  /** `download_video_from_piped` given the resolved metadata. */
  function DownloadVideoOnly(props: Result<Props, PyError>, root: string, ffmpeg: FfmpegJob -> Outcome<string>): Result<(string, Json), PyError> {
    var video :- BestStream(props, "videoStreams");
    var videoPath :- SaveStream(props, root, video, "video", ffmpeg);
    var title :- Lookup(props, "title");
    Ok((videoPath, title))
  }

  /** On success the video file is the first video entry saved as "video" under the
      metadata's title, after a successful ffmpeg copy of its video codec. */
  lemma DownloadVideoOnlyLayout(props: Result<Props, PyError>, root: string, ffmpeg: FfmpegJob -> Outcome<string>)
    requires DownloadVideoOnly(props, root, ffmpeg).Ok?
    ensures var (path, title) := DownloadVideoOnly(props, root, ffmpeg).value;
      var video := BestStream(props, "videoStreams");
      && props.Ok? && "title" in props.value && title == props.value["title"]
      && video.Ok?
      && path == StreamPath(root, "video", PyStr(title), video.value.format)
      && ffmpeg(TranscodeJob(video.value, path, "video")) == Pass
  {
  }

  /** `download_audio_from_piped` given the resolved metadata: the audio stream goes
      through `download_video_stream`, so it is saved with file type "video". */
  function DownloadAudioOnly(props: Result<Props, PyError>, root: string, ffmpeg: FfmpegJob -> Outcome<string>): Result<(string, Json), PyError> {
    var audio :- BestStream(props, "audioStreams");
    var audioPath :- SaveStream(props, root, audio, "video", ffmpeg);
    var title :- Lookup(props, "title");
    Ok((audioPath, title))
  }

  /** The audio-only download lands in the video directory with the "video_" prefix,
      and its ffmpeg run copies the video codec rather than the audio codec. */
  lemma AudioOnlyUsesVideoLayout(props: Result<Props, PyError>, root: string, ffmpeg: FfmpegJob -> Outcome<string>)
    requires DownloadAudioOnly(props, root, ffmpeg).Ok?
    ensures var (path, title) := DownloadAudioOnly(props, root, ffmpeg).value;
      var audio := BestStream(props, "audioStreams").value;
      && path == StreamPath(root, "video", PyStr(title), audio.format)
      && path[..|root| + 7] == root + "/video/"
      && ffmpeg(TranscodeJob(audio, path, "video")) == Pass
      && TranscodeJob(audio, path, "video").acodec == None
  {
    var (path, title) := DownloadAudioOnly(props, root, ffmpeg).value;
    StreamPathRoundTrip(root, "video", PyStr(title), BestStream(props, "audioStreams").value.format);
  }

  /** `download_piped_video`'s exception handling: never raises. */
  function StatusOf(av: Result<AvFiles, PyError>): (d: DownloadStatus)
    ensures d.Status() == OK <==> av.Ok?
    ensures av.Ok? ==> d == Downloaded(av.value.audioPath, av.value.videoPath, av.value.title)
    ensures av.Err? ==> d == DownloadFailed(av.error.message)
  {
    match av
    case Ok(files) => Downloaded(files.audioPath, files.videoPath, files.title)
    case Err(e) => DownloadFailed(e.message)
  }

  /** The metadata request every download of `videoId` issues. */
  function MetadataUrl(settings: Settings, videoId: string, fastest: Proxy): string
    reads fastest
  {
    StreamsUrl(settings.defaultProxy + "/streams/", videoId, fastest.url)
  }

  /** `download_av_from_piped(video_id)`: one fresh Piped object, so exactly one request. */
  method DownloadAvFromPiped(videoId: string, settings: Settings, fastest: Proxy,
                             server: string -> FetchResult, ffmpeg: FfmpegJob -> Outcome<string>)
    returns (r: Result<AvFiles, PyError>, ghost requests: seq<string>)
    ensures requests == [MetadataUrl(settings, videoId, fastest)]
    ensures r == DownloadAv(FetchOutcome(server(MetadataUrl(settings, videoId, fastest))), settings.downloadPath, ffmpeg)
  {
    var piped := new Piped(videoId, settings.defaultProxy);
    var audio := piped.GetBestAudioStream(server, fastest);
    if audio.Err? {
      return Err(audio.error), piped.requests;
    }
    var video := piped.GetBestVideoStream(server, fastest);
    if video.Err? {
      return Err(video.error), piped.requests;
    }
    var audioPath := piped.DownloadAudioStream(audio.value, server, fastest, settings.downloadPath, ffmpeg);
    if audioPath.Err? {
      return Err(audioPath.error), piped.requests;
    }
    var videoPath := piped.DownloadVideoStream(video.value, server, fastest, settings.downloadPath, ffmpeg);
    if videoPath.Err? {
      return Err(videoPath.error), piped.requests;
    }
    // Saving a stream already read the title, so reading it again cannot fail.
    var title := piped.Title(server, fastest);
    r, requests := Ok(AvFiles(audioPath.value, videoPath.value, title.value)), piped.requests;
  }

  /** `download_video_from_piped(video_id)` */
  method DownloadVideoFromPiped(videoId: string, settings: Settings, fastest: Proxy,
                                server: string -> FetchResult, ffmpeg: FfmpegJob -> Outcome<string>)
    returns (r: Result<(string, Json), PyError>, ghost requests: seq<string>)
    ensures requests == [MetadataUrl(settings, videoId, fastest)]
    ensures r == DownloadVideoOnly(FetchOutcome(server(MetadataUrl(settings, videoId, fastest))), settings.downloadPath, ffmpeg)
  {
    var piped := new Piped(videoId, settings.defaultProxy);
    var video := piped.GetBestVideoStream(server, fastest);
    if video.Err? {
      return Err(video.error), piped.requests;
    }
    var videoPath := piped.DownloadVideoStream(video.value, server, fastest, settings.downloadPath, ffmpeg);
    if videoPath.Err? {
      return Err(videoPath.error), piped.requests;
    }
    // Saving a stream already read the title, so reading it again cannot fail.
    var title := piped.Title(server, fastest);
    r, requests := Ok((videoPath.value, title.value)), piped.requests;
  }

  /** `download_audio_from_piped(video_id)` */
  method DownloadAudioFromPiped(videoId: string, settings: Settings, fastest: Proxy,
                                server: string -> FetchResult, ffmpeg: FfmpegJob -> Outcome<string>)
    returns (r: Result<(string, Json), PyError>, ghost requests: seq<string>)
    ensures requests == [MetadataUrl(settings, videoId, fastest)]
    ensures r == DownloadAudioOnly(FetchOutcome(server(MetadataUrl(settings, videoId, fastest))), settings.downloadPath, ffmpeg)
  {
    var piped := new Piped(videoId, settings.defaultProxy);
    var audio := piped.GetBestAudioStream(server, fastest);
    if audio.Err? {
      return Err(audio.error), piped.requests;
    }
    var audioPath := piped.DownloadVideoStream(audio.value, server, fastest, settings.downloadPath, ffmpeg);
    if audioPath.Err? {
      return Err(audioPath.error), piped.requests;
    }
    // Saving a stream already read the title, so reading it again cannot fail.
    var title := piped.Title(server, fastest);
    r, requests := Ok((audioPath.value, title.value)), piped.requests;
  }

  /** `download_piped_video(video_id)`: the result of `download_av_from_piped` as a
      status value; an exception becomes ERROR carrying `str(e)`. */
  method DownloadPipedVideo(videoId: string, settings: Settings, fastest: Proxy,
                            server: string -> FetchResult, ffmpeg: FfmpegJob -> Outcome<string>)
    returns (r: DownloadStatus)
    ensures r == StatusOf(DownloadAv(FetchOutcome(server(MetadataUrl(settings, videoId, fastest))), settings.downloadPath, ffmpeg))
  {
    var av, _ := DownloadAvFromPiped(videoId, settings, fastest, server, ffmpeg);
    match av {
      case Ok(files) => r := Downloaded(files.audioPath, files.videoPath, files.title);
      case Err(e) => r := DownloadFailed(e.message);
    }
  }

  /** Where `combine_audio_video` asks ffmpeg to write. */
  function CompletedPath(root: string, title: Json, formatOut: string): string {
    root + "/completed/" + PyStr(title) + "." + formatOut
  }

  /** The mux run: audio and video in, codecs as given, one output container. */
  function MuxJob(root: string, audioPath: string, videoPath: string, title: Json,
                  formatOut: string, vcodecOut: string, acodecOut: string): FfmpegJob {
    FfmpegJob([audioPath, videoPath], CompletedPath(root, title, formatOut), formatOut, Some(vcodecOut), Some(acodecOut))
  }

  /** `combine_audio_video`: never raises; reports `{path}/{title}.{format_out}`. */
  function CombineAudioVideo(root: string, audioPath: string, videoPath: string, title: Json,
                             ffmpeg: FfmpegJob -> Outcome<string>,
                             formatOut: string := "mp4", vcodecOut: string := "copy", acodecOut: string := "copy"): (r: CombineStatus)
    ensures var job := MuxJob(root, audioPath, videoPath, title, formatOut, vcodecOut, acodecOut);
      && (r.Status() == OK <==> ffmpeg(job).Pass?)
      && (r.CombineFailed? ==> r.error == ffmpeg(job).error)
    ensures r.Combined? ==> r.info == root + "/" + PyStr(title) + "." + formatOut
  {
    match ffmpeg(MuxJob(root, audioPath, videoPath, title, formatOut, vcodecOut, acodecOut))
    case Fail(msg) => CombineFailed(msg)
    case Pass => Combined(root + "/" + PyStr(title) + "." + formatOut)
  }

  /** With the defaults the mux writes an mp4 and copies both codecs, and the path it
      reports is never the path it wrote (the "completed" directory is missing). */
  lemma CombineDefaults(root: string, audioPath: string, videoPath: string, title: Json, ffmpeg: FfmpegJob -> Outcome<string>)
    ensures var job := MuxJob(root, audioPath, videoPath, title, "mp4", "copy", "copy");
      && job.format == "mp4" && job.vcodec == Some("copy") && job.acodec == Some("copy")
      && job.output == root + "/completed/" + PyStr(title) + ".mp4"
      && (CombineAudioVideo(root, audioPath, videoPath, title, ffmpeg).Status() == OK <==> ffmpeg(job).Pass?)
  {
  }

  lemma ReportedPathIsNotWritten(root: string, audioPath: string, videoPath: string, title: Json,
                                 ffmpeg: FfmpegJob -> Outcome<string>, formatOut: string, vcodecOut: string, acodecOut: string)
    requires CombineAudioVideo(root, audioPath, videoPath, title, ffmpeg, formatOut, vcodecOut, acodecOut).Combined?
    ensures CombineAudioVideo(root, audioPath, videoPath, title, ffmpeg, formatOut, vcodecOut, acodecOut).info
      != MuxJob(root, audioPath, videoPath, title, formatOut, vcodecOut, acodecOut).output
  {
    var info := CombineAudioVideo(root, audioPath, videoPath, title, ffmpeg, formatOut, vcodecOut, acodecOut).info;
    assert |info| + 10 == |CompletedPath(root, title, formatOut)|;
  }
}
