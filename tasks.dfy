/** The Celery side of a job (app/tasks.py): the Redis URLs of the broker and the result
    backend, and what each task body decides after its download step: retry, return a
    value, or let an exception escape. Celery's own retry machinery is not modelled. */
module Tasks {
  import opened PyValues
  import opened Config
  import opened StreamFiles
  import opened ProxyRecord
  import opened PipedApi
  import opened DownloadUtils

  /** `redis_version`: plain Redis unless TLS is configured. */
  function RedisScheme(tls: int): (s: string)
    ensures s == "redis" <==> tls == 0
    ensures s == "rediss" <==> tls != 0
  {
    if tls == 0 then "redis" else "rediss"
  }

  /** The ':' between user and password, present only with a password. */
  function ColonIf(password: string): string {
    if password != "" then ":" else ""
  }

  /** The '@' between credentials and host, present only with a password. */
  function AtIf(password: string): string {
    if password != "" then "@" else ""
  }

  /** `{scheme}://{user}[:{password}@]{host}:{port}/{db}` */
  function RedisUrl(scheme: string, user: string, password: string, host: string, port: int, db: int): string {
    scheme + "://" + user + ColonIf(password) + password + AtIf(password) + host + ":" + Decimal(port) + "/" + Decimal(db)
  }

  function BrokerUrl(settings: Settings): string {
    RedisUrl(RedisScheme(settings.redisTls), settings.brokerUser, settings.brokerPassword,
             settings.brokerHost, settings.brokerPort, settings.brokerDb)
  }

  function BackendUrl(settings: Settings): string {
    RedisUrl(RedisScheme(settings.redisTls), settings.backendUser, settings.backendPassword,
             settings.backendHost, settings.backendPort, settings.backendDb)
  }

  /** How often a character occurs in a Redis URL, piece by piece. */
  lemma RedisUrlCount(c: char, scheme: string, user: string, password: string, host: string, port: int, db: int)
    ensures Count(c, RedisUrl(scheme, user, password, host, port, db))
      == Count(c, scheme) + Count(c, "://") + Count(c, user) + Count(c, ColonIf(password)) + Count(c, password)
       + Count(c, AtIf(password)) + Count(c, host) + Count(c, ":") + Count(c, Decimal(port))
       + Count(c, "/") + Count(c, Decimal(db))
  {
    var p1 := scheme + "://";
    var p2 := p1 + user;
    var p3 := p2 + ColonIf(password);
    var p4 := p3 + password;
    var p5 := p4 + AtIf(password);
    var p6 := p5 + host;
    var p7 := p6 + ":";
    var p8 := p7 + Decimal(port);
    var p9 := p8 + "/";
    CountConcat(c, scheme, "://");
    CountConcat(c, p1, user);
    CountConcat(c, p2, ColonIf(password));
    CountConcat(c, p3, password);
    CountConcat(c, p4, AtIf(password));
    CountConcat(c, p5, host);
    CountConcat(c, p6, ":");
    CountConcat(c, p7, Decimal(port));
    CountConcat(c, p8, "/");
    CountConcat(c, p9, Decimal(db));
  }

  /** Besides the '@' and ':' the settings themselves contain, the URL has one '@' and one
      ':' more exactly when the password is non-empty; "://" and the port separator
      account for two further ':'. */
  lemma RedisUrlSeparators(scheme: string, user: string, password: string, host: string, port: int, db: int)
    ensures Count('@', RedisUrl(scheme, user, password, host, port, db))
      == Count('@', scheme) + Count('@', user) + Count('@', password) + Count('@', host)
       + (if password != "" then 1 else 0)
    ensures Count(':', RedisUrl(scheme, user, password, host, port, db))
      == Count(':', scheme) + Count(':', user) + Count(':', password) + Count(':', host)
       + (if password != "" then 3 else 2)
  {
    RedisUrlCount('@', scheme, user, password, host, port, db);
    RedisUrlCount(':', scheme, user, password, host, port, db);
    DecimalHasNoSeparators(port);
    DecimalHasNoSeparators(db);
    assert "://"[..2] == ":/" && ":/"[..1] == ":" && ":"[..0] == [];
  }

  /** With no password the user name runs straight into the host name. */
  lemma EmptyPasswordJoinsUserAndHost(scheme: string, user: string, host: string, port: int, db: int)
    ensures var url := RedisUrl(scheme, user, "", host, port, db);
      var start := |scheme| + 3;
      && start + |user| + |host| <= |url|
      && url[start .. start + |user| + |host|] == user + host
  {
    var url := RedisUrl(scheme, user, "", host, port, db);
    var start := |scheme| + 3;
    assert url == (scheme + "://") + (user + host) + (":" + Decimal(port) + "/" + Decimal(db));
  }

  /** The default Redis port renders as its four digits. */
  lemma DefaultPortDigits()
    ensures Decimal(6379) == "6379"
  {
    assert Digits(6) == "6";
    assert Digits(63) == Digits(6) + "3";
    assert Digits(637) == Digits(63) + "7";
    assert Digits(6379) == Digits(637) + "9";
  }

  /** The shipped settings talk to the compose file's Redis with an empty user and the
      default password, the broker on db 0 and the backend on db 1. */
  lemma DefaultUrls()
    ensures BrokerUrl(Defaults) == "redis" + "://" + ":" + "pass123" + "@" + "celery-redis" + ":" + "6379" + "/" + "0"
    ensures BackendUrl(Defaults) == "redis" + "://" + ":" + "pass123" + "@" + "celery-redis" + ":" + "6379" + "/" + "1"
  {
    DefaultPortDigits();
    assert Decimal(0) == "0" && Decimal(1) == "1";
    assert "redis" + "://" + "" == "redis" + "://";
  }

  /** What a task body ends in: `self.retry(exc=...)` with the error text, a returned
      value, or an exception that escapes the body. */
  datatype TaskOutcome<+T> = Retry(error: string) | Return(value: T) | Raise(exception: PyError)

  /** The part of `download_piped_video_task` after the download: a failed download is
      retried, otherwise the two files are muxed and a failed mux is retried too. */
  function AfterDownload(d: DownloadStatus, root: string, ffmpeg: FfmpegJob -> Outcome<string>): (r: TaskOutcome<CombineStatus>)
    ensures d.DownloadFailed? ==> r == Retry(d.error)
    ensures d.Downloaded? ==>
      var combined := CombineAudioVideo(root, d.audioPath, d.videoPath, d.title, ffmpeg);
      && (r.Retry? <==> combined.Status() == ERROR)
      && (r.Retry? ==> r.error == combined.error)
      && (r.Return? ==> r.value == combined && r.value.Status() == OK)
    ensures !r.Raise?
  {
    match d
    case DownloadFailed(e) => Retry(e)
    case Downloaded(audioPath, videoPath, title) =>
      var combined := CombineAudioVideo(root, audioPath, videoPath, title, ffmpeg);
      if combined.Status() == ERROR then Retry(combined.error) else Return(combined)
  }

  /** A failed download never reaches ffmpeg: the outcome is the same whatever it would do. */
  lemma FailedDownloadSkipsMux(d: DownloadStatus, root: string, f: FfmpegJob -> Outcome<string>, g: FfmpegJob -> Outcome<string>)
    requires d.DownloadFailed?
    ensures AfterDownload(d, root, f) == AfterDownload(d, root, g)
  {
  }

  /** `download_piped_video_task(payload)` on the settings, the metadata server seen
      through the fastest proxy's url, and ffmpeg. */
  function VideoTask(payload: map<string, string>, settings: Settings, fastestUrl: string,
                     server: string -> FetchResult, ffmpeg: FfmpegJob -> Outcome<string>): (r: TaskOutcome<CombineStatus>)
    ensures r.Raise? <==> "video_id" !in payload
    ensures r.Raise? ==> r.exception == KeyErrorFor("video_id")
  {
    if "video_id" !in payload then Raise(KeyErrorFor("video_id"))
    else
      var url := StreamsUrl(settings.defaultProxy + "/streams/", payload["video_id"], fastestUrl);
      var d := StatusOf(DownloadAv(FetchOutcome(server(url)), settings.downloadPath, ffmpeg));
      AfterDownload(d, settings.downloadPath, ffmpeg)
  }

  /** A video task that returns hands back a successful mux of the two files it
      downloaded, reporting them under the download directory. */
  lemma VideoTaskReturnsMux(payload: map<string, string>, settings: Settings, fastestUrl: string,
                            server: string -> FetchResult, ffmpeg: FfmpegJob -> Outcome<string>)
    ensures var r := VideoTask(payload, settings, fastestUrl, server, ffmpeg);
      r.Return? ==>
        && "video_id" in payload
        && var url := StreamsUrl(settings.defaultProxy + "/streams/", payload["video_id"], fastestUrl);
           var av := DownloadAv(FetchOutcome(server(url)), settings.downloadPath, ffmpeg);
           && av.Ok?
           && ffmpeg(MuxJob(settings.downloadPath, av.value.audioPath, av.value.videoPath, av.value.title, "mp4", "copy", "copy")) == Pass
           && r.value == Combined(settings.downloadPath + "/" + PyStr(av.value.title) + ".mp4")
  {
    if "video_id" in payload {
      var url := StreamsUrl(settings.defaultProxy + "/streams/", payload["video_id"], fastestUrl);
      var av := DownloadAv(FetchOutcome(server(url)), settings.downloadPath, ffmpeg);
      assert VideoTask(payload, settings, fastestUrl, server, ffmpeg) == AfterDownload(StatusOf(av), settings.downloadPath, ffmpeg);
    }
  }

  /** `download_piped_video_task(payload)` */
  method DownloadPipedVideoTask(payload: map<string, string>, settings: Settings, fastest: Proxy,
                                server: string -> FetchResult, ffmpeg: FfmpegJob -> Outcome<string>)
    returns (r: TaskOutcome<CombineStatus>)
    ensures r == VideoTask(payload, settings, fastest.url, server, ffmpeg)
  {
    if "video_id" !in payload {
      return Raise(KeyErrorFor("video_id"));
    }
    var d := DownloadPipedVideo(payload["video_id"], settings, fastest, server, ffmpeg);
    if d.Status() == ERROR {
      return Retry(d.error);
    }
    var combined := CombineAudioVideo(settings.downloadPath, d.audioPath, d.videoPath, d.title, ffmpeg);
    if combined.Status() == ERROR {
      return Retry(combined.error);
    }
    r := Return(combined);
  }

  /** The try block of `download_piped_audio_task`: the payload lookup is inside it. */
  function AudioAttempt(payload: map<string, string>, settings: Settings, fastestUrl: string,
                        server: string -> FetchResult, ffmpeg: FfmpegJob -> Outcome<string>): (r: Result<(string, Json), PyError>)
    ensures "video_id" !in payload ==> r == Err(KeyErrorFor("video_id"))
  {
    if "video_id" !in payload then Err(KeyErrorFor("video_id"))
    else
      var url := StreamsUrl(settings.defaultProxy + "/streams/", payload["video_id"], fastestUrl);
      DownloadAudioOnly(FetchOutcome(server(url)), settings.downloadPath, ffmpeg)
  }

  /** After the try block: only a failure on the attempt numbered `retry_max` asks for a
      retry; every other run, failed or not, returns status OK. */
  function AudioTaskDecision(attempt: Result<(string, Json), PyError>, retries: int, retryMax: int): (r: TaskOutcome<Status>)
    ensures r.Retry? <==> attempt.Err? && retries == retryMax
    ensures r.Retry? ==> r.error == attempt.error.message
    ensures !r.Retry? ==> r == Return(OK)
  {
    if attempt.Err? && retries == retryMax then Retry(attempt.error.message) else Return(OK)
  }

  /** A failure before the last attempt is swallowed: the task reports OK. */
  lemma AudioFailureBeforeLastAttemptReportsOk(e: PyError, retries: int, retryMax: int)
    requires retries != retryMax
    ensures AudioTaskDecision(Err(e), retries, retryMax) == Return(OK)
  {
  }

  /** `download_piped_audio_task(payload)` on its `self.request.retries`. */
  method DownloadPipedAudioTask(payload: map<string, string>, settings: Settings, retries: int, fastest: Proxy,
                                server: string -> FetchResult, ffmpeg: FfmpegJob -> Outcome<string>)
    returns (r: TaskOutcome<Status>)
    ensures r == AudioTaskDecision(AudioAttempt(payload, settings, fastest.url, server, ffmpeg), retries, settings.retryMax)
  {
    var attempt: Result<(string, Json), PyError>;
    ghost var requests: seq<string>;
    if "video_id" !in payload {
      attempt := Err(KeyErrorFor("video_id"));
    } else {
      attempt, requests := DownloadAudioFromPiped(payload["video_id"], settings, fastest, server, ffmpeg);
    }
    if attempt.Err? && retries == settings.retryMax {
      return Retry(attempt.error.message);
    }
    r := Return(OK);
  }
}
