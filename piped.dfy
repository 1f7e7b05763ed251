/** The per-video client of the relay's streams endpoint (app/Piped.py): metadata is
    fetched on first access and kept on the object; every accessor reads that cache. */
module PipedApi {
  import opened PyValues
  import opened StreamFiles
  import opened ProxyRecord

  /** The decoded metadata dict. */
  type Props = map<string, Json>

  /** What `httpx.get(url)` produced: a transport exception, or a response whose body
      decodes as JSON (Some) or not (None). The status code is never inspected. */
  datatype FetchResult = TransportError(message: string) | Response(body: Option<Json>)

  const InitialBaseUrl: string := "https://pipedapi.kavin.rocks"

  /** `{stream_url}{video_id}?instance={instance}` */
  function StreamsUrl(streamUrl: string, videoId: string, instanceUrl: string): string {
    streamUrl + videoId + "?instance=" + instanceUrl
  }

  /** Bodies `dict.update` accepts: a dict, or an empty list or string (which add nothing). */
  predicate Updatable(body: Json) {
    body.JObj? || body == JArr([]) || body == JStr("")
  }

  /** `d = dict(); d.update(httpx.get(url).json())` as a value or the exception it raises. */
  function FetchOutcome(resp: FetchResult): (r: Result<Props, PyError>)
    ensures r.Ok? <==> resp.Response? && resp.body.Some? && Updatable(resp.body.value)
    ensures r.Ok? ==> r.value == if resp.body.value.JObj? then resp.body.value.fields else map[]
    ensures resp.TransportError? ==> r == Err(PyError(HttpError, resp.message))
    ensures resp == Response(None) ==> r.Err? && r.error.kind == JsonDecodeError
  {
    match resp
    case TransportError(msg) => Err(PyError(HttpError, msg))
    case Response(None) => Err(PyError(JsonDecodeError, "Expecting value: line 1 column 1 (char 0)"))
    case Response(Some(body)) =>
      if body.JObj? then Ok(body.fields)
      else if Updatable(body) then Ok(map[])
      else if body.JArr? || body.JStr? then
        Err(PyError(ValueError, "dictionary update sequence element #0 has length 1; 2 is required"))
      else Err(PyError(TypeError, "'" + TypeName(body) + "' object is not iterable"))
  }

  /** What the cache holds after the first access: the empty dict is stored before the
      request is made, so a fetch that raises leaves `{}` behind. */
  function CacheAfterFetch(resp: FetchResult): (c: Props)
    ensures FetchOutcome(resp).Ok? ==> c == FetchOutcome(resp).value
    ensures FetchOutcome(resp).Err? ==> c == map[]
  {
    match FetchOutcome(resp)
    case Ok(m) => m
    case Err(_) => map[]
  }

  /** `video_properties`: the cached dict if there is one, otherwise the fetch. */
  function Resolve(cached: Option<Props>, resp: FetchResult): Result<Props, PyError> {
    if cached.Some? then Ok(cached.value) else FetchOutcome(resp)
  }

  function CacheAfter(cached: Option<Props>, resp: FetchResult): Props {
    if cached.Some? then cached.value else CacheAfterFetch(resp)
  }

  /** `video_properties[key]` */
  function Lookup(props: Result<Props, PyError>, key: string): Result<Json, PyError> {
    var m :- props;
    Subscript(JObj(m), key)
  }

  /** `Stream(video_properties[key][0])` */
  function BestStream(props: Result<Props, PyError>, key: string): Result<Stream, PyError> {
    var list :- Lookup(props, key);
    var first :- First(list);
    FromJson(first)
  }

  /** The best stream is built from element 0 of the manifest's list, and an empty list
      raises IndexError. */
  lemma BestStreamIsFirst(props: Result<Props, PyError>, key: string)
    ensures BestStream(props, key).Ok? ==>
      && props.Ok? && key in props.value && props.value[key].JArr? && props.value[key].items != []
      && BestStream(props, key) == FromJson(props.value[key].items[0])
    ensures props.Ok? && key in props.value && props.value[key] == JArr([]) ==>
      BestStream(props, key) == Err(PyError(IndexError, "list index out of range"))
  {
  }

  /** `download_stream(stream, title=video_properties["title"], file_type)` */
  function SaveStream(props: Result<Props, PyError>, root: string, stream: Stream, fileType: string,
                      ffmpeg: FfmpegJob -> Outcome<string>): Result<string, PyError> {
    var title :- Lookup(props, "title");
    DownloadStream(root, stream, PyStr(title), fileType, ffmpeg)
  }

  class Piped {
    const videoId: string
    /** `{default_proxy}/streams/`, fixed at construction. */
    const streamUrl: string
    var baseUrl: string
    /** `_video_properties`: None until the first access. */
    var properties: Option<Props>
    /** Every metadata request this object has issued. */
    ghost var requests: seq<string>

    /** The cache is filled by exactly the one request ever made. */
    ghost predicate Valid()
      reads this
    {
      && (properties.None? <==> requests == [])
      && |requests| <= 1
    }

    constructor (videoId: string, defaultProxy: string)
      ensures Valid()
      ensures this.videoId == videoId && streamUrl == defaultProxy + "/streams/"
      ensures baseUrl == InitialBaseUrl && properties == None && requests == []
    {
      this.videoId := videoId;
      streamUrl := defaultProxy + "/streams/";
      baseUrl := InitialBaseUrl;
      properties := None;
      requests := [];
    }

    /** The metadata URL; the instance is read from FASTEST_PROXY when the request is made. */
    function RequestUrl(instance: Proxy): string
      reads instance
    {
      StreamsUrl(streamUrl, videoId, instance.url)
    }

    /** `video_properties`: the first access issues one request and caches its dict;
        later accesses return the cache and issue none. */
    method VideoProperties(server: string -> FetchResult, instance: Proxy) returns (r: Result<Props, PyError>)
      requires Valid()
      modifies this`properties, this`requests
      ensures Valid()
      ensures r == Resolve(old(properties), server(RequestUrl(instance)))
      ensures properties == Some(CacheAfter(old(properties), server(RequestUrl(instance))))
      ensures requests == old(requests) + if old(properties).None? then [RequestUrl(instance)] else []
    {
      if properties.Some? {
        return Ok(properties.value);
      }
      properties := Some(map[]);
      var url := RequestUrl(instance);
      requests := requests + [url];
      r := FetchOutcome(server(url));
      if r.Ok? {
        properties := Some(r.value);
      }
    }

    /** `audio_streams` */
    method AudioStreams(server: string -> FetchResult, instance: Proxy) returns (r: Result<Json, PyError>)
      requires Valid()
      modifies this`properties, this`requests
      ensures Valid()
      ensures r == Lookup(Resolve(old(properties), server(RequestUrl(instance))), "audioStreams")
      ensures properties == Some(CacheAfter(old(properties), server(RequestUrl(instance))))
      ensures requests == old(requests) + if old(properties).None? then [RequestUrl(instance)] else []
    {
      if properties.Some? {
        return Subscript(JObj(properties.value), "audioStreams");
      }
      var props := VideoProperties(server, instance);
      r := Lookup(props, "audioStreams");
    }

    /** `video_streams` */
    method VideoStreams(server: string -> FetchResult, instance: Proxy) returns (r: Result<Json, PyError>)
      requires Valid()
      modifies this`properties, this`requests
      ensures Valid()
      ensures r == Lookup(Resolve(old(properties), server(RequestUrl(instance))), "videoStreams")
      ensures properties == Some(CacheAfter(old(properties), server(RequestUrl(instance))))
      ensures requests == old(requests) + if old(properties).None? then [RequestUrl(instance)] else []
    {
      var props := VideoProperties(server, instance);
      r := Lookup(props, "videoStreams");
    }

    /** `title` */
    method Title(server: string -> FetchResult, instance: Proxy) returns (r: Result<Json, PyError>)
      requires Valid()
      modifies this`properties, this`requests
      ensures Valid()
      ensures r == Lookup(Resolve(old(properties), server(RequestUrl(instance))), "title")
      ensures properties == Some(CacheAfter(old(properties), server(RequestUrl(instance))))
      ensures requests == old(requests) + if old(properties).None? then [RequestUrl(instance)] else []
    {
      if properties.Some? {
        return Subscript(JObj(properties.value), "title");
      }
      var props := VideoProperties(server, instance);
      r := Lookup(props, "title");
    }

    /** `description` */
    method Description(server: string -> FetchResult, instance: Proxy) returns (r: Result<Json, PyError>)
      requires Valid()
      modifies this`properties, this`requests
      ensures Valid()
      ensures r == Lookup(Resolve(old(properties), server(RequestUrl(instance))), "description")
      ensures properties == Some(CacheAfter(old(properties), server(RequestUrl(instance))))
      ensures requests == old(requests) + if old(properties).None? then [RequestUrl(instance)] else []
    {
      if properties.Some? {
        return Subscript(JObj(properties.value), "description");
      }
      var props := VideoProperties(server, instance);
      r := Lookup(props, "description");
    }

    /** `set_base_url`: FASTEST_PROXY is always bound, so its url is stored and returned. */
    method SetBaseUrl(fastest: Proxy) returns (r: string)
      modifies this`baseUrl
      ensures r == fastest.url && baseUrl == fastest.url
    {
      baseUrl := fastest.url;
      r := baseUrl;
    }

    /** `get_best_audio_stream`: a Stream built from element 0 of `audio_streams`. */
    method GetBestAudioStream(server: string -> FetchResult, instance: Proxy) returns (r: Result<Stream, PyError>)
      requires Valid()
      modifies this`properties, this`requests
      ensures Valid()
      ensures r == BestStream(Resolve(old(properties), server(RequestUrl(instance))), "audioStreams")
      ensures properties == Some(CacheAfter(old(properties), server(RequestUrl(instance))))
      ensures requests == old(requests) + if old(properties).None? then [RequestUrl(instance)] else []
    {
      var list := AudioStreams(server, instance);
      if list.Err? {
        return Err(list.error);
      }
      var first := First(list.value);
      if first.Err? {
        return Err(first.error);
      }
      r := FromJson(first.value);
    }

    /** `get_best_video_stream`: a Stream built from element 0 of `video_streams`. */
    method GetBestVideoStream(server: string -> FetchResult, instance: Proxy) returns (r: Result<Stream, PyError>)
      requires Valid()
      modifies this`properties, this`requests
      ensures Valid()
      ensures r == BestStream(Resolve(old(properties), server(RequestUrl(instance))), "videoStreams")
      ensures properties == Some(CacheAfter(old(properties), server(RequestUrl(instance))))
      ensures requests == old(requests) + if old(properties).None? then [RequestUrl(instance)] else []
    {
      var list := VideoStreams(server, instance);
      if list.Err? {
        return Err(list.error);
      }
      var first := First(list.value);
      if first.Err? {
        return Err(first.error);
      }
      r := FromJson(first.value);
    }

    /** `download_audio_stream`: saves `stream` as file type "audio" under the cached title. */
    method DownloadAudioStream(stream: Stream, server: string -> FetchResult, instance: Proxy, root: string,
                               ffmpeg: FfmpegJob -> Outcome<string>) returns (r: Result<string, PyError>)
      requires Valid()
      modifies this`properties, this`requests
      ensures Valid()
      ensures r == SaveStream(Resolve(old(properties), server(RequestUrl(instance))), root, stream, "audio", ffmpeg)
      ensures properties == Some(CacheAfter(old(properties), server(RequestUrl(instance))))
      ensures requests == old(requests) + if old(properties).None? then [RequestUrl(instance)] else []
    {
      var title := Title(server, instance);
      if title.Err? {
        return Err(title.error);
      }
      r := DownloadStream(root, stream, PyStr(title.value), "audio", ffmpeg);
    }

    /** `download_video_stream`: saves `stream` as file type "video" under the cached title. */
    method DownloadVideoStream(stream: Stream, server: string -> FetchResult, instance: Proxy, root: string,
                               ffmpeg: FfmpegJob -> Outcome<string>) returns (r: Result<string, PyError>)
      requires Valid()
      modifies this`properties, this`requests
      ensures Valid()
      ensures r == SaveStream(Resolve(old(properties), server(RequestUrl(instance))), root, stream, "video", ffmpeg)
      ensures properties == Some(CacheAfter(old(properties), server(RequestUrl(instance))))
      ensures requests == old(requests) + if old(properties).None? then [RequestUrl(instance)] else []
    {
      var title := Title(server, instance);
      if title.Err? {
        return Err(title.error);
      }
      r := DownloadStream(root, stream, PyStr(title.value), "video", ffmpeg);
    }
  }
}
