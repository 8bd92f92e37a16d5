/** The `/api/tiktok` handler (`download_tiktok`): it turns the upstream
    extraction service's answer into a `{title, thumbnail, download_url}`
    record or an HTTP error. The outbound POST and the JSON decoding are
    inputs (`Transport`, `Body`); everything after them is modelled here. */
module TikTok {
  import opened PyJson

  /** Origin put in front of links the upstream returns as bare paths. */
  const Origin: string := "https://www.tikwm.com"
  /** Title used when the upstream gives none. */
  const DefaultTitle: string := "TikTok Video"

  const UpstreamErrorDetail: string := "Upstream service error"
  const UnableDetail: string := "Unable to fetch video. Check the URL."
  const NoLinkDetail: string := "No download link available"

  /** What `resp.json()` produced: an exception (with its message) or a value. */
  datatype Body = Unparsable(message: string) | Parsed(value: Json)

  /** What `requests.post` produced: an exception (timeout, connection
      error, ...) with its message, or a response with a status and a body. */
  datatype Transport = Raised(message: string) | Response(status: int, body: Body)

  /** Exceptions that can leave the `try` block. */
  datatype Exception =
    | HttpException(status: int, detail: string)
    | OtherException(message: string)

  /** The dict the handler returns, before the framework checks it against
      the declared response model. `title` is whatever `or` produced. */
  datatype Returned = Returned(title: Json, thumbnail: string, downloadUrl: string)

  /** How the `try` block ends. */
  datatype Outcome = Return(value: Returned) | Raise(exc: Exception)

  datatype Result<T, E> = Ok(value: T) | Err(error: E)

  /** The declared response model `TikTokResponse`. */
  datatype TikTokResponse = TikTokResponse(title: string, thumbnail: string, downloadUrl: string)

  /** What the client receives instead of a `TikTokResponse`: an HTTP error
      raised by the handler, or a return value the response model rejects. */
  datatype Failure = HttpError(status: int, detail: string) | ResponseInvalid

  /** A link given as a path on the upstream host rather than as a URL. */
  predicate IsPath(s: string) {
    |s| > 0 && s[0] == '/'
  }

  /** The path-prefixing rule: a path gets the upstream origin in front. */
  function Normalize(s: string): (r: string)
    ensures !IsPath(r)
    ensures |s| <= |r| && r[|r| - |s|..] == s
    ensures r == s <==> !IsPath(s)
  {
    if IsPath(s) then Origin + s else s
  }

  /** `x.startswith("/")` on a truthy value that is not a string. */
  function NoStartsWith(j: Json): Outcome {
    Raise(OtherException(NoAttributeMessage(j, "startswith")))
  }

  /** The handler from the point where a decoded body is in hand
      (the checks on `code` and `data`, the title default, the link and
      cover fallbacks with prefixing, and the missing-link error). */
  function Extract(data: Json): (r: Outcome)
    ensures r.Raise? && r.exc.HttpException? ==>
      r.exc.status == 400 && r.exc.detail in {UnableDetail, NoLinkDetail}
    ensures r == Raise(HttpException(400, UnableDetail)) <==>
      !Truthy(data)
      || (data.Dict? && (!EqualsZero(Get(data.fields, "code")) || !Truthy(Get(data.fields, "data"))))
    ensures r.Return? ==> data.Dict? && Truthy(Get(data.fields, "data")) && EqualsZero(Get(data.fields, "code"))
    ensures r.Return? ==> r.value.downloadUrl != "" && !IsPath(r.value.downloadUrl) && !IsPath(r.value.thumbnail)
    ensures r.Return? ==> Truthy(r.value.title)
  {
    if !Truthy(data) then
      Raise(HttpException(400, UnableDetail))
    else if !data.Dict? then
      Raise(OtherException(NoAttributeMessage(data, "get")))
    else if !EqualsZero(Get(data.fields, "code")) || !Truthy(Get(data.fields, "data")) then
      Raise(HttpException(400, UnableDetail))
    else
      var d := Get(data.fields, "data");
      if !d.Dict? then
        Raise(OtherException(NoAttributeMessage(d, "get")))
      else
        var title := OrChain([Get(d.fields, "title"), Str(DefaultTitle)]);
        var play := OrChain([Get(d.fields, "play"), Get(d.fields, "play_addr")]);
        if Truthy(play) && !play.Str? then
          NoStartsWith(play)
        else
          var play := if Truthy(play) then Str(Normalize(play.s)) else play;
          var cover := OrChain([Get(d.fields, "cover"), Get(d.fields, "origin_cover"), Get(d.fields, "dynamic_cover")]);
          if Truthy(cover) && !cover.Str? then
            NoStartsWith(cover)
          else
            var cover := if Truthy(cover) then Str(Normalize(cover.s)) else cover;
            if !Truthy(play) then
              Raise(HttpException(400, NoLinkDetail))
            else
              Return(Returned(title, if Truthy(cover) then cover.s else "", play.s))
  }

  /** The body of the `try` block. */
  function TryBlock(t: Transport): (r: Outcome)
    ensures r.Raise? && r.exc.HttpException? ==> r.exc.status in {400, 502}
    ensures r == Raise(HttpException(502, UpstreamErrorDetail)) <==> t.Response? && t.status != 200
    ensures r.Return? ==> t.Response? && t.status == 200 && t.body.Parsed?
  {
    match t
    case Raised(message) => Raise(OtherException(message))
    case Response(status, body) =>
      if status != 200 then
        Raise(HttpException(502, UpstreamErrorDetail))
      else
        match body
        case Unparsable(message) => Raise(OtherException(message))
        case Parsed(data) => Extract(data)
  }

  /** The `except` clauses: typed HTTP errors are re-raised as they are,
      any other exception becomes a 500 carrying its message. */
  function Catch(o: Outcome): (r: Result<Returned, Exception>)
    ensures r.Err? ==> r.error.HttpException?
    ensures o.Return? <==> r.Ok?
    ensures o.Return? ==> r == Ok(o.value)
    ensures o.Raise? && o.exc.HttpException? ==> r == Err(o.exc)
    ensures o.Raise? && o.exc.OtherException? ==> r == Err(HttpException(500, o.exc.message))
  {
    match o
    case Return(v) => Ok(v)
    case Raise(HttpException(status, detail)) => Err(HttpException(status, detail))
    case Raise(OtherException(message)) => Err(HttpException(500, message))
  }

  /** Checking the returned dict against `TikTokResponse`: every field must
      be a string. */
  function Validate(v: Returned): (r: Result<TikTokResponse, Failure>)
    ensures r.Ok? <==> v.title.Str?
    ensures r.Ok? ==> r.value.title == v.title.s && r.value.thumbnail == v.thumbnail
                      && r.value.downloadUrl == v.downloadUrl
    ensures r.Err? ==> r.error == ResponseInvalid
  {
    if v.title.Str? then Ok(TikTokResponse(v.title.s, v.thumbnail, v.downloadUrl))
    else Err(ResponseInvalid)
  }

  /** One `/api/tiktok` request, given what the upstream call produced. */
  function DownloadTikTok(t: Transport): (r: Result<TikTokResponse, Failure>)
    ensures r.Ok? ==> r.value.title != "" && r.value.downloadUrl != ""
    ensures r.Ok? ==> !IsPath(r.value.downloadUrl) && !IsPath(r.value.thumbnail)
    ensures r.Err? && r.error.HttpError? ==> r.error.status in {400, 500, 502}
  {
    match Catch(TryBlock(t))
    case Err(e) => Err(HttpError(e.status, e.detail))
    case Ok(v) => Validate(v)
  }
}
