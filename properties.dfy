/** What `/api/tiktok` promises its callers, stated against the model of the
    handler: error classification and its precedence, the title default, the
    fallback order of the link candidates, and the path-prefixing rule. */
module TikTokProperties {
  import opened PyJson
  import opened TikTok

  // ---- Reference definitions, written case by case ----

  /** The upstream answered 200 with an object whose `code` equals 0 and
      whose `data` is a non-empty object. */
  predicate Fetched(t: Transport) {
    t.Response? && t.status == 200 && t.body.Parsed? && t.body.value.Dict?
    && EqualsZero(Get(t.body.value.fields, "code"))
    && var data := Get(t.body.value.fields, "data");
       data.Dict? && |data.fields| > 0
  }

  /** The fields of the `data` object of a fetched answer. */
  function Data(t: Transport): map<string, Json>
    requires Fetched(t)
  {
    Get(t.body.value.fields, "data").fields
  }

  /** The answer was a decoded value that reports a failure or carries no
      data: falsy, or an object whose `code` is not 0 or whose `data` is
      falsy. */
  predicate ReportsFailure(data: Json) {
    !Truthy(data)
    || (data.Dict? && (!EqualsZero(Get(data.fields, "code")) || !Truthy(Get(data.fields, "data"))))
  }

  /** The download-link candidate: `play` when non-empty, else `play_addr`. */
  function LinkCandidate(d: map<string, Json>): Json {
    if Truthy(Get(d, "play")) then Get(d, "play") else Get(d, "play_addr")
  }

  /** The thumbnail candidate: the first non-empty of `cover`,
      `origin_cover`, `dynamic_cover`. */
  function CoverCandidate(d: map<string, Json>): Json {
    if Truthy(Get(d, "cover")) then Get(d, "cover")
    else if Truthy(Get(d, "origin_cover")) then Get(d, "origin_cover")
    else Get(d, "dynamic_cover")
  }

  /** A usable download link is present. */
  predicate HasLink(d: map<string, Json>) {
    Truthy(LinkCandidate(d)) && LinkCandidate(d).Str?
  }

  /** The chosen cover, if any, is a string (so `startswith` does not fail). */
  predicate CoverIsText(d: map<string, Json>) {
    Truthy(CoverCandidate(d)) ==> CoverCandidate(d).Str?
  }

  /** The upstream title, if non-empty, is a string. */
  predicate TitleIsText(d: map<string, Json>) {
    Truthy(Get(d, "title")) ==> Get(d, "title").Str?
  }

  // ---- The path-prefixing rule ----

  /** A path gets exactly the origin in front, and the result is an https URL. */
  lemma NormalizePrefixesPaths(s: string)
    requires IsPath(s)
    ensures Normalize(s) == Origin + s
    ensures Normalize(s)[..8] == "https://"
  {
  }

  /** Prefixing twice is prefixing once. */
  lemma NormalizeIdempotent(s: string)
    ensures Normalize(Normalize(s)) == Normalize(s)
  {
  }

  /** A value that is already a URL (or empty) is returned unchanged. */
  lemma NormalizeKeepsNonPaths(s: string)
    requires !IsPath(s)
    ensures Normalize(s) == s
  {
  }

  /** The rule is not injective: a path and the URL it becomes normalize to
      the same link. */
  lemma NormalizeMergesPathAndItsUrl()
    ensures Normalize("/video/123.mp4") == Normalize("https://www.tikwm.com/video/123.mp4")
    ensures Normalize("/video/123.mp4") == "https://www.tikwm.com/video/123.mp4"
  {
  }

  // ---- The `or` chains agree with the case-by-case candidates ----

  lemma PlayChainIsLinkCandidate(d: map<string, Json>)
    ensures OrChain([Get(d, "play"), Get(d, "play_addr")]) == LinkCandidate(d)
  {
    var xs := [Get(d, "play"), Get(d, "play_addr")];
    assert xs[1..] == [Get(d, "play_addr")];
  }

  lemma CoverChainIsCoverCandidate(d: map<string, Json>)
    ensures OrChain([Get(d, "cover"), Get(d, "origin_cover"), Get(d, "dynamic_cover")]) == CoverCandidate(d)
  {
    var xs := [Get(d, "cover"), Get(d, "origin_cover"), Get(d, "dynamic_cover")];
    assert xs[1..] == [Get(d, "origin_cover"), Get(d, "dynamic_cover")];
    assert xs[1..][1..] == [Get(d, "dynamic_cover")];
  }

  lemma TitleChain(d: map<string, Json>)
    ensures OrChain([Get(d, "title"), Str(DefaultTitle)])
         == if Truthy(Get(d, "title")) then Get(d, "title") else Str(DefaultTitle)
  {
    var xs := [Get(d, "title"), Str(DefaultTitle)];
    assert xs[1..] == [Str(DefaultTitle)];
  }

  // ---- Error classification ----

  /** Any status other than 200 is a 502, whatever the body holds; and a
      502 arises from nothing else. */
  lemma UpstreamStatusIsBadGateway(t: Transport)
    ensures DownloadTikTok(t) == Err(HttpError(502, UpstreamErrorDetail))
        <==> t.Response? && t.status != 200
  {
  }

  /** An exception from the outbound call (a timeout included) is a 500
      carrying its message. */
  lemma TransportExceptionIsInternal(message: string)
    ensures DownloadTikTok(Raised(message)) == Err(HttpError(500, message))
  {
  }

  /** A 200 whose body does not decode is a 500 carrying the decoder's message. */
  lemma UndecodableBodyIsInternal(message: string)
    ensures DownloadTikTok(Response(200, Unparsable(message))) == Err(HttpError(500, message))
  {
  }

  /** A 200 whose decoded body is truthy but not an object fails on `.get`. */
  lemma NonObjectBodyIsInternal(data: Json)
    requires Truthy(data) && !data.Dict?
    ensures DownloadTikTok(Response(200, Parsed(data)))
         == Err(HttpError(500, NoAttributeMessage(data, "get")))
  {
  }

  /** A `data` field that is truthy but not an object fails on `.get`. */
  lemma NonObjectDataIsInternal(top: map<string, Json>)
    requires EqualsZero(Get(top, "code"))
    requires Truthy(Get(top, "data")) && !Get(top, "data").Dict?
    ensures DownloadTikTok(Response(200, Parsed(Dict(top))))
         == Err(HttpError(500, NoAttributeMessage(Get(top, "data"), "get")))
  {
    assert "code" in top;
  }

  /** The 400 "Unable to fetch video" error arises exactly when the upstream
      answered 200 with a decoded value that reports failure or carries no
      data. */
  lemma UnableToFetchIff(t: Transport)
    ensures DownloadTikTok(t) == Err(HttpError(400, UnableDetail))
        <==> t.Response? && t.status == 200 && t.body.Parsed? && ReportsFailure(t.body.value)
  {
    assert UnableDetail[0] != NoLinkDetail[0];
  }

  /** The 400 "No download link available" error arises exactly when the
      upstream reported success but neither `play` nor `play_addr` is
      non-empty (and the chosen cover, if any, is text). */
  lemma NoLinkIff(t: Transport)
    ensures DownloadTikTok(t) == Err(HttpError(400, NoLinkDetail))
        <==> Fetched(t) && !Truthy(Get(Data(t), "play")) && !Truthy(Get(Data(t), "play_addr"))
             && CoverIsText(Data(t))
  {
    assert UnableDetail[0] != NoLinkDetail[0];
    if Fetched(t) {
      var d := Data(t);
      PlayChainIsLinkCandidate(d);
      CoverChainIsCoverCandidate(d);
    }
  }

  /** A cover that is truthy but not text fails on `startswith` whenever the
      link check did not fail first: with a string link, and also with no
      link at all, before the missing link is noticed (the 500 wins over
      the 400). */
  lemma MalformedCoverIsInternal(t: Transport)
    requires Fetched(t)
    requires !Truthy(LinkCandidate(Data(t))) || LinkCandidate(Data(t)).Str?
    requires !CoverIsText(Data(t))
    ensures DownloadTikTok(t) == Err(HttpError(500, NoAttributeMessage(CoverCandidate(Data(t)), "startswith")))
  {
    PlayChainIsLinkCandidate(Data(t));
    CoverChainIsCoverCandidate(Data(t));
  }

  /** A link that is truthy but not text fails on `startswith`, before the
      cover is looked at. */
  lemma MalformedLinkIsInternal(t: Transport)
    requires Fetched(t)
    requires Truthy(LinkCandidate(Data(t))) && !LinkCandidate(Data(t)).Str?
    ensures DownloadTikTok(t) == Err(HttpError(500, NoAttributeMessage(LinkCandidate(Data(t)), "startswith")))
  {
    PlayChainIsLinkCandidate(Data(t));
  }

  /** Typed HTTP errors leave the handler unchanged; the only 500s are the
      exceptions of other kinds, with their messages. */
  lemma ExceptionMapping(t: Transport, status: int, detail: string)
    ensures status != 500 ==>
      (DownloadTikTok(t) == Err(HttpError(status, detail)) <==> TryBlock(t) == Raise(HttpException(status, detail)))
    ensures DownloadTikTok(t) == Err(HttpError(500, detail)) <==> TryBlock(t) == Raise(OtherException(detail))
  {
  }

  // ---- Success ----

  /** A request succeeds exactly when the upstream reported success, a link
      is present, and the chosen cover and the title are text. */
  lemma SuccessIff(t: Transport)
    ensures DownloadTikTok(t).Ok?
        <==> Fetched(t) && HasLink(Data(t)) && CoverIsText(Data(t)) && TitleIsText(Data(t))
  {
    if Fetched(t) {
      var d := Data(t);
      PlayChainIsLinkCandidate(d);
      CoverChainIsCoverCandidate(d);
      TitleChain(d);
    }
  }

  /** On success: the title is the upstream one when non-empty and the
      default otherwise; the link is the prefixed first non-empty of `play`,
      `play_addr`; the thumbnail is the prefixed first non-empty of `cover`,
      `origin_cover`, `dynamic_cover`, or "" when there is none. */
  lemma SuccessFields(t: Transport)
    requires DownloadTikTok(t).Ok?
    ensures Fetched(t)
    ensures HasLink(Data(t)) && CoverIsText(Data(t)) && TitleIsText(Data(t))
    ensures var d, r := Data(t), DownloadTikTok(t).value;
      && r.title == (if Truthy(Get(d, "title")) then Get(d, "title").s else DefaultTitle)
      && r.downloadUrl == Normalize(LinkCandidate(d).s)
      && r.thumbnail == (if Truthy(CoverCandidate(d)) then Normalize(CoverCandidate(d).s) else "")
  {
    SuccessIff(t);
    var d := Data(t);
    PlayChainIsLinkCandidate(d);
    CoverChainIsCoverCandidate(d);
    TitleChain(d);
  }

  /** A missing cover never causes an error: with a link present and a
      textual or absent title, no cover at all still succeeds, with an
      empty thumbnail. */
  lemma MissingCoverStillSucceeds(t: Transport)
    requires Fetched(t) && HasLink(Data(t)) && TitleIsText(Data(t))
    requires !Truthy(Get(Data(t), "cover")) && !Truthy(Get(Data(t), "origin_cover"))
    requires !Truthy(Get(Data(t), "dynamic_cover"))
    ensures DownloadTikTok(t).Ok? && DownloadTikTok(t).value.thumbnail == ""
  {
    SuccessIff(t);
    SuccessFields(t);
  }

  // ---- Worked examples ----

  /** `play` given as a path becomes an absolute link on the upstream host;
      `cover` absent and `origin_cover` a path gives a prefixed thumbnail. */
  lemma PathLinksExample()
    ensures var d := map["play" := Str("/video/123.mp4"), "origin_cover" := Str("/img/1.jpg")];
      DownloadTikTok(Response(200, Parsed(Dict(map["code" := Int(0), "data" := Dict(d)]))))
      == Ok(TikTokResponse(DefaultTitle, "https://www.tikwm.com/img/1.jpg", "https://www.tikwm.com/video/123.mp4"))
  {
    var d := map["play" := Str("/video/123.mp4"), "origin_cover" := Str("/img/1.jpg")];
    var t := Response(200, Parsed(Dict(map["code" := Int(0), "data" := Dict(d)])));
    assert Fetched(t) && Data(t) == d;
    assert Get(d, "play") == Str("/video/123.mp4") && Get(d, "origin_cover") == Str("/img/1.jpg");
    assert Get(d, "title") == Null && Get(d, "cover") == Null;
    assert LinkCandidate(d) == Str("/video/123.mp4") && CoverCandidate(d) == Str("/img/1.jpg");
    assert Normalize("/video/123.mp4") == "https://www.tikwm.com/video/123.mp4";
    assert Normalize("/img/1.jpg") == "https://www.tikwm.com/img/1.jpg";
    SuccessIff(t);
    SuccessFields(t);
  }

  /** `code` equal to `false` passes the `== 0` check, as in Python. */
  lemma FalseCodeIsAccepted()
    ensures var d := map["title" := Str("clip"), "play_addr" := Str("https://cdn/v.mp4")];
      DownloadTikTok(Response(200, Parsed(Dict(map["code" := Bool(false), "data" := Dict(d)]))))
      == Ok(TikTokResponse("clip", "", "https://cdn/v.mp4"))
  {
    var d := map["title" := Str("clip"), "play_addr" := Str("https://cdn/v.mp4")];
    var t := Response(200, Parsed(Dict(map["code" := Bool(false), "data" := Dict(d)])));
    assert Fetched(t) && Data(t) == d;
    assert "title" in d && "play_addr" in d && "play" !in d;
    assert "cover" !in d && "origin_cover" !in d && "dynamic_cover" !in d;
    SuccessIff(t);
    SuccessFields(t);
  }
}
