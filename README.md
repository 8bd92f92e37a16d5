# TikTok link resolver — a Dafny model of `/api/tiktok`

The backend's one endpoint with real logic is `POST /api/tiktok`
(`download_tiktok` in `main.py`). It posts the caller's video URL to the tikwm
extraction API, then checks the answer and reshapes it into a
`TikTokResponse` record `{title, thumbnail, download_url}`, or fails with an
HTTP error. This project models everything after the outbound call, as pure
functions, and proves what the handler promises about its output:

- how failures are classified: 502, 400 "Unable to fetch video. Check the URL.",
  400 "No download link available", and 500 carrying the exception message;
- the order in which those errors take precedence;
- the default title "TikTok Video";
- the fallback chains `play` → `play_addr` and `cover` → `origin_cover` →
  `dynamic_cover`;
- the path-prefixing rule: a value starting with `/` gets
  `https://www.tikwm.com` in front of it.

Files:

- `pyjson.dfy` (module `PyJson`): decoded JSON values and the Python
  behaviour the handler depends on. This covers truthiness, `dict.get`,
  `== 0` (where `False == 0`), the `a or b or c` operator (`OrChain`) and the
  text of an `AttributeError`.
- `tiktok.dfy` (module `TikTok`): the handler itself. `TryBlock` is the
  `try` body, `Extract` is the part of it that runs once a decoded body
  is in hand (main.py:43-56), `Catch` is the two `except` clauses, `Validate` is the check
  against the declared response model, and `DownloadTikTok` is the whole
  request. `Normalize` is the path-prefixing rule.
- `properties.dfy` (module `TikTokProperties`): case-by-case reference
  definitions (`Fetched`, `LinkCandidate`, `CoverCandidate`, …) and the
  lemmas that tie the handler to them.

The outbound call is an input. `Transport` is either the exception that
`requests.post` raised, with its message, or a status together with a `Body`.
A `Body` is either the exception that `resp.json()` raised, with its message,
or the decoded value. The body is modelled as a general JSON value, not as a
record of optional strings. The handler's behaviour depends on Python
semantics that only show up on such values:
- a falsy `[]` ends in the 400 error;
- a non-empty list or string at the top level or as `data` fails on `.get`
  and ends in a 500;
- a truthy non-string `play` or `cover` fails on `.startswith` and ends in a 500;
- `code: false` passes the `!= 0` test.

Behaviour worth noting:
- A body that does not decode as JSON ends in a 500 carrying the decoder's
  message, because `resp.json()` raises inside the `try` block and the
  generic `except` catches it (main.py:42, 59-60).
- A timeout or connection failure of the outbound call also ends in a 500
  with the exception's message, not in the 502 of main.py:41.
- Only status 200 passes the status check. Any other status, including
  other 2xx codes, gives the 502.

## Model

| member | source | states |
|---|---|---|
| `PyJson.OrChain` | main.py:46-51 | Python's `a or b or …`: the result is truthy iff some operand is; when it is, it is the first truthy operand (all before it falsy); otherwise it is the last operand |
| `TikTok.Normalize` | main.py:49-53 | the prefixed value never starts with `/`; it ends with the original value; it equals the original iff that was not a path |
| `TikTok.Extract` | main.py:43-56 | the only typed errors are 400 with "Unable to fetch video. Check the URL." or "No download link available"; the first arises iff the decoded value is falsy or an object whose `code` is not 0 or whose `data` is falsy; a return needs an object with `code` 0 and truthy `data`, and carries a truthy title, a non-empty download URL, and neither URL nor thumbnail a bare path |
| `TikTok.TryBlock` | main.py:37-56 | the only typed errors raised are 400 and 502; the 502 is raised iff there was a response with status other than 200; a return needs status 200 and a decoded body |
| `TikTok.Catch` | main.py:57-60 | only typed HTTP exceptions leave the handler; an `HTTPException` is re-raised unchanged; any other exception becomes a 500 carrying its message; a return passes through exactly when the try block returned |
| `TikTok.Validate` | main.py:20-23 | the returned dict is accepted as `TikTokResponse` iff its title is a string, with every field carried over; otherwise the response is invalid |
| `TikTok.DownloadTikTok` | main.py:36-60 | every success has a non-empty title and a non-empty download URL, and neither the URL nor the thumbnail is a bare path; every HTTP error has status 400, 500 or 502 |
| `TikTokProperties.NormalizePrefixesPaths` | main.py:49-53 | a path becomes exactly `https://www.tikwm.com` + path, which starts with `https://` |
| `TikTokProperties.NormalizeIdempotent` | main.py:49-53 | normalizing a normalized value changes nothing |
| `TikTokProperties.NormalizeKeepsNonPaths` | main.py:49-53 | a value not starting with `/` (an absolute URL or the empty string) is returned unchanged |
| `TikTokProperties.NormalizeMergesPathAndItsUrl` | main.py:49-50 | `/video/123.mp4` and `https://www.tikwm.com/video/123.mp4` resolve to the same link |
| `TikTokProperties.PlayChainIsLinkCandidate` | main.py:48 | `play or play_addr` picks `play` when it is non-empty and `play_addr` otherwise |
| `TikTokProperties.CoverChainIsCoverCandidate` | main.py:51 | `cover or origin_cover or dynamic_cover` picks the first non-empty one in that order |
| `TikTokProperties.TitleChain` | main.py:46 | the title is the upstream `title` when it is truthy and "TikTok Video" otherwise |
| `TikTokProperties.UpstreamStatusIsBadGateway` | main.py:40-41 | 502 "Upstream service error" arises iff there was a response with a status other than 200, whatever the body |
| `TikTokProperties.TransportExceptionIsInternal` | main.py:39 | an exception from the outbound call, a timeout included, gives 500 with its message |
| `TikTokProperties.UndecodableBodyIsInternal` | main.py:42 | a 200 whose body does not decode gives 500 with the decoder's message |
| `TikTokProperties.NonObjectBodyIsInternal` | main.py:43 | a truthy decoded body that is not an object gives 500 "'<type>' object has no attribute 'get'" |
| `TikTokProperties.NonObjectDataIsInternal` | main.py:43-46 | with `code` equal to 0, a truthy `data` that is not an object gives 500 from `d.get` |
| `TikTokProperties.UnableToFetchIff` | main.py:43-44 | 400 "Unable to fetch video. Check the URL." arises iff the status is 200, the body decoded, and it is falsy or an object whose `code` is absent or not 0 or whose `data` is absent or empty |
| `TikTokProperties.NoLinkIff` | main.py:48-55 | 400 "No download link available" arises iff the upstream reported success with a data object, both `play` and `play_addr` are absent or empty, and the chosen cover (if any) is text |
| `TikTokProperties.MalformedCoverIsInternal` | main.py:51-55 | when the link check did not fail first (a string link, or no link at all), a non-text truthy cover makes the request fail with the 500 from `cover.startswith`; with no link this beats the 400 because line 52 runs before line 54 |
| `TikTokProperties.MalformedLinkIsInternal` | main.py:48-49 | a truthy link candidate that is not a string gives 500 from `play.startswith` |
| `TikTokProperties.ExceptionMapping` | main.py:36-60 | a non-500 HTTP error leaves the handler iff the try block raised exactly that error; a 500 with message m leaves iff the try block raised a non-HTTP exception with message m |
| `TikTokProperties.SuccessIff` | main.py:40-56 | a request succeeds iff the upstream answered 200 with `code` 0 and a non-empty `data` object, a string link is present, and the chosen cover and the title are text |
| `TikTokProperties.SuccessFields` | main.py:46-56 | on success, the title is the upstream one or the default; the download URL is the prefixed first non-empty of `play`, `play_addr`; the thumbnail is the prefixed first non-empty of the three cover fields, or "" |
| `TikTokProperties.MissingCoverStillSucceeds` | main.py:51-56 | with a link present and no cover field at all, the request still succeeds with an empty thumbnail |
| `TikTokProperties.PathLinksExample` | main.py:48-56 | `play` `/video/123.mp4` with only `origin_cover` `/img/1.jpg` gives those two paths on `https://www.tikwm.com` and the default title |
| `TikTokProperties.FalseCodeIsAccepted` | main.py:43 | `code: false` passes the `!= 0` check (Python's `False == 0`) and the request succeeds |

## Left out

- The outbound `requests.post` to `https://www.tikwm.com/api/` and its 20-second timeout (main.py:38-39): network I/O. Its outcome is the `Transport` input, and the text of any exception it raises is part of that input.
- JSON decoding (`resp.json()`, main.py:42): the decoded value, or the decoder's exception message, is the `Body` input.
- JSON numbers are integers only. Floats such as `0.0` (which equals 0 and is falsy in Python) are not modelled.
- Validation of the request URL by pydantic `HttpUrl` (main.py:17-18): a library call. The URL never affects the model, so it needs no precondition.
- `Validate`: a non-string title is taken to be rejected by the response model. Any coercion the validation library might apply is not modelled, and neither is the status the framework then sends (`ResponseInvalid` stands for it).
- FastAPI app setup, CORS middleware, and the constant `/` and `/api/hello` endpoints (main.py:7-31): framework plumbing.
- The `/test` database probe (main.py:62-104): it imports a module that is not in the repository, reads environment variables and talks to an external database.
- Uvicorn startup and port parsing (main.py:107-110): process I/O.
