# vidsrc stream resolver — a Dafny model

This project models the resolution pipeline of `VidsrcMeExtractor` in
`vidsrc.py` and the result selection of its `/get_streams` endpoint. Given a
source name, a media id and an optional season and episode, the resolver
fetches the vidsrc.me embed page, picks the requested server's hash from the
server list, fetches the RCP page for that hash, decodes the hidden payload
into a source URL, probes that URL with redirects switched off, and hands the
pre-redirect source URL (with the RCP URL as referrer) to the backend
extractor whose pattern the redirect's `location` contains.

Every network response, parsed page, hostname, decoded payload and extractor
reply is an abstract input: the resolver is a pure function over a `Services`
value whose fields are the oracles. A run returns its outcome together with
the exact requests it issued, so "no later stage is consulted", "the RCP
fetch carries the embed host's root as referrer" and "the probe carries the
RCP URL as referrer" are facts about the result.

Files:
- `py.dfy` (module `Py`): the Python value semantics the code relies on —
  `None`, truthiness of optional strings, the f-string rendering of `None`,
  `str.startswith`, and the substring test `p in s` with its reference
  meaning (an occurrence at some index).
- `http.dfy` (module `Http`): requests, responses and the reduced page view
  (server elements, `div#hidden`, `body`).
- `stages.dfy` (module `Stages`): the embed URL and its inverse parser, the
  server map, `get_sources`, `get_source` with URL normalisation,
  `get_source_url`, and the extractor dispatch.
- `pipeline.dfy` (module `Pipeline`): `get_streams` over the oracles, as
  written and as evidently intended, with lemmas on referrer threading,
  early termination, status gating and dispatch order.
- `endpoint.dfy` (module `Endpoint`): the endpoint's reply, and two concrete
  runs (a season 1 episode 2 request that reaches the vidsrc.stream
  extractor, and the same run with a probe answering 200).

Three behaviours of the code worth noting, all kept in the model:
- A probe that does not answer 302 makes `get_source_url` return `None`,
  and the next line evaluates `"vidsrc.stream" in None`, which raises.
  `GetStreams` returns `Crash(NoRedirectTarget)` there (see Findings).
- On the RCP page only a missing `div#hidden` or `body` element raises
  (`.get` is called on `None`); a missing `data-h` or `data-i` attribute
  passes `None` on to `decode_src`. The decoder oracle therefore takes
  optional arguments and may itself raise.
- An exception inside `get_streams` or inside an extractor is not caught,
  so the endpoint answers with a server error (`InternalError`) rather than
  its fixed error object.

## Model

| member | source | states |
|---|---|---|
| Py.Contains | vidsrc.py:82-88 | `p in s` is true iff `p` occurs in `s` at some index; the empty pattern occurs everywhere |
| Stages.EmbedUrl | vidsrc.py:65-67 | the URL starts with `BASE_URL/embed/<media_id>`; `/<season>-<episode>/` follows iff both are truthy, otherwise nothing follows |
| Stages.EmbedUrlRoundTrip | vidsrc.py:65-67 | for ids without '/' and seasons without '-', parsing the embed URL gives back the media id, and the season and episode exactly when both were truthy |
| Stages.ServerMapMeaning | vidsrc.py:34 | a name is a key iff some element has that non-empty text and a non-empty `data-hash`; its value is the hash of the last such element; no value is empty |
| Stages.GetSources | vidsrc.py:24-34 | a non-200 page gives an empty map, a 200 page the server map; in both cases the referrer is `https://<hostname of final URL>/`, with "None" for a missing hostname |
| Stages.Lookup | vidsrc.py:70 | `dict.get` gives the value iff the key is present, `None` otherwise |
| Stages.Normalize | vidsrc.py:50-51 | the result never starts with "//"; it equals the input iff the input does not start with "//", and is otherwise "https:" followed by the input |
| Stages.NormalizeIdempotent | vidsrc.py:50-51 | normalising twice equals normalising once |
| Stages.GetSource | vidsrc.py:36-53 | the RCP URL is `RCP_URL/<hash>` whenever a value is returned; the source is `None` iff the RCP status is not 200, otherwise the normalised decoder output; a missing `div#hidden` or `body` raises, as does a raising decoder, and only on a 200 page |
| Stages.GetSourceUrl | vidsrc.py:55-62 | the `location` header is returned iff the probe status is exactly 302; any other status, 200 included, gives `None` |
| Stages.Dispatch | vidsrc.py:82-92 | vidsrc.stream is chosen iff the location contains "vidsrc.stream"; multiembed.mov iff it does not but contains "multiembed.mov"; no extractor iff it contains neither |
| Pipeline.GetStreams | vidsrc.py:64-92 | the first request is the embed page; a second request, the RCP page of the requested server, is made iff the name is listed; the probe is sent iff that page answers 200 with both elements and decodes to a non-empty source; an exception from the RCP stage ends the run after two requests; a call to an extractor happens iff the third request (the probe) answered 302 with a location that dispatches to that extractor, and it passes the probe's URL and the RCP URL; a 302 location matching neither pattern gives no result; the probe URL is the normalised decoder output of the RCP page; the run raises on a missing redirect iff the probe gave no location |
| Pipeline.GetStreamsIntended | vidsrc.py:64-92 | the corrected orchestrator makes the same requests under the same conditions as the code; it never raises for a missing redirect; a probe without a location ends in no result; a routing location gives the call, a non-matching one no result |
| Pipeline.ReferrerThreading | vidsrc.py:69-81 | the embed fetch has no referrer; the RCP fetch goes to `RCP_URL/<hash of the requested name>` with the embed host's root as referrer; the probe carries the RCP URL as referrer and does not follow redirects |
| Pipeline.UnknownSourceStopsAtEmbed | vidsrc.py:69-74 | the requested name is missing from the server map iff the run ends with no result after the embed fetch alone |
| Pipeline.EmbedFailureStopsAtEmbed | vidsrc.py:28-31 | a non-200 embed page ends the run with no result and no further request |
| Pipeline.RcpFailureStopsBeforeProbe | vidsrc.py:76-79 | a non-200 RCP page ends the run with no result after the embed and RCP requests, before any probe |
| Pipeline.RcpPageFaultsPropagate | vidsrc.py:45-49 | a 200 RCP page lacking `div#hidden` or `body`, or whose payload makes the decoder raise, makes the run raise after two requests |
| Pipeline.EmptySourceStopsBeforeProbe | vidsrc.py:76-79 | a payload decoding to the empty string ends the run with no result after two requests, before any probe |
| Pipeline.ProbeMustRedirect | vidsrc.py:58-62 | a probe status other than 302 never reaches an extractor: as written the run raises, as intended it has no result |
| Pipeline.DispatchOrder | vidsrc.py:82-90 | on a call, the vidsrc.stream extractor is chosen iff the location contains "vidsrc.stream", the multiembed one iff it does not but contains "multiembed.mov" |
| Pipeline.LocationOnlyRoutes | vidsrc.py:85-90 | two runs whose probe locations route to the same extractor make the same call: the location chooses the extractor and nothing else |
| Pipeline.IntendedDiffersOnlyOnMissingRedirect | vidsrc.py:81-82 | the corrected orchestrator issues the same requests and agrees with the code everywhere except where the code raises on a missing location, where it returns no result |
| Endpoint.SelectStream | vidsrc.py:112-115 | the reply is the first stream iff the extractor's dict is present with a non-empty "streams" list, the fixed error object otherwise |
| Endpoint.Serve | vidsrc.py:94-115 | a stream URL comes back iff the run calls an extractor that returns non-empty streams, and it is the first of them; a raised exception gives a server error; every other error reply is the fixed message |
| Endpoint.EmbedFailureGivesError | vidsrc.py:106-115 | a non-200 embed page gives the fixed error reply after one request |
| Endpoint.EpisodeEmbedUrlIs | vidsrc.py:65-67 | media id "tt123", season "1", episode "2" give `https://vidsrc.me/embed/tt123/1-2/` |
| Endpoint.EpisodeScenario | vidsrc.py:64-90 | a concrete run whose probe redirects to a vidsrc.stream host calls that extractor with the decoded source URL and the RCP URL, and the endpoint returns the first stream |
| Endpoint.ProbeAnswering200Raises | vidsrc.py:81-82 | the same run with a probe answering 200 raises as written (a server error at the endpoint) and has no result as intended |

## Left out

- Network I/O (`requests.get`, redirect following and suppression): each fetch is a `Request` value handed to an oracle that returns a `Response`; network exceptions such as connection errors are not modelled, every fetch yields a status.
- HTML parsing (BeautifulSoup): a page is reduced to the elements `find_all("div", {"class", "server"})` yields (text and optional `data-hash`; since the set literal filters on `class`, `div`s of class "class" are yielded too), the first `div#hidden` (optional `data-h`) and the first `body` (optional `data-i`). What `.text` returns for an element is taken as given.
- `urlparse(...).hostname`: an uninterpreted oracle from URL to optional hostname.
- `Utilities.decode_src`: lives in `utils`, which is not part of this model; it is an oracle from the two optional inputs to either a string or "raised".
- `VidsrcStreamExtractor` and `MultiembedExtractor`: their sources are not part of this model; `resolve_source` is an oracle from (extractor, URL, referrer) to a returned dict, `None`, or "raised".
- Response headers are reduced to the `location` value; the case-insensitive header lookup of the HTTP library is taken as given.
- FastAPI routing and query parsing, uvicorn startup, the `print` diagnostics, the unused `fetch_subtitles` flag and the unused `SUPPORTED_SOURCES` list.
- Endpoint.Serve: models the endpoint over `GetStreams` as written; the corrected orchestrator is stated and compared at the `Pipeline` level only.

## Findings

| source | as written | input that shows it | evidently intended | confidence | as-written member | corrected member |
|---|---|---|---|---|---|---|
| vidsrc.py:81-82 | `get_source_url` returns `None` for any probe status other than 302 (or a 302 without `location`), and `"vidsrc.stream" in final_source_url` then raises `TypeError` | the episode run of `EpisodeServices(200, None)`: every stage succeeds and the probe answers 200 | a probe without a redirect target ends the run with no result, like every other failed stage, so the endpoint answers with its fixed error | high; not executed | Endpoint.ProbeAnswering200Raises | Pipeline.GetStreamsIntended |
