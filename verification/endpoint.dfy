/** The `/get_streams` endpoint: it runs the resolver, hands over to the
    chosen extractor, and answers with the first stream or a fixed error. */
module Endpoint {
  import opened Py
  import opened Http
  import opened Stages
  import opened Pipeline

  const FailureMessage: string := "Failed to retrieve stream URL"

  /** The endpoint's answer: `{"stream_url": ...}`, `{"error": ...}`, or an
      unhandled exception, which the web framework turns into a 500. */
  datatype Reply = StreamUrl(url: string) | ErrorReply(message: string) | InternalError

  /** Python truthiness of the extractor's dict and of its "streams" list. */
  predicate HasStreams(data: Option<StreamData>) {
    data.Some? && data.value.streams.Some? && |data.value.streams.value| > 0
  }

  /** The endpoint's result selection: the first stream exactly when there
      is a dict with a non-empty "streams" list, the fixed error otherwise. */
  function SelectStream(data: Option<StreamData>): (r: Reply)
    ensures r.StreamUrl? <==> HasStreams(data)
    ensures r.StreamUrl? ==> r.url == data.value.streams.value[0]
    ensures !r.StreamUrl? ==> r == ErrorReply(FailureMessage)
  {
    if data.Some? && data.value.streams.Some? && data.value.streams.value != [] then
      StreamUrl(data.value.streams.value[0])
    else
      ErrorReply(FailureMessage)
  }

  /** One request to `/get_streams`. */
  function Serve(q: Query, svc: Services): (r: Reply)
    ensures r.StreamUrl? <==>
              && GetStreams(q, svc).outcome.Call?
              && var c := GetStreams(q, svc).outcome;
              && svc.resolve(c.kind, c.url, c.referrer).Returned?
              && HasStreams(svc.resolve(c.kind, c.url, c.referrer).data)
    ensures r.StreamUrl? ==>
              var c := GetStreams(q, svc).outcome;
              r.url == svc.resolve(c.kind, c.url, c.referrer).data.value.streams.value[0]
    ensures r == InternalError <==>
              || GetStreams(q, svc).outcome.Crash?
              || (GetStreams(q, svc).outcome.Call? &&
                  var c := GetStreams(q, svc).outcome;
                  svc.resolve(c.kind, c.url, c.referrer).ExtractorRaised?)
    ensures r.ErrorReply? ==> r.message == FailureMessage
  {
    match GetStreams(q, svc).outcome
    case NoResult => ErrorReply(FailureMessage)
    case Crash(_) => InternalError
    case Call(kind, url, referrer) =>
      match svc.resolve(kind, url, referrer)
      case ExtractorRaised => InternalError
      case Returned(data) => SelectStream(data)
  }

  /** An embed page that does not answer 200 yields the fixed error after
      that single fetch. */
  lemma EmbedFailureGivesError(q: Query, svc: Services)
    requires svc.fetch(EmbedRequest(q)).status != 200
    ensures Serve(q, svc) == ErrorReply(FailureMessage)
    ensures GetStreams(q, svc).requests == [EmbedRequest(q)]
  {
  }

  // ---------------------------------------------------------------------
  // Concrete runs

  const Episode: Query := Query("VidSrc PRO", "tt123", Some("1"), Some("2"))

  const EpisodeEmbedUrl: string := "https://vidsrc.me/embed/tt123/1-2/"
  const EpisodeRcpUrl: string := "https://rcp.vidsrc.me/rcp/t1"
  const DecodedSource: string := "https://pro.example/e/42"

  /** An embed page listing "VidSrc PRO" (and one element without a hash),
      an RCP page whose payload decodes to `DecodedSource`, and a probe of
      that source answering with `probeStatus` and `location`. */
  function EpisodeFetch(probeStatus: int, location: Option<string>): Request -> Response {
    (req: Request) =>
      if req.url == EpisodeEmbedUrl then
        Response(200, EpisodeEmbedUrl, None,
                 Page([ServerElement("Superembed", None), ServerElement("VidSrc PRO", Some("t1"))], None, None))
      else if req.url == EpisodeRcpUrl then
        Response(200, EpisodeRcpUrl, None, Page([], Some(Tag(Some("enc"))), Some(Tag(Some("seed")))))
      else if req.url == DecodedSource then
        Response(probeStatus, DecodedSource, location, Page([], None, None))
      else
        Response(404, req.url, None, Page([], None, None))
  }

  function EpisodeServices(probeStatus: int, location: Option<string>): Services {
    Services(EpisodeFetch(probeStatus, location),
             (url: string) => Some("vidsrc.me"),
             (encoded: Option<string>, seed: Option<string>) => Decoded(DecodedSource),
             (kind: ExtractorKind, url: string, referrer: string) =>
               Returned(Some(StreamData(Some(["https://cdn.example/master.m3u8"])))))
  }

  /** The embed URL of the episode query. */
  lemma EpisodeEmbedUrlIs()
    ensures EmbedUrl("tt123", Some("1"), Some("2")) == EpisodeEmbedUrl
  {
  }

  /** The concrete episode run gets through all three fetches, whatever
      the probe answers. */
  lemma EpisodeWalk(probeStatus: int, location: Option<string>)
    ensures WalkStages(Episode, EpisodeServices(probeStatus, location))
            == Probed(GetSourceUrl(Response(probeStatus, DecodedSource, location, Page([], None, None))),
                      DecodedSource, EpisodeRcpUrl,
                      [EmbedRequest(Episode),
                       Request(EpisodeRcpUrl, Some("https://vidsrc.me/"), true),
                       Request(DecodedSource, Some(EpisodeRcpUrl), false)])
  {
    var svc := EpisodeServices(probeStatus, location);
    var embed := EmbedRequest(Episode);
    EpisodeEmbedUrlIs();
    var servers := [ServerElement("Superembed", None), ServerElement("VidSrc PRO", Some("t1"))];
    assert svc.fetch(embed) == Response(200, EpisodeEmbedUrl, None, Page(servers, None, None));
    var sources := GetSources(svc.fetch(embed), svc.hostname);
    assert sources.referrer == "https://vidsrc.me/";
    assert LastContributor(servers, 1, "VidSrc PRO");
    assert Lookup(sources.servers, "VidSrc PRO") == Some("t1");
    var rcp := Request(RcpPageUrl("t1"), Some(sources.referrer), true);
    assert rcp.url == EpisodeRcpUrl;
    assert !StartsWith(DecodedSource, "//") by { assert DecodedSource[..2][0] == 'h'; }
    assert GetSource("t1", svc.fetch(rcp), svc.decode) == Got(Some(DecodedSource), EpisodeRcpUrl);
    var probe := Request(DecodedSource, Some(EpisodeRcpUrl), false);
    assert svc.fetch(probe) == Response(probeStatus, DecodedSource, location, Page([], None, None));
  }

  /** The episode run whose probe redirects to a vidsrc.stream host calls
      that extractor with the decoded source and the RCP URL, never the
      location, and the endpoint answers with the first stream. */
  lemma EpisodeScenario()
    ensures GetStreams(Episode, EpisodeServices(302, Some("https://vidsrc.stream/rcp/xyz"))).outcome
            == Call(VidsrcStream, DecodedSource, EpisodeRcpUrl)
    ensures Serve(Episode, EpisodeServices(302, Some("https://vidsrc.stream/rcp/xyz")))
            == StreamUrl("https://cdn.example/master.m3u8")
  {
    EpisodeWalk(302, Some("https://vidsrc.stream/rcp/xyz"));
    assert OccursAt("https://vidsrc.stream/rcp/xyz", "vidsrc.stream", 8);
  }

  /** The same run with a probe answering 200 instead of 302: the code as
      written raises rather than returning no result. */
  lemma ProbeAnswering200Raises()
    ensures GetStreams(Episode, EpisodeServices(200, None)).outcome == Crash(NoRedirectTarget)
    ensures Serve(Episode, EpisodeServices(200, None)) == InternalError
    ensures GetStreamsIntended(Episode, EpisodeServices(200, None)).outcome == NoResult
  {
    EpisodeWalk(200, None);
  }
}
