/** `VidsrcMeExtractor.get_streams` as a pure function over an oracle of
    responses. A run reports both its outcome and the requests it issued, in
    order, so that which stages were consulted and which referrer each
    carried are facts about the result. */
module Pipeline {
  import opened Py
  import opened Http
  import opened Stages

  /** What a caller asks for. */
  datatype Query = Query(sourceName: string, mediaId: string, season: Option<string>, episode: Option<string>)

  /** Everything outside the resolver: the network, `urlparse(...).hostname`,
      `Utilities.decode_src`, and the backend extractors' `resolve_source`. */
  datatype Services = Services(
    fetch: Request -> Response,
    hostname: string -> Option<string>,
    decode: (Option<string>, Option<string>) -> DecodeReply,
    resolve: (ExtractorKind, string, string) -> ExtractorReply)

  /** The dict an extractor returns, reduced to its "streams" entry; an
      empty dict and a dict without that entry are both `StreamData(None)`. */
  datatype StreamData = StreamData(streams: Option<seq<string>>)

  /** What `resolve_source` does: returns a dict or `None`, or raises. */
  datatype ExtractorReply = Returned(data: Option<StreamData>) | ExtractorRaised

  /** How `get_streams` ends: it returns `None`, hands over to one extractor
      with the given URL and referrer, or raises. */
  datatype Outcome = NoResult | Call(kind: ExtractorKind, url: string, referrer: string) | Crash(fault: Fault)

  /** An outcome together with every request made on the way, in order. */
  datatype Run = Run(outcome: Outcome, requests: seq<Request>)

  /** How far the three fetching stages got: stopped early with an outcome,
      or through the probe with its `location` (if any), the source URL and
      the RCP URL that served as the probe's referrer. */
  datatype Walk =
    | Stopped(outcome: Outcome, requests: seq<Request>)
    | Probed(location: Option<string>, sourceUrl: string, rcpUrl: string, requests: seq<Request>)

  /** The first request: the embed page, without a referrer. */
  function EmbedRequest(q: Query): Request {
    Request(EmbedUrl(q.mediaId, q.season, q.episode), None, true)
  }

  /** The embed page as the first stage reads it. */
  function EmbedSources(q: Query, svc: Services): Sources {
    GetSources(svc.fetch(EmbedRequest(q)), svc.hostname)
  }

  /** The three fetching stages of `get_streams`, up to and including the
      redirect probe. */
  function WalkStages(q: Query, svc: Services): Walk {
    var embed := EmbedRequest(q);
    var sources := GetSources(svc.fetch(embed), svc.hostname);
    var hash := Lookup(sources.servers, q.sourceName);
    if !Truthy(hash) then Stopped(NoResult, [embed])
    else
      var rcp := Request(RcpPageUrl(hash.value), Some(sources.referrer), true);
      match GetSource(hash.value, svc.fetch(rcp), svc.decode)
      case Raised(fault) => Stopped(Crash(fault), [embed, rcp])
      case Got(source, rcpUrl) =>
        if !Truthy(source) then Stopped(NoResult, [embed, rcp])
        else
          var probe := Request(source.value, Some(rcpUrl), false);
          Probed(GetSourceUrl(svc.fetch(probe)), source.value, rcpUrl, [embed, rcp, probe])
  }

  /** The probe goes to the source decoded from the RCP page's payload,
      normalised: this is also the URL the extractor is handed. */
  ghost predicate ProbesDecodedSource(svc: Services, rcp: Request, probe: Request) {
    var page := svc.fetch(rcp).page;
    && DecodeInputs(page).Some?
    && svc.decode(DecodeInputs(page).value.0, DecodeInputs(page).value.1).Decoded?
    && probe.url == Normalize(svc.decode(DecodeInputs(page).value.0, DecodeInputs(page).value.1).text)
  }

  /** The second request: the RCP page of the requested server, with the
      embed host's root as referrer. */
  function RcpRequest(q: Query, svc: Services): Request
    requires q.sourceName in EmbedSources(q, svc).servers
  {
    Request(RcpPageUrl(EmbedSources(q, svc).servers[q.sourceName]), Some(EmbedSources(q, svc).referrer), true)
  }

  /** The run gets as far as the probe: the requested name is listed, its
      RCP page answers 200 with both elements present, and the payload
      decodes to a non-empty source once normalised. */
  ghost predicate ReachesProbe(q: Query, svc: Services) {
    && q.sourceName in EmbedSources(q, svc).servers
    && var resp := svc.fetch(RcpRequest(q, svc));
    && resp.status == 200
    && DecodeInputs(resp.page).Some?
    && var reply := svc.decode(DecodeInputs(resp.page).value.0, DecodeInputs(resp.page).value.1);
    && reply.Decoded?
    && Normalize(reply.text) != ""
  }

  /** The choice between the two extractors, given the probe's location. The
      extractor is given the pre-redirect source URL and the RCP URL. */
  function Route(location: string, sourceUrl: string, rcpUrl: string): Outcome {
    match Dispatch(location)
    case Some(kind) => Call(kind, sourceUrl, rcpUrl)
    case None => NoResult
  }

  /** `get_streams` as written: a probe that yields no location reaches
      `"vidsrc.stream" in None`, which raises. */
  function GetStreams(q: Query, svc: Services): (r: Run)
    ensures 1 <= |r.requests| <= 3 && r.requests[0] == EmbedRequest(q)
    ensures |r.requests| >= 2 <==> q.sourceName in EmbedSources(q, svc).servers
    ensures |r.requests| >= 2 ==> r.requests[1] == RcpRequest(q, svc)
    ensures |r.requests| == 3 <==> ReachesProbe(q, svc)
    ensures r.outcome.Crash? && r.outcome.fault != NoRedirectTarget ==> |r.requests| == 2
    ensures r.outcome.Call? ==>
              && |r.requests| == 3
              && r.outcome.url == r.requests[2].url
              && r.outcome.referrer == r.requests[1].url
              && svc.fetch(r.requests[2]).status == 302
              && svc.fetch(r.requests[2]).location.Some?
              && Dispatch(svc.fetch(r.requests[2]).location.value) == Some(r.outcome.kind)
    ensures r.outcome.Crash? && r.outcome.fault == NoRedirectTarget <==>
              |r.requests| == 3 && GetSourceUrl(svc.fetch(r.requests[2])).None?
    ensures |r.requests| == 3 && GetSourceUrl(svc.fetch(r.requests[2])).Some? ==>
              var location := svc.fetch(r.requests[2]).location.value;
              && (Dispatch(location).Some? ==>
                    r.outcome == Call(Dispatch(location).value, r.requests[2].url, r.requests[1].url))
              && (Dispatch(location).None? ==> r.outcome == NoResult)
    ensures |r.requests| == 3 ==> ProbesDecodedSource(svc, r.requests[1], r.requests[2])
  {
    match WalkStages(q, svc)
    case Stopped(outcome, requests) => Run(outcome, requests)
    case Probed(location, sourceUrl, rcpUrl, requests) =>
      if location.None? then Run(Crash(NoRedirectTarget), requests)
      else Run(Route(location.value, sourceUrl, rcpUrl), requests)
  }

  /** `get_streams` as evidently intended: a probe that yields no location
      ends the run with no result, like every other failed stage. */
  function GetStreamsIntended(q: Query, svc: Services): (r: Run)
    ensures 1 <= |r.requests| <= 3 && r.requests[0] == EmbedRequest(q)
    ensures |r.requests| >= 2 <==> q.sourceName in EmbedSources(q, svc).servers
    ensures |r.requests| >= 2 ==> r.requests[1] == RcpRequest(q, svc)
    ensures |r.requests| == 3 <==> ReachesProbe(q, svc)
    ensures r.outcome.Crash? ==> |r.requests| == 2
    ensures r.outcome != Crash(NoRedirectTarget)
    ensures |r.requests| == 3 && GetSourceUrl(svc.fetch(r.requests[2])).None? ==> r.outcome == NoResult
    ensures |r.requests| == 3 && GetSourceUrl(svc.fetch(r.requests[2])).Some? ==>
              var location := svc.fetch(r.requests[2]).location.value;
              && (Dispatch(location).Some? ==>
                    r.outcome == Call(Dispatch(location).value, r.requests[2].url, r.requests[1].url))
              && (Dispatch(location).None? ==> r.outcome == NoResult)
    ensures |r.requests| == 3 ==> ProbesDecodedSource(svc, r.requests[1], r.requests[2])
  {
    match WalkStages(q, svc)
    case Stopped(outcome, requests) => Run(outcome, requests)
    case Probed(location, sourceUrl, rcpUrl, requests) =>
      if location.None? then Run(NoResult, requests)
      else Run(Route(location.value, sourceUrl, rcpUrl), requests)
  }

  /** The referrers threaded through the run: none on the embed fetch, the
      root of the host the embed fetch ended on for the RCP fetch, and the
      RCP URL for the probe, which does not follow redirects. */
  lemma ReferrerThreading(q: Query, svc: Services)
    ensures var r := GetStreams(q, svc);
            && r.requests[0].referer == None
            && (|r.requests| >= 2 ==>
                  && r.requests[1].referer == Some(SiteRoot(svc.hostname(svc.fetch(r.requests[0]).finalUrl)))
                  && r.requests[1].url == RcpPageUrl(EmbedSources(q, svc).servers[q.sourceName])
                  && r.requests[1].followRedirects)
            && (|r.requests| == 3 ==>
                  && r.requests[2].referer == Some(r.requests[1].url)
                  && !r.requests[2].followRedirects)
  {
  }

  /** A source name the embed page does not list ends the run with no result
      after the embed fetch alone; a listed one always reaches the RCP page. */
  lemma UnknownSourceStopsAtEmbed(q: Query, svc: Services)
    ensures var r := GetStreams(q, svc);
            (q.sourceName !in EmbedSources(q, svc).servers <==> r == Run(NoResult, [EmbedRequest(q)]))
    ensures q.sourceName in EmbedSources(q, svc).servers ==> |GetStreams(q, svc).requests| >= 2
  {
  }

  /** An embed page that does not answer 200 ends the run right there. */
  lemma EmbedFailureStopsAtEmbed(q: Query, svc: Services)
    requires svc.fetch(EmbedRequest(q)).status != 200
    ensures GetStreams(q, svc) == Run(NoResult, [EmbedRequest(q)])
  {
  }

  /** An RCP page that does not answer 200 ends the run with no result
      before any probe. */
  lemma RcpFailureStopsBeforeProbe(q: Query, svc: Services)
    requires q.sourceName in EmbedSources(q, svc).servers
    requires svc.fetch(RcpRequest(q, svc)).status != 200
    ensures GetStreams(q, svc) == Run(NoResult, [EmbedRequest(q), RcpRequest(q, svc)])
  {
  }

  /** An RCP page that answers 200 but lacks `div#hidden` or `body`, or
      whose payload makes the decoder raise, makes the run raise after two
      requests: the exception is not caught. */
  lemma RcpPageFaultsPropagate(q: Query, svc: Services)
    requires q.sourceName in EmbedSources(q, svc).servers
    requires svc.fetch(RcpRequest(q, svc)).status == 200
    ensures var page := svc.fetch(RcpRequest(q, svc)).page;
            DecodeInputs(page).None? ==>
              GetStreams(q, svc) == Run(Crash(MissingElement), [EmbedRequest(q), RcpRequest(q, svc)])
    ensures var page := svc.fetch(RcpRequest(q, svc)).page;
            DecodeInputs(page).Some? &&
            svc.decode(DecodeInputs(page).value.0, DecodeInputs(page).value.1).DecodeRaised? ==>
              GetStreams(q, svc) == Run(Crash(DecoderRaised), [EmbedRequest(q), RcpRequest(q, svc)])
  {
  }

  /** A payload that decodes to the empty string is falsy: the run ends with
      no result after two requests, before any probe. */
  lemma EmptySourceStopsBeforeProbe(q: Query, svc: Services)
    requires q.sourceName in EmbedSources(q, svc).servers
    requires svc.fetch(RcpRequest(q, svc)).status == 200
    requires var page := svc.fetch(RcpRequest(q, svc)).page;
             DecodeInputs(page).Some? &&
             svc.decode(DecodeInputs(page).value.0, DecodeInputs(page).value.1) == Decoded("")
    ensures GetStreams(q, svc) == Run(NoResult, [EmbedRequest(q), RcpRequest(q, svc)])
  {
  }

  /** A probe answering anything but exactly 302 (200 included) never
      reaches an extractor: as written the run raises. */
  lemma ProbeMustRedirect(q: Query, svc: Services)
    requires |GetStreams(q, svc).requests| == 3
    requires svc.fetch(GetStreams(q, svc).requests[2]).status != 302
    ensures GetStreams(q, svc).outcome == Crash(NoRedirectTarget)
    ensures GetStreamsIntended(q, svc).outcome == NoResult
  {
  }

  /** The location is tested for "vidsrc.stream" before "multiembed.mov":
      one that names both goes to the vidsrc.stream extractor. */
  lemma DispatchOrder(q: Query, svc: Services)
    requires GetStreams(q, svc).outcome.Call?
    ensures var r := GetStreams(q, svc);
            var location := svc.fetch(r.requests[2]).location.value;
            && (r.outcome.kind == VidsrcStream <==> Mentions(location, "vidsrc.stream"))
            && (r.outcome.kind == Multiembed <==>
                  !Mentions(location, "vidsrc.stream") && Mentions(location, "multiembed.mov"))
  {
  }

  /** The extractor's arguments do not depend on the location beyond the
      choice of extractor: two oracles that differ only in the probe's
      location call the same extractor with the same arguments whenever
      their locations route to the same kind. */
  lemma LocationOnlyRoutes(q: Query, svc: Services, svc': Services, kind: ExtractorKind)
    requires svc.hostname == svc'.hostname && svc.decode == svc'.decode
    requires |GetStreams(q, svc).requests| == 3
    requires forall req :: req != GetStreams(q, svc).requests[2] ==> svc.fetch(req) == svc'.fetch(req)
    requires var probe := GetStreams(q, svc).requests[2];
             && svc.fetch(probe).status == 302 && svc'.fetch(probe).status == 302
             && svc.fetch(probe).location.Some? && svc'.fetch(probe).location.Some?
             && Dispatch(svc.fetch(probe).location.value) == Some(kind)
             && Dispatch(svc'.fetch(probe).location.value) == Some(kind)
    ensures GetStreams(q, svc) == GetStreams(q, svc')
  {
  }

  /** The intended version differs from the code as written only where the
      code raises on a missing location, and issues the same requests. */
  lemma IntendedDiffersOnlyOnMissingRedirect(q: Query, svc: Services)
    ensures GetStreamsIntended(q, svc).requests == GetStreams(q, svc).requests
    ensures GetStreams(q, svc).outcome != Crash(NoRedirectTarget) ==>
              GetStreamsIntended(q, svc) == GetStreams(q, svc)
    ensures GetStreams(q, svc).outcome == Crash(NoRedirectTarget) ==>
              GetStreamsIntended(q, svc).outcome == NoResult
  {
  }
}
