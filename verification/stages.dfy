/** The three stages of `VidsrcMeExtractor` (the embed page, the RCP page and
    the redirect probe), the embed-URL construction and the final host
    dispatch, each as a pure function of the response it reads. */
module Stages {
  import opened Py
  import opened Http

  const BaseUrl: string := "https://vidsrc.me"
  const RcpUrl: string := "https://rcp.vidsrc.me/rcp"

  // ---------------------------------------------------------------------
  // Embed URL

  /** The movie-style embed URL of a media id. */
  function EmbedRoot(mediaId: string): string {
    BaseUrl + "/embed/" + mediaId
  }

  /** `season and episode`: both present and non-empty. */
  predicate HasEpisode(season: Option<string>, episode: Option<string>) {
    Truthy(season) && Truthy(episode)
  }

  /** The URL of the embed page. Season and episode are appended only when
      both are truthy; one without the other falls back to the movie URL. */
  function EmbedUrl(mediaId: string, season: Option<string>, episode: Option<string>): (url: string)
    ensures StartsWith(url, EmbedRoot(mediaId))
    ensures HasEpisode(season, episode) ==>
              url[|EmbedRoot(mediaId)|..] == "/" + season.value + "-" + episode.value + "/"
    ensures !HasEpisode(season, episode) ==> url == EmbedRoot(mediaId)
  {
    var url := EmbedRoot(mediaId);
    if HasEpisode(season, episode) then url + "/" + season.value + "-" + episode.value + "/" else url
  }

  /** The season and episode an embed URL names. */
  datatype EpisodeKey = EpisodeKey(season: string, episode: string)

  /** What an embed URL identifies: a media id and, for a series, an episode. */
  datatype EmbedTarget = EmbedTarget(mediaId: string, episode: Option<EpisodeKey>)

  /** The first index of `c` in `s`. */
  function IndexOf(s: string, c: char): (r: Option<nat>)
    ensures r.None? <==> c !in s
    ensures r.Some? ==> r.value < |s| && s[r.value] == c && c !in s[..r.value]
  {
    if |s| == 0 then None
    else if s[0] == c then Some(0)
    else
      match IndexOf(s[1..], c)
      case None => None
      case Some(i) =>
        assert s[..i + 1] == [s[0]] + s[1..][..i];
        Some(i + 1)
  }

  /** Reads an embed URL back into the media id and episode it names; the
      inverse of `EmbedUrl` on ids without '/' and seasons without '-'. */
  function ParseEmbedUrl(url: string): Option<EmbedTarget> {
    var root := BaseUrl + "/embed/";
    if !StartsWith(url, root) then None
    else
      var rest := url[|root|..];
      match IndexOf(rest, '/')
      case None => Some(EmbedTarget(rest, None))
      case Some(i) =>
        var tail := rest[i + 1..];
        if |tail| == 0 || tail[|tail| - 1] != '/' then None
        else
          var key := tail[..|tail| - 1];
          match IndexOf(key, '-')
          case None => None
          case Some(j) => Some(EmbedTarget(rest[..i], Some(EpisodeKey(key[..j], key[j + 1..]))))
  }

  /** The embed URL carries exactly the media id and, when both season and
      episode are truthy, that season and episode; otherwise no episode. */
  lemma EmbedUrlRoundTrip(mediaId: string, season: Option<string>, episode: Option<string>)
    requires '/' !in mediaId
    requires HasEpisode(season, episode) ==> '-' !in season.value
    ensures ParseEmbedUrl(EmbedUrl(mediaId, season, episode))
            == Some(EmbedTarget(mediaId,
                                if HasEpisode(season, episode)
                                then Some(EpisodeKey(season.value, episode.value))
                                else None))
  {
    var root := BaseUrl + "/embed/";
    var url := EmbedUrl(mediaId, season, episode);
    assert url == root + (url[|root|..]) && StartsWith(url, root);
    if HasEpisode(season, episode) {
      var s, e := season.value, episode.value;
      var rest := url[|root|..];
      assert rest == mediaId + ['/'] + (s + "-" + e + "/");
      IndexOfFirst(mediaId, '/', s + "-" + e + "/");
      var tail := rest[|mediaId| + 1..];
      assert tail == s + "-" + e + "/";
      var key := tail[..|tail| - 1];
      assert key == s + ['-'] + e;
      IndexOfFirst(s, '-', e);
    } else {
      assert url[|root|..] == mediaId;
      assert IndexOf(mediaId, '/') == None;
    }
  }

  /** The first `c` in `a + [c] + b` is the one right after `a`, when `a` has none. */
  lemma IndexOfFirst(a: string, c: char, b: string)
    requires c !in a
    ensures IndexOf(a + [c] + b, c) == Some(|a|)
    ensures (a + [c] + b)[..|a|] == a && (a + [c] + b)[|a| + 1..] == b
  {
  }

  // ---------------------------------------------------------------------
  // Stage 1: the embed page and its server map

  /** A server element is kept only when both its text and its `data-hash`
      are truthy. */
  predicate Listed(e: ServerElement) {
    e.text != "" && Truthy(e.dataHash)
  }

  /** Element `i` is kept and carries the display name `name`. */
  ghost predicate Contributes(elems: seq<ServerElement>, i: int, name: string) {
    0 <= i < |elems| && Listed(elems[i]) && elems[i].text == name
  }

  /** Element `i` is the last kept element named `name`. */
  ghost predicate LastContributor(elems: seq<ServerElement>, i: int, name: string) {
    Contributes(elems, i, name) && forall j :: i < j < |elems| ==> !Contributes(elems, j, name)
  }

  /** The dict comprehension over the server elements, in document order:
      each kept element sets its name to its hash, so a later duplicate
      overwrites an earlier one. */
  function ServerMap(elems: seq<ServerElement>): map<string, string> {
    if |elems| == 0 then map[]
    else
      var last := elems[|elems| - 1];
      var m := ServerMap(elems[..|elems| - 1]);
      if Listed(last) then m[last.text := last.dataHash.value] else m
  }

  /** A name is a key of the server map iff some kept element carries it;
      its value is the hash of the last such element; no value is empty. */
  lemma {:induction false} ServerMapMeaning(elems: seq<ServerElement>)
    ensures forall name :: name in ServerMap(elems) <==> exists i :: Contributes(elems, i, name)
    ensures forall name, i :: LastContributor(elems, i, name) ==>
              name in ServerMap(elems) && ServerMap(elems)[name] == elems[i].dataHash.value
    ensures forall name :: name in ServerMap(elems) ==> ServerMap(elems)[name] != ""
  {
    if |elems| > 0 {
      var n := |elems| - 1;
      var init := elems[..n];
      var last := elems[n];
      var m0 := ServerMap(init);
      var m := ServerMap(elems);
      ServerMapMeaning(init);
      forall name
        ensures name in m <==> exists i :: Contributes(elems, i, name)
      {
        if Listed(last) && last.text == name {
          assert Contributes(elems, n, name);
        } else {
          if name in m0 {
            var i :| Contributes(init, i, name);
            assert Contributes(elems, i, name);
          }
          if i :| Contributes(elems, i, name) {
            assert i != n;
            assert Contributes(init, i, name);
          }
        }
      }
      forall name, i | LastContributor(elems, i, name)
        ensures name in m && m[name] == elems[i].dataHash.value
      {
        if i != n {
          assert !Contributes(elems, n, name);
          forall j | i < j < n
            ensures !Contributes(init, j, name)
          {
            assert !Contributes(elems, j, name);
          }
          assert LastContributor(init, i, name);
        }
      }
    }
  }

  /** The site root derived from a hostname, as the f-string renders it
      (a missing hostname renders as "None"). */
  function SiteRoot(host: Option<string>): string {
    "https://" + Render(host) + "/"
  }

  /** What the first stage yields: the server map and the referrer for the next stage. */
  datatype Sources = Sources(servers: map<string, string>, referrer: string)

  /** `get_sources`: a non-200 response gives an empty map; either way the
      referrer is the root of the host the fetch ended on. */
  function GetSources(resp: Response, hostname: string -> Option<string>): (r: Sources)
    ensures r.referrer == SiteRoot(hostname(resp.finalUrl))
    ensures forall name :: name in r.servers <==>
              resp.status == 200 && exists i :: Contributes(resp.page.servers, i, name)
    ensures forall name, i :: resp.status == 200 && LastContributor(resp.page.servers, i, name) ==>
              name in r.servers && r.servers[name] == resp.page.servers[i].dataHash.value
    ensures forall name :: name in r.servers ==> r.servers[name] != ""
  {
    var referrer := SiteRoot(hostname(resp.finalUrl));
    if resp.status != 200 then Sources(map[], referrer)
    else
      ServerMapMeaning(resp.page.servers);
      Sources(ServerMap(resp.page.servers), referrer)
  }

  /** `dict.get`: the value under a key, or `None`. */
  function Lookup(m: map<string, string>, key: string): (r: Option<string>)
    ensures r.Some? <==> key in m
    ensures r.Some? ==> r.value == m[key]
  {
    if key in m then Some(m[key]) else None
  }

  // ---------------------------------------------------------------------
  // Stage 2: the RCP page

  /** A schema-relative URL ("//host/path") gets "https:" in front; any
      other string is left alone. */
  function Normalize(source: string): (r: string)
    ensures !StartsWith(r, "//")
    ensures r == source <==> !StartsWith(source, "//")
    ensures r != source ==> r == "https:" + source
  {
    if StartsWith(source, "//") then
      var r := "https:" + source;
      assert r[..2][0] == 'h';
      r
    else source
  }

  /** Normalising twice is normalising once. */
  lemma NormalizeIdempotent(source: string)
    ensures Normalize(Normalize(source)) == Normalize(source)
  {
  }

  /** The outcome of `Utilities.decode_src`: its text, or the fact that it raised. */
  datatype DecodeReply = Decoded(text: string) | DecodeRaised

  /** Why a run ends in an exception rather than a return value. */
  datatype Fault =
    | MissingElement     // `soup.find(...)` gave None and `.get` was called on it
    | DecoderRaised      // `Utilities.decode_src` raised
    | NoRedirectTarget   // `"vidsrc.stream" in None`: the probe gave no location

  /** What the second stage returns, or the exception it raises. */
  datatype Attempt = Got(url: Option<string>, rcpUrl: string) | Raised(fault: Fault)

  /** The URL of the RCP page for a server hash. */
  function RcpPageUrl(hash: string): string {
    RcpUrl + "/" + hash
  }

  /** The decoder's inputs read off the RCP page: `data-h` of `div#hidden`
      and `data-i` of `body`, when both elements exist. */
  function DecodeInputs(page: Page): Option<(Option<string>, Option<string>)> {
    if page.hidden.None? || page.body.None? then None
    else Some((page.hidden.value.attribute, page.body.value.attribute))
  }

  /** `get_source`: the RCP URL comes back whatever happens; the decoded,
      normalised source comes back iff the RCP page answered 200. */
  function GetSource(hash: string, resp: Response, decode: (Option<string>, Option<string>) -> DecodeReply): (r: Attempt)
    ensures resp.status != 200 ==> r == Got(None, RcpPageUrl(hash))
    ensures r.Got? ==> r.rcpUrl == RcpUrl + "/" + hash
    ensures r.Got? ==> (r.url.None? <==> resp.status != 200)
    ensures r.Got? && r.url.Some? ==>
              && DecodeInputs(resp.page).Some?
              && var inputs := DecodeInputs(resp.page).value;
              && decode(inputs.0, inputs.1).Decoded?
              && r.url.value == Normalize(decode(inputs.0, inputs.1).text)
    ensures r.Raised? ==> resp.status == 200
    ensures r == Raised(MissingElement) <==> resp.status == 200 && DecodeInputs(resp.page).None?
    ensures r == Raised(DecoderRaised) <==>
              && resp.status == 200
              && DecodeInputs(resp.page).Some?
              && decode(DecodeInputs(resp.page).value.0, DecodeInputs(resp.page).value.1).DecodeRaised?
    ensures r != Raised(NoRedirectTarget)
  {
    var url := RcpPageUrl(hash);
    if resp.status != 200 then Got(None, url)
    else
      match DecodeInputs(resp.page)
      case None => Raised(MissingElement)
      case Some(inputs) =>
        match decode(inputs.0, inputs.1)
        case DecodeRaised => Raised(DecoderRaised)
        case Decoded(source) => Got(Some(Normalize(source)), url)
  }

  // ---------------------------------------------------------------------
  // Stage 3: the redirect probe

  /** `get_source_url`: the `location` header iff the probe answered exactly
      302; `None` for every other status, 200 included. */
  function GetSourceUrl(resp: Response): (r: Option<string>)
    ensures r.Some? ==> resp.status == 302
    ensures resp.status == 302 ==> r == resp.location
    ensures resp.status != 302 ==> r == None
  {
    if resp.status != 302 then None else resp.location
  }

  // ---------------------------------------------------------------------
  // Final host dispatch

  /** The two backend extractors the final host can be routed to. */
  datatype ExtractorKind = VidsrcStream | Multiembed

  /** Chooses the extractor by substring of the final location:
      "vidsrc.stream" is tested first, "multiembed.mov" second. */
  function Dispatch(location: string): (k: Option<ExtractorKind>)
    ensures k == Some(VidsrcStream) <==> Mentions(location, "vidsrc.stream")
    ensures k == Some(Multiembed) <==>
              !Mentions(location, "vidsrc.stream") && Mentions(location, "multiembed.mov")
    ensures k == None <==>
              !Mentions(location, "vidsrc.stream") && !Mentions(location, "multiembed.mov")
  {
    if Contains(location, "vidsrc.stream") then Some(VidsrcStream)
    else if Contains(location, "multiembed.mov") then Some(Multiembed)
    else None
  }
}
