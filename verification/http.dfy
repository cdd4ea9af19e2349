/** The abstract view of the network the resolver sees. A fetch is a request
    value handed to an oracle; what comes back is a response record in which
    the parsed page has already been reduced to the few elements the
    resolver reads. */
module Http {
  import opened Py

  /** One GET: the URL, the `Referer` header if one is sent, and whether
      redirects are followed (the probe of the third stage turns them off). */
  datatype Request = Request(url: string, referer: Option<string>, followRedirects: bool)

  /** An element of the embed page yielded by `find_all("div", {"class", "server"})`:
      its text and its `data-hash` attribute, which may be missing. */
  datatype ServerElement = ServerElement(text: string, dataHash: Option<string>)

  /** An element found on a page, reduced to the one attribute read from it. */
  datatype Tag = Tag(attribute: Option<string>)

  /** A parsed page as the resolver reads it:
      - `servers`: the elements `find_all("div", {"class", "server"})` yields,
        in document order; the set literal filters on the `class` attribute,
        so a `div` of class "class" is yielded as well as one of class "server";
      - `hidden`: the first `div#hidden`, carrying its `data-h` attribute, if any;
      - `body`: the first `body` element, carrying its `data-i` attribute, if any. */
  datatype Page = Page(servers: seq<ServerElement>, hidden: Option<Tag>, body: Option<Tag>)

  /** A response: status code, the URL after any redirects, the `location`
      header if present, and the parsed body. */
  datatype Response = Response(status: int, finalUrl: string, location: Option<string>, page: Page)
}
