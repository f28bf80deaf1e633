/**
 * The Node.js serverless entry point (api/index.js): the same endpoints as the
 * Go one, but matched against the raw request url, query string included, and
 * with the content type set by the response helper on every JSON answer,
 * including the 404.
 */
module NodeRouter {
  import opened Wrappers
  import opened Models
  import opened ServerlessRoutes
  import GoRouter

  /** The method and the raw url: the path, then `?` and the query when there is one. */
  datatype Request = Request(verb: string, url: string)

  const Platform: string := "vercel-nodejs"

  /** The url a client sends for a path and a query string. */
  function Url(path: string, query: string): (url: string)
    ensures query == "" ==> url == path
    ensures query != "" ==> |url| > |path| && url[|path|] == '?'
  {
    if query == "" then path else path + "?" + query
  }

  function Handle(req: Request, now: Time): (resp: Response)
    ensures |resp.headers| >= 3 && resp.headers[..3] == Cors
    ensures req.verb == "OPTIONS" ==> resp == Response(200, Cors, NoBody)
    ensures req.verb != "OPTIONS" ==> (resp.status == 404 <==> Route(req.url).None?)
    ensures req.verb != "OPTIONS" && Route(req.url).Some? ==>
              resp == Response(200, Cors + [JsonContent], Serve(Route(req.url).value, Platform, now))
    ensures req.verb != "OPTIONS" && Route(req.url).None? ==>
              resp == Response(404, Cors + [JsonContent], NotFound("Endpoint not found", req.url))
    ensures WellCounted(resp.body)
  {
    if req.verb == "OPTIONS" then Response(200, Cors, NoBody)
    else
      match Route(req.url)
      case Some(e) => Response(200, Cors + [JsonContent], Serve(e, Platform, now))
      case None => Response(404, Cors + [JsonContent], NotFound("Endpoint not found", req.url))
  }

  /** Apart from OPTIONS, the method never changes the answer. */
  lemma MethodIgnored(req: Request, verb: string, now: Time)
    requires req.verb != "OPTIONS" && verb != "OPTIONS"
    ensures Handle(req.(verb := verb), now) == Handle(req, now)
  {
  }

  /**
   * A known path followed by `?` is a 404 here, echoing the whole url, whatever
   * follows the `?` (nothing included), while the Go entry point serves the
   * endpoint.
   */
  lemma QueryStringNotRouted(e: Endpoint, verb: string, query: string, now: Time)
    requires verb != "OPTIONS"
    ensures Handle(Request(verb, PathOf(e) + "?" + query), now).status == 404
    ensures Handle(Request(verb, PathOf(e) + "?" + query), now).body ==
              NotFound("Endpoint not found", PathOf(e) + "?" + query)
    ensures GoRouter.Handle(GoRouter.Request(verb, PathOf(e), query), now).status == 200
  {
    QueryTextRoutesNowhere(PathOf(e) + "?" + query, |PathOf(e)|);
    GoRouter.EndpointReached(e, verb, query, now);
  }

  /**
   * When the url is the path itself (no `?`, nothing percent-encoded) the two
   * entry points agree on the status and on every body but the health report,
   * which names its platform; on their 404s the handlers' headers differ only
   * in the JSON content type, which the Go one sets too late.
   */
  lemma AgreesWithGoWithoutQuery(verb: string, path: string, now: Time)
    ensures var node := Handle(Request(verb, Url(path, "")), now);
            var go := GoRouter.Handle(GoRouter.Request(verb, path, ""), now);
            && node.status == go.status
            && (!node.body.Health? ==> node.body == go.body)
            && (node.body.Health? ==> go.body == node.body.(platform := GoRouter.Platform))
            && (node.status == 404 ==> node.headers == go.headers + [JsonContent])
  {
  }
}
