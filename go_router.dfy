/**
 * The Go serverless entry point (api/index.go): CORS headers, the preflight
 * short-cut, then a `switch` on the request's path. The query string is parsed
 * apart from the path by the HTTP library, so it never takes part in routing.
 *
 * Go ignores header changes made after `WriteHeader`: the not-found handler
 * writes its status before it sets the JSON content type, so that setting has
 * no effect and the handler's own headers on the 404 are the CORS ones alone.
 */
module GoRouter {
  import opened Wrappers
  import opened Models
  import opened ServerlessRoutes

  /** The method, the decoded path, and the raw query string after the first `?` (possibly empty). */
  datatype Request = Request(verb: string, path: string, rawQuery: string)

  const Platform: string := "vercel"

  /** handleNotFound: the status is written first, so the JSON content type set after it is dropped. */
  function NotFoundResponse(path: string): (resp: Response)
    ensures resp.status == 404 && resp.headers == Cors
    ensures resp.body.NotFound? && resp.body.error == "Endpoint not found" && resp.body.path == path
  {
    Response(404, Cors, NotFound("Endpoint not found", path))
  }

  function Handle(r: Request, now: Time): (resp: Response)
    ensures |resp.headers| >= 3 && resp.headers[..3] == Cors
    ensures r.verb == "OPTIONS" ==> resp == Response(200, Cors, NoBody)
    ensures r.verb != "OPTIONS" ==> (resp.status == 404 <==> Route(r.path).None?)
    ensures r.verb != "OPTIONS" && Route(r.path).Some? ==>
              resp == Response(200, Cors + [JsonContent], Serve(Route(r.path).value, Platform, now))
    ensures r.verb != "OPTIONS" && Route(r.path).None? ==> resp == NotFoundResponse(r.path)
    ensures WellCounted(resp.body)
  {
    if r.verb == "OPTIONS" then Response(200, Cors, NoBody)
    else
      match Route(r.path)
      case Some(e) => Response(200, Cors + [JsonContent], Serve(e, Platform, now))
      case None => NotFoundResponse(r.path)
  }

  /** Apart from OPTIONS, the method never changes the answer. */
  lemma MethodIgnored(r: Request, verb: string, now: Time)
    requires r.verb != "OPTIONS" && verb != "OPTIONS"
    ensures Handle(r.(verb := verb), now) == Handle(r, now)
  {
  }

  /** The query string never changes the answer. */
  lemma QueryIgnored(r: Request, rawQuery: string, now: Time)
    ensures Handle(r.(rawQuery := rawQuery), now) == Handle(r, now)
  {
  }

  /** A preflight request gets 200 and no body whatever its path. */
  lemma PreflightAnyPath(path: string, rawQuery: string, now: Time)
    ensures Handle(Request("OPTIONS", path, rawQuery), now).status == 200
    ensures Handle(Request("OPTIONS", path, rawQuery), now).body == NoBody
  {
  }

  /** Every path other than the four endpoints is a 404 that echoes the path. */
  lemma UnknownPathEchoed(r: Request, now: Time)
    requires r.verb != "OPTIONS"
    requires forall e: Endpoint :: PathOf(e) != r.path
    ensures Handle(r, now).status == 404
    ensures Handle(r, now).body == NotFound("Endpoint not found", r.path)
  {
  }

  /** Every endpoint is reached by exactly its own path, with any method but OPTIONS. */
  lemma EndpointReached(e: Endpoint, verb: string, rawQuery: string, now: Time)
    requires verb != "OPTIONS"
    ensures Handle(Request(verb, PathOf(e), rawQuery), now).status == 200
    ensures Handle(Request(verb, PathOf(e), rawQuery), now).body == Serve(e, Platform, now)
  {
    assert Route(PathOf(e)) == Some(e);
  }
}
