/** `DisableCSRFForAPI`: a middleware that marks every request under
    "/api/" as exempt from Django's CSRF check and then passes it on. The
    rest of the middleware chain and the view are summed up by `Downstream`,
    which records what it was handed. */
module Middleware {
  import opened Text

  const ApiPrefix: string := "/api/"

  /** `path.startswith("/api/")`: case-sensitive, trailing slash included. */
  predicate IsApiPath(path: string) {
    StartsWith(path, ApiPrefix)
  }

  /** Anything under an API path is an API path as well. */
  lemma ApiPathExtends(path: string, more: string)
    requires IsApiPath(path)
    ensures IsApiPath(path + more)
  {
    StartsWithAppend(path, ApiPrefix, more);
  }

  /** Which paths the prefix catches. */
  lemma ApiPathExamples()
    ensures IsApiPath("/api/") && IsApiPath("/api/interviews/")
    ensures !IsApiPath("/api") && !IsApiPath("/API/x") && !IsApiPath("/admin/") && !IsApiPath("")
  {
    assert "/API/x"[1] != ApiPrefix[1];
    assert "/admin/"[2] != ApiPrefix[2];
  }

  datatype Response = Response(status: int, body: string)

  /** The part of an `HttpRequest` the middleware touches. */
  class HttpRequest {
    var path: string
    var dontEnforceCsrfChecks: bool

    constructor(path0: string)
      ensures path == path0 && !dontEnforceCsrfChecks
    {
      path := path0;
      dontEnforceCsrfChecks := false;
    }
  }

  /** `get_response`: the rest of the chain. It remembers the path and the
      CSRF flag of every request it is handed and answers with `reply`. */
  class Downstream {
    var received: seq<(string, bool)>
    const reply: Response

    constructor(reply0: Response)
      ensures received == [] && reply == reply0
    {
      received := [];
      reply := reply0;
    }

    method GetResponse(request: HttpRequest) returns (response: Response)
      modifies this
      ensures received == old(received) + [(request.path, request.dontEnforceCsrfChecks)]
      ensures response == reply
    {
      received := received + [(request.path, request.dontEnforceCsrfChecks)];
      response := reply;
    }
  }

  class DisableCsrfForApi {
    const getResponse: Downstream

    constructor(getResponse0: Downstream)
      ensures getResponse == getResponse0
    {
      getResponse := getResponse0;
    }

    /** `__call__`: an API request leaves with the CSRF check switched off,
        any other request untouched; either way the rest of the chain sees
        it exactly once, and its response is returned as it is. */
    method Call(request: HttpRequest) returns (response: Response)
      modifies request, getResponse
      ensures request.path == old(request.path)
      ensures IsApiPath(request.path) ==> request.dontEnforceCsrfChecks
      ensures !IsApiPath(request.path) ==> request.dontEnforceCsrfChecks == old(request.dontEnforceCsrfChecks)
      ensures getResponse.received == old(getResponse.received) + [(request.path, request.dontEnforceCsrfChecks)]
      ensures response == getResponse.reply
    {
      if IsApiPath(request.path) {
        request.dontEnforceCsrfChecks := true;
      }
      response := getResponse.GetResponse(request);
    }
  }

  /** A fresh request for "/api/auth/login/" reaches the view exempt from
      the CSRF check; one for "/admin/" reaches it still checked. */
  method ExemptOnlyApi() returns (api: bool, admin: bool)
    ensures api && !admin
  {
    var chain := new Downstream(Response(200, "ok"));
    var middleware := new DisableCsrfForApi(chain);
    var login := new HttpRequest("/api/auth/login/");
    var page := new HttpRequest("/admin/");
    ApiPathExamples();
    ApiPathExtends("/api/", "auth/login/");
    assert "/api/" + "auth/login/" == "/api/auth/login/";
    var r1 := middleware.Call(login);
    var r2 := middleware.Call(page);
    assert chain.received[|chain.received| - 2] == ("/api/auth/login/", true);
    assert chain.received[|chain.received| - 1] == ("/admin/", false);
    api := chain.received[0].1;
    admin := chain.received[1].1;
  }
}
