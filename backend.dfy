/** The verification service as the panel addresses it: a request names an endpoint below
    the service base and carries a query string; the hook joins them as `${url}/${path}?${query}`. */
module Backend {
  import opened JsValues
  import QueryStrings

  const BaseUrl := "https://api.welldonestudio.io/compiler"
  const CheckEndpoint := "verification/aptos/verify-check"
  const VerifyEndpoint := "verification/aptos"

  /** A request to the verification service: the endpoint path and the query string. */
  datatype Request = Request(endpoint: string, query: string)

  /** The URL the hook fetches for its `path` and `query` parameters. */
  function FetchUrl(path: string, query: Option<string>): string {
    BaseUrl + "/" + path + "?" + Interpolate(query)
  }

  /** The URL a request is meant to reach: its endpoint as the path, its query as the query. */
  function RequestUrl(req: Request): string {
    FetchUrl(req.endpoint, Some(req.query))
  }

  /** The URL the status check actually fetches: the hook is called with (endpoint, query)
      against its (method, path, query, options) parameters, so the query lands in `path`. */
  function AsWrittenCheckUrl(query: string): string {
    FetchUrl(query, None)
  }

  /** The URL the verify action actually fetches: the same shift, with "load" as the query. */
  function AsWrittenVerifyUrl(query: string): string {
    FetchUrl(query, Some("load"))
  }

  lemma BaseUrlHasNoQuestionMark()
    ensures '?' !in BaseUrl + "/"
  {
  }

  /** A corrected request reaches its endpoint: the URL's path is the endpoint below the base,
      and everything after the `?` is the request's query. */
  lemma RequestUrlRoutes(req: Request)
    requires '?' !in req.endpoint && '?' !in req.query
    ensures QueryStrings.Split(RequestUrl(req), '?') == [BaseUrl + "/" + req.endpoint, req.query]
  {
    BaseUrlHasNoQuestionMark();
    var path := BaseUrl + "/" + req.endpoint;
    assert '?' !in path by {
      forall i | 0 <= i < |path| ensures path[i] != '?' {
        if i >= |BaseUrl + "/"| { assert path[i] == req.endpoint[i - |BaseUrl + "/"|]; }
      }
    }
    QueryStrings.SplitAtFirstSeparator(path, '?', req.query);
    QueryStrings.SplitWithoutSeparator(req.query, '?');
  }

  /** As written, the status check requests the path `chainId=…` below the base with the
      literal query `undefined`: the verify-check endpoint is never reached. */
  lemma AsWrittenCheckMisrouted(chainId: string, account: Option<string>, moduleName: Option<string>)
    requires '?' !in chainId && '?' !in Interpolate(account) && '?' !in Interpolate(moduleName)
    ensures var q := QueryStrings.CheckQuery(chainId, account, moduleName);
      && QueryStrings.Split(AsWrittenCheckUrl(q), '?') == [BaseUrl + "/" + q, "undefined"]
      && AsWrittenCheckUrl(q) != RequestUrl(Request(CheckEndpoint, q))
  {
    var q := QueryStrings.CheckQuery(chainId, account, moduleName);
    assert q[0] == 'c';
    var n := |BaseUrl + "/"|;
    assert AsWrittenCheckUrl(q)[n] == 'c';
    assert RequestUrl(Request(CheckEndpoint, q))[n] == 'v';
    assert '?' !in q by {
      NoQuestionMarkInCheckQuery(chainId, account, moduleName);
    }
    RequestUrlRoutes(Request(q, "undefined"));
  }

  /** As written, the verify action requests the path `chainId=…&timestamp=…` below the base
      with the literal query `load`: the verify endpoint is never reached. */
  lemma AsWrittenVerifyMisrouted(chainId: string, account: Option<string>, moduleName: Option<string>, timestamp: nat)
    requires '?' !in chainId && '?' !in Interpolate(account) && '?' !in Interpolate(moduleName)
    ensures var q := QueryStrings.VerifyQuery(chainId, account, moduleName, timestamp);
      && QueryStrings.Split(AsWrittenVerifyUrl(q), '?') == [BaseUrl + "/" + q, "load"]
      && AsWrittenVerifyUrl(q) != RequestUrl(Request(VerifyEndpoint, q))
  {
    var q := QueryStrings.VerifyQuery(chainId, account, moduleName, timestamp);
    assert q[0] == 'c';
    var n := |BaseUrl + "/"|;
    assert AsWrittenVerifyUrl(q)[n] == 'c';
    assert RequestUrl(Request(VerifyEndpoint, q))[n] == 'v';
    assert '?' !in q by {
      NoQuestionMarkInVerifyQuery(chainId, account, moduleName, timestamp);
    }
    RequestUrlRoutes(Request(q, "load"));
  }

  lemma NoQuestionMarkInCheckQuery(chainId: string, account: Option<string>, moduleName: Option<string>)
    requires '?' !in chainId && '?' !in Interpolate(account) && '?' !in Interpolate(moduleName)
    ensures '?' !in QueryStrings.CheckQuery(chainId, account, moduleName)
  {
  }

  lemma NoQuestionMarkInVerifyQuery(chainId: string, account: Option<string>, moduleName: Option<string>, timestamp: nat)
    requires '?' !in chainId && '?' !in Interpolate(account) && '?' !in Interpolate(moduleName)
    ensures '?' !in QueryStrings.VerifyQuery(chainId, account, moduleName, timestamp)
  {
  }
}
