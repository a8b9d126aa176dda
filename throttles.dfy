/** The cache keys of the two rate-limit throttles. A throttle counts
    requests per key, so the ident chosen for a request decides which
    requests share a budget. A key is text: `cache_format % {...}` renders
    the ident with `%s`, so a missing address becomes "None" and a primary
    key its decimal digits, and after that nothing tells apart an ident
    that was a number, a string or nothing at all. */
module Throttles {
  import opened Wrappers
  import opened Text
  import Security

  const AuthScope: string := "auth"
  const BurstScope: string := "burst"

  /** The library's default `cache_format`, "throttle_%(scope)s_%(ident)s",
      up to the ident. */
  function KeyPrefix(scope: string): string {
    "throttle_" + scope + "_"
  }

  /** The rendered key of a scope and an ident already rendered as text. */
  function CacheKey(scope: string, ident: string): (k: string)
    ensures StartsWith(k, KeyPrefix(scope))
    ensures k[|KeyPrefix(scope)|..] == ident
  {
    KeyPrefix(scope) + ident
  }

  /** Within one scope, keys are equal exactly when the rendered idents are. */
  lemma CacheKeyInjective(scope: string, x: string, y: string)
    ensures CacheKey(scope, x) == CacheKey(scope, y) <==> x == y
  {
    if CacheKey(scope, x) == CacheKey(scope, y) {
      assert x == CacheKey(scope, x)[|KeyPrefix(scope)|..];
    }
  }

  /** `%s` of a client address that may be missing. */
  function AddressText(ip: Option<string>): (s: string)
    ensures ip.Some? ==> s == ip.value
    ensures ip.None? ==> s == "None"
  {
    match ip
    case Some(a) => a
    case None => "None"
  }

  /** `AuthRateThrottle`'s client address: the first `X-Forwarded-For`
      entry when the header is non-empty, otherwise `REMOTE_ADDR`, which may
      be missing; there is no "unknown" stand-in. */
  function AuthIdent(meta: Security.Meta): (ip: Option<string>)
    ensures Security.HasForwardedFor(meta) ==> ip == Some(Security.ForwardedClient(meta[Security.ForwardedForKey]))
    ensures !Security.HasForwardedFor(meta) ==> ip == Security.Get(meta, Security.RemoteAddrKey)
  {
    if Security.HasForwardedFor(meta) then Some(Security.ForwardedClient(meta[Security.ForwardedForKey]))
    else Security.Get(meta, Security.RemoteAddrKey)
  }

  /** The throttle and the security log agree on the client whenever the
      throttle finds one; when it finds none the log says "unknown". */
  lemma AuthIdentAgreesWithLog(meta: Security.Meta)
    ensures AuthIdent(meta).Some? ==> AuthIdent(meta).value == Security.ClientIp(meta)
    ensures AuthIdent(meta).None? ==> Security.ClientIp(meta) == Security.Unknown
    ensures AuthIdent(meta).None? <==> !Security.HasForwardedFor(meta) && Security.RemoteAddrKey !in meta
  {
  }

  /** `AuthRateThrottle.get_cache_key`: the "auth" key of the client
      address, "None" when there is none. */
  function AuthCacheKey(request: Security.Request): (k: string)
    ensures StartsWith(k, KeyPrefix(AuthScope))
    ensures AuthIdent(request.meta).Some? ==> k[|KeyPrefix(AuthScope)|..] == AuthIdent(request.meta).value
    ensures AuthIdent(request.meta).None? ==> k[|KeyPrefix(AuthScope)|..] == "None"
  {
    CacheKey(AuthScope, AddressText(AuthIdent(request.meta)))
  }

  /** The ident `BurstRateThrottle` renders: a logged-in user's primary key
      in decimal, otherwise the library's `get_ident` result. */
  function BurstIdent(user: Security.RequestUser, libraryIdent: string): (s: string)
    ensures user.AuthenticatedUser? ==> s == NatToString(user.id)
    ensures user.AnonymousUser? ==> s == libraryIdent
  {
    match user
    case AuthenticatedUser(id, _) => NatToString(id)
    case AnonymousUser => libraryIdent
  }

  /** `BurstRateThrottle.get_cache_key`: a logged-in user is counted by
      primary key wherever they connect from; anyone else by the library's
      ident. */
  function BurstCacheKey(user: Security.RequestUser, libraryIdent: string): (k: string)
    ensures StartsWith(k, KeyPrefix(BurstScope))
    ensures k[|KeyPrefix(BurstScope)|..] == BurstIdent(user, libraryIdent)
  {
    CacheKey(BurstScope, BurstIdent(user, libraryIdent))
  }

  /** Two login attempts share a budget exactly when their client addresses
      render alike: the same address, or both none, or one none and the
      other the text "None". */
  lemma AuthKeysShared(a: Security.Request, b: Security.Request)
    ensures AuthCacheKey(a) == AuthCacheKey(b) <==>
      AddressText(AuthIdent(a.meta)) == AddressText(AuthIdent(b.meta))
    ensures AuthIdent(a.meta) == AuthIdent(b.meta) ==> AuthCacheKey(a) == AuthCacheKey(b)
  {
    CacheKeyInjective(AuthScope, AddressText(AuthIdent(a.meta)), AddressText(AuthIdent(b.meta)));
  }

  /** A request with no address at all is counted with one whose
      `REMOTE_ADDR` is the text "None". */
  lemma AuthMissingAddressCollides()
    ensures AuthCacheKey(Security.Request(map[], None)) ==
            AuthCacheKey(Security.Request(map[Security.RemoteAddrKey := "None"], None))
  {
    assert !Security.HasForwardedFor(map[Security.RemoteAddrKey := "None"]);
  }

  /** Two requests share a burst budget exactly when their rendered idents
      agree, whatever their addresses. Between two logged-in users that means
      the same user, between two anonymous requests the same library ident. */
  lemma BurstKeysShared(a: Security.RequestUser, ia: string, b: Security.RequestUser, ib: string)
    ensures BurstCacheKey(a, ia) == BurstCacheKey(b, ib) <==> BurstIdent(a, ia) == BurstIdent(b, ib)
    ensures a.AuthenticatedUser? && b.AuthenticatedUser? ==>
              (BurstCacheKey(a, ia) == BurstCacheKey(b, ib) <==> a.id == b.id)
    ensures a.AnonymousUser? && b.AnonymousUser? ==>
              (BurstCacheKey(a, ia) == BurstCacheKey(b, ib) <==> ia == ib)
  {
    CacheKeyInjective(BurstScope, BurstIdent(a, ia), BurstIdent(b, ib));
    if a.AuthenticatedUser? && b.AuthenticatedUser? && BurstIdent(a, ia) == BurstIdent(b, ib) {
      NatToStringInjective(a.id, b.id);
    }
  }

  /** The user with primary key 5 shares a burst budget with every anonymous
      request whose library ident is "5": the pk and the ident render to the
      same text. */
  lemma BurstUserMeetsAnonymous(username: string)
    ensures BurstCacheKey(Security.AuthenticatedUser(5, username), "") ==
            BurstCacheKey(Security.AnonymousUser, "5")
  {
    assert NatToString(5) == "5";
  }

  /** The two throttles never share a key. */
  lemma ScopesSeparate(r: Security.Request, user: Security.RequestUser, ident: string)
    ensures AuthCacheKey(r) != BurstCacheKey(user, ident)
  {
    assert AuthCacheKey(r)[9] == KeyPrefix(AuthScope)[9];
    assert BurstCacheKey(user, ident)[9] == KeyPrefix(BurstScope)[9];
  }
}
