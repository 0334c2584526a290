/** How a share travels: share-link activation writes the two cookies, the
    browser keeps them, the pass-through of a later request copies them
    into the request headers, and the server-side resolver reads them back.
    Sign-out removes them again. */
module ShareFlow {
  import opened Common
  import opened Middleware
  import Resolver

  /** What the server-side resolver makes of a header map. */
  function ServerContext(names: CarrierNames, defaultShareKey: Option<string>, headers: map<string, string>): ShareContext
  {
    Resolver.GetShareContext(Resolver.Execution(Resolver.Server, headers, map[], names, defaultShareKey))
  }

  /** What the browser-side resolver makes of a cookie store. */
  function ClientContext(names: CarrierNames, defaultShareKey: Option<string>, jar: map<string, Cookie>): ShareContext
  {
    Resolver.GetShareContext(Resolver.Execution(Resolver.Client, map[], CookieValues(jar), names, defaultShareKey))
  }

  /** The cookie store after a successful activation: both cookies hold
      the activated share when their lifetime is positive, and both are
      gone when it is zero. */
  lemma ActivationCookies(cfg: Config, env: Env, req: Request, now: int, key: string, ctx: ShareContext, jar: map<string, Cookie>)
    requires Classify(cfg.paths, ImmichMode(env), req.path) == ShareLink(key)
    requires ctx.expiresAt.None? || now <= ctx.expiresAt.value
    requires cfg.names.keyCookie != cfg.names.albumCookie
    ensures var after := ApplyCookieOps(jar, Decide(cfg, env, req, now, Found(ctx)).cookieOps);
      if MaxAge(ctx.expiresAt, now) > 0 then
        && cfg.names.keyCookie in after && after[cfg.names.keyCookie].value == key
        && cfg.names.albumCookie in after && after[cfg.names.albumCookie].value == ctx.albumId
      else
        after == jar - {cfg.names.keyCookie, cfg.names.albumCookie}
  {
    ShareActivationSucceeds(cfg, env, req, now, key, ctx);
    var ops := Decide(cfg, env, req, now, Found(ctx)).cookieOps;
    var j1 := ApplyCookieOp(jar, ops[0]);
    assert ApplyCookieOps(jar, ops) == ApplyCookieOps(j1, ops[1..]);
    assert ops[1..][1..] == [];
    assert ApplyCookieOps(j1, ops[1..]) == ApplyCookieOp(j1, ops[1]);
  }

  /** The redirect of a successful activation carries the share in its
      response headers: the album header holds the share's album, and the
      key header holds the path key unless the two header names coincide,
      in which case the album, set last, wins. */
  lemma ActivationResponseHeaders(cfg: Config, env: Env, req: Request, now: int, key: string, ctx: ShareContext,
                                  headers: map<string, string>)
    requires Classify(cfg.paths, ImmichMode(env), req.path) == ShareLink(key)
    requires ctx.expiresAt.None? || now <= ctx.expiresAt.value
    ensures var after := ApplyHeaderOps(headers, Decide(cfg, env, req, now, Found(ctx)).headerOps);
      && cfg.names.albumHeader in after && after[cfg.names.albumHeader] == ctx.albumId
      && cfg.names.keyHeader in after
      && (cfg.names.keyHeader != cfg.names.albumHeader ==> after[cfg.names.keyHeader] == key)
  {
    ShareActivationSucceeds(cfg, env, req, now, key, ctx);
    var ops := Decide(cfg, env, req, now, Found(ctx)).headerOps;
    ApplyHeaderOpsLastWins(headers, ops, 1);
    if cfg.names.keyHeader != cfg.names.albumHeader {
      ApplyHeaderOpsLastWins(headers, ops, 0);
    }
  }

  /** Round trip: after a successful activation whose cookies live at
      least a second, the browser resolves the activated key and album. */
  lemma ActivationRoundTrip(cfg: Config, env: Env, req: Request, now: int, key: string, ctx: ShareContext,
                            jar: map<string, Cookie>, defaultShareKey: Option<string>)
    requires Classify(cfg.paths, ImmichMode(env), req.path) == ShareLink(key)
    requires ctx.expiresAt.None? || now + 1000 <= ctx.expiresAt.value
    requires cfg.names.keyCookie != cfg.names.albumCookie
    ensures var after := ApplyCookieOps(jar, Decide(cfg, env, req, now, Found(ctx)).cookieOps);
      && ClientContext(cfg.names, defaultShareKey, after).shareKey == key
      && ClientContext(cfg.names, defaultShareKey, after).albumId == ctx.albumId
  {
    ActivationCookies(cfg, env, req, now, key, ctx, jar);
    ShareLinkRoute(cfg.paths, env, req.path, key);
  }

  /** A share that expires less than a second after `now` is activated
      (the redirect goes home) but its cookies get max-age 0, so the
      browser drops them and resolves the default key instead. */
  lemma ShortLivedShareNotKept(cfg: Config, env: Env, req: Request, now: int, key: string, ctx: ShareContext,
                               jar: map<string, Cookie>, defaultShareKey: Option<string>)
    requires Classify(cfg.paths, ImmichMode(env), req.path) == ShareLink(key)
    requires ctx.expiresAt.Some? && now <= ctx.expiresAt.value < now + 1000
    requires cfg.names.keyCookie != cfg.names.albumCookie
    ensures Decide(cfg, env, req, now, Found(ctx)).url == Resolved(Home, BaseUrl(req))
    ensures var after := ApplyCookieOps(jar, Decide(cfg, env, req, now, Found(ctx)).cookieOps);
      && cfg.names.keyCookie !in after && cfg.names.albumCookie !in after
      && ClientContext(cfg.names, defaultShareKey, after).shareKey == Or(defaultShareKey, "")
  {
    ShareActivationSucceeds(cfg, env, req, now, key, ctx);
    ActivationCookies(cfg, env, req, now, key, ctx, jar);
  }

  /** After sign-out the browser holds no share cookie and resolves the
      default key with no album, whatever it held before. */
  lemma SignOutForgetsShare(cfg: Config, env: Env, req: Request, now: int, v: Validation,
                            jar: map<string, Cookie>, defaultShareKey: Option<string>)
    requires ImmichMode(env) && StartsWith(req.path, cfg.paths.signOut)
    ensures var after := ApplyCookieOps(jar, Decide(cfg, env, req, now, v).cookieOps);
      && cfg.names.keyCookie !in after && cfg.names.albumCookie !in after
      && ClientContext(cfg.names, defaultShareKey, after).shareKey == Or(defaultShareKey, "")
      && ClientContext(cfg.names, defaultShareKey, after).albumId == ""
  {
    SignOutClearsShare(cfg, env, req, now, v, jar);
  }

  /** The server-side context of a passed-through request comes from the
      request's cookies: the key cookie (else the default key, then `""`)
      and the album cookie (else `""`); the allow-download header is not
      touched, so downloads are allowed unless the incoming request itself
      carries `"false"`. */
  lemma PassThroughResolvesCookies(cfg: Config, env: Env, req: Request, now: int, v: Validation, defaultShareKey: Option<string>)
    requires ImmichMode(env) && Classify(cfg.paths, ImmichMode(env), req.path) == Ordinary
    requires cfg.names.keyHeader != cfg.names.albumHeader
    requires cfg.names.allowDownloadHeader != cfg.names.keyHeader && cfg.names.allowDownloadHeader != cfg.names.albumHeader
    ensures Decide(cfg, env, req, now, v).Next?
    ensures var c := ServerContext(cfg.names, defaultShareKey, Decide(cfg, env, req, now, v).requestHeaders);
      && c.shareKey == Or(Get(req.cookies, cfg.names.keyCookie), Or(defaultShareKey, ""))
      && c.albumId == Or(Get(req.cookies, cfg.names.albumCookie), "")
      && c.allowDownload == (Get(req.headers, cfg.names.allowDownloadHeader) != Some("false"))
  {
    PassThroughOverwritesShareHeaders(cfg, env, req, now, v);
  }

  /** A client cannot choose its share by sending share headers: on the
      pass-through the server-side key and album depend on the cookies
      alone. */
  lemma HeadersCannotForgeShare(cfg: Config, env: Env, req1: Request, req2: Request, now: int, v: Validation, defaultShareKey: Option<string>)
    requires ImmichMode(env) && Classify(cfg.paths, ImmichMode(env), req1.path) == Ordinary
    requires req1.path == req2.path && req1.cookies == req2.cookies
    requires cfg.names.keyHeader != cfg.names.albumHeader
    ensures var c1 := ServerContext(cfg.names, defaultShareKey, Decide(cfg, env, req1, now, v).requestHeaders);
      var c2 := ServerContext(cfg.names, defaultShareKey, Decide(cfg, env, req2, now, v).requestHeaders);
      c1.shareKey == c2.shareKey && c1.albumId == c2.albumId
  {
    PassThroughOverwritesShareHeaders(cfg, env, req1, now, v);
    PassThroughOverwritesShareHeaders(cfg, env, req2, now, v);
  }

  /** End to end: once a share link has been activated with cookies that
      live at least a second, every later ordinary request in Immich mode
      reaches the server-side resolver with the activated key and album. */
  lemma ActivatedShareReachesServer(cfg: Config, env: Env, req: Request, now: int, key: string, ctx: ShareContext,
                                    jar: map<string, Cookie>, next: Request, later: int, v: Validation,
                                    defaultShareKey: Option<string>)
    requires Classify(cfg.paths, ImmichMode(env), req.path) == ShareLink(key)
    requires ctx.expiresAt.None? || now + 1000 <= ctx.expiresAt.value
    requires cfg.names.keyCookie != cfg.names.albumCookie && cfg.names.keyHeader != cfg.names.albumHeader
    requires next.cookies == CookieValues(ApplyCookieOps(jar, Decide(cfg, env, req, now, Found(ctx)).cookieOps))
    requires ImmichMode(env) && Classify(cfg.paths, ImmichMode(env), next.path) == Ordinary
    ensures Decide(cfg, env, next, later, v).Next?
    ensures var c := ServerContext(cfg.names, defaultShareKey, Decide(cfg, env, next, later, v).requestHeaders);
      c.shareKey == key && c.albumId == ctx.albumId
  {
    ActivationCookies(cfg, env, req, now, key, ctx, jar);
    ShareLinkRoute(cfg.paths, env, req.path, key);
    PassThroughOverwritesShareHeaders(cfg, env, next, later, v);
  }

  /** Without a key cookie the pass-through writes `""`, which the
      server-side resolver treats as absent: the default key applies. */
  lemma MissingKeyCookieMeansDefaultKey(cfg: Config, env: Env, req: Request, now: int, v: Validation, defaultShareKey: Option<string>)
    requires ImmichMode(env) && Classify(cfg.paths, ImmichMode(env), req.path) == Ordinary
    requires cfg.names.keyCookie !in req.cookies
    ensures ServerContext(cfg.names, defaultShareKey, Decide(cfg, env, req, now, v).requestHeaders).shareKey == Or(defaultShareKey, "")
  {
    PassThroughOverwritesShareHeaders(cfg, env, req, now, v);
  }
}
