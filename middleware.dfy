/** The request policy that runs before every page: sign-out, admin
    suppression in the Immich backend mode, the canonical redirects, the
    legacy rewrites, share-link activation, the cookie-to-header
    pass-through and the fallback to session authentication.

    The policy is a pure decision (`Decide`) from the request, the
    environment, the clock and the share validator's outcome to an
    `Action`; `ResponseState` applies an action's cookie and header
    updates the way the response object does. */
module Middleware {
  import opened Common

  // ---------------------------------------------------------------------
  // Inputs

  /** The path constants of the application; their values are not part of
      this model. */
  datatype Paths = Paths(
    admin: string,
    adminPhotos: string,
    og: string,
    ogSample: string,
    signOut: string,
    prefixPhoto: string,
    prefixTag: string)

  datatype Config = Config(paths: Paths, names: CarrierNames)

  /** The two environment variables the middleware reads. */
  datatype Env = Env(useImmichBackend: Option<string>, nodeEnv: Option<string>)

  /** `USE_IMMICH_BACKEND === 'true'`. */
  predicate ImmichMode(env: Env)
  {
    env.useImmichBackend == Some("true")
  }

  /** `NODE_ENV === 'production'`, which makes the share cookies secure. */
  predicate Production(env: Env)
  {
    env.nodeEnv == Some("production")
  }

  /** The parts of the incoming request the middleware reads: the path
      name, the full request URL and its host, the request headers (names
      in lower case) and the request cookies (name to value). */
  datatype Request = Request(
    path: string,
    url: string,
    urlHost: string,
    headers: map<string, string>,
    cookies: map<string, string>)

  /** The outcome of validating a share key: the validator threw, found no
      share, or found one. */
  datatype Validation = Threw | NotFound | Found(context: ShareContext)

  // ---------------------------------------------------------------------
  // Outputs

  /** `new URL(ref, base)`. */
  datatype Url = Resolved(ref: string, base: string)

  datatype CookieOptions = CookieOptions(
    httpOnly: bool,
    secure: bool,
    sameSite: string,
    path: string,
    maxAge: int)

  datatype CookieOp =
    | DeleteCookie(name: string)
    | SetCookie(name: string, value: string, options: CookieOptions)

  datatype HeaderOp = SetHeader(name: string, value: string)

  /** What the middleware answers: a redirect carrying cookie and header
      updates, an internal rewrite, a continuation with replaced request
      headers, or a hand-over to session authentication. */
  datatype Action =
    | Redirect(url: Url, cookieOps: seq<CookieOp>, headerOps: seq<HeaderOp>)
    | Rewrite(url: Url)
    | Next(requestHeaders: map<string, string>)
    | DelegateAuth

  const Home := "/"
  const Grid := "/grid"
  const Unauthorized := "/unauthorized"
  const UnauthorizedFailed := "/unauthorized?reason=Failed to validate share key"
  const UnauthorizedExpired := "/unauthorized?reason=expired"

  /** The cookie lifetime, in seconds, of a share without an expiry: 240 hours. */
  const DefaultMaxAge := 240 * 60 * 60

  // ---------------------------------------------------------------------
  // Base URL

  /** The host of the base URL: `x-forwarded-host`, else `host`, else the
      request URL's host. */
  function Host(req: Request): (h: string)
    ensures Truthy(Get(req.headers, "x-forwarded-host")) ==> h == Get(req.headers, "x-forwarded-host").value
    ensures !Truthy(Get(req.headers, "x-forwarded-host")) && Truthy(Get(req.headers, "host")) ==> h == req.headers["host"]
    ensures !Truthy(Get(req.headers, "x-forwarded-host")) && !Truthy(Get(req.headers, "host")) ==> h == req.urlHost
  {
    var cands := [Get(req.headers, "x-forwarded-host"), Get(req.headers, "host")];
    FirstTruthyOfTwo(cands[0], cands[1], req.urlHost);
    FirstTruthy(cands, req.urlHost)
  }

  /** The protocol of the base URL: `x-forwarded-proto`, else `http` for a
      host that mentions `localhost`, else `https`. */
  function Protocol(req: Request): (p: string)
    ensures Truthy(Get(req.headers, "x-forwarded-proto")) ==> p == req.headers["x-forwarded-proto"]
    ensures !Truthy(Get(req.headers, "x-forwarded-proto")) ==>
      p == (if exists i :: OccursAt(Host(req), "localhost", i) then "http" else "https")
  {
    Or(Get(req.headers, "x-forwarded-proto"), if Contains(Host(req), "localhost") then "http" else "https")
  }

  /** `${protocol}://${host}`. */
  function BaseUrl(req: Request): (url: string)
    ensures url == Protocol(req) + "://" + Host(req)
  {
    Protocol(req) + "://" + Host(req)
  }

  // ---------------------------------------------------------------------
  // Path tests

  const PhotosPrefix := "/photos/"
  const TagPrefix := "/t/"
  const SharePrefix := "/share/"

  /** The characters a regular-expression `.` does not match. */
  predicate IsLineTerminator(c: char)
  {
    c == '\n' || c == '\r' || c == '\U{2028}' || c == '\U{2029}'
  }

  predicate OneLine(s: string)
  {
    forall i :: 0 <= i < |s| ==> !IsLineTerminator(s[i])
  }

  /** The capture group of `^<prefix>(.+)$`: everything after the prefix,
      when that is non-empty and on one line. */
  function LegacyRest(path: string, prefix: string): (r: Option<string>)
    ensures r.Some? ==> path == prefix + r.value && r.value != "" && OneLine(r.value)
  {
    if StartsWith(path, prefix) && path[|prefix|..] != "" && OneLine(path[|prefix|..]) then
      assert path == path[..|prefix|] + path[|prefix|..];
      Some(path[|prefix|..])
    else None
  }

  lemma LegacyRestOf(prefix: string, rest: string)
    requires rest != "" && OneLine(rest)
    ensures LegacyRest(prefix + rest, prefix) == Some(rest)
  {
    StartsWithConcat(prefix, rest);
    assert (prefix + rest)[|prefix|..] == rest;
  }

  /** The capture group of `^/share/([^/]+)$`: the share key, one
      non-empty path segment. */
  function ShareKeyOf(path: string): (r: Option<string>)
    ensures r.Some? ==> path == SharePrefix + r.value && r.value != "" && '/' !in r.value
  {
    if StartsWith(path, SharePrefix) && path[|SharePrefix|..] != "" && '/' !in path[|SharePrefix|..] then
      assert path == path[..|SharePrefix|] + path[|SharePrefix|..];
      Some(path[|SharePrefix|..])
    else None
  }

  lemma ShareKeyOfLink(key: string)
    requires key != "" && '/' !in key
    ensures ShareKeyOf(SharePrefix + key) == Some(key)
  {
    StartsWithConcat(SharePrefix, key);
    assert (SharePrefix + key)[|SharePrefix|..] == key;
  }

  // ---------------------------------------------------------------------
  // The ordered chain of checks

  /** Which check of the chain a path meets first. */
  datatype Route =
    | SignOut
    | AdminSuppressed
    | AdminCanonical
    | OgSample
    | LegacyPhoto(rest: string)
    | LegacyTag(rest: string)
    | ShareLink(key: string)
    | Ordinary

  function Classify(paths: Paths, immich: bool, path: string): (r: Route)
    ensures r == SignOut <==> immich && StartsWith(path, paths.signOut)
    ensures r == AdminSuppressed <==>
      immich && !StartsWith(path, paths.signOut) && StartsWith(path, paths.admin)
    ensures r == AdminCanonical <==>
      !(immich && StartsWith(path, paths.signOut)) && !immich && path == paths.admin
    ensures r == OgSample <==>
      !(immich && (StartsWith(path, paths.signOut) || StartsWith(path, paths.admin))) && path != paths.admin && path == paths.og
    ensures r.LegacyPhoto? ==>
      && !(immich && (StartsWith(path, paths.signOut) || StartsWith(path, paths.admin)))
      && path != paths.admin && path != paths.og
      && path == PhotosPrefix + r.rest
    ensures r.LegacyTag? ==>
      && !(immich && (StartsWith(path, paths.signOut) || StartsWith(path, paths.admin)))
      && path != paths.admin && path != paths.og && LegacyRest(path, PhotosPrefix).None?
      && path == TagPrefix + r.rest
    ensures r.ShareLink? ==> ShareKeyOf(path) == Some(r.key)
    ensures r == Ordinary <==>
      && !(immich && (StartsWith(path, paths.signOut) || StartsWith(path, paths.admin)))
      && path != paths.admin && path != paths.og
      && LegacyRest(path, PhotosPrefix).None? && LegacyRest(path, TagPrefix).None? && ShareKeyOf(path).None?
  {
    if immich && StartsWith(path, paths.signOut) then SignOut
    else if immich && StartsWith(path, paths.admin) then AdminSuppressed
    else if path == paths.admin then AdminCanonical
    else if path == paths.og then OgSample
    else if LegacyRest(path, PhotosPrefix).Some? then LegacyPhoto(LegacyRest(path, PhotosPrefix).value)
    else if LegacyRest(path, TagPrefix).Some? then LegacyTag(LegacyRest(path, TagPrefix).value)
    else if ShareKeyOf(path).Some? then ShareLink(ShareKeyOf(path).value)
    else Ordinary
  }

  /** `Math.floor((expiresAt - now) / 1000)` seconds, or 240 hours for a
      share without an expiry. */
  function MaxAge(expiresAt: Option<int>, now: int): (r: int)
    ensures expiresAt.None? ==> r == DefaultMaxAge
    ensures expiresAt.Some? ==> r * 1000 <= expiresAt.value - now < r * 1000 + 1000
  {
    match expiresAt
    case None => DefaultMaxAge
    case Some(e) => (e - now) / 1000
  }

  function ShareCookieOptions(secure: bool, maxAge: int): CookieOptions
  {
    CookieOptions(false, secure, "lax", "/", maxAge)
  }

  function SignOutCookieOps(names: CarrierNames): seq<CookieOp>
  {
    [DeleteCookie(names.keyCookie), DeleteCookie(names.albumCookie)]
  }

  /** The response to `/share/<key>` once the validator has answered. */
  function Activate(names: CarrierNames, secure: bool, base: string, key: string, now: int, v: Validation): (a: Action)
    ensures a.Redirect? && a.url.base == base
    ensures a.cookieOps != [] <==> v.Found? && (v.context.expiresAt.None? || now <= v.context.expiresAt.value)
    ensures a.headerOps != [] <==> a.cookieOps != []
    ensures a.url.ref == Home <==> a.cookieOps != []
    ensures v.Threw? ==> a.url.ref == UnauthorizedFailed
    ensures v.NotFound? ==> a.url.ref == Unauthorized
    ensures v.Found? && v.context.expiresAt.Some? && now > v.context.expiresAt.value ==> a.url.ref == UnauthorizedExpired
  {
    match v
    case Threw => Redirect(Resolved(UnauthorizedFailed, base), [], [])
    case NotFound => Redirect(Resolved(Unauthorized, base), [], [])
    case Found(ctx) =>
      if ctx.expiresAt.Some? && now > ctx.expiresAt.value then
        Redirect(Resolved(UnauthorizedExpired, base), [], [])
      else
        var options := ShareCookieOptions(secure, MaxAge(ctx.expiresAt, now));
        Redirect(Resolved(Home, base),
                 [SetCookie(names.keyCookie, key, options), SetCookie(names.albumCookie, ctx.albumId, options)],
                 [SetHeader(names.keyHeader, key), SetHeader(names.albumHeader, ctx.albumId)])
  }

  /** The incoming request headers with the album and key headers
      overwritten by the cookie values, or by `""` without a cookie. */
  function PassThroughHeaders(names: CarrierNames, req: Request): (h: map<string, string>)
    ensures h.Keys == req.headers.Keys + {names.albumHeader, names.keyHeader}
    ensures h[names.keyHeader] == (if names.keyCookie in req.cookies then req.cookies[names.keyCookie] else "")
    ensures names.albumHeader != names.keyHeader ==>
      h[names.albumHeader] == (if names.albumCookie in req.cookies then req.cookies[names.albumCookie] else "")
    ensures forall n :: n in req.headers && n != names.albumHeader && n != names.keyHeader ==> h[n] == req.headers[n]
  {
    var albumId := Or(Get(req.cookies, names.albumCookie), "");
    var shareKey := Or(Get(req.cookies, names.keyCookie), "");
    req.headers[names.albumHeader := albumId][names.keyHeader := shareKey]
  }

  /** The whole policy: the first check that matches decides. `v` is what
      the share validator answers for the key in the path; it is consulted
      only on a share link. */
  function Decide(cfg: Config, env: Env, req: Request, now: int, v: Validation): (a: Action)
    ensures a.Next? <==> ImmichMode(env) && Classify(cfg.paths, ImmichMode(env), req.path) == Ordinary
    ensures a == DelegateAuth <==> !ImmichMode(env) && Classify(cfg.paths, ImmichMode(env), req.path) == Ordinary
    ensures a.Rewrite? <==> Classify(cfg.paths, ImmichMode(env), req.path).LegacyPhoto? || Classify(cfg.paths, ImmichMode(env), req.path).LegacyTag?
    ensures a.Rewrite? ==> a.url.base == req.url
  {
    var base := BaseUrl(req);
    match Classify(cfg.paths, ImmichMode(env), req.path)
    case SignOut => Redirect(Resolved(Home, base), SignOutCookieOps(cfg.names), [])
    case AdminSuppressed => Redirect(Resolved(Grid, base), [], [])
    case AdminCanonical => Redirect(Resolved(cfg.paths.adminPhotos, req.url), [], [])
    case OgSample => Redirect(Resolved(cfg.paths.ogSample, req.url), [], [])
    case LegacyPhoto(rest) => Rewrite(Resolved(cfg.paths.prefixPhoto + "/" + rest, req.url))
    case LegacyTag(rest) => Rewrite(Resolved(cfg.paths.prefixTag + "/" + rest, req.url))
    case ShareLink(key) => Activate(cfg.names, Production(env), base, key, now, v)
    case Ordinary =>
      if ImmichMode(env) then Next(PassThroughHeaders(cfg.names, req)) else DelegateAuth
  }

  // ---------------------------------------------------------------------
  // Properties of the policy

  /** The Immich-only checks (sign-out, admin suppression) do not apply. */
  predicate NoImmichExit(paths: Paths, env: Env, path: string)
  {
    !(ImmichMode(env) && (StartsWith(path, paths.signOut) || StartsWith(path, paths.admin)))
  }

  /** In Immich mode every path under the sign-out path goes home and
      deletes both share cookies, whatever the client held before. */
  lemma SignOutClearsShare(cfg: Config, env: Env, req: Request, now: int, v: Validation, jar: map<string, Cookie>)
    requires ImmichMode(env) && StartsWith(req.path, cfg.paths.signOut)
    ensures Decide(cfg, env, req, now, v) == Redirect(Resolved(Home, BaseUrl(req)), SignOutCookieOps(cfg.names), [])
    ensures ApplyCookieOps(jar, SignOutCookieOps(cfg.names)) == jar - {cfg.names.keyCookie, cfg.names.albumCookie}
  {
    var ops := SignOutCookieOps(cfg.names);
    var j1 := ApplyCookieOp(jar, ops[0]);
    assert ApplyCookieOps(jar, ops) == ApplyCookieOps(j1, ops[1..]);
    assert ops[1..][1..] == [];
    assert ApplyCookieOps(j1, ops[1..]) == ApplyCookieOp(j1, ops[1]);
  }

  /** In Immich mode every other path under the admin path goes to the
      grid, with no cookie or header update. */
  lemma ImmichAdminGoesToGrid(cfg: Config, env: Env, req: Request, now: int, v: Validation)
    requires ImmichMode(env) && StartsWith(req.path, cfg.paths.admin) && !StartsWith(req.path, cfg.paths.signOut)
    ensures Decide(cfg, env, req, now, v) == Redirect(Resolved(Grid, BaseUrl(req)), [], [])
  {
  }

  /** In Immich mode the bare admin path never reaches the canonical admin
      redirect: it goes home (sign-out) or to the grid. */
  lemma ImmichAdminNeverCanonical(cfg: Config, env: Env, req: Request, now: int, v: Validation)
    requires ImmichMode(env) && req.path == cfg.paths.admin
    ensures Decide(cfg, env, req, now, v).Redirect?
    ensures Decide(cfg, env, req, now, v).url in {Resolved(Home, BaseUrl(req)), Resolved(Grid, BaseUrl(req))}
  {
    assert req.path[..|cfg.paths.admin|] == cfg.paths.admin;
  }

  /** Outside Immich mode the bare admin path redirects to the admin photos
      page of the request's own URL. */
  lemma AdminCanonicalRedirect(cfg: Config, env: Env, req: Request, now: int, v: Validation)
    requires !ImmichMode(env) && req.path == cfg.paths.admin
    ensures Decide(cfg, env, req, now, v) == Redirect(Resolved(cfg.paths.adminPhotos, req.url), [], [])
  {
  }

  lemma OgSampleRedirect(cfg: Config, env: Env, req: Request, now: int, v: Validation)
    requires NoImmichExit(cfg.paths, env, req.path) && req.path != cfg.paths.admin && req.path == cfg.paths.og
    ensures Decide(cfg, env, req, now, v) == Redirect(Resolved(cfg.paths.ogSample, req.url), [], [])
  {
  }

  /** `/photos/<rest>` is rewritten to the photo prefix, `rest` kept whole
      (further slashes included). */
  lemma LegacyPhotoRewrite(cfg: Config, env: Env, req: Request, now: int, v: Validation, rest: string)
    requires NoImmichExit(cfg.paths, env, req.path) && req.path != cfg.paths.admin && req.path != cfg.paths.og
    requires req.path == PhotosPrefix + rest && rest != "" && OneLine(rest)
    ensures Decide(cfg, env, req, now, v) == Rewrite(Resolved(cfg.paths.prefixPhoto + "/" + rest, req.url))
  {
    LegacyRestOf(PhotosPrefix, rest);
  }

  /** `/t/<rest>` is rewritten to the tag prefix, `rest` kept whole. */
  lemma LegacyTagRewrite(cfg: Config, env: Env, req: Request, now: int, v: Validation, rest: string)
    requires NoImmichExit(cfg.paths, env, req.path) && req.path != cfg.paths.admin && req.path != cfg.paths.og
    requires req.path == TagPrefix + rest && rest != "" && OneLine(rest)
    ensures Decide(cfg, env, req, now, v) == Rewrite(Resolved(cfg.paths.prefixTag + "/" + rest, req.url))
  {
    LegacyRestOf(TagPrefix, rest);
    assert req.path[1] == 't';
  }

  /** In Immich mode a legacy photo or tag link is rewritten before the
      pass-through is reached, so the rewritten request does not get the
      share headers copied from the cookies. */
  lemma LegacyLinkSkipsPassThrough(cfg: Config, env: Env, req: Request, now: int, v: Validation, prefix: string, rest: string)
    requires ImmichMode(env)
    requires !StartsWith(req.path, cfg.paths.signOut) && !StartsWith(req.path, cfg.paths.admin) && req.path != cfg.paths.og
    requires prefix in {PhotosPrefix, TagPrefix} && req.path == prefix + rest && rest != "" && OneLine(rest)
    ensures Decide(cfg, env, req, now, v).Rewrite?
    ensures !Decide(cfg, env, req, now, v).Next?
  {
    LegacyRestOf(prefix, rest);
    assert req.path != cfg.paths.admin by {
      assert StartsWith(cfg.paths.admin, cfg.paths.admin);
    }
  }

  /** A path is a share link exactly when no earlier check applies and it
      is `/share/` followed by one non-empty segment without a slash. */
  lemma ShareLinkRoute(paths: Paths, env: Env, path: string, key: string)
    ensures Classify(paths, ImmichMode(env), path) == ShareLink(key) <==>
      && NoImmichExit(paths, env, path) && path != paths.admin && path != paths.og
      && path == SharePrefix + key && key != "" && '/' !in key
  {
    if path == SharePrefix + key && key != "" && '/' !in key {
      ShareKeyOfLink(key);
      assert path[1] == 's';
    }
  }

  /** Share activation does not depend on the Immich flag once the
      Immich-only prefixes are out of the way. */
  lemma ShareActivationIgnoresMode(cfg: Config, env1: Env, env2: Env, req: Request, now: int, v: Validation, key: string)
    requires env1.nodeEnv == env2.nodeEnv
    requires !StartsWith(req.path, cfg.paths.signOut) && !StartsWith(req.path, cfg.paths.admin)
    requires req.path != cfg.paths.og && req.path == SharePrefix + key && key != "" && '/' !in key
    ensures Classify(cfg.paths, ImmichMode(env1), req.path) == ShareLink(key)
    ensures Decide(cfg, env1, req, now, v) == Decide(cfg, env2, req, now, v)
  {
    ShareLinkRoute(cfg.paths, env1, req.path, key);
    ShareLinkRoute(cfg.paths, env2, req.path, key);
  }

  /** The three failure outcomes of activation redirect to the unauthorized
      page (with a failure reason, without a reason, with `expired`) and
      set no cookie and no header. */
  lemma ShareActivationFailures(cfg: Config, env: Env, req: Request, now: int, key: string, ctx: ShareContext)
    requires Classify(cfg.paths, ImmichMode(env), req.path) == ShareLink(key)
    ensures Decide(cfg, env, req, now, Threw) == Redirect(Resolved(UnauthorizedFailed, BaseUrl(req)), [], [])
    ensures Decide(cfg, env, req, now, NotFound) == Redirect(Resolved(Unauthorized, BaseUrl(req)), [], [])
    ensures ctx.expiresAt.Some? && now > ctx.expiresAt.value ==>
      Decide(cfg, env, req, now, Found(ctx)) == Redirect(Resolved(UnauthorizedExpired, BaseUrl(req)), [], [])
  {
  }

  /** A share found and not yet expired (expiry is strict: a share whose
      expiry equals `now` is still valid) redirects home, sets the key
      cookie to the key of the path and the album cookie to the share's
      album, both with the same non-negative lifetime, and sets the two
      headers to the same values. */
  lemma ShareActivationSucceeds(cfg: Config, env: Env, req: Request, now: int, key: string, ctx: ShareContext)
    requires Classify(cfg.paths, ImmichMode(env), req.path) == ShareLink(key)
    requires ctx.expiresAt.None? || now <= ctx.expiresAt.value
    ensures var a := Decide(cfg, env, req, now, Found(ctx));
      && a.Redirect? && a.url == Resolved(Home, BaseUrl(req))
      && |a.cookieOps| == 2
      && a.cookieOps[0].SetCookie? && a.cookieOps[0].name == cfg.names.keyCookie && a.cookieOps[0].value == key
      && a.cookieOps[1].SetCookie? && a.cookieOps[1].name == cfg.names.albumCookie && a.cookieOps[1].value == ctx.albumId
      && a.cookieOps[0].options == a.cookieOps[1].options
      && a.headerOps == [SetHeader(cfg.names.keyHeader, key), SetHeader(cfg.names.albumHeader, ctx.albumId)]
    ensures var o := Decide(cfg, env, req, now, Found(ctx)).cookieOps[0].options;
      && !o.httpOnly && o.secure == Production(env) && o.sameSite == "lax" && o.path == "/"
      && o.maxAge >= 0
      && (ctx.expiresAt.None? ==> o.maxAge == 864000)
      && (ctx.expiresAt.Some? ==> o.maxAge * 1000 <= ctx.expiresAt.value - now < o.maxAge * 1000 + 1000)
  {
  }

  /** The validator's answer and the clock matter only on a share link. */
  lemma ValidationOnlyOnShareLink(cfg: Config, env: Env, req: Request, now1: int, now2: int, v1: Validation, v2: Validation)
    requires !Classify(cfg.paths, ImmichMode(env), req.path).ShareLink?
    ensures Decide(cfg, env, req, now1, v1) == Decide(cfg, env, req, now2, v2)
  {
  }

  /** Only sign-out and a successful activation touch cookies, and only a
      successful activation sets headers on the response. */
  lemma CookieUpdatesOnlyOnSignOutOrActivation(cfg: Config, env: Env, req: Request, now: int, v: Validation)
    ensures var a := Decide(cfg, env, req, now, v);
      a.Redirect? && a.cookieOps != [] ==>
        Classify(cfg.paths, ImmichMode(env), req.path) == SignOut ||
        (Classify(cfg.paths, ImmichMode(env), req.path).ShareLink? && v.Found?)
    ensures var a := Decide(cfg, env, req, now, v);
      a.Redirect? && a.headerOps != [] ==>
        Classify(cfg.paths, ImmichMode(env), req.path).ShareLink? && v.Found? &&
        (v.context.expiresAt.None? || now <= v.context.expiresAt.value)
  {
  }

  /** In Immich mode a request no check matched goes on with its own
      headers, except that the album and key headers now hold the cookie
      values, or `""` when a cookie is missing. */
  lemma PassThroughOverwritesShareHeaders(cfg: Config, env: Env, req: Request, now: int, v: Validation)
    requires ImmichMode(env) && Classify(cfg.paths, ImmichMode(env), req.path) == Ordinary
    ensures Decide(cfg, env, req, now, v).Next?
    ensures var h := Decide(cfg, env, req, now, v).requestHeaders;
      && h.Keys == req.headers.Keys + {cfg.names.albumHeader, cfg.names.keyHeader}
      && h[cfg.names.keyHeader] == (if cfg.names.keyCookie in req.cookies then req.cookies[cfg.names.keyCookie] else "")
      && (cfg.names.albumHeader != cfg.names.keyHeader ==>
            h[cfg.names.albumHeader] == (if cfg.names.albumCookie in req.cookies then req.cookies[cfg.names.albumCookie] else ""))
      && forall n :: n in req.headers && n != cfg.names.albumHeader && n != cfg.names.keyHeader ==> h[n] == req.headers[n]
  {
  }

  /** Outside Immich mode a request no check matched is handed to session
      authentication unchanged. */
  lemma DelegatesWhenImmichOff(cfg: Config, env: Env, req: Request, now: int, v: Validation)
    requires !ImmichMode(env) && Classify(cfg.paths, ImmichMode(env), req.path) == Ordinary
    ensures Decide(cfg, env, req, now, v) == DelegateAuth
  {
  }

  // ---------------------------------------------------------------------
  // Applying an action's updates

  /** A cookie as the client stores it. */
  datatype Cookie = Cookie(value: string, options: CookieOptions)

  /** The effect of one cookie update on the client's cookie store: a
      deletion removes the cookie, and so does a cookie whose max-age is
      not positive (section 5.2.2 of RFC 6265); any other update stores
      the new value. */
  function ApplyCookieOp(jar: map<string, Cookie>, op: CookieOp): (after: map<string, Cookie>)
    ensures after - {OpName(op)} == jar - {OpName(op)}
    ensures OpName(op) in after <==> op.SetCookie? && op.options.maxAge > 0
    ensures OpName(op) in after ==> after[OpName(op)] == Cookie(op.value, op.options)
  {
    match op
    case DeleteCookie(name) => jar - {name}
    case SetCookie(name, value, options) =>
      if options.maxAge <= 0 then jar - {name} else jar[name := Cookie(value, options)]
  }

  /** The updates applied one after the other; only cookies they name
      can appear. */
  function ApplyCookieOps(jar: map<string, Cookie>, ops: seq<CookieOp>): (after: map<string, Cookie>)
    ensures after.Keys <= jar.Keys + (set i | 0 <= i < |ops| :: OpName(ops[i]))
    decreases |ops|
  {
    if ops == [] then jar else ApplyCookieOps(ApplyCookieOp(jar, ops[0]), ops[1..])
  }

  /** `headers.set` applied one after the other: the named headers are
      added and every other header keeps its value. */
  function ApplyHeaderOps(headers: map<string, string>, ops: seq<HeaderOp>): (after: map<string, string>)
    ensures after.Keys == headers.Keys + (set i | 0 <= i < |ops| :: ops[i].name)
    ensures forall n :: n in headers && (forall i :: 0 <= i < |ops| ==> ops[i].name != n) ==> after[n] == headers[n]
    decreases |ops|
  {
    if ops == [] then headers else ApplyHeaderOps(headers[ops[0].name := ops[0].value], ops[1..])
  }

  /** The cookie values a later request presents. */
  function CookieValues(jar: map<string, Cookie>): (values: map<string, string>)
    ensures values.Keys == jar.Keys
    ensures forall name :: name in jar ==> values[name] == jar[name].value
  {
    map name | name in jar :: jar[name].value
  }

  function OpName(op: CookieOp): string
  {
    match op
    case DeleteCookie(name) => name
    case SetCookie(name, _, _) => name
  }

  /** Cookies that no update names keep their entry. */
  lemma {:induction false} ApplyCookieOpsUntouched(jar: map<string, Cookie>, ops: seq<CookieOp>, name: string)
    requires forall i :: 0 <= i < |ops| ==> OpName(ops[i]) != name
    ensures name in ApplyCookieOps(jar, ops) <==> name in jar
    ensures name in jar ==> ApplyCookieOps(jar, ops)[name] == jar[name]
    decreases |ops|
  {
    if ops != [] {
      assert OpName(ops[0]) != name;
      ApplyCookieOpsUntouched(ApplyCookieOp(jar, ops[0]), ops[1..], name);
    }
  }

  /** The last update naming a cookie decides it: the cookie is present
      afterwards exactly when that update is a set with positive max-age,
      and then it holds that update's value and options. */
  lemma {:induction false} ApplyCookieOpsLastWins(jar: map<string, Cookie>, ops: seq<CookieOp>, i: int)
    requires 0 <= i < |ops|
    requires forall j :: i < j < |ops| ==> OpName(ops[j]) != OpName(ops[i])
    ensures OpName(ops[i]) in ApplyCookieOps(jar, ops) <==> ops[i].SetCookie? && ops[i].options.maxAge > 0
    ensures OpName(ops[i]) in ApplyCookieOps(jar, ops) ==> ApplyCookieOps(jar, ops)[OpName(ops[i])] == Cookie(ops[i].value, ops[i].options)
    decreases |ops|
  {
    var j1 := ApplyCookieOp(jar, ops[0]);
    assert ApplyCookieOps(jar, ops) == ApplyCookieOps(j1, ops[1..]);
    if i == 0 {
      forall j | 0 <= j < |ops[1..]|
        ensures OpName(ops[1..][j]) != OpName(ops[0])
      {
        assert ops[1..][j] == ops[j + 1];
      }
      ApplyCookieOpsUntouched(j1, ops[1..], OpName(ops[0]));
    } else {
      assert ops[1..][i - 1] == ops[i];
      ApplyCookieOpsLastWins(j1, ops[1..], i - 1);
    }
  }

  /** The last `headers.set` of a name decides its value. */
  lemma {:induction false} ApplyHeaderOpsLastWins(headers: map<string, string>, ops: seq<HeaderOp>, i: int)
    requires 0 <= i < |ops|
    requires forall j :: i < j < |ops| ==> ops[j].name != ops[i].name
    ensures ops[i].name in ApplyHeaderOps(headers, ops)
    ensures ApplyHeaderOps(headers, ops)[ops[i].name] == ops[i].value
    decreases |ops|
  {
    var h1 := headers[ops[0].name := ops[0].value];
    assert ApplyHeaderOps(headers, ops) == ApplyHeaderOps(h1, ops[1..]);
    if i == 0 {
      forall j | 0 <= j < |ops[1..]|
        ensures ops[1..][j].name != ops[0].name
      {
        assert ops[1..][j] == ops[j + 1];
      }
    } else {
      assert ops[1..][i - 1] == ops[i];
      ApplyHeaderOpsLastWins(h1, ops[1..], i - 1);
    }
  }

  /** The response the middleware builds: the client's cookie store as the
      response leaves it, and the response headers. */
  class ResponseState {
    var cookies: map<string, Cookie>
    var headers: map<string, string>

    constructor (cookies: map<string, Cookie>, headers: map<string, string>)
      ensures this.cookies == cookies && this.headers == headers
    {
      this.cookies := cookies;
      this.headers := headers;
    }

    /** `response.cookies.delete(name)` or `response.cookies.set(...)`. */
    method UpdateCookie(op: CookieOp)
      modifies this
      ensures cookies == ApplyCookieOp(old(cookies), op)
      ensures headers == old(headers)
    {
      match op
      case DeleteCookie(name) =>
        cookies := cookies - {name};
      case SetCookie(name, value, options) =>
        if options.maxAge <= 0 {
          cookies := cookies - {name};
        } else {
          cookies := cookies[name := Cookie(value, options)];
        }
    }

    /** `response.headers.set(name, value)`. */
    method SetResponseHeader(name: string, value: string)
      modifies this
      ensures headers == old(headers)[name := value]
      ensures cookies == old(cookies)
    {
      headers := headers[name := value];
    }

    /** Carries out a redirect's cookie updates and then its header
        updates, in order. */
    method Apply(cookieOps: seq<CookieOp>, headerOps: seq<HeaderOp>)
      modifies this
      ensures cookies == ApplyCookieOps(old(cookies), cookieOps)
      ensures headers == ApplyHeaderOps(old(headers), headerOps)
    {
      var i := 0;
      while i < |cookieOps|
        invariant 0 <= i <= |cookieOps|
        invariant ApplyCookieOps(cookies, cookieOps[i..]) == ApplyCookieOps(old(cookies), cookieOps)
        invariant headers == old(headers)
      {
        assert cookieOps[i..][1..] == cookieOps[i + 1..];
        UpdateCookie(cookieOps[i]);
        i := i + 1;
      }
      var j := 0;
      while j < |headerOps|
        invariant 0 <= j <= |headerOps|
        invariant ApplyHeaderOps(headers, headerOps[j..]) == ApplyHeaderOps(old(headers), headerOps)
        invariant cookies == ApplyCookieOps(old(cookies), cookieOps)
      {
        assert headerOps[j..][1..] == headerOps[j + 1..];
        SetResponseHeader(headerOps[j].name, headerOps[j].value);
        j := j + 1;
      }
    }
  }
}
