# Share-scoped access in the photo blog, modelled in Dafny

The photo blog can serve an album from an Immich server through a share
link, with no user accounts. A visit to `/share/<key>` validates the key
and stores the share in two cookies. In Immich mode, a later request whose
path meets none of the earlier checks (sign-out, admin, OG, legacy
`/photos/` and `/t/` links, share links) has those cookies copied into two
request headers; the other paths skip the copy. Server code then reads the
share from the headers, and browser code reads it from the cookies. Sign-out deletes
the cookies. The read façade of the Immich provider resolves the share
first and fetches within it.

This project models three pieces of the source:

- **Request policy** (`middleware.ts`, module `Middleware`). This is an
  ordered chain of checks, and the first one that matches decides.
  - `Classify` names the check a path meets first.
  - `Decide` is the whole policy. It is a pure function from the
    environment flags, the request (path, URL, headers, cookies), an
    integer clock `now` in milliseconds and the share validator's answer
    (`Threw | NotFound | Found(ctx)`) to an `Action`: `Redirect(url,
    cookieOps, headerOps) | Rewrite(url) | Next(requestHeaders) |
    DelegateAuth`.
  - The class `ResponseState` applies a redirect's cookie and header
    updates in order. It keeps the client's cookie store and the
    response headers as maps. The pure fold `ApplyCookieOps` specifies
    it.
- **Context resolver** (`src/platforms/immich/resolver.ts`, module
  `Resolver`). The side it runs on (`Server | Client`) is a parameter
  instead of the `isServer` constant. The getters read one carrier each,
  with the `||` defaults of the source.
- **Read façade** (`src/platforms/immich/query.ts`, module `Query`).
  Each read of `ImmichProvider` is a function. The cached accessors, the
  asset API and the asset-to-photo converter are function-valued
  parameters.
- Module `ShareFlow` holds the lemmas that cross these pieces. Module
  `Common` holds JavaScript truthiness, `a || b || c` chains,
  `startsWith`/`includes`, and the `ShareContext` record.

Points of the code worth knowing when reading the model:

- Cookie lifetime. The code computes `Math.floor((expiresAt − now)/1000)`
  with no lower bound, and the model does the same. A share that expires
  less than a second after `now` therefore passes the expiry check but
  gets `maxAge` 0. A browser discards a cookie whose Max-Age is not
  positive (section 5.2.2 of RFC 6265), so the share is not kept
  (`ShareFlow.ShortLivedShareNotKept`).
- Sign-out. The code tests `USE_IMMICH_BACKEND === 'true' &&
  pathname.startsWith(PATH_SIGN_OUT)`, so in Immich mode every path under
  the sign-out path signs out. With the flag off the middleware has no
  sign-out branch, and such a path goes on down the chain, to `auth` when
  nothing else matches.
- Default share key. The code applies `defaultShareKey` on both sides,
  server and browser (`Resolver.GetSharedKey`).
- One carrier per side. The resolver never consults both carriers: the
  server reads only headers and the browser only cookies
  (`Resolver.OneCarrierPerSide`).
- Headers on activation. The code sets the two share headers on the
  redirect response (`ResponseState.headers`), not on a request. The
  share reaches later server renders through the cookies and the
  pass-through (`ShareFlow.ActivatedShareReachesServer`).

Resolving twice over the same carriers gives equal contexts because
`GetShareContext` is a function. No separate lemma is needed.

## Model

| member | source | states |
|---|---|---|
| `Common.FirstTruthy` | middleware.ts:21-23 | the value of `c0 \|\| c1 \|\| … \|\| last` is the first truthy candidate, or `last` when none is truthy |
| `Common.Contains` | middleware.ts:25 | `includes` holds exactly when the text occurs at some index |
| `Middleware.BaseUrl` | middleware.ts:26 | the base URL is the derived protocol, `://`, and the derived host |
| `Middleware.Host` | middleware.ts:21-23 | the host is `x-forwarded-host` if truthy, else `host` if truthy, else the URL's host |
| `Middleware.Protocol` | middleware.ts:24-25 | the protocol is `x-forwarded-proto` if truthy, else `http` exactly when the derived host contains `localhost`, else `https` |
| `Middleware.LegacyRest` | middleware.ts:45-54 | a capture of `^<prefix>(.+)$` is the whole non-empty, single-line remainder after the prefix |
| `Middleware.LegacyRestOf` | middleware.ts:45-54 | every non-empty single-line remainder is captured whole, further slashes included (converse) |
| `Middleware.ShareKeyOf` | middleware.ts:61-63 | a key matched by `^/share/([^/]+)$` is one non-empty segment without `/` after `/share/` |
| `Middleware.ShareKeyOfLink` | middleware.ts:61-63 | every such segment is matched (converse) |
| `Middleware.Classify` | middleware.ts:28-63 | first match wins: sign-out exactly when Immich mode and the sign-out prefix; admin suppression exactly when Immich mode, the admin prefix and not sign-out; the canonical admin redirect exactly on the bare admin path with the flag off; the OG sample exactly on the bare OG path when no earlier check applies; legacy and share captures agree with the path and no earlier check applies; ordinary exactly when no check applies |
| `Middleware.Activate` | middleware.ts:61-105 | activation always redirects against the base URL; it goes home, sets cookies and sets headers exactly when the share is found and not past expiry; a throw, a missing share and an expired share redirect to their three unauthorized URLs |
| `Middleware.PassThroughHeaders` | middleware.ts:107-113 | the new request headers are the incoming ones plus the album and key headers; the key header holds the key cookie or `""`, the album header the album cookie or `""` (when the names differ), and every other header is unchanged |
| `Middleware.Decide` | middleware.ts:19-125 | it continues with new headers exactly on an ordinary Immich-mode path; it delegates to `auth` exactly on an ordinary path with the flag off; it rewrites exactly on legacy paths, relative to the request URL |
| `Middleware.MaxAge` | middleware.ts:86-88 | the lifetime is 864000 s (240 h) without an expiry; otherwise it is the floor of `(expiresAt − now)/1000` |
| `Middleware.SignOutClearsShare` | middleware.ts:28-34 | in Immich mode a path under sign-out redirects home and deletes both cookies; on any prior cookie store the result is that store minus the two cookies, absent ones included |
| `Middleware.LegacyLinkSkipsPassThrough` | middleware.ts:45-119 | in Immich mode a legacy photo or tag link that no earlier check meets is rewritten, never passed through with the copied share headers |
| `Middleware.ImmichAdminGoesToGrid` | middleware.ts:36-39 | in Immich mode every path under admin that is not under sign-out redirects to `/grid` with no updates |
| `Middleware.ImmichAdminNeverCanonical` | middleware.ts:28-42 | in Immich mode the bare admin path redirects home or to `/grid`, never to the admin photos page |
| `Middleware.AdminCanonicalRedirect` | middleware.ts:41-42 | with the flag off the bare admin path redirects to the admin photos path against the request URL |
| `Middleware.OgSampleRedirect` | middleware.ts:43-44 | the bare OG path redirects to its sample path when no earlier check applies |
| `Middleware.LegacyPhotoRewrite` | middleware.ts:45-51 | `/photos/<rest>` rewrites to `PREFIX_PHOTO + "/" + rest` |
| `Middleware.LegacyTagRewrite` | middleware.ts:52-58 | `/t/<rest>` rewrites to `PREFIX_TAG + "/" + rest`; it never collides with the photo rule |
| `Middleware.ShareLinkRoute` | middleware.ts:28-63 | a path is a share link if and only if no earlier check applies and it is `/share/` followed by one non-empty slash-free key |
| `Middleware.ShareActivationIgnoresMode` | middleware.ts:61-105 | off the Immich-only prefixes, activation behaves the same with the flag on or off |
| `Middleware.ShareActivationFailures` | middleware.ts:65-78 | a throw redirects to `/unauthorized?reason=Failed to validate share key`, no share to `/unauthorized`, strictly past expiry to `/unauthorized?reason=expired`; none of them sets a cookie or a header |
| `Middleware.ShareActivationSucceeds` | middleware.ts:76-104 | a found, unexpired share redirects home; it sets the key cookie to the path key and the album cookie to the share's album, with equal options (not http-only, secure iff production, lax, path `/`) and a `maxAge` that is at least 0 and computed by the TTL rule; it sets the two headers to the same two values |
| `Middleware.ValidationOnlyOnShareLink` | middleware.ts:61-66 | off a share link the decision depends on neither the validator's answer nor the clock |
| `Middleware.CookieUpdatesOnlyOnSignOutOrActivation` | middleware.ts:28-105 | only sign-out and a found share touch cookies; only a found, unexpired share sets response headers |
| `Middleware.PassThroughOverwritesShareHeaders` | middleware.ts:107-119 | in Immich mode an ordinary request continues with its own headers, except that the album and key headers now hold the cookie values, or `""` without a cookie |
| `Middleware.DelegatesWhenImmichOff` | middleware.ts:121-124 | with the flag off an ordinary request is handed to `auth` |
| `Middleware.ApplyCookieOp` | middleware.ts:30-98 | one update changes only the cookie it names; that cookie is present afterwards exactly when the update is a set with positive `maxAge`, and then it holds the set value and options |
| `Middleware.ApplyCookieOps` | middleware.ts:30-98 | a sequence of updates, in order, adds no cookie beyond the prior store and the names it updates |
| `Middleware.ApplyHeaderOps` | middleware.ts:101-102 | the header updates, in order, leave exactly the prior names plus the set names, and a header no update names keeps its value |
| `Middleware.ApplyCookieOpsLastWins` | middleware.ts:30-98 | the last update naming a cookie decides it: present afterwards exactly when that update is a set with positive `maxAge`, and then holding that update's value and options |
| `Middleware.ApplyHeaderOpsLastWins` | middleware.ts:101-102 | the last `headers.set` of a name decides the value that name ends with |
| `Middleware.ApplyCookieOpsUntouched` | middleware.ts:81-98 | cookies that no update names keep their entry |
| `Middleware.ResponseState.constructor` | middleware.ts:80 | a response starts from the given cookie store and headers |
| `Middleware.ResponseState.UpdateCookie` | middleware.ts:30-98 | a delete (lines 30-31) removes the cookie; a set (lines 81-98) stores the value, or removes the cookie when `maxAge` is not positive; headers are unchanged |
| `Middleware.ResponseState.SetResponseHeader` | middleware.ts:101-102 | sets one response header; cookies are unchanged |
| `Middleware.ResponseState.Apply` | middleware.ts:80-102 | applies the cookie updates and then the header updates, in order; the new state equals the fold of the updates over the old state |
| `Resolver.GetAlbumId` | src/platforms/immich/resolver.ts:15-23 | the album is non-empty exactly when the side's carrier holds a non-empty value, and then it is that value |
| `Resolver.GetSharedKey` | src/platforms/immich/resolver.ts:25-33 | the key is the carried value if truthy, else the default key if truthy, else `""`, on both sides |
| `Resolver.GetAllowDownload` | src/platforms/immich/resolver.ts:35-48 | downloads are denied if and only if the carried value is exactly `"false"` |
| `Resolver.GetShareContext` | src/platforms/immich/resolver.ts:50-59 | the context is exactly the three resolved fields, with no expiry |
| `Resolver.OneCarrierPerSide` | src/platforms/immich/resolver.ts:13-31 | the server result ignores cookies and the browser result ignores headers |
| `Resolver.ResolvesFromNamedCarriers` | src/platforms/immich/resolver.ts:15-48 | two executions that agree on the three named carriers of the same side resolve to the same context |
| `Query.Ids` | src/platforms/immich/query.ts:98 | the id projection keeps length and order |
| `Query.IdsAndUpdatedAt` | src/platforms/immich/query.ts:110-113 | the `{id, updatedAt}` projection keeps length and order |
| `Query.Take` | src/platforms/immich/query.ts:99-101 | `slice(0, n)` for positive `n` is the prefix of length `min(n, length)` |
| `Query.GetPublicPhotoIds` | src/platforms/immich/query.ts:93-103 | the photos are fetched with `{}` under the resolved context; the ids come in photo order, the first `min(limit, n)` for a positive limit and all `n` otherwise |
| `Query.LimitTakesPrefix` | src/platforms/immich/query.ts:96-102 | any limit yields a prefix of the unlimited listing |
| `Query.GetPhotoIdsAndUpdatedAt` | src/platforms/immich/query.ts:105-116 | one `{id, updatedAt}` per photo fetched with `{}`, same length and order |
| `Query.GetPhoto` | src/platforms/immich/query.ts:118-138 | the API is asked with the resolved share key; the result is absent when there is no asset, absent for a hidden photo unless `includeHidden` is true, and otherwise the converted photo; a returned hidden photo implies `includeHidden` |
| `Query.GetPhotos` | src/platforms/immich/query.ts:30-34 | the photos are the cached listing for the caller's options, unchanged, under the resolved context |
| `Query.GetUniqueTags` | src/platforms/immich/query.ts:36-43 | the tags are asked with `{hidden: "exclude"}` under the resolved context |
| `Query.GetUniqueCameras` | src/platforms/immich/query.ts:44-51 | the cameras are asked with `{hidden: "exclude"}` under the resolved context |
| `Query.GetUniqueLenses` | src/platforms/immich/query.ts:53-60 | the lenses are asked with `{hidden: "exclude"}` under the resolved context |
| `Query.GetUniqueFocalLengths` | src/platforms/immich/query.ts:62-69 | the focal lengths are asked with `{hidden: "exclude"}` under the resolved context |
| `Query.GetPhotosNearId` | src/platforms/immich/query.ts:71-82 | the neighbours of the photo id are asked with the caller's options, unchanged, under the resolved context |
| `Query.GetPhotosMeta` | src/platforms/immich/query.ts:84-91 | the count and date range are asked with the caller's options, unchanged, under the resolved context |
| `Query.ReadsScopedByContext` | src/platforms/immich/query.ts:30-137 | every read depends on the execution only through the resolved share context |
| `Query.GetRecipeTitleForData` | src/platforms/immich/query.ts:140-145 | no recipe title |
| `Query.GetPhotosNeedingRecipeTitleCount` | src/platforms/immich/query.ts:147-153 | a count of 0 |
| `Query.GetUniqueRecipes` | src/platforms/immich/query.ts:155-157 | no recipes |
| `Query.GetUniqueFilms` | src/platforms/immich/query.ts:159-161 | no films |
| `ShareFlow.ActivationCookies` | middleware.ts:80-98 | after activation the store holds the key and album cookies with the activated values when the lifetime is positive, and neither when it is 0 |
| `ShareFlow.ActivationResponseHeaders` | middleware.ts:100-102 | the redirect of a successful activation ends with the album header holding the share's album and the key header holding the path key (when the two header names differ) |
| `ShareFlow.ActivationRoundTrip` | middleware.ts:80-98 | with at least a second to expiry (or none), the browser-side resolver reads back the path key and the share's album from the new cookies |
| `ShareFlow.ShortLivedShareNotKept` | middleware.ts:86-89 | a share expiring within a second still redirects home, but both cookies are dropped and the browser resolves the default key |
| `ShareFlow.SignOutForgetsShare` | middleware.ts:28-34 | after sign-out the browser resolves the default key and an empty album, whatever it held before |
| `ShareFlow.PassThroughResolvesCookies` | middleware.ts:107-118 | server-side, a passed-through request resolves the key cookie (else the default key, else `""`) and the album cookie (else `""`); downloads are allowed unless the incoming request itself carries `"false"` |
| `ShareFlow.HeadersCannotForgeShare` | middleware.ts:108-113 | on the pass-through the server-side key and album depend only on the cookies, not on share headers sent by the client |
| `ShareFlow.ActivatedShareReachesServer` | middleware.ts:80-118 | after an activation whose cookies persist, every later ordinary Immich-mode request reaches the server-side resolver with the activated key and album |
| `ShareFlow.MissingKeyCookieMeansDefaultKey` | src/platforms/immich/resolver.ts:25-33 | the `""` that the pass-through writes for a missing key cookie is treated as absent, so the default key applies |

## Left out

- **URL serialisation.** `new URL(ref, base)` is kept as the pair
  `Resolved(ref, base)`. Percent-encoding is not modelled (the spaces in
  the failure reason become `%20` in the real URL), and neither is the
  parsing of `base`. In the source `new URL` throws when `base` does not
  parse, for instance when `x-forwarded-host` holds a proxy list such as
  `a, b` (a space may not appear in a host). The sign-out, `/grid`,
  unauthorized and home redirects, which resolve against `base`, then
  throw; the model's `Resolved` never fails.
- **Header names.** They are case-insensitive in the source. The model
  takes them as already lower-case.
- **Next.js mechanics.** `config.matcher` (middleware.ts:127-131), which
  decides which paths reach the middleware, is not modelled. Neither are
  the `NextResponse` and `Headers` objects beyond the maps kept here, nor
  the dynamic import of `next/headers`.
- **Share validation.** `validateShareKey` is not part of this model. Its
  answer is an input (`Validation`), because its lookup is a network call
  whose code is not shown.
- **Session authentication.** `auth` is reduced to the `DelegateAuth`
  action. Its code is not shown.
- **Clock.** The source reads the clock three times during an
  activation: `new Date()` for the expiry check (middleware.ts:76) and
  `Date.now()` once per cookie lifetime (middleware.ts:87 and 96). The
  model uses one integer `now` in milliseconds for all three and does no
  floating-point date arithmetic.
- Middleware.ShareActivationSucceeds: its `maxAge >= 0` and its equal
  options for the two cookies rest on the single `now`. In the source the
  clock can move between the three reads, so a share that passes the
  expiry check can get a lifetime of −1, and the two cookies' lifetimes
  can differ by one second.
- **Cookie attributes.** The store is keyed by cookie name. The browser's
  handling of `secure`, `sameSite` and `path` is not modelled; the
  attributes are only recorded.
- **Cookie decoding.** The browser-side cookie reader (`getCookie`) is
  not part of this model. Cookie values are read as stored.
- **Collaborators.** The cache module (`./cache`), `ImmichApiClient` and
  `convertImmichAssetToPhoto` are not part of this model. They are
  function-valued parameters, so memoisation, the choice of cache keys and
  isolation between shares under concurrency are not modelled. A
  converted photo keeps only `id`, `updatedAt` and `hidden`.
- **`ImmichProvider.albumId`.** The constructor stores it and no read
  uses it. The provider is a datatype holding `api` and `albumId`, and
  each read is a function over it.
- **Value types.**
  - **`Query.GetPublicPhotoIds`.** The limit is an integer.
    Fractional JavaScript numbers, which `slice` truncates, are not
    modelled.
  - **`Query.GetRecipeTitleForData`.** The source's `data: string | object`
    is reduced to a string. The argument is ignored either way.
  - **Facet listings.** Tags, cameras, lenses and focal lengths are all
    represented as a sequence of name and count.
- **Other files.**
  - `src/photo/db/query.ts` delegates one line at a time to a provider
    from a factory that is not shown, and re-exports database functions.
    It has no logic of its own.
  - `app/sign-out/page.tsx` clears the cookies from a browser effect. The
    middleware's sign-out branch states the same cookie rule.
- **Expiry after activation.** The source checks expiry only when a share
  link is visited. Later requests are bounded only by the cookie
  lifetime, and the model does the same.
