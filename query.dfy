/** The read façade of the Immich backend. Every read resolves the share
    context first and then calls a cached accessor, or for one photo the
    asset API with the resolved share key. The cached accessors, the API
    client and the asset-to-photo conversion are collaborators whose code
    is not part of this model; they appear as functions. */
module Query {
  import opened Common
  import Resolver

  /** The fields of a converted photo that the façade reads. */
  datatype Photo = Photo(id: string, updatedAt: int, hidden: bool)

  /** An asset record as the API returns it. */
  datatype Asset = Asset(id: string)

  /** Query options (`GetPhotosOptions`), field name to value. */
  type Options = map<string, string>

  /** One entry of a facet listing (a tag, camera, lens or focal length). */
  datatype Facet = Facet(name: string, count: nat)

  datatype NearIdResult = NearIdResult(photos: seq<Photo>, indexNumber: Option<int>)

  datatype DateRange = DateRange(start: int, end: int)

  datatype PhotosMeta = PhotosMeta(count: nat, dateRange: Option<DateRange>)

  datatype IdAndUpdatedAt = IdAndUpdatedAt(id: string, updatedAt: int)

  /** The cached accessors: each is a function of its arguments and the
      share context. */
  datatype Cache = Cache(
    photos: (Options, ShareContext) -> seq<Photo>,
    uniqueTags: (Options, ShareContext) -> seq<Facet>,
    uniqueCameras: (Options, ShareContext) -> seq<Facet>,
    uniqueLenses: (Options, ShareContext) -> seq<Facet>,
    uniqueFocalLengths: (Options, ShareContext) -> seq<Facet>,
    photosNearId: (string, Options, ShareContext) -> NearIdResult,
    photosMeta: (Options, ShareContext) -> PhotosMeta)

  /** `getAssetInfo(assetId, withoutThumbnail, shareKey)`. */
  datatype ApiClient = ApiClient(getAssetInfo: (string, bool, string) -> Option<Asset>)

  /** The provider's two fields, set once by its constructor. */
  datatype ImmichProvider = ImmichProvider(api: ApiClient, albumId: string)

  /** `convertImmichAssetToPhoto(asset, size, shareContext)`. */
  type Converter = (Asset, string, ShareContext) -> Photo

  /** The options every facet listing uses. */
  function ExcludeHidden(): Options
  {
    map["hidden" := "exclude"]
  }

  /** The photos for the caller's options, unchanged, under the resolved
      context. */
  function GetPhotos(cache: Cache, x: Resolver.Execution, options: Options): (photos: seq<Photo>)
    ensures photos == cache.photos(options, Resolver.GetShareContext(x))
  {
    cache.photos(options, Resolver.GetShareContext(x))
  }

  /** Asked with `{hidden: "exclude"}` under the resolved context. */
  function GetUniqueTags(cache: Cache, x: Resolver.Execution): (facets: seq<Facet>)
    ensures facets == cache.uniqueTags(map["hidden" := "exclude"], Resolver.GetShareContext(x))
  {
    cache.uniqueTags(ExcludeHidden(), Resolver.GetShareContext(x))
  }

  /** Asked with `{hidden: "exclude"}` under the resolved context. */
  function GetUniqueCameras(cache: Cache, x: Resolver.Execution): (facets: seq<Facet>)
    ensures facets == cache.uniqueCameras(map["hidden" := "exclude"], Resolver.GetShareContext(x))
  {
    cache.uniqueCameras(ExcludeHidden(), Resolver.GetShareContext(x))
  }

  /** Asked with `{hidden: "exclude"}` under the resolved context. */
  function GetUniqueLenses(cache: Cache, x: Resolver.Execution): (facets: seq<Facet>)
    ensures facets == cache.uniqueLenses(map["hidden" := "exclude"], Resolver.GetShareContext(x))
  {
    cache.uniqueLenses(ExcludeHidden(), Resolver.GetShareContext(x))
  }

  /** Asked with `{hidden: "exclude"}` under the resolved context. */
  function GetUniqueFocalLengths(cache: Cache, x: Resolver.Execution): (facets: seq<Facet>)
    ensures facets == cache.uniqueFocalLengths(map["hidden" := "exclude"], Resolver.GetShareContext(x))
  {
    cache.uniqueFocalLengths(ExcludeHidden(), Resolver.GetShareContext(x))
  }

  /** The neighbours of `photoId` for the caller's options, unchanged,
      under the resolved context. */
  function GetPhotosNearId(cache: Cache, x: Resolver.Execution, photoId: string, options: Options): (near: NearIdResult)
    ensures near == cache.photosNearId(photoId, options, Resolver.GetShareContext(x))
  {
    cache.photosNearId(photoId, options, Resolver.GetShareContext(x))
  }

  /** The count and date range for the caller's options, unchanged,
      under the resolved context. */
  function GetPhotosMeta(cache: Cache, x: Resolver.Execution, options: Options): (meta: PhotosMeta)
    ensures meta == cache.photosMeta(options, Resolver.GetShareContext(x))
  {
    cache.photosMeta(options, Resolver.GetShareContext(x))
  }

  /** `photos.map(photo => photo.id)`. */
  function Ids(photos: seq<Photo>): (ids: seq<string>)
    ensures |ids| == |photos|
    ensures forall i :: 0 <= i < |photos| ==> ids[i] == photos[i].id
  {
    if photos == [] then [] else [photos[0].id] + Ids(photos[1..])
  }

  /** `photos.map(photo => ({ id, updatedAt }))`. */
  function IdsAndUpdatedAt(photos: seq<Photo>): (rows: seq<IdAndUpdatedAt>)
    ensures |rows| == |photos|
    ensures forall i :: 0 <= i < |photos| ==> rows[i] == IdAndUpdatedAt(photos[i].id, photos[i].updatedAt)
  {
    if photos == [] then [] else [IdAndUpdatedAt(photos[0].id, photos[0].updatedAt)] + IdsAndUpdatedAt(photos[1..])
  }

  /** `s.slice(0, n)` for a positive `n`: at most the first `n` elements. */
  function Take(s: seq<string>, n: int): (r: seq<string>)
    requires n > 0
    ensures |r| == if n < |s| then n else |s|
    ensures r == s[..|r|]
  {
    if n < |s| then s[..n] else s
  }

  /** The ids of all photos visible under the resolved context, in their
      order, cut to the first `limit` when `limit` is positive; fetched
      with empty options. */
  function GetPublicPhotoIds(cache: Cache, x: Resolver.Execution, limit: Option<int>): (ids: seq<string>)
    ensures var photos := cache.photos(map[], Resolver.GetShareContext(x));
      && |ids| == (if limit.Some? && limit.value > 0 && limit.value < |photos| then limit.value else |photos|)
      && forall i :: 0 <= i < |ids| ==> ids[i] == photos[i].id
  {
    var photos := cache.photos(map[], Resolver.GetShareContext(x));
    var photoIds := Ids(photos);
    if limit.Some? && limit.value > 0 then Take(photoIds, limit.value) else photoIds
  }

  /** One id and update time per photo, in order; fetched with empty
      options. */
  function GetPhotoIdsAndUpdatedAt(cache: Cache, x: Resolver.Execution): (rows: seq<IdAndUpdatedAt>)
    ensures var photos := cache.photos(map[], Resolver.GetShareContext(x));
      && |rows| == |photos|
      && forall i :: 0 <= i < |rows| ==> rows[i].id == photos[i].id && rows[i].updatedAt == photos[i].updatedAt
  {
    IdsAndUpdatedAt(cache.photos(map[], Resolver.GetShareContext(x)))
  }

  /** One photo by id, asked of the API with the resolved share key: absent
      when the API has no such asset, and absent when the photo is hidden
      and hidden photos were not asked for. */
  function GetPhoto(p: ImmichProvider, convert: Converter, x: Resolver.Execution, id: string, includeHidden: Option<bool>): (r: Option<Photo>)
    ensures var ctx := Resolver.GetShareContext(x);
      var asset := p.api.getAssetInfo(id, false, ctx.shareKey);
      && (asset.None? ==> r.None?)
      && (asset.Some? ==>
            var photo := convert(asset.value, "preview", ctx);
            r == (if photo.hidden && includeHidden != Some(true) then None else Some(photo)))
    ensures r.Some? && r.value.hidden ==> includeHidden == Some(true)
  {
    var ctx := Resolver.GetShareContext(x);
    var asset := p.api.getAssetInfo(id, false, ctx.shareKey);
    if asset.None? then None
    else
      var photo := convert(asset.value, "preview", ctx);
      if !(includeHidden == Some(true)) && photo.hidden then None else Some(photo)
  }

  // The recipe and film queries have no counterpart in the Immich backend
  // and answer "no data".

  function GetRecipeTitleForData(data: string, film: string): (title: Option<string>)
    ensures title.None?
  {
    None
  }

  function GetPhotosNeedingRecipeTitleCount(data: string, film: string, photoIdToExclude: Option<string>): (count: int)
    ensures count == 0
  {
    0
  }

  function GetUniqueRecipes(): (recipes: seq<string>)
    ensures recipes == []
  {
    []
  }

  function GetUniqueFilms(): (films: seq<string>)
    ensures films == []
  {
    []
  }

  /** Reads are scoped by the share context alone: two executions (server
      or browser, any carriers) that resolve to the same context read the
      same data. */
  lemma ReadsScopedByContext(cache: Cache, p: ImmichProvider, convert: Converter, x: Resolver.Execution, y: Resolver.Execution,
                             photoId: string, options: Options, limit: Option<int>, includeHidden: Option<bool>)
    requires Resolver.GetShareContext(x) == Resolver.GetShareContext(y)
    ensures GetPhotos(cache, x, options) == GetPhotos(cache, y, options)
    ensures GetUniqueTags(cache, x) == GetUniqueTags(cache, y)
    ensures GetUniqueCameras(cache, x) == GetUniqueCameras(cache, y)
    ensures GetUniqueLenses(cache, x) == GetUniqueLenses(cache, y)
    ensures GetUniqueFocalLengths(cache, x) == GetUniqueFocalLengths(cache, y)
    ensures GetPhotosNearId(cache, x, photoId, options) == GetPhotosNearId(cache, y, photoId, options)
    ensures GetPhotosMeta(cache, x, options) == GetPhotosMeta(cache, y, options)
    ensures GetPublicPhotoIds(cache, x, limit) == GetPublicPhotoIds(cache, y, limit)
    ensures GetPhotoIdsAndUpdatedAt(cache, x) == GetPhotoIdsAndUpdatedAt(cache, y)
    ensures GetPhoto(p, convert, x, photoId, includeHidden) == GetPhoto(p, convert, y, photoId, includeHidden)
  {
  }

  /** A limit only ever shortens the id listing, to a prefix of it. */
  lemma {:induction false} LimitTakesPrefix(cache: Cache, x: Resolver.Execution, limit: int)
    ensures var all := GetPublicPhotoIds(cache, x, None);
      var some := GetPublicPhotoIds(cache, x, Some(limit));
      |some| <= |all| && some == all[..|some|]
  {
    var all := GetPublicPhotoIds(cache, x, None);
    var some := GetPublicPhotoIds(cache, x, Some(limit));
    assert forall i :: 0 <= i < |some| ==> some[i] == all[i];
  }
}
