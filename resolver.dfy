/** Share-context resolution: on the server the share is read from the
    request headers the middleware wrote, in the browser from the share
    cookies. Which side runs is a parameter here rather than a module
    constant. */
module Resolver {
  import opened Common

  datatype Side = Server | Client

  /** Everything one resolution may read: the side it runs on, the
      request headers (server) and the cookies (client), the carrier names
      and the operator's default share key, which may be unset. */
  datatype Execution = Execution(
    side: Side,
    headers: map<string, string>,
    cookies: map<string, string>,
    names: CarrierNames,
    defaultShareKey: Option<string>)

  /** The one carrier a call consults: the named header on the server,
      the named cookie in the browser. */
  function Read(x: Execution, header: string, cookie: string): Option<string>
  {
    match x.side
    case Server => Get(x.headers, header)
    case Client => Get(x.cookies, cookie)
  }

  function AlbumValue(x: Execution): Option<string>
  {
    Read(x, x.names.albumHeader, x.names.albumCookie)
  }

  function KeyValue(x: Execution): Option<string>
  {
    Read(x, x.names.keyHeader, x.names.keyCookie)
  }

  function AllowDownloadValue(x: Execution): Option<string>
  {
    Read(x, x.names.allowDownloadHeader, x.names.allowDownloadCookie)
  }

  /** The album of the share: the carried value, or `""` when it is
      absent or empty. */
  function GetAlbumId(x: Execution): (r: string)
    ensures r != "" <==> Truthy(AlbumValue(x))
    ensures r != "" ==> AlbumValue(x) == Some(r)
  {
    Or(AlbumValue(x), "")
  }

  /** The share key: the carried value, else the operator's default key,
      else `""`; the fallback holds on both sides. */
  function GetSharedKey(x: Execution): (r: string)
    ensures Truthy(KeyValue(x)) ==> Some(r) == KeyValue(x)
    ensures !Truthy(KeyValue(x)) && Truthy(x.defaultShareKey) ==> Some(r) == x.defaultShareKey
    ensures r == "" <==> !Truthy(KeyValue(x)) && !Truthy(x.defaultShareKey)
  {
    FirstTruthyOfTwo(KeyValue(x), x.defaultShareKey, "");
    FirstTruthy([KeyValue(x), x.defaultShareKey], "")
  }

  /** Downloads are denied exactly when the carried value is the string
      `"false"`; absence and every other value allow them. */
  function GetAllowDownload(x: Execution): (r: bool)
    ensures !r <==> AllowDownloadValue(x) == Some("false")
  {
    if AllowDownloadValue(x) == Some("false") then false else true
  }

  /** The resolved context: the three resolved fields and no expiry. */
  function GetShareContext(x: Execution): (c: ShareContext)
    ensures c.expiresAt.None?
    ensures c.shareKey == GetSharedKey(x) && c.albumId == GetAlbumId(x) && c.allowDownload == GetAllowDownload(x)
  {
    var albumId := GetAlbumId(x);
    var shareKey := GetSharedKey(x);
    var allowDownload := GetAllowDownload(x);
    ShareContext(shareKey, albumId, allowDownload, None)
  }

  /** One carrier per side: the server never looks at cookies, the browser
      never looks at headers. */
  lemma OneCarrierPerSide(x: Execution, headers: map<string, string>, cookies: map<string, string>)
    ensures x.side == Server ==> GetShareContext(x.(cookies := cookies)) == GetShareContext(x)
    ensures x.side == Client ==> GetShareContext(x.(headers := headers)) == GetShareContext(x)
  {
  }

  /** The resolved context reads only the three named carriers of its
      side: two executions that agree on them resolve alike. */
  lemma ResolvesFromNamedCarriers(x: Execution, y: Execution)
    requires x.side == y.side && x.names == y.names && x.defaultShareKey == y.defaultShareKey
    requires AlbumValue(x) == AlbumValue(y) && KeyValue(x) == KeyValue(y) && AllowDownloadValue(x) == AllowDownloadValue(y)
    ensures GetShareContext(x) == GetShareContext(y)
  {
  }
}
