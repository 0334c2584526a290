/** Values shared by the middleware, the context resolver and the photo
    provider: optional values, JavaScript string truthiness, the string
    tests the middleware uses, and the share context itself. */
module Common {

  datatype Option<+T> = None | Some(value: T)

  /** `store.get(name)` on a header map or a cookie store: the value, or
      nothing when the name is absent. */
  function Get(store: map<string, string>, name: string): Option<string>
  {
    if name in store then Some(store[name]) else None
  }

  /** JavaScript truthiness of a `string | null | undefined`: present and
      not the empty string. */
  predicate Truthy(v: Option<string>)
  {
    v.Some? && v.value != ""
  }

  /** JavaScript `a || b` with a `string | null` on the left and a string
      on the right. */
  function Or(a: Option<string>, b: string): (r: string)
    ensures Truthy(a) ==> r == a.value
    ensures !Truthy(a) ==> r == b
  {
    if Truthy(a) then a.value else b
  }

  /** No candidate before index `n` is truthy. */
  predicate NoneTruthyBefore(cands: seq<Option<string>>, n: nat)
    requires n <= |cands|
  {
    forall j :: 0 <= j < n ==> !Truthy(cands[j])
  }

  /** The chain `c0 || c1 || … || last`: the first truthy candidate, and
      `last` when none is. */
  function FirstTruthy(cands: seq<Option<string>>, last: string): (r: string)
    ensures forall i :: 0 <= i < |cands| && Truthy(cands[i]) && NoneTruthyBefore(cands, i) ==> r == cands[i].value
    ensures NoneTruthyBefore(cands, |cands|) ==> r == last
  {
    if cands == [] then last
    else Or(cands[0], FirstTruthy(cands[1..], last))
  }

  /** A chain of two candidates is two nested `||`. */
  lemma FirstTruthyOfTwo(a: Option<string>, b: Option<string>, last: string)
    ensures FirstTruthy([a, b], last) == Or(a, Or(b, last))
  {
    assert [a, b][1..] == [b];
    assert [b][1..] == [];
  }

  /** JavaScript `s.startsWith(prefix)`. */
  predicate StartsWith(s: string, prefix: string)
  {
    |prefix| <= |s| && s[..|prefix|] == prefix
  }

  lemma StartsWithConcat(prefix: string, rest: string)
    ensures StartsWith(prefix + rest, prefix)
  {
    assert (prefix + rest)[..|prefix|] == prefix;
  }

  /** `t` occurs in `s` starting at index `i`. */
  predicate OccursAt(s: string, t: string, i: int)
  {
    0 <= i && i + |t| <= |s| && s[i..i + |t|] == t
  }

  /** JavaScript `s.includes(t)`, searched left to right. */
  function Contains(s: string, t: string): (r: bool)
    ensures r <==> exists i :: OccursAt(s, t, i)
    decreases |s|
  {
    if |s| < |t| then false
    else if s[..|t|] == t then
      assert OccursAt(s, t, 0);
      true
    else
      var r := Contains(s[1..], t);
      assert forall i :: OccursAt(s, t, i) ==> i >= 1 && OccursAt(s[1..], t, i - 1);
      assert forall i :: OccursAt(s[1..], t, i) ==> OccursAt(s, t, i + 1);
      r
  }

  /** The authorisation unit of one request or render. An empty `shareKey`
      means that no share is active. `expiresAt` is an absolute time in
      integer milliseconds. */
  datatype ShareContext = ShareContext(
    shareKey: string,
    albumId: string,
    allowDownload: bool,
    expiresAt: Option<int>)

  /** The names of the cookies and headers that carry a share: the
      constants of the application's path module, whose values are not
      part of this model. */
  datatype CarrierNames = CarrierNames(
    keyCookie: string,
    albumCookie: string,
    allowDownloadCookie: string,
    keyHeader: string,
    albumHeader: string,
    allowDownloadHeader: string)
}
