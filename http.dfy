/**
 * The HTTP exchange as values. Requests are built by the core; what comes back
 * is decided by a `Transport`, a parameter standing for the network and for
 * Go's `http.Client`.
 */
module Http {
  import opened Wrappers

  newtype byte = x: int | 0 <= x < 256

  datatype Cookie = Cookie(name: string, value: string)

  datatype Header = Header(key: string, value: string)

  /** The JSON values the core marshals: strings and objects. Go's `json.Marshal`
      writes the keys of a map in sorted order, so members are kept in that order. */
  datatype Json = JString(s: string) | JObject(members: seq<(string, Json)>)

  /** Index `i` holds the first member named `key`. */
  predicate FirstWith(members: seq<(string, Json)>, key: string, i: int) {
    && 0 <= i < |members|
    && members[i].0 == key
    && forall k :: 0 <= k < i ==> members[k].0 != key
  }

  /** The value of the first member named `key`, when `j` is an object that has one. */
  function Lookup(j: Json, key: string): (r: Option<Json>)
    ensures r.Some? ==> j.JObject? && exists i :: FirstWith(j.members, key, i) && j.members[i].1 == r.value
    ensures r.None? ==> !j.JObject? || forall i :: 0 <= i < |j.members| ==> j.members[i].0 != key
  {
    if j.JObject? then LookupIn(j.members, key) else None
  }

  function LookupIn(members: seq<(string, Json)>, key: string): (r: Option<Json>)
    ensures r.Some? ==> exists i :: FirstWith(members, key, i) && members[i].1 == r.value
    ensures r.None? ==> forall i :: 0 <= i < |members| ==> members[i].0 != key
  {
    if members == [] then None
    else if members[0].0 == key then
      assert FirstWith(members, key, 0);
      Some(members[0].1)
    else
      var r := LookupIn(members[1..], key);
      assert r.Some? ==> exists i :: FirstWith(members, key, i) && members[i].1 == r.value by {
        if r.Some? {
          var i :| FirstWith(members[1..], key, i) && members[1..][i].1 == r.value;
          assert forall k :: 1 <= k < i + 1 ==> members[k] == members[1..][k - 1];
          assert FirstWith(members, key, i + 1);
        }
      }
      assert r.None? ==> forall i :: 1 <= i < |members| ==> members[i] == members[1..][i - 1];
      r
  }

  /** Strict lexicographic order on strings, character by character. */
  predicate StringLess(a: string, b: string) {
    if a == [] then b != []
    else if b == [] then false
    else a[0] < b[0] || (a[0] == b[0] && StringLess(a[1..], b[1..]))
  }

  /** The member names of an object are strictly increasing, as json.Marshal
      writes a map. */
  predicate KeysSorted(j: Json) {
    j.JObject? ==>
      forall i, k :: 0 <= i < k < |j.members| ==> StringLess(j.members[i].0, j.members[k].0)
  }

  /** One part of a `multipart/form-data` body. */
  datatype Part =
    | FormField(fieldName: string, value: Json)
    | FormFile(fieldName: string, fileName: string, content: seq<byte>)

  datatype Payload = NoBody | JsonBody(json: Json) | Multipart(parts: seq<Part>)

  datatype Request = Request(
    verb: string,
    url: string,
    headers: seq<Header>,
    cookies: seq<Cookie>,
    payload: Payload)

  /** The response body as `ioutil.ReadAll` sees it. */
  datatype Body = Body(bytes: seq<byte>) | BodyReadError(message: string)

  /** `status` is Go's `response.Status` text ("404 Not Found"); `setCookie` holds
      the values of the `Set-Cookie` header lines, in order. */
  datatype Response = Response(
    statusCode: int,
    status: string,
    setCookie: seq<string>,
    body: Body)

  /** What `client.Do` gives back: a transport error or a response. A `Transport`
      stands for the whole `client.Do`, including whatever redirect following the
      calling client does: the login client stops at the first response, so a 3xx
      reaches the login decision, while the listing, download and upload clients
      follow redirects and their reply is the final response. */
  datatype Reply = Failed(message: string) | Received(response: Response)

  type Transport = Request -> Reply
}
