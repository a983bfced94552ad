/** The generic resource gateway behind every management call: request
    validation, URL building, HTTP client configuration, response checking and
    the rewriting of server reference URLs, and the eight operations (list,
    count, get, create, multipart create, update, multipart update, delete)
    built from them. Executing a request and parsing JSON text are parameters. */
module Commons {
  import opened Wrappers
  import opened JavaLang
  import opened OrgJson
  import opened Http
  import opened Proxies
  import Settings

  /** `new JSONObject(text)`: the object, or the message of the JSONException. */
  type JsonParser = string -> Result<Object, string>

  // ===========================================================================
  // validate

  predicate IsLowerHexDigit(c: char) {
    '0' <= c <= '9' || 'a' <= c <= 'f'
  }

  /** `s.matches("[0-9a-f]{n}")`: the whole string is n lowercase hex digits. */
  predicate MatchesLowerHex(s: string, n: nat) {
    |s| == n && forall i :: 0 <= i < |s| ==> IsLowerHexDigit(s[i])
  }

  /** Tokens have 16-digit identifiers, every other resource 32. */
  function UuidLength(objectType: Option<string>): nat {
    if objectType == Some("token") then 16 else 32
  }

  /** What `validate` decides: the type check, then the data check, then the
      identifier check; the first that fails names the exception. */
  function Validation(objectType: Option<string>, data: Option<Object>, uuid: Option<string>): (r: Outcome<Error>)
    ensures r.Pass? <==>
      && (objectType.Some? ==> objectType.value in Settings.AllowedObjectTypes)
      && (data.Some? ==> |data.value| > 0)
      && (uuid.Some? ==> MatchesLowerHex(uuid.value, UuidLength(objectType)))
    ensures r.Fail? ==> r.error.CatchoomException?
  {
    if objectType.Some? && objectType.value !in Settings.AllowedObjectTypes then
      Fail(CatchoomException("Wrong object_type: " + objectType.value))
    else if data.Some? && |data.value| == 0 then
      Fail(CatchoomException("Empty data"))
    else if uuid.Some? && !MatchesLowerHex(uuid.value, UuidLength(objectType)) then
      Fail(CatchoomException("Wrong token: " + uuid.value))
    else
      Pass
  }

  /** The checks run in the order type, data, identifier: a bad type is
      reported even when the data and the identifier are bad too, and empty data
      is reported even when the identifier is bad too. */
  lemma ValidationOrder(objectType: Option<string>, data: Option<Object>, uuid: Option<string>)
    ensures objectType.Some? && objectType.value !in Settings.AllowedObjectTypes ==>
      Validation(objectType, data, uuid) == Fail(CatchoomException("Wrong object_type: " + objectType.value))
    ensures (objectType.Some? ==> objectType.value in Settings.AllowedObjectTypes) && data == Some(map[]) ==>
      Validation(objectType, data, uuid) == Fail(CatchoomException("Empty data"))
  {
  }

  /** `validate`: scans the allowed types with a flag, then checks the data and
      the identifier, throwing at the first failed check. */
  method Validate(objectType: Option<string>, data: Option<Object>, uuid: Option<string>) returns (r: Outcome<Error>)
    ensures r == Validation(objectType, data, uuid)
  {
    var valid := true;
    if objectType.Some? {
      var validObjectType := false;
      var i := 0;
      while i < |Settings.AllowedObjectTypes|
        invariant 0 <= i <= |Settings.AllowedObjectTypes|
        invariant validObjectType <==> objectType.value in Settings.AllowedObjectTypes[..i]
      {
        if Settings.AllowedObjectTypes[i] == objectType.value {
          validObjectType := true;
        }
        i := i + 1;
      }
      assert Settings.AllowedObjectTypes[..i] == Settings.AllowedObjectTypes;
      valid := valid && validObjectType;
    }
    if !valid {
      return Fail(CatchoomException("Wrong object_type: " + objectType.value));
    }
    if data.Some? {
      valid := valid && |data.value| > 0;
    }
    if !valid {
      return Fail(CatchoomException("Empty data"));
    }
    if uuid.Some? {
      if objectType.Some? && objectType.value == "token" {
        valid := valid && MatchesLowerHex(uuid.value, 16);
      } else {
        valid := valid && MatchesLowerHex(uuid.value, 32);
      }
    }
    if !valid {
      return Fail(CatchoomException("Wrong token: " + uuid.value));
    }
    return Pass;
  }

  // ===========================================================================
  // getUrl

  function ResourceName(objectType: string, uuid: Option<string>): string {
    if uuid.Some? then objectType + "/" + uuid.value else objectType
  }

  /** `{host}/api/{version}/{type}[/{uuid}]/?api_key={key}`. */
  function BaseUrl(apiKey: string, objectType: string, uuid: Option<string>): string {
    Settings.ManagementHostname + "/api/" + Settings.ManagementApiVersion + "/"
      + ResourceName(objectType, uuid) + "/?api_key=" + apiKey
  }

  /** `&key=value`. */
  function QueryPair(key: string, value: string): string {
    "&" + key + "=" + value
  }

  /** `&limit=N` when the limit is positive, then `&offset=N` when the offset is. */
  function Pagination(limit: int, offset: int): string {
    (if limit > 0 then QueryPair("limit", DecimalString(limit)) else "")
      + (if offset > 0 then QueryPair("offset", DecimalString(offset)) else "")
  }

  /** `&key=value` for each filter key, in the given order. */
  function FilterQuery(filter: Object, order: seq<string>): Result<string, Error> {
    if order == [] then Success("")
    else
      var query :- FilterQuery(filter, order[..|order| - 1]);
      var key := order[|order| - 1];
      var value :- GetString(filter, key);
      Success(query + QueryPair(key, value))
  }

  function FilterQueryOf(filter: Option<Object>, order: seq<string>): Result<string, Error> {
    if filter.None? then Success("") else FilterQuery(filter.value, order)
  }

  /** What `getUrl` returns or throws. */
  function UrlFor(apiKey: string, objectType: string, uuid: Option<string>, limit: int, offset: int,
                  filter: Option<Object>, order: seq<string>): Result<string, Error>
  {
    match Validation(Some(objectType), None, uuid)
    case Fail(e) => Failure(e)
    case Pass =>
      var query :- FilterQueryOf(filter, order);
      Success(BaseUrl(apiKey, objectType, uuid) + Pagination(limit, offset) + query)
  }

  /** A failed filter query stays failed whatever keys follow. */
  lemma {:induction false} FilterQueryFailureStays(filter: Object, order: seq<string>, i: nat)
    requires i <= |order| && FilterQuery(filter, order[..i]).Failure?
    ensures FilterQuery(filter, order) == FilterQuery(filter, order[..i])
    decreases |order|
  {
    if i < |order| {
      var init := order[..|order| - 1];
      assert init[..i] == order[..i];
      FilterQueryFailureStays(filter, init, i);
    } else {
      assert order[..i] == order;
    }
  }

  /** The query of a single key is its pair. */
  lemma FilterQuerySingle(filter: Object, key: string)
    requires key in filter && filter[key].JString?
    ensures FilterQuery(filter, [key]) == Success(QueryPair(key, filter[key].str))
  {
    assert [key][..0] == [];
    assert "" + QueryPair(key, filter[key].str) == QueryPair(key, filter[key].str);
  }

  /** The query of a concatenation of key orders is the concatenation of their
      queries: the pairs appear in iteration order, and the query fails exactly
      when a part of it fails, the earlier part first. */
  lemma {:induction false} FilterQueryAppend(filter: Object, first: seq<string>, second: seq<string>)
    ensures FilterQuery(filter, first).Failure? ==>
      FilterQuery(filter, first + second) == FilterQuery(filter, first)
    ensures FilterQuery(filter, first).Success? ==>
      FilterQuery(filter, first + second) ==
        (match FilterQuery(filter, second)
         case Failure(e) => Failure(e)
         case Success(q) => Success(FilterQuery(filter, first).value + q))
    decreases |second|
  {
    var whole := first + second;
    if second == [] {
      assert whole == first;
      if FilterQuery(filter, first).Success? {
        assert FilterQuery(filter, first).value + "" == FilterQuery(filter, first).value;
      }
    } else {
      var init := second[..|second| - 1];
      var key := second[|second| - 1];
      assert whole[..|whole| - 1] == first + init;
      assert whole[|whole| - 1] == key;
      FilterQueryAppend(filter, first, init);
      if FilterQuery(filter, first).Success? && FilterQuery(filter, init).Success? && GetString(filter, key).Success? {
        var v1, q := FilterQuery(filter, first).value, FilterQuery(filter, init).value;
        var pair := QueryPair(key, GetString(filter, key).value);
        assert FilterQuery(filter, second) == Success(q + pair);
        assert FilterQuery(filter, whole) == Success((v1 + q) + pair);
        assert (v1 + q) + pair == v1 + (q + pair);
      }
    }
  }

  /** The query succeeds exactly when every key in the order has a string value. */
  lemma {:induction false} FilterQuerySucceeds(filter: Object, order: seq<string>)
    ensures FilterQuery(filter, order).Success? <==>
      forall i :: 0 <= i < |order| ==> order[i] in filter && filter[order[i]].JString?
    decreases |order|
  {
    if order != [] {
      var init := order[..|order| - 1];
      FilterQuerySucceeds(filter, init);
      assert forall i :: 0 <= i < |init| ==> init[i] == order[i];
    }
  }

  /** `getUrl`: validates, then appends the pagination and the filter pairs
      to the base URL. */
  method GetUrl(apiKey: string, objectType: string, uuid: Option<string>, limit: int, offset: int,
                filter: Option<Object>, order: seq<string>) returns (r: Result<string, Error>)
    requires filter.Some? ==> Enumerates(order, filter.value.Keys)
    ensures r == UrlFor(apiKey, objectType, uuid, limit, offset, filter, order)
  {
    var v := Validate(Some(objectType), None, uuid);
    if v.Fail? {
      return Failure(v.error);
    }
    var resourceName := objectType;
    if uuid.Some? {
      resourceName := resourceName + "/" + uuid.value;
    }
    var url := Settings.ManagementHostname + "/api/" + Settings.ManagementApiVersion + "/"
      + resourceName + "/?api_key=" + apiKey;
    ghost var base := url;
    if limit > 0 {
      url := url + QueryPair("limit", DecimalString(limit));
    }
    if offset > 0 {
      url := url + QueryPair("offset", DecimalString(offset));
    }
    PaginationAppended(base, limit, offset, url);
    if filter.Some? {
      r := AppendFilter(url, filter.value, order);
    } else {
      assert url + "" == url;
      r := Success(url);
    }
  }

  lemma PaginationAppended(base: string, limit: int, offset: int, url: string)
    requires url == if limit > 0 && offset > 0 then base + QueryPair("limit", DecimalString(limit)) + QueryPair("offset", DecimalString(offset))
                    else if limit > 0 then base + QueryPair("limit", DecimalString(limit))
                    else if offset > 0 then base + QueryPair("offset", DecimalString(offset))
                    else base
    ensures url == base + Pagination(limit, offset)
  {
    var l, o := QueryPair("limit", DecimalString(limit)), QueryPair("offset", DecimalString(offset));
    assert base + l + o == base + (l + o);
    assert l + "" == l && "" + o == o && "" + "" == "" && base + "" == base;
  }

  /** The filter loop of `getUrl`: one `&key=value` per key, in iteration order. */
  method AppendFilter(url: string, filter: Object, order: seq<string>) returns (r: Result<string, Error>)
    ensures r == match FilterQuery(filter, order)
                 case Failure(e) => Failure(e)
                 case Success(q) => Success(url + q)
  {
    var result := url;
    var i := 0;
    while i < |order|
      invariant 0 <= i <= |order|
      invariant FilterQuery(filter, order[..i]).Success?
      invariant result == url + FilterQuery(filter, order[..i]).value
    {
      var key := order[i];
      assert order[..i + 1][..i] == order[..i];
      var value := GetString(filter, key);
      if value.Failure? {
        FilterQueryFailureStays(filter, order, i + 1);
        return Failure(value.error);
      }
      result := result + QueryPair(key, value.value);
      i := i + 1;
    }
    assert order[..i] == order;
    return Success(result);
  }

  /** The count path asks for one result and no offset: its URL carries
      `&limit=1` and no `&offset`. */
  lemma CountPagination()
    ensures Pagination(1, 0) == "&limit=1"
  {
    assert DecimalString(1) == "1";
    assert QueryPair("limit", "1") + "" == "&limit=1";
  }

  /** The get, create, update and delete paths pass -1 for both and no filter:
      their URL is the base URL alone. */
  lemma SingleResourceUrl(apiKey: string, objectType: string, uuid: Option<string>)
    requires Validation(Some(objectType), None, uuid).Pass?
    ensures UrlFor(apiKey, objectType, uuid, -1, -1, None, []) == Success(BaseUrl(apiKey, objectType, uuid))
  {
    var base := BaseUrl(apiKey, objectType, uuid);
    assert Pagination(-1, -1) == "";
    assert base + "" + "" == base;
  }

  // ===========================================================================
  // HTTP client configuration

  /** The client every gateway operation builds: TLS 1.2 pinned, routed through
      the proxy when there is one, with its credentials when it has them. */
  function ClientTransport(proxy: Option<Proxy>): (t: Transport)
    ensures t.tlsPinned
    ensures t.proxy.Some? <==> proxy.Some?
    ensures proxy.Some? ==> t.proxy == Some(HttpHost(proxy.value.host, proxy.value.port))
    ensures t.credentials.Some? <==> proxy.Some? && proxy.value.IsAuthenticated()
    ensures t.credentials.Some? ==>
      t.credentials.value == Credentials(proxy.value.host, proxy.value.port, proxy.value.user, proxy.value.password)
  {
    match proxy
    case None => Transport(true, None, None)
    case Some(p) => Transport(true, Some(p.HttpProxy()), if p.IsAuthenticated() then p.CredentialsProvider() else None)
  }

  // ===========================================================================
  // validateResponse

  /** What `validateResponse` decides: an unparsable body, or an object with an
      "error" key, raises CatchoomException; its message is error.message when
      that can be read, otherwise the message of the JSONException. */
  function ValidateResponse(body: string, parse: JsonParser): (r: Outcome<Error>)
    ensures r.Pass? <==> parse(body).Success? && "error" !in parse(body).value
    ensures r.Fail? ==> r.error.CatchoomException?
    ensures parse(body).Failure? ==> r == Fail(CatchoomException(parse(body).error))
  {
    match parse(body)
    case Failure(message) => Fail(CatchoomException(message))
    case Success(response) =>
      if "error" !in response then Pass
      else
        match GetJsonObject(response, "error")
        case Failure(e) => Fail(CatchoomException(e.message))
        case Success(error) =>
          match GetString(error, "message")
          case Failure(e) => Fail(CatchoomException(e.message))
          case Success(message) => Fail(CatchoomException(message))
  }

  /** An error envelope with a readable message raises exactly that message. */
  lemma ErrorEnvelopeMessage(body: string, parse: JsonParser, message: string)
    requires parse(body).Success?
    requires "error" in parse(body).value
    requires parse(body).value["error"] == JObject(map["message" := JString(message)])
    ensures ValidateResponse(body, parse) == Fail(CatchoomException(message))
  {
  }

  // ===========================================================================
  // parseObject

  /** `uri.split("/")[length - 2]`: the next-to-last piece of the split, or the
      out-of-bounds index when the split has fewer than two pieces. */
  function Segment(uri: string): (r: Result<string, Error>)
    ensures r.Success? <==> |JavaSplit(uri, '/')| >= 2
    ensures r.Failure? ==> r.error == IndexOutOfBounds(|JavaSplit(uri, '/')| - 2)
  {
    var splitVal := JavaSplit(uri, '/');
    if |splitVal| - 2 < 0 then Failure(IndexOutOfBounds(|splitVal| - 2))
    else Success(splitVal[|splitVal| - 2])
  }

  /** On a resource URI `…/type/uuid/`, Java's split drops the empty piece after
      the trailing slash, so the piece picked out is the resource type, not the
      identifier. */
  lemma SegmentOfResourceUri(prefix: string, objectType: string, uuid: string)
    requires '/' !in objectType && '/' !in uuid && uuid != ""
    ensures Segment(prefix + "/" + objectType + "/" + uuid + "/") == Success(objectType)
  {
    TrailingSeparatorSplit(prefix, objectType, uuid, '/');
  }

  /** A bare identifier (no slash) has a one-piece split and fails at index -1. */
  lemma SegmentOfBareIdentifier(uuid: string)
    requires '/' !in uuid
    ensures Segment(uuid) == Failure(IndexOutOfBounds(-1))
  {
  }

  /** The rewrite is not idempotent: a rewritten resource URI cannot be rewritten
      again. */
  lemma SegmentNotIdempotent(prefix: string, objectType: string, uuid: string)
    requires '/' !in objectType && '/' !in uuid && uuid != ""
    ensures Segment(prefix + "/" + objectType + "/" + uuid + "/").Success?
    ensures Segment(Segment(prefix + "/" + objectType + "/" + uuid + "/").value).Failure?
  {
    SegmentOfResourceUri(prefix, objectType, uuid);
    SegmentOfBareIdentifier(objectType);
  }

  /** The keys holding one reference URI, and those holding an array of them. */
  const ReferenceKeys: seq<string> := ["collection", "item", "version", "app", "tag"]
  const ReferenceListKeys: seq<string> := ["collections", "tags"]

  /** A reference value the rewrite accepts, and the value it puts back. */
  predicate ReferenceRewritable(v: Json) {
    v.JString? && Segment(v.str).Success?
  }

  predicate ReferenceRewritten(v: Json, w: Json) {
    ReferenceRewritable(v) && w == JString(Segment(v.str).value)
  }

  predicate AllRewritable(elems: seq<Json>) {
    forall i :: 0 <= i < |elems| ==> ReferenceRewritable(elems[i])
  }

  predicate AllRewritten(elems: seq<Json>, rewritten: seq<Json>) {
    |rewritten| == |elems| && forall i :: 0 <= i < |elems| ==> ReferenceRewritten(elems[i], rewritten[i])
  }

  predicate Rewritable(v: Json, list: bool) {
    if list then v.JArray? && AllRewritable(v.elems) else ReferenceRewritable(v)
  }

  predicate Rewritten(v: Json, w: Json, list: bool) {
    if list then v.JArray? && w.JArray? && AllRewritten(v.elems, w.elems) else ReferenceRewritten(v, w)
  }

  /** The array loop: each element replaced by its segment, front to back. */
  function RewriteElements(elems: seq<Json>): Result<seq<Json>, Error> {
    if elems == [] then Success([])
    else
      var init :- RewriteElements(elems[..|elems| - 1]);
      var uri :- ElementString(elems, |elems| - 1);
      var segment :- Segment(uri);
      Success(init + [JString(segment)])
  }

  /** The body of either key loop for one key: absent keys are skipped. */
  function RewriteKey(o: Object, key: string, list: bool): Result<Object, Error> {
    if key !in o then Success(o)
    else if list then
      var elems :- GetJsonArray(o, key);
      var rewritten :- RewriteElements(elems);
      Success(o[key := JArray(rewritten)])
    else
      var uri :- GetString(o, key);
      var segment :- Segment(uri);
      Success(o[key := JString(segment)])
  }

  /** A key loop over `keys`. */
  function RewriteKeys(o: Object, keys: seq<string>, list: bool): Result<Object, Error> {
    if keys == [] then Success(o)
    else
      var init :- RewriteKeys(o, keys[..|keys| - 1], list);
      RewriteKey(init, keys[|keys| - 1], list)
  }

  /** What `parseObject` returns or throws: "resource_uri" dropped, then the
      reference keys rewritten, then the reference arrays. */
  function ParsedObject(obj: Object): Result<Object, Error> {
    var references :- RewriteKeys(obj - {"resource_uri"}, ReferenceKeys, false);
    RewriteKeys(references, ReferenceListKeys, true)
  }

  lemma {:induction false} RewriteElementsFailureStays(elems: seq<Json>, i: nat)
    requires i <= |elems| && RewriteElements(elems[..i]).Failure?
    ensures RewriteElements(elems) == RewriteElements(elems[..i])
    decreases |elems|
  {
    if i < |elems| {
      var init := elems[..|elems| - 1];
      assert init[..i] == elems[..i];
      RewriteElementsFailureStays(init, i);
    } else {
      assert elems[..i] == elems;
    }
  }

  /** The array rewrite succeeds exactly when every element is a rewritable
      reference. */
  lemma {:induction false} RewriteElementsSucceeds(elems: seq<Json>)
    ensures RewriteElements(elems).Success? <==> AllRewritable(elems)
    decreases |elems|
  {
    if elems != [] {
      var n := |elems| - 1;
      var init := elems[..n];
      RewriteElementsSucceeds(init);
      assert forall i :: 0 <= i < n ==> init[i] == elems[i];
    }
  }

  /** A successful array rewrite replaces each element by its segment. */
  lemma {:induction false} RewriteElementsResult(elems: seq<Json>)
    requires RewriteElements(elems).Success?
    ensures AllRewritten(elems, RewriteElements(elems).value)
    decreases |elems|
  {
    if elems != [] {
      var n := |elems| - 1;
      var init := elems[..n];
      var front := RewriteElements(init).value;
      RewriteElementsResult(init);
      var uri := ElementString(elems, n).value;
      var w := JString(Segment(uri).value);
      assert RewriteElements(elems).value == front + [w];
      forall i | 0 <= i < |elems|
        ensures ReferenceRewritten(elems[i], (front + [w])[i])
      {
        if i < n {
          assert init[i] == elems[i];
        }
      }
    }
  }

  lemma RewriteKeySpec(o: Object, key: string, list: bool)
    ensures RewriteKey(o, key, list).Success? <==> (key in o ==> Rewritable(o[key], list))
    ensures RewriteKey(o, key, list).Success? ==>
      var r := RewriteKey(o, key, list).value;
      && r.Keys == o.Keys
      && (key in o ==> Rewritten(o[key], r[key], list))
      && (forall k :: k in o && k != key ==> r[k] == o[k])
  {
    if key in o && list && o[key].JArray? {
      RewriteElementsSucceeds(o[key].elems);
      if RewriteElements(o[key].elems).Success? {
        RewriteElementsResult(o[key].elems);
      }
    }
  }

  lemma {:induction false} RewriteKeysFailureStays(o: Object, keys: seq<string>, list: bool, i: nat)
    requires i <= |keys| && RewriteKeys(o, keys[..i], list).Failure?
    ensures RewriteKeys(o, keys, list) == RewriteKeys(o, keys[..i], list)
    decreases |keys|
  {
    if i < |keys| {
      var init := keys[..|keys| - 1];
      assert init[..i] == keys[..i];
      RewriteKeysFailureStays(o, init, list, i);
    } else {
      assert keys[..i] == keys;
    }
  }

  /** A key loop over distinct keys succeeds exactly when every present key
      holds a rewritable value; it then rewrites those values and keeps every
      other entry. */
  lemma {:induction false} RewriteKeysSpec(o: Object, keys: seq<string>, list: bool)
    requires forall i, j :: 0 <= i < j < |keys| ==> keys[i] != keys[j]
    ensures RewriteKeys(o, keys, list).Success? <==> forall k :: k in o && k in keys ==> Rewritable(o[k], list)
    ensures RewriteKeys(o, keys, list).Success? ==>
      var r := RewriteKeys(o, keys, list).value;
      && r.Keys == o.Keys
      && forall k :: k in o ==> if k in keys then Rewritten(o[k], r[k], list) else r[k] == o[k]
    decreases |keys|
  {
    if keys != [] {
      var init := keys[..|keys| - 1];
      var key := keys[|keys| - 1];
      assert keys == init + [key];
      assert key !in init by {
        forall i | 0 <= i < |init| ensures init[i] != key {
          assert init[i] == keys[i];
        }
      }
      RewriteKeysSpec(o, init, list);
      if RewriteKeys(o, init, list).Success? {
        RewriteKeySpec(RewriteKeys(o, init, list).value, key, list);
      }
    }
  }

  /** `parseObject` succeeds exactly when every reference key holds a
      rewritable URI and every reference array holds only such URIs. The result
      has the object's keys without "resource_uri", the references replaced by
      their segments, and every other entry unchanged. */
  lemma ParsedObjectSpec(obj: Object)
    ensures ParsedObject(obj).Success? <==>
      && (forall k :: k in obj && k in ReferenceKeys ==> Rewritable(obj[k], false))
      && (forall k :: k in obj && k in ReferenceListKeys ==> Rewritable(obj[k], true))
    ensures ParsedObject(obj).Success? ==>
      var r := ParsedObject(obj).value;
      && r.Keys == obj.Keys - {"resource_uri"}
      && (forall k :: k in r && k in ReferenceKeys ==> Rewritten(obj[k], r[k], false))
      && (forall k :: k in r && k in ReferenceListKeys ==> Rewritten(obj[k], r[k], true))
      && (forall k :: k in r && k !in ReferenceKeys && k !in ReferenceListKeys ==> r[k] == obj[k])
  {
    var stripped := obj - {"resource_uri"};
    RewriteKeysSpec(stripped, ReferenceKeys, false);
    if RewriteKeys(stripped, ReferenceKeys, false).Success? {
      RewriteKeysSpec(RewriteKeys(stripped, ReferenceKeys, false).value, ReferenceListKeys, true);
    }
  }

  /** The inner loop of `parseObject`: each array element in turn replaced by
      the segment of its URI. */
  method RewriteArray(elems: seq<Json>) returns (r: Result<seq<Json>, Error>)
    ensures r == RewriteElements(elems)
  {
    var items := elems;
    var i := 0;
    while i < |items|
      invariant 0 <= i <= |items| == |elems|
      invariant RewriteElements(elems[..i]) == Success(items[..i])
      invariant items[i..] == elems[i..]
    {
      assert elems[..i + 1][..i] == elems[..i];
      assert items[i] == elems[i];
      var uri := ElementString(items, i);
      if uri.Failure? {
        assert RewriteElements(elems[..i + 1]) == Failure(uri.error);
        RewriteElementsFailureStays(elems, i + 1);
        return Failure(uri.error);
      }
      var splitVal := JavaSplit(uri.value, '/');
      if |splitVal| - 2 < 0 {
        assert RewriteElements(elems[..i + 1]) == Failure(IndexOutOfBounds(|splitVal| - 2));
        RewriteElementsFailureStays(elems, i + 1);
        return Failure(IndexOutOfBounds(|splitVal| - 2));
      }
      items := items[i := JString(splitVal[|splitVal| - 2])];
      assert items[..i + 1] == items[..i] + [items[i]];
      i := i + 1;
    }
    assert elems[..i] == elems && items[..i] == items;
    return Success(items);
  }

  /** `parseObject`: the object is a fresh copy owned by the caller, so its
      in-place update is the update of a local map. */
  method ParseObject(source: Object) returns (r: Result<Object, Error>)
    ensures r == ParsedObject(source)
  {
    var obj := source;
    if "resource_uri" in obj {
      obj := obj - {"resource_uri"};
    }
    assert obj == source - {"resource_uri"};
    ghost var stripped := obj;
    var keysToParse1 := ReferenceKeys;
    for i := 0 to |keysToParse1|
      invariant RewriteKeys(stripped, keysToParse1[..i], false) == Success(obj)
    {
      var key := keysToParse1[i];
      assert keysToParse1[..i + 1][..i] == keysToParse1[..i];
      if key in obj {
        var uri := GetString(obj, key);
        if uri.Failure? {
          RewriteKeysFailureStays(stripped, keysToParse1, false, i + 1);
          return Failure(uri.error);
        }
        var splitVal := JavaSplit(uri.value, '/');
        if |splitVal| - 2 < 0 {
          RewriteKeysFailureStays(stripped, keysToParse1, false, i + 1);
          return Failure(IndexOutOfBounds(|splitVal| - 2));
        }
        obj := obj[key := JString(splitVal[|splitVal| - 2])];
      }
    }
    assert keysToParse1[..|keysToParse1|] == keysToParse1;
    ghost var references := obj;
    var keysToParse2 := ReferenceListKeys;
    for i := 0 to |keysToParse2|
      invariant RewriteKeys(references, keysToParse2[..i], true) == Success(obj)
    {
      var key := keysToParse2[i];
      assert keysToParse2[..i + 1][..i] == keysToParse2[..i];
      if key in obj {
        var items := GetJsonArray(obj, key);
        if items.Failure? {
          RewriteKeysFailureStays(references, keysToParse2, true, i + 1);
          return Failure(items.error);
        }
        var rewritten := RewriteArray(items.value);
        if rewritten.Failure? {
          RewriteKeysFailureStays(references, keysToParse2, true, i + 1);
          return Failure(rewritten.error);
        }
        obj := obj[key := JArray(rewritten.value)];
      }
    }
    assert keysToParse2[..|keysToParse2|] == keysToParse2;
    return Success(obj);
  }

  // ===========================================================================
  // The gateway operations

  /** The URL an operation sends to: its own `validate` call (which also checks
      the data), then `getUrl`. */
  function PreparedUrl(apiKey: string, objectType: string, data: Option<Object>, uuid: Option<string>,
                       limit: int, offset: int, filter: Option<Object>, order: seq<string>): Result<string, Error>
  {
    match Validation(Some(objectType), data, uuid)
    case Fail(e) => Failure(e)
    case Pass => UrlFor(apiKey, objectType, uuid, limit, offset, filter, order)
  }

  /** An operation sends nothing unless validation passes, and then sends to
      the base URL of the resource (with pagination and filter for lists). */
  lemma PreparedUrlSpec(apiKey: string, objectType: string, data: Option<Object>, uuid: Option<string>,
                        limit: int, offset: int, filter: Option<Object>, order: seq<string>)
    ensures PreparedUrl(apiKey, objectType, data, uuid, limit, offset, filter, order).Success? <==>
      Validation(Some(objectType), data, uuid).Pass? && FilterQueryOf(filter, order).Success?
    ensures PreparedUrl(apiKey, objectType, data, uuid, limit, offset, filter, order).Success? ==>
      PreparedUrl(apiKey, objectType, data, uuid, limit, offset, filter, order).value ==
        BaseUrl(apiKey, objectType, uuid) + Pagination(limit, offset) + FilterQueryOf(filter, order).value
    ensures Validation(Some(objectType), data, uuid).Fail? ==>
      PreparedUrl(apiKey, objectType, data, uuid, limit, offset, filter, order) ==
        Failure(Validation(Some(objectType), data, uuid).error)
  {
  }

  /** `validate` then `getUrl`, as every operation starts. */
  method Prepare(apiKey: string, objectType: string, data: Option<Object>, uuid: Option<string>,
                 limit: int, offset: int, filter: Option<Object>, order: seq<string>) returns (r: Result<string, Error>)
    requires filter.Some? ==> Enumerates(order, filter.value.Keys)
    ensures r == PreparedUrl(apiKey, objectType, data, uuid, limit, offset, filter, order)
  {
    var v := Validate(Some(objectType), data, uuid);
    if v.Fail? {
      return Failure(v.error);
    }
    r := GetUrl(apiKey, objectType, uuid, limit, offset, filter, order);
  }

  /** The request sent through the client configured for the proxy. */
  function Send(verb: Method, url: string, body: Body, proxy: Option<Proxy>): Request {
    Request(verb, url, body, ClientTransport(proxy))
  }

  /** The body text of a reply; a failed exchange is an IOException. */
  function ResponseText(reply: Reply): Result<string, Error> {
    match reply
    case Unreachable(message) => Failure(IoException(message))
    case Reply(_, _, body) => Success(body)
  }

  /** `validateResponse(output)` followed by `new JSONObject(output)`. */
  function CheckedResponse(reply: Reply, parse: JsonParser): (r: Result<Object, Error>)
    ensures r.Success? <==> reply.Reply? && ValidateResponse(reply.body, parse).Pass?
    ensures r.Success? ==> parse(reply.body) == Success(r.value) && "error" !in r.value
    ensures reply.Unreachable? ==> r == Failure(IoException(reply.message))
  {
    var body :- ResponseText(reply);
    match ValidateResponse(body, parse)
    case Fail(e) => Failure(e)
    case Pass => Success(parse(body).value)
  }

  /** What get, create and the multipart operations return: the parsed object. */
  function ObjectFromReply(reply: Reply, parse: JsonParser): Result<Object, Error> {
    var response :- CheckedResponse(reply, parse);
    ParsedObject(response)
  }

  /** What `countObjectsInList` returns: meta.total_count. */
  function CountFromReply(reply: Reply, parse: JsonParser): (r: Result<int, Error>)
    ensures r.Success? ==>
      && CheckedResponse(reply, parse).Success?
      && var response := CheckedResponse(reply, parse).value;
         "meta" in response && response["meta"].JObject?
         && response["meta"].fields.Keys >= {"total_count"}
         && response["meta"].fields["total_count"] == JInt(r.value)
    ensures CheckedResponse(reply, parse).Success? ==>
      var response := CheckedResponse(reply, parse).value;
      "meta" in response && response["meta"].JObject?
        && "total_count" in response["meta"].fields && response["meta"].fields["total_count"].JInt? ==>
        r == Success(response["meta"].fields["total_count"].number)
  {
    var response :- CheckedResponse(reply, parse);
    var meta :- GetJsonObject(response, "meta");
    GetInt(meta, "total_count")
  }

  /** What update and delete return: the status code and reason phrase of the
      reply, whose body is never read or checked. */
  function StatusFromReply(reply: Reply): (r: Result<Object, Error>)
    ensures r.Success? <==> reply.Reply?
    ensures r.Success? ==>
      r.value == map["statusCode" := JInt(reply.statusCode), "message" := JString(reply.reason)]
  {
    match reply
    case Unreachable(message) => Failure(IoException(message))
    case Reply(code, reason, _) => Success(map["statusCode" := JInt(code), "message" := JString(reason)])
  }

  /** The list loop: each element of "objects" read as an object and parsed. */
  function ParseEach(objects: seq<Json>): Result<seq<Object>, Error> {
    if objects == [] then Success([])
    else
      var init :- ParseEach(objects[..|objects| - 1]);
      var o :- ElementObject(objects, |objects| - 1);
      var parsed :- ParsedObject(o);
      Success(init + [parsed])
  }

  lemma {:induction false} ParseEachFailureStays(objects: seq<Json>, i: nat)
    requires i <= |objects| && ParseEach(objects[..i]).Failure?
    ensures ParseEach(objects) == ParseEach(objects[..i])
    decreases |objects|
  {
    if i < |objects| {
      var init := objects[..|objects| - 1];
      assert init[..i] == objects[..i];
      ParseEachFailureStays(init, i);
    } else {
      assert objects[..i] == objects;
    }
  }

  /** The list succeeds exactly when every element is an object that parses,
      and then holds the parsed elements in the server's order. */
  lemma {:induction false} ParseEachSpec(objects: seq<Json>)
    ensures ParseEach(objects).Success? <==>
      forall i :: 0 <= i < |objects| ==> objects[i].JObject? && ParsedObject(objects[i].fields).Success?
    ensures ParseEach(objects).Success? ==>
      && |ParseEach(objects).value| == |objects|
      && forall i :: 0 <= i < |objects| ==> Success(ParseEach(objects).value[i]) == ParsedObject(objects[i].fields)
    decreases |objects|
  {
    if objects != [] {
      var n := |objects| - 1;
      var init := objects[..n];
      ParseEachSpec(init);
      assert forall i :: 0 <= i < n ==> init[i] == objects[i];
      if ParseEach(objects).Success? {
        var front := ParseEach(init).value;
        var last := ParsedObject(objects[n].fields).value;
        assert ParseEach(objects).value == front + [last];
        forall i | 0 <= i < |objects|
          ensures Success(ParseEach(objects).value[i]) == ParsedObject(objects[i].fields)
        {
          if i < n {
            assert (front + [last])[i] == front[i];
          }
        }
      }
    }
  }

  /** What `getObjectList` returns: the parsed elements of "objects". */
  function ObjectsFromReply(reply: Reply, parse: JsonParser): Result<seq<Object>, Error> {
    var response :- CheckedResponse(reply, parse);
    var objects :- GetJsonArray(response, "objects");
    ParseEach(objects)
  }

  // What each operation returns or throws, given how the server answers.

  function ListResult(apiKey: string, objectType: string, limit: int, offset: int, filter: Option<Object>,
                      order: seq<string>, proxy: Option<Proxy>, execute: Request -> Reply, parse: JsonParser)
    : Result<seq<Object>, Error>
  {
    var url :- PreparedUrl(apiKey, objectType, None, None, limit, offset, filter, order);
    ObjectsFromReply(execute(Send(Get, url, NoBody, proxy)), parse)
  }

  function CountResult(apiKey: string, objectType: string, filter: Option<Object>, order: seq<string>,
                       proxy: Option<Proxy>, execute: Request -> Reply, parse: JsonParser): Result<int, Error>
  {
    var url :- PreparedUrl(apiKey, objectType, None, None, 1, 0, filter, order);
    CountFromReply(execute(Send(Get, url, NoBody, proxy)), parse)
  }

  function GetResult(apiKey: string, objectType: string, uuid: Option<string>, proxy: Option<Proxy>,
                     execute: Request -> Reply, parse: JsonParser): Result<Object, Error>
  {
    var url :- PreparedUrl(apiKey, objectType, None, uuid, -1, -1, None, []);
    ObjectFromReply(execute(Send(Get, url, NoBody, proxy)), parse)
  }

  function CreateResult(apiKey: string, objectType: string, data: Option<Object>, proxy: Option<Proxy>,
                        execute: Request -> Reply, parse: JsonParser): Result<Object, Error>
  {
    var url :- PreparedUrl(apiKey, objectType, data, None, -1, -1, None, []);
    if data.None? then Failure(NullPointer)
    else ObjectFromReply(execute(Send(Post, url, JsonBody(data.value), proxy)), parse)
  }

  function CreateMultipartResult(apiKey: string, objectType: string, file: string, data: Option<Object>,
                                 order: seq<string>, proxy: Option<Proxy>,
                                 execute: Request -> Reply, parse: JsonParser): Result<Object, Error>
  {
    var url :- PreparedUrl(apiKey, objectType, data, None, -1, -1, None, []);
    var parts :- CreateParts(file, data, order);
    ObjectFromReply(execute(Send(Post, url, Multipart(parts), proxy)), parse)
  }

  function UpdateResult(apiKey: string, objectType: string, uuid: Option<string>, data: Option<Object>,
                        proxy: Option<Proxy>, execute: Request -> Reply): Result<Object, Error>
  {
    var url :- PreparedUrl(apiKey, objectType, data, uuid, -1, -1, None, []);
    if data.None? then Failure(NullPointer)
    else StatusFromReply(execute(Send(Post, url, JsonBody(data.value), proxy)))
  }

  function UpdateMultipartResult(apiKey: string, objectType: string, uuid: Option<string>, file: string,
                                 data: Option<Object>, proxy: Option<Proxy>,
                                 execute: Request -> Reply, parse: JsonParser): Result<Object, Error>
  {
    var url :- PreparedUrl(apiKey, objectType, data, uuid, -1, -1, None, []);
    if data.None? then Failure(NullPointer)
    else
      var parts := [BinaryPart("files", file), JsonTextPart("data", data.value)];
      ObjectFromReply(execute(Send(Post, url, Multipart(parts), proxy)), parse)
  }

  function DeleteResult(apiKey: string, objectType: string, uuid: Option<string>, proxy: Option<Proxy>,
                        execute: Request -> Reply): Result<Object, Error>
  {
    var url :- PreparedUrl(apiKey, objectType, None, uuid, -1, -1, None, []);
    StatusFromReply(execute(Send(Delete, url, NoBody, proxy)))
  }

  /** A request that fails validation is never sent: every operation throws
      the validation's exception, whatever the server would have answered. */
  lemma InvalidRequestNeverSent(apiKey: string, objectType: string, data: Option<Object>, uuid: Option<string>,
                                file: string, order: seq<string>, proxy: Option<Proxy>,
                                execute: Request -> Reply, parse: JsonParser)
    ensures Validation(Some(objectType), data, None).Fail? ==>
      var e := Failure(Validation(Some(objectType), data, None).error);
      && CreateResult(apiKey, objectType, data, proxy, execute, parse) == e
      && CreateMultipartResult(apiKey, objectType, file, data, order, proxy, execute, parse) == e
    ensures Validation(Some(objectType), data, uuid).Fail? ==>
      var e := Failure(Validation(Some(objectType), data, uuid).error);
      && UpdateResult(apiKey, objectType, uuid, data, proxy, execute) == e
      && UpdateMultipartResult(apiKey, objectType, uuid, file, data, proxy, execute, parse) == e
  {
  }

  /** The read operations and delete send nothing for a bad type or identifier. */
  lemma InvalidReadNeverSent(apiKey: string, objectType: string, uuid: Option<string>,
                             limit: int, offset: int, filter: Option<Object>, order: seq<string>,
                             proxy: Option<Proxy>, execute: Request -> Reply, parse: JsonParser)
    requires Validation(Some(objectType), None, uuid).Fail?
    ensures var e := Validation(Some(objectType), None, uuid).error;
      && GetResult(apiKey, objectType, uuid, proxy, execute, parse) == Failure(e)
      && DeleteResult(apiKey, objectType, uuid, proxy, execute) == Failure(e)
    ensures Validation(Some(objectType), None, None).Fail? ==>
      var e := Validation(Some(objectType), None, None).error;
      && ListResult(apiKey, objectType, limit, offset, filter, order, proxy, execute, parse) == Failure(e)
      && CountResult(apiKey, objectType, filter, order, proxy, execute, parse) == Failure(e)
  {
  }

  /** Once validation passes, an update without data throws
      NullPointerException before anything is sent. */
  lemma UpdateWithoutDataFails(apiKey: string, objectType: string, uuid: Option<string>, file: string,
                               proxy: Option<Proxy>, execute: Request -> Reply, parse: JsonParser)
    requires Validation(Some(objectType), None, uuid).Pass?
    ensures UpdateResult(apiKey, objectType, uuid, None, proxy, execute) == Failure(NullPointer)
    ensures UpdateMultipartResult(apiKey, objectType, uuid, file, None, proxy, execute, parse) == Failure(NullPointer)
  {
  }

  /** Update and delete report the reply's status line and never look at its
      body: a server error envelope does not make them throw. */
  lemma StatusOperationsIgnoreBody(apiKey: string, objectType: string, uuid: Option<string>, data: Object,
                                   proxy: Option<Proxy>, execute: Request -> Reply)
    requires PreparedUrl(apiKey, objectType, Some(data), uuid, -1, -1, None, []).Success?
    requires execute(Send(Post, PreparedUrl(apiKey, objectType, Some(data), uuid, -1, -1, None, []).value,
                          JsonBody(data), proxy)).Reply?
    ensures var reply := execute(Send(Post, PreparedUrl(apiKey, objectType, Some(data), uuid, -1, -1, None, []).value,
                                      JsonBody(data), proxy));
      UpdateResult(apiKey, objectType, uuid, Some(data), proxy, execute) ==
        Success(map["statusCode" := JInt(reply.statusCode), "message" := JString(reply.reason)])
  {
  }

  /** `getObjectList`. */
  method GetObjectList(apiKey: string, objectType: string, limit: int, offset: int,
                       filter: Option<Object>, order: seq<string>, proxy: Option<Proxy>,
                       execute: Request -> Reply, parse: JsonParser) returns (r: Result<seq<Object>, Error>)
    requires filter.Some? ==> Enumerates(order, filter.value.Keys)
    ensures r == ListResult(apiKey, objectType, limit, offset, filter, order, proxy, execute, parse)
  {
    var url := Prepare(apiKey, objectType, None, None, limit, offset, filter, order);
    if url.Failure? {
      return Failure(url.error);
    }
    var reply := execute(Send(Get, url.value, NoBody, proxy));
    var response := CheckedResponse(reply, parse);
    if response.Failure? {
      return Failure(response.error);
    }
    var objects := GetJsonArray(response.value, "objects");
    if objects.Failure? {
      return Failure(objects.error);
    }
    var list := objects.value;
    var objectList := [];
    var i := 0;
    while i < |list|
      invariant 0 <= i <= |list|
      invariant ParseEach(list[..i]) == Success(objectList)
    {
      assert list[..i + 1][..i] == list[..i];
      var o := ElementObject(list, i);
      if o.Failure? {
        ParseEachFailureStays(list, i + 1);
        return Failure(o.error);
      }
      var parsed := ParseObject(o.value);
      if parsed.Failure? {
        ParseEachFailureStays(list, i + 1);
        return Failure(parsed.error);
      }
      objectList := objectList + [parsed.value];
      i := i + 1;
    }
    assert list[..i] == list;
    return Success(objectList);
  }

  /** `countObjectsInList`: a list request for one object, answered by the
      total in the reply's meta. */
  method CountObjectsInList(apiKey: string, objectType: string, filter: Option<Object>, order: seq<string>,
                            proxy: Option<Proxy>, execute: Request -> Reply, parse: JsonParser)
    returns (r: Result<int, Error>)
    requires filter.Some? ==> Enumerates(order, filter.value.Keys)
    ensures r == CountResult(apiKey, objectType, filter, order, proxy, execute, parse)
  {
    var url := Prepare(apiKey, objectType, None, None, 1, 0, filter, order);
    if url.Failure? {
      return Failure(url.error);
    }
    var reply := execute(Send(Get, url.value, NoBody, proxy));
    r := CountFromReply(reply, parse);
  }

  /** The count request's URL is the base URL, `&limit=1` and the filter pairs. */
  lemma CountUrl(apiKey: string, objectType: string, filter: Option<Object>, order: seq<string>)
    requires PreparedUrl(apiKey, objectType, None, None, 1, 0, filter, order).Success?
    ensures PreparedUrl(apiKey, objectType, None, None, 1, 0, filter, order).value ==
      BaseUrl(apiKey, objectType, None) + "&limit=1" + FilterQueryOf(filter, order).value
  {
    CountPagination();
  }

  /** `getObject`. */
  method GetObject(apiKey: string, objectType: string, uuid: Option<string>, proxy: Option<Proxy>,
                   execute: Request -> Reply, parse: JsonParser) returns (r: Result<Object, Error>)
    ensures r == GetResult(apiKey, objectType, uuid, proxy, execute, parse)
  {
    var url := Prepare(apiKey, objectType, None, uuid, -1, -1, None, []);
    if url.Failure? {
      return Failure(url.error);
    }
    var reply := execute(Send(Get, url.value, NoBody, proxy));
    var response := CheckedResponse(reply, parse);
    if response.Failure? {
      return Failure(response.error);
    }
    r := ParseObject(response.value);
  }

  /** `createObject`: the data is posted as a JSON document; null data passes
      validation and then fails when it is serialised. */
  method CreateObject(apiKey: string, objectType: string, data: Option<Object>, proxy: Option<Proxy>,
                      execute: Request -> Reply, parse: JsonParser) returns (r: Result<Object, Error>)
    ensures r == CreateResult(apiKey, objectType, data, proxy, execute, parse)
  {
    var url := Prepare(apiKey, objectType, data, None, -1, -1, None, []);
    if url.Failure? {
      return Failure(url.error);
    }
    if data.None? {
      return Failure(NullPointer);
    }
    var reply := execute(Send(Post, url.value, JsonBody(data.value), proxy));
    var response := CheckedResponse(reply, parse);
    if response.Failure? {
      return Failure(response.error);
    }
    r := ParseObject(response.value);
  }

  /** One text part per data key, in iteration order, holding its string value. */
  function TextParts(data: Object, order: seq<string>): Result<seq<Part>, Error> {
    if order == [] then Success([])
    else
      var init :- TextParts(data, order[..|order| - 1]);
      var key := order[|order| - 1];
      var text :- GetString(data, key);
      Success(init + [TextPart(key, text)])
  }

  lemma {:induction false} TextPartsFailureStays(data: Object, order: seq<string>, i: nat)
    requires i <= |order| && TextParts(data, order[..i]).Failure?
    ensures TextParts(data, order) == TextParts(data, order[..i])
    decreases |order|
  {
    if i < |order| {
      var init := order[..|order| - 1];
      assert init[..i] == order[..i];
      TextPartsFailureStays(data, init, i);
    } else {
      assert order[..i] == order;
    }
  }

  /** The text parts exist exactly when every key holds a string, and then
      carry the keys in iteration order with their values. */
  lemma {:induction false} TextPartsSpec(data: Object, order: seq<string>)
    ensures TextParts(data, order).Success? <==>
      forall i :: 0 <= i < |order| ==> order[i] in data && data[order[i]].JString?
    ensures TextParts(data, order).Success? ==>
      && |TextParts(data, order).value| == |order|
      && forall i :: 0 <= i < |order| ==> TextParts(data, order).value[i] == TextPart(order[i], data[order[i]].str)
    decreases |order|
  {
    if order != [] {
      var n := |order| - 1;
      var init := order[..n];
      TextPartsSpec(data, init);
      assert forall i :: 0 <= i < n ==> init[i] == order[i];
      if TextParts(data, order).Success? {
        var front := TextParts(data, init).value;
        var last := TextPart(order[n], data[order[n]].str);
        assert TextParts(data, order).value == front + [last];
        forall i | 0 <= i < |order|
          ensures TextParts(data, order).value[i] == TextPart(order[i], data[order[i]].str)
        {
          if i < n {
            assert (front + [last])[i] == front[i];
          }
        }
      }
    }
  }

  /** The `addTextBody` loop over the data's keys. */
  method BuildTextParts(data: Object, order: seq<string>) returns (r: Result<seq<Part>, Error>)
    requires Enumerates(order, data.Keys)
    ensures r == TextParts(data, order)
  {
    var parts := [];
    var i := 0;
    while i < |order|
      invariant 0 <= i <= |order|
      invariant TextParts(data, order[..i]) == Success(parts)
    {
      var key := order[i];
      assert order[..i + 1][..i] == order[..i];
      var text := GetString(data, key);
      if text.Failure? {
        TextPartsFailureStays(data, order, i + 1);
        return Failure(text.error);
      }
      parts := parts + [TextPart(key, text.value)];
      i := i + 1;
    }
    assert order[..i] == order;
    return Success(parts);
  }

  /** The multipart entity of `createObjectMultipart`: the file under "file",
      then one text part per data key (none when the data is null). */
  function CreateParts(file: string, data: Option<Object>, order: seq<string>): Result<seq<Part>, Error> {
    if data.None? then Success([BinaryPart("file", file)])
    else
      var texts :- TextParts(data.value, order);
      Success([BinaryPart("file", file)] + texts)
  }

  /** `createObjectMultipart`. */
  method CreateObjectMultipart(apiKey: string, objectType: string, file: string, data: Option<Object>,
                               order: seq<string>, proxy: Option<Proxy>,
                               execute: Request -> Reply, parse: JsonParser) returns (r: Result<Object, Error>)
    requires data.Some? ==> Enumerates(order, data.value.Keys)
    ensures r == CreateMultipartResult(apiKey, objectType, file, data, order, proxy, execute, parse)
  {
    var url := Prepare(apiKey, objectType, data, None, -1, -1, None, []);
    if url.Failure? {
      return Failure(url.error);
    }
    var parts := [BinaryPart("file", file)];
    if data.Some? {
      var texts := BuildTextParts(data.value, order);
      if texts.Failure? {
        return Failure(texts.error);
      }
      parts := parts + texts.value;
    }
    var reply := execute(Send(Post, url.value, Multipart(parts), proxy));
    var response := CheckedResponse(reply, parse);
    if response.Failure? {
      return Failure(response.error);
    }
    r := ParseObject(response.value);
  }

  /** The multipart entity starts with the file and then lists the data's
      string values under their keys, in iteration order. */
  lemma CreatePartsSpec(file: string, data: Object, order: seq<string>)
    requires Enumerates(order, data.Keys)
    requires forall k :: k in data ==> data[k].JString?
    ensures CreateParts(file, Some(data), order).Success?
    ensures var parts := CreateParts(file, Some(data), order).value;
      && |parts| == |order| + 1 == |data| + 1
      && parts[0] == BinaryPart("file", file)
      && forall i :: 0 <= i < |order| ==> parts[i + 1] == TextPart(order[i], data[order[i]].str)
  {
    TextPartsSpec(data, order);
    DistinctKeysCount(order, data.Keys);
    var texts := TextParts(data, order).value;
    var parts := [BinaryPart("file", file)] + texts;
    assert CreateParts(file, Some(data), order) == Success(parts);
    forall i | 0 <= i < |order| ensures parts[i + 1] == TextPart(order[i], data[order[i]].str) {
      assert parts[i + 1] == texts[i];
    }
  }

  /** A duplicate-free enumeration of a set has one entry per element. */
  lemma {:induction false} DistinctKeysCount(order: seq<string>, keys: set<string>)
    requires Enumerates(order, keys)
    ensures |order| == |keys|
    decreases |order|
  {
    if order != [] {
      var last := order[|order| - 1];
      var init := order[..|order| - 1];
      assert last !in init by {
        forall i | 0 <= i < |init| ensures init[i] != last {
          assert init[i] == order[i];
        }
      }
      forall k ensures k in keys - {last} <==> k in init {
        if k in init {
          var i :| 0 <= i < |init| && init[i] == k;
          assert order[i] == k;
        }
        if k in order && k != last {
          var i :| 0 <= i < |order| && order[i] == k;
          assert i < |init| && init[i] == k;
        }
      }
      DistinctKeysCount(init, keys - {last});
    }
  }

  /** `updateObject`: the data is posted as a JSON document and the reply's
      status is returned; null data passes validation and then fails when it is
      serialised. */
  method UpdateObject(apiKey: string, objectType: string, uuid: Option<string>, data: Option<Object>,
                      proxy: Option<Proxy>, execute: Request -> Reply) returns (r: Result<Object, Error>)
    ensures r == UpdateResult(apiKey, objectType, uuid, data, proxy, execute)
  {
    var url := Prepare(apiKey, objectType, data, uuid, -1, -1, None, []);
    if url.Failure? {
      return Failure(url.error);
    }
    if data.None? {
      return Failure(NullPointer);
    }
    var reply := execute(Send(Post, url.value, JsonBody(data.value), proxy));
    r := StatusFromReply(reply);
  }

  /** `updateObjectMultipart`: the file under "files" and the serialised data
      under "data"; null data fails when it is serialised. */
  method UpdateObjectMultipart(apiKey: string, objectType: string, uuid: Option<string>, file: string,
                               data: Option<Object>, proxy: Option<Proxy>,
                               execute: Request -> Reply, parse: JsonParser) returns (r: Result<Object, Error>)
    ensures r == UpdateMultipartResult(apiKey, objectType, uuid, file, data, proxy, execute, parse)
  {
    var url := Prepare(apiKey, objectType, data, uuid, -1, -1, None, []);
    if url.Failure? {
      return Failure(url.error);
    }
    if data.None? {
      return Failure(NullPointer);
    }
    var parts := [BinaryPart("files", file), JsonTextPart("data", data.value)];
    var reply := execute(Send(Post, url.value, Multipart(parts), proxy));
    var response := CheckedResponse(reply, parse);
    if response.Failure? {
      return Failure(response.error);
    }
    r := ParseObject(response.value);
  }

  /** `deleteObject`: a DELETE whose reply status is returned. */
  method DeleteObject(apiKey: string, objectType: string, uuid: Option<string>, proxy: Option<Proxy>,
                      execute: Request -> Reply) returns (r: Result<Object, Error>)
    ensures r == DeleteResult(apiKey, objectType, uuid, proxy, execute)
  {
    var url := Prepare(apiKey, objectType, None, uuid, -1, -1, None, []);
    if url.Failure? {
      return Failure(url.error);
    }
    var reply := execute(Send(Delete, url.value, NoBody, proxy));
    r := StatusFromReply(reply);
  }
}
