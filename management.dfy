/** The management API: reference URLs, the payloads each create and update
    call sends, and the per-resource entry points, which forward a fixed type
    tag and the proxy held in the static slot to the gateway operations. */
module Management {
  import opened Wrappers
  import opened JavaLang
  import opened OrgJson
  import opened Http
  import opened Proxies
  import opened Commons
  import Settings

  // ===========================================================================
  // Reference URLs

  /** `getObjectUrl`: `/api/{version}/{type}/{uuid}/`; a null identifier is
      printed as "null". */
  function ObjectUrl(objectType: string, uuid: Option<string>): string {
    "/api/" + Settings.ManagementApiVersion + "/" + objectType + "/" + Str(uuid) + "/"
  }

  /** The identifier is the last piece of the reference URL's split and the type
      the piece before it. */
  lemma ObjectUrlPieces(objectType: string, uuid: string)
    requires '/' !in objectType && '/' !in uuid && uuid != ""
    ensures var pieces := JavaSplit(ObjectUrl(objectType, Some(uuid)), '/');
      |pieces| >= 2 && pieces[|pieces| - 1] == uuid && pieces[|pieces| - 2] == objectType
  {
    TrailingSeparatorSplit("/api/" + Settings.ManagementApiVersion, objectType, uuid, '/');
  }

  /** A reference URL the client builds, when it comes back in a reply, is
      rewritten by `parseObject` to its type, not to its identifier. */
  lemma ObjectUrlRewritesToType(objectType: string, uuid: string)
    requires '/' !in objectType && '/' !in uuid && uuid != ""
    ensures Segment(ObjectUrl(objectType, Some(uuid))) == Success(objectType)
  {
    SegmentOfResourceUri("/api/" + Settings.ManagementApiVersion, objectType, uuid);
  }

  /** Different identifiers give different reference URLs. */
  lemma ObjectUrlInjective(objectType: string, u: Option<string>, v: Option<string>)
    requires ObjectUrl(objectType, u) == ObjectUrl(objectType, v)
    ensures Str(u) == Str(v)
  {
    var prefix := "/api/" + Settings.ManagementApiVersion + "/" + objectType + "/";
    assert ObjectUrl(objectType, u) == prefix + Str(u) + "/";
    assert ObjectUrl(objectType, v) == prefix + Str(v) + "/";
    assert Str(u) == ObjectUrl(objectType, u)[|prefix|..|ObjectUrl(objectType, u)| - 1];
  }

  // ===========================================================================
  // Tag lists

  /** The tag URLs of a list of tag identifiers. */
  function TagUrls(tags: seq<string>): seq<Json> {
    if tags == [] then []
    else TagUrls(tags[..|tags| - 1]) + [JString(ObjectUrl("tag", Some(tags[|tags| - 1])))]
  }

  /** Tags map one to one, in order, to their URLs. */
  lemma {:induction false} TagUrlsSpec(tags: seq<string>)
    ensures |TagUrls(tags)| == |tags|
    ensures forall i :: 0 <= i < |tags| ==> TagUrls(tags)[i] == JString(ObjectUrl("tag", Some(tags[i])))
    decreases |tags|
  {
    if tags != [] {
      var init := tags[..|tags| - 1];
      TagUrlsSpec(init);
      assert forall i :: 0 <= i < |init| ==> init[i] == tags[i];
    }
  }

  /** The loop that fills `parsedTags`. */
  method ParseTags(tags: seq<string>) returns (parsedTags: seq<Json>)
    ensures parsedTags == TagUrls(tags)
  {
    parsedTags := [];
    for i := 0 to |tags|
      invariant parsedTags == TagUrls(tags[..i])
    {
      assert tags[..i + 1][..i] == tags[..i];
      parsedTags := parsedTags + [JString(ObjectUrl("tag", Some(tags[i])))];
    }
    assert tags[..|tags|] == tags;
  }

  /** The tag URLs of a tag list that may be null. */
  function TagList(tags: Option<seq<string>>): Option<seq<Json>> {
    if tags.Some? then Some(TagUrls(tags.value)) else None
  }

  method ParseTagList(tags: Option<seq<string>>) returns (parsedTags: Option<seq<Json>>)
    ensures parsedTags == TagList(tags)
  {
    parsedTags := None;
    if tags.Some? {
      var parsed := ParseTags(tags.value);
      parsedTags := Some(parsed);
    }
  }

  // ===========================================================================
  // Payloads

  /** `put(key, value)` only when the value is non-null. */
  function PutIfPresent(d: Object, key: string, value: Option<string>): Object {
    if value.Some? then d[key := JString(value.value)] else d
  }

  function PutArrayIfPresent(d: Object, key: string, value: Option<seq<Json>>): Object {
    if value.Some? then d[key := JArray(value.value)] else d
  }

  /** `createCollection`'s payload: the name (absent when null) and the
      offline flag. */
  function CollectionData(name: Option<string>, offline: bool): (d: Object)
    ensures d.Keys <= {"name", "offline"}
    ensures Carries(d, "name", name)
    ensures "offline" in d && d["offline"] == JBool(offline)
  {
    PutString(map[], "name", name)["offline" := JBool(offline)]
  }

  /** `updateCollection`'s payload: null when the name is null. */
  function CollectionUpdateData(name: Option<string>): (d: Option<Object>)
    ensures d.Some? <==> name.Some?
    ensures d.Some? ==> d.value == map["name" := JString(name.value)]
  {
    if name.Some? then Some(PutString(map[], "name", name)) else None
  }

  /** `createItem`'s payload: the collection's URL, the name (absent when
      null), each optional field only when non-null, and the tag URLs. */
  function ItemData(collection: Option<string>, name: Option<string>, url: Option<string>,
                    custom: Option<string>, trackable: Option<string>, content: Option<string>,
                    tagUrls: Option<seq<Json>>): (d: Object)
    ensures d.Keys <= {"collection", "name", "url", "custom", "trackable", "content", "tags"}
    ensures "collection" in d && d["collection"] == JString(ObjectUrl("collection", collection))
    ensures Carries(d, "name", name) && Carries(d, "url", url) && Carries(d, "custom", custom)
    ensures Carries(d, "trackable", trackable) && Carries(d, "content", content)
    ensures CarriesArray(d, "tags", tagUrls)
  {
    var d := map["collection" := JString(ObjectUrl("collection", collection))];
    var d := PutString(d, "name", name);
    var d := PutIfPresent(d, "url", url);
    var d := PutIfPresent(d, "custom", custom);
    var d := PutIfPresent(d, "trackable", trackable);
    var d := PutIfPresent(d, "content", content);
    PutArrayIfPresent(d, "tags", tagUrls)
  }

  /** `updateItem`'s payload: each field only when non-null; there is no URL
      field, whatever URL the caller passes. */
  function ItemUpdateData(name: Option<string>, custom: Option<string>, trackable: Option<string>,
                          content: Option<string>, tagUrls: Option<seq<Json>>): (d: Object)
    ensures d.Keys <= {"name", "custom", "trackable", "content", "tags"}
    ensures Carries(d, "name", name) && Carries(d, "custom", custom)
    ensures Carries(d, "trackable", trackable) && Carries(d, "content", content)
    ensures CarriesArray(d, "tags", tagUrls)
  {
    var d := PutIfPresent(map[], "name", name);
    var d := PutIfPresent(d, "custom", custom);
    var d := PutIfPresent(d, "trackable", trackable);
    var d := PutIfPresent(d, "content", content);
    PutArrayIfPresent(d, "tags", tagUrls)
  }

  /** An item update with every field null sends empty data, which validation
      rejects as "Empty data" before anything is sent. */
  lemma EmptyItemUpdateRejected(apiKey: string, uuid: Option<string>, proxy: Option<Proxy>,
                                execute: Request -> Reply)
    ensures ItemUpdateData(None, None, None, None, None) == map[]
    ensures UpdateResult(apiKey, "item", uuid, Some(ItemUpdateData(None, None, None, None, None)), proxy, execute)
      == Failure(CatchoomException("Empty data"))
  {
  }

  /** `createImage`'s payload: the item's URL. */
  function ImageData(item: Option<string>): (d: Object)
    ensures d.Keys == {"item"} && d["item"] == JString(ObjectUrl("item", item))
  {
    map["item" := JString(ObjectUrl("item", item))]
  }

  /** `createToken`'s payload: the collection's URL and the tag URLs. */
  function TokenData(collection: Option<string>, tagUrls: Option<seq<Json>>): (d: Object)
    ensures d.Keys <= {"collection", "tags"}
    ensures "collection" in d && d["collection"] == JString(ObjectUrl("collection", collection))
    ensures CarriesArray(d, "tags", tagUrls)
  {
    PutArrayIfPresent(map["collection" := JString(ObjectUrl("collection", collection))], "tags", tagUrls)
  }

  /** `updateToken`'s payload: null when the tags are null. */
  function TokenUpdateData(tagUrls: Option<seq<Json>>): (d: Option<Object>)
    ensures d.Some? <==> tagUrls.Some?
    ensures d.Some? ==> d.value == map["tags" := JArray(tagUrls.value)]
  {
    if tagUrls.Some? then Some(map["tags" := JArray(tagUrls.value)]) else None
  }

  /** `createVideoMedia`'s name: the given one, otherwise the last piece of the
      URL's split; a null URL, or one whose split is empty, throws. */
  function VideoName(url: Option<string>, name: Option<string>): (r: Result<string, Error>)
    ensures name.Some? ==> r == Success(name.value)
    ensures name.None? && url.None? ==> r == Failure(NullPointer)
  {
    if name.Some? then Success(name.value)
    else if url.None? then Failure(NullPointer)
    else
      var splitUrl := JavaSplit(url.value, '/');
      if |splitUrl| - 1 < 0 then Failure(IndexOutOfBounds(|splitUrl| - 1))
      else Success(splitUrl[|splitUrl| - 1])
  }

  /** Without a name, a URL ending in `/file` is named `file`. */
  lemma VideoNameFromUrl(prefix: string, file: string)
    requires '/' !in file && file != ""
    ensures VideoName(Some(prefix + "/" + file), None) == Success(file)
  {
    LastPieceSplit(prefix, file, '/');
  }

  /** Without a name, a URL without any slash is its own name. */
  lemma VideoNameWithoutSlash(url: string)
    requires '/' !in url
    ensures VideoName(Some(url), None) == Success(url)
  {
  }

  /** Without a name, a URL ending in `/file/` is also named `file`: the
      trailing slash leaves no piece behind. */
  lemma VideoNameTrailingSlash(prefix: string, file: string)
    requires '/' !in file && file != ""
    ensures VideoName(Some(prefix + "/" + file + "/"), None) == Success(file)
  {
    var s := prefix + "/" + file + "/";
    assert s == prefix + ['/'] + (file + ['/'] + "");
    RawSplitAppend(prefix, file + ['/'] + "", '/');
    PieceAfter(file, "", '/');
    assert RawSplit("", '/') == [""];
    assert RawSplit(s, '/') == RawSplit(prefix, '/') + [file] + [""];
    StripLastEmpty(RawSplit(prefix, '/') + [file]);
    assert '/' in s by { assert s[|prefix|] == '/'; }
  }

  /** Without a name, a URL made only of slashes has an empty split and throws
      at index -1. */
  lemma VideoNameOfSlash()
    ensures VideoName(Some("/"), None) == Failure(IndexOutOfBounds(-1))
  {
    assert RawSplit("/"[1..], '/') == [""];
    assert RawSplit("/", '/') == ["", ""];
    assert StripTrailingEmpty(["", ""][..1]) == [];
  }

  /** `createVideoMedia`'s payload: mimetype "video", the name, and the URL
      under meta (meta is empty when the URL is null). */
  function VideoMediaData(videoName: string, url: Option<string>): (d: Object)
    ensures d.Keys == {"mimetype", "name", "meta"}
    ensures d["mimetype"] == JString("video") && d["name"] == JString(videoName)
    ensures d["meta"].JObject? && Carries(d["meta"].fields, "video-url", url) && d["meta"].fields.Keys <= {"video-url"}
  {
    map["mimetype" := JString("video"), "name" := JString(videoName),
        "meta" := JObject(PutString(map[], "video-url", url))]
  }

  /** The payload of `createTag` and `createApp`: the collection's URL and the
      name (absent when null). */
  function NamedInCollection(collection: Option<string>, name: Option<string>): (d: Object)
    ensures d.Keys <= {"collection", "name"}
    ensures "collection" in d && d["collection"] == JString(ObjectUrl("collection", collection))
    ensures Carries(d, "name", name)
  {
    PutString(map["collection" := JString(ObjectUrl("collection", collection))], "name", name)
  }

  /** `createBundle`'s payload: the collection, version and app URLs always,
      the tag URL only when the tag is non-null. */
  function BundleData(collection: Option<string>, app: Option<string>, version: Option<string>,
                      tag: Option<string>): (d: Object)
    ensures d.Keys <= {"collection", "version", "app", "tag"}
    ensures "collection" in d && d["collection"] == JString(ObjectUrl("collection", collection))
    ensures "version" in d && d["version"] == JString(ObjectUrl("version", version))
    ensures "app" in d && d["app"] == JString(ObjectUrl("app", app))
    ensures ("tag" in d <==> tag.Some?) && (tag.Some? ==> d["tag"] == JString(ObjectUrl("tag", tag)))
  {
    var d := map["collection" := JString(ObjectUrl("collection", collection)),
                 "version" := JString(ObjectUrl("version", version)),
                 "app" := JString(ObjectUrl("app", app))];
    if tag.Some? then d["tag" := JString(ObjectUrl("tag", tag))] else d
  }

  /** Every create payload has at least one key, so no create call made through
      this API is rejected as "Empty data". */
  lemma CreatePayloadsNotEmpty(collection: Option<string>, name: Option<string>, url: Option<string>,
                               custom: Option<string>, trackable: Option<string>, content: Option<string>,
                               tagUrls: Option<seq<Json>>, offline: bool, item: Option<string>,
                               app: Option<string>, version: Option<string>, tag: Option<string>,
                               videoName: string)
    ensures |CollectionData(name, offline)| > 0
    ensures |ItemData(collection, name, url, custom, trackable, content, tagUrls)| > 0
    ensures |ImageData(item)| > 0 && |TokenData(collection, tagUrls)| > 0
    ensures |VideoMediaData(videoName, url)| > 0 && |NamedInCollection(collection, name)| > 0
    ensures |BundleData(collection, app, version, tag)| > 0
  {
    NonEmptyMap(CollectionData(name, offline), "offline");
    NonEmptyMap(ItemData(collection, name, url, custom, trackable, content, tagUrls), "collection");
    NonEmptyMap(ImageData(item), "item");
    NonEmptyMap(TokenData(collection, tagUrls), "collection");
    NonEmptyMap(VideoMediaData(videoName, url), "name");
    NonEmptyMap(NamedInCollection(collection, name), "collection");
    NonEmptyMap(BundleData(collection, app, version, tag), "collection");
  }

  lemma NonEmptyMap(d: Object, key: string)
    requires key in d
    ensures |d| > 0
  {
    assert key in d.Keys;
  }

  /** The type tags the entry points forward. */
  const WrapperTypeTags: seq<string> := ["collection", "item", "image", "token", "media", "tag", "app", "version", "collectionbundle"]

  /** Each of them is allowed, so validation's type check never fails for a
      call made through this API. */
  lemma WrapperTypeTagsAllowed(t: string)
    requires t in WrapperTypeTags
    ensures t in Settings.AllowedObjectTypes
    ensures Validation(Some(t), None, None) == Pass
  {
  }

  /** `updateImage` passes null data: once its identifier is valid, the call
      always throws NullPointerException, and nothing is sent. */
  lemma UpdateImageAlwaysFails(apiKey: string, uuid: Option<string>, file: string, proxy: Option<Proxy>,
                               execute: Request -> Reply, parse: JsonParser)
    ensures UpdateMultipartResult(apiKey, "image", uuid, file, None, proxy, execute, parse).Failure?
    ensures Validation(Some("image"), None, uuid).Pass? ==>
      UpdateMultipartResult(apiKey, "image", uuid, file, None, proxy, execute, parse) == Failure(NullPointer)
  {
  }

  /** `updateCollection` with a null name and `updateToken` with null tags pass
      null data, which passes validation and then throws. */
  lemma NullUpdatesFail(apiKey: string, uuid: Option<string>, proxy: Option<Proxy>, execute: Request -> Reply)
    ensures Validation(Some("collection"), None, uuid).Pass? ==>
      UpdateResult(apiKey, "collection", uuid, CollectionUpdateData(None), proxy, execute) == Failure(NullPointer)
    ensures Validation(Some("token"), None, uuid).Pass? ==>
      UpdateResult(apiKey, "token", uuid, TokenUpdateData(TagList(None)), proxy, execute) == Failure(NullPointer)
  {
  }

  // ===========================================================================
  // The static proxy slot and the entry points

  /** The class's static state: the proxy every entry point forwards. */
  class Api {
    var proxy: Option<Proxy>

    /** The slot starts out null. */
    constructor ()
      ensures proxy.None?
    {
      proxy := None;
    }

    /** `setProxy`. */
    method SetProxy(p: Option<Proxy>)
      modifies this
      ensures proxy == p
    {
      proxy := p;
    }

    /** `unsetProxy`. */
    method UnsetProxy()
      modifies this
      ensures proxy.None?
    {
      proxy := None;
    }

    /** `createCollection`. */
    method CreateCollection(apiKey: string, name: Option<string>, offline: bool,
                            execute: Request -> Reply, parse: JsonParser) returns (r: Result<Object, Error>)
      ensures r == CreateResult(apiKey, "collection", Some(CollectionData(name, offline)), proxy, execute, parse)
    {
      r := CreateObject(apiKey, "collection", Some(CollectionData(name, offline)), proxy, execute, parse);
    }

    /** `updateCollection`. */
    method UpdateCollection(apiKey: string, uuid: Option<string>, name: Option<string>,
                            execute: Request -> Reply) returns (r: Result<Object, Error>)
      ensures r == UpdateResult(apiKey, "collection", uuid, CollectionUpdateData(name), proxy, execute)
    {
      r := UpdateObject(apiKey, "collection", uuid, CollectionUpdateData(name), proxy, execute);
    }

    /** `createItem`. */
    method CreateItem(apiKey: string, collection: Option<string>, name: Option<string>, url: Option<string>,
                      custom: Option<string>, trackable: Option<string>, content: Option<string>,
                      tags: Option<seq<string>>, execute: Request -> Reply, parse: JsonParser)
      returns (r: Result<Object, Error>)
      ensures r == CreateResult(apiKey, "item",
                    Some(ItemData(collection, name, url, custom, trackable, content, TagList(tags))),
                    proxy, execute, parse)
    {
      var parsedTags := ParseTagList(tags);
      var data := ItemData(collection, name, url, custom, trackable, content, parsedTags);
      r := CreateObject(apiKey, "item", Some(data), proxy, execute, parse);
    }

    /** `updateItem`: its `url` argument is not sent. */
    method UpdateItem(apiKey: string, uuid: Option<string>, name: Option<string>, url: Option<string>,
                      custom: Option<string>, trackable: Option<string>, content: Option<string>,
                      tags: Option<seq<string>>, execute: Request -> Reply) returns (r: Result<Object, Error>)
      ensures r == UpdateResult(apiKey, "item", uuid,
                    Some(ItemUpdateData(name, custom, trackable, content, TagList(tags))), proxy, execute)
    {
      var parsedTags := ParseTagList(tags);
      var data := ItemUpdateData(name, custom, trackable, content, parsedTags);
      r := UpdateObject(apiKey, "item", uuid, Some(data), proxy, execute);
    }

    /** `createImage`: the file with the item's URL as its only text part. */
    method CreateImage(apiKey: string, item: Option<string>, filename: string,
                       execute: Request -> Reply, parse: JsonParser) returns (r: Result<Object, Error>)
      ensures r == CreateMultipartResult(apiKey, "image", filename, Some(ImageData(item)), ["item"], proxy, execute, parse)
    {
      r := CreateObjectMultipart(apiKey, "image", filename, Some(ImageData(item)), ["item"], proxy, execute, parse);
    }

    /** `updateImage`: the file, with null data. */
    method UpdateImage(apiKey: string, uuid: Option<string>, filename: string,
                       execute: Request -> Reply, parse: JsonParser) returns (r: Result<Object, Error>)
      ensures r == UpdateMultipartResult(apiKey, "image", uuid, filename, None, proxy, execute, parse)
    {
      r := UpdateObjectMultipart(apiKey, "image", uuid, filename, None, proxy, execute, parse);
    }

    /** `createToken`. */
    method CreateToken(apiKey: string, collection: Option<string>, tags: Option<seq<string>>,
                       execute: Request -> Reply, parse: JsonParser) returns (r: Result<Object, Error>)
      ensures r == CreateResult(apiKey, "token", Some(TokenData(collection, TagList(tags))), proxy, execute, parse)
    {
      var parsedTags := ParseTagList(tags);
      r := CreateObject(apiKey, "token", Some(TokenData(collection, parsedTags)), proxy, execute, parse);
    }

    /** `updateToken`. */
    method UpdateToken(apiKey: string, uuid: Option<string>, tags: Option<seq<string>>,
                       execute: Request -> Reply) returns (r: Result<Object, Error>)
      ensures r == UpdateResult(apiKey, "token", uuid, TokenUpdateData(TagList(tags)), proxy, execute)
    {
      var parsedTags := ParseTagList(tags);
      r := UpdateObject(apiKey, "token", uuid, TokenUpdateData(parsedTags), proxy, execute);
    }

    /** `createMedia`: the file alone, with null data. */
    method CreateMedia(apiKey: string, filename: string, execute: Request -> Reply, parse: JsonParser)
      returns (r: Result<Object, Error>)
      ensures r == CreateMultipartResult(apiKey, "media", filename, None, [], proxy, execute, parse)
    {
      r := CreateObjectMultipart(apiKey, "media", filename, None, [], proxy, execute, parse);
    }

    /** `createVideoMedia`: the name is derived before anything is validated. */
    method CreateVideoMedia(apiKey: string, url: Option<string>, name: Option<string>,
                            execute: Request -> Reply, parse: JsonParser) returns (r: Result<Object, Error>)
      ensures r == (var videoName :- VideoName(url, name);
                    CreateResult(apiKey, "media", Some(VideoMediaData(videoName, url)), proxy, execute, parse))
    {
      var videoName: string;
      if name.Some? {
        videoName := name.value;
      } else {
        if url.None? {
          return Failure(NullPointer);
        }
        var splitUrl := JavaSplit(url.value, '/');
        if |splitUrl| - 1 < 0 {
          return Failure(IndexOutOfBounds(|splitUrl| - 1));
        }
        videoName := splitUrl[|splitUrl| - 1];
      }
      r := CreateObject(apiKey, "media", Some(VideoMediaData(videoName, url)), proxy, execute, parse);
    }

    /** `createTag`. */
    method CreateTag(apiKey: string, collection: Option<string>, name: Option<string>,
                     execute: Request -> Reply, parse: JsonParser) returns (r: Result<Object, Error>)
      ensures r == CreateResult(apiKey, "tag", Some(NamedInCollection(collection, name)), proxy, execute, parse)
    {
      r := CreateObject(apiKey, "tag", Some(NamedInCollection(collection, name)), proxy, execute, parse);
    }

    /** `createApp`. */
    method CreateApp(apiKey: string, collection: Option<string>, name: Option<string>,
                     execute: Request -> Reply, parse: JsonParser) returns (r: Result<Object, Error>)
      ensures r == CreateResult(apiKey, "app", Some(NamedInCollection(collection, name)), proxy, execute, parse)
    {
      r := CreateObject(apiKey, "app", Some(NamedInCollection(collection, name)), proxy, execute, parse);
    }

    /** `createBundle`. */
    method CreateBundle(apiKey: string, collection: Option<string>, app: Option<string>, version: Option<string>,
                        tag: Option<string>, execute: Request -> Reply, parse: JsonParser)
      returns (r: Result<Object, Error>)
      ensures r == CreateResult(apiKey, "collectionbundle", Some(BundleData(collection, app, version, tag)),
                                proxy, execute, parse)
    {
      r := CreateObject(apiKey, "collectionbundle", Some(BundleData(collection, app, version, tag)), proxy, execute, parse);
    }

    /** `getCollectionsCount`. */
    method GetCollectionsCount(apiKey: string, filter: Option<Object>, order: seq<string>, execute: Request -> Reply, parse: JsonParser)
      returns (r: Result<int, Error>)
      requires filter.Some? ==> Enumerates(order, filter.value.Keys)
      ensures r == CountResult(apiKey, "collection", filter, order, proxy, execute, parse)
    {
      r := CountObjectsInList(apiKey, "collection", filter, order, proxy, execute, parse);
    }

    /** `getCollectionList`. */
    method GetCollectionList(apiKey: string, limit: int, offset: int, filter: Option<Object>, order: seq<string>,
      execute: Request -> Reply, parse: JsonParser) returns (r: Result<seq<Object>, Error>)
      requires filter.Some? ==> Enumerates(order, filter.value.Keys)
      ensures r == ListResult(apiKey, "collection", limit, offset, filter, order, proxy, execute, parse)
    {
      r := GetObjectList(apiKey, "collection", limit, offset, filter, order, proxy, execute, parse);
    }

    /** `getCollection`. */
    method GetCollection(apiKey: string, uuid: Option<string>, execute: Request -> Reply, parse: JsonParser) returns (r: Result<Object, Error>)
      ensures r == GetResult(apiKey, "collection", uuid, proxy, execute, parse)
    {
      r := GetObject(apiKey, "collection", uuid, proxy, execute, parse);
    }

    /** `deleteCollection`. */
    method DeleteCollection(apiKey: string, uuid: Option<string>, execute: Request -> Reply) returns (r: Result<Object, Error>)
      ensures r == DeleteResult(apiKey, "collection", uuid, proxy, execute)
    {
      r := DeleteObject(apiKey, "collection", uuid, proxy, execute);
    }

    /** `getItemsCount`. */
    method GetItemsCount(apiKey: string, filter: Option<Object>, order: seq<string>, execute: Request -> Reply, parse: JsonParser)
      returns (r: Result<int, Error>)
      requires filter.Some? ==> Enumerates(order, filter.value.Keys)
      ensures r == CountResult(apiKey, "item", filter, order, proxy, execute, parse)
    {
      r := CountObjectsInList(apiKey, "item", filter, order, proxy, execute, parse);
    }

    /** `getItemList`. */
    method GetItemList(apiKey: string, limit: int, offset: int, filter: Option<Object>, order: seq<string>,
      execute: Request -> Reply, parse: JsonParser) returns (r: Result<seq<Object>, Error>)
      requires filter.Some? ==> Enumerates(order, filter.value.Keys)
      ensures r == ListResult(apiKey, "item", limit, offset, filter, order, proxy, execute, parse)
    {
      r := GetObjectList(apiKey, "item", limit, offset, filter, order, proxy, execute, parse);
    }

    /** `getItem`. */
    method GetItem(apiKey: string, uuid: Option<string>, execute: Request -> Reply, parse: JsonParser) returns (r: Result<Object, Error>)
      ensures r == GetResult(apiKey, "item", uuid, proxy, execute, parse)
    {
      r := GetObject(apiKey, "item", uuid, proxy, execute, parse);
    }

    /** `deleteItem`. */
    method DeleteItem(apiKey: string, uuid: Option<string>, execute: Request -> Reply) returns (r: Result<Object, Error>)
      ensures r == DeleteResult(apiKey, "item", uuid, proxy, execute)
    {
      r := DeleteObject(apiKey, "item", uuid, proxy, execute);
    }

    /** `getImagesCount`. */
    method GetImagesCount(apiKey: string, filter: Option<Object>, order: seq<string>, execute: Request -> Reply, parse: JsonParser)
      returns (r: Result<int, Error>)
      requires filter.Some? ==> Enumerates(order, filter.value.Keys)
      ensures r == CountResult(apiKey, "image", filter, order, proxy, execute, parse)
    {
      r := CountObjectsInList(apiKey, "image", filter, order, proxy, execute, parse);
    }

    /** `getImageList`. */
    method GetImageList(apiKey: string, limit: int, offset: int, filter: Option<Object>, order: seq<string>,
      execute: Request -> Reply, parse: JsonParser) returns (r: Result<seq<Object>, Error>)
      requires filter.Some? ==> Enumerates(order, filter.value.Keys)
      ensures r == ListResult(apiKey, "image", limit, offset, filter, order, proxy, execute, parse)
    {
      r := GetObjectList(apiKey, "image", limit, offset, filter, order, proxy, execute, parse);
    }

    /** `getImage`. */
    method GetImage(apiKey: string, uuid: Option<string>, execute: Request -> Reply, parse: JsonParser) returns (r: Result<Object, Error>)
      ensures r == GetResult(apiKey, "image", uuid, proxy, execute, parse)
    {
      r := GetObject(apiKey, "image", uuid, proxy, execute, parse);
    }

    /** `deleteImage`. */
    method DeleteImage(apiKey: string, uuid: Option<string>, execute: Request -> Reply) returns (r: Result<Object, Error>)
      ensures r == DeleteResult(apiKey, "image", uuid, proxy, execute)
    {
      r := DeleteObject(apiKey, "image", uuid, proxy, execute);
    }

    /** `getTokensCount`. */
    method GetTokensCount(apiKey: string, filter: Option<Object>, order: seq<string>, execute: Request -> Reply, parse: JsonParser)
      returns (r: Result<int, Error>)
      requires filter.Some? ==> Enumerates(order, filter.value.Keys)
      ensures r == CountResult(apiKey, "token", filter, order, proxy, execute, parse)
    {
      r := CountObjectsInList(apiKey, "token", filter, order, proxy, execute, parse);
    }

    /** `getTokenList`. */
    method GetTokenList(apiKey: string, limit: int, offset: int, filter: Option<Object>, order: seq<string>,
      execute: Request -> Reply, parse: JsonParser) returns (r: Result<seq<Object>, Error>)
      requires filter.Some? ==> Enumerates(order, filter.value.Keys)
      ensures r == ListResult(apiKey, "token", limit, offset, filter, order, proxy, execute, parse)
    {
      r := GetObjectList(apiKey, "token", limit, offset, filter, order, proxy, execute, parse);
    }

    /** `deleteToken`. */
    method DeleteToken(apiKey: string, uuid: Option<string>, execute: Request -> Reply) returns (r: Result<Object, Error>)
      ensures r == DeleteResult(apiKey, "token", uuid, proxy, execute)
    {
      r := DeleteObject(apiKey, "token", uuid, proxy, execute);
    }

    /** `getMediaCount`. */
    method GetMediaCount(apiKey: string, filter: Option<Object>, order: seq<string>, execute: Request -> Reply, parse: JsonParser)
      returns (r: Result<int, Error>)
      requires filter.Some? ==> Enumerates(order, filter.value.Keys)
      ensures r == CountResult(apiKey, "media", filter, order, proxy, execute, parse)
    {
      r := CountObjectsInList(apiKey, "media", filter, order, proxy, execute, parse);
    }

    /** `getMediaList`. */
    method GetMediaList(apiKey: string, limit: int, offset: int, filter: Option<Object>, order: seq<string>,
      execute: Request -> Reply, parse: JsonParser) returns (r: Result<seq<Object>, Error>)
      requires filter.Some? ==> Enumerates(order, filter.value.Keys)
      ensures r == ListResult(apiKey, "media", limit, offset, filter, order, proxy, execute, parse)
    {
      r := GetObjectList(apiKey, "media", limit, offset, filter, order, proxy, execute, parse);
    }

    /** `getMedia`. */
    method GetMedia(apiKey: string, uuid: Option<string>, execute: Request -> Reply, parse: JsonParser) returns (r: Result<Object, Error>)
      ensures r == GetResult(apiKey, "media", uuid, proxy, execute, parse)
    {
      r := GetObject(apiKey, "media", uuid, proxy, execute, parse);
    }

    /** `deleteMedia`. */
    method DeleteMedia(apiKey: string, uuid: Option<string>, execute: Request -> Reply) returns (r: Result<Object, Error>)
      ensures r == DeleteResult(apiKey, "media", uuid, proxy, execute)
    {
      r := DeleteObject(apiKey, "media", uuid, proxy, execute);
    }

    /** `getTagsCount`. */
    method GetTagsCount(apiKey: string, filter: Option<Object>, order: seq<string>, execute: Request -> Reply, parse: JsonParser)
      returns (r: Result<int, Error>)
      requires filter.Some? ==> Enumerates(order, filter.value.Keys)
      ensures r == CountResult(apiKey, "tag", filter, order, proxy, execute, parse)
    {
      r := CountObjectsInList(apiKey, "tag", filter, order, proxy, execute, parse);
    }

    /** `getTagList`. */
    method GetTagList(apiKey: string, limit: int, offset: int, filter: Option<Object>, order: seq<string>,
      execute: Request -> Reply, parse: JsonParser) returns (r: Result<seq<Object>, Error>)
      requires filter.Some? ==> Enumerates(order, filter.value.Keys)
      ensures r == ListResult(apiKey, "tag", limit, offset, filter, order, proxy, execute, parse)
    {
      r := GetObjectList(apiKey, "tag", limit, offset, filter, order, proxy, execute, parse);
    }

    /** `getTag`. */
    method GetTag(apiKey: string, uuid: Option<string>, execute: Request -> Reply, parse: JsonParser) returns (r: Result<Object, Error>)
      ensures r == GetResult(apiKey, "tag", uuid, proxy, execute, parse)
    {
      r := GetObject(apiKey, "tag", uuid, proxy, execute, parse);
    }

    /** `deleteTag`. */
    method DeleteTag(apiKey: string, uuid: Option<string>, execute: Request -> Reply) returns (r: Result<Object, Error>)
      ensures r == DeleteResult(apiKey, "tag", uuid, proxy, execute)
    {
      r := DeleteObject(apiKey, "tag", uuid, proxy, execute);
    }

    /** `getAppsCount`: apps take no filter. */
    method GetAppsCount(apiKey: string, execute: Request -> Reply, parse: JsonParser) returns (r: Result<int, Error>)
      ensures r == CountResult(apiKey, "app", None, [], proxy, execute, parse)
    {
      r := CountObjectsInList(apiKey, "app", None, [], proxy, execute, parse);
    }

    /** `getAppList`: apps take no filter. */
    method GetAppList(apiKey: string, limit: int, offset: int, execute: Request -> Reply, parse: JsonParser)
      returns (r: Result<seq<Object>, Error>)
      ensures r == ListResult(apiKey, "app", limit, offset, None, [], proxy, execute, parse)
    {
      r := GetObjectList(apiKey, "app", limit, offset, None, [], proxy, execute, parse);
    }

    /** `getApp`. */
    method GetApp(apiKey: string, uuid: Option<string>, execute: Request -> Reply, parse: JsonParser) returns (r: Result<Object, Error>)
      ensures r == GetResult(apiKey, "app", uuid, proxy, execute, parse)
    {
      r := GetObject(apiKey, "app", uuid, proxy, execute, parse);
    }

    /** `deleteApp`. */
    method DeleteApp(apiKey: string, uuid: Option<string>, execute: Request -> Reply) returns (r: Result<Object, Error>)
      ensures r == DeleteResult(apiKey, "app", uuid, proxy, execute)
    {
      r := DeleteObject(apiKey, "app", uuid, proxy, execute);
    }

    /** `getVersionsCount`. */
    method GetVersionsCount(apiKey: string, filter: Option<Object>, order: seq<string>, execute: Request -> Reply, parse: JsonParser)
      returns (r: Result<int, Error>)
      requires filter.Some? ==> Enumerates(order, filter.value.Keys)
      ensures r == CountResult(apiKey, "version", filter, order, proxy, execute, parse)
    {
      r := CountObjectsInList(apiKey, "version", filter, order, proxy, execute, parse);
    }

    /** `getVersionList`. */
    method GetVersionList(apiKey: string, limit: int, offset: int, filter: Option<Object>, order: seq<string>,
      execute: Request -> Reply, parse: JsonParser) returns (r: Result<seq<Object>, Error>)
      requires filter.Some? ==> Enumerates(order, filter.value.Keys)
      ensures r == ListResult(apiKey, "version", limit, offset, filter, order, proxy, execute, parse)
    {
      r := GetObjectList(apiKey, "version", limit, offset, filter, order, proxy, execute, parse);
    }

    /** `getVersion`. */
    method GetVersion(apiKey: string, uuid: Option<string>, execute: Request -> Reply, parse: JsonParser) returns (r: Result<Object, Error>)
      ensures r == GetResult(apiKey, "version", uuid, proxy, execute, parse)
    {
      r := GetObject(apiKey, "version", uuid, proxy, execute, parse);
    }

    /** `getBundlesCount`. */
    method GetBundlesCount(apiKey: string, filter: Option<Object>, order: seq<string>, execute: Request -> Reply, parse: JsonParser)
      returns (r: Result<int, Error>)
      requires filter.Some? ==> Enumerates(order, filter.value.Keys)
      ensures r == CountResult(apiKey, "collectionbundle", filter, order, proxy, execute, parse)
    {
      r := CountObjectsInList(apiKey, "collectionbundle", filter, order, proxy, execute, parse);
    }

    /** `getBundleList`. */
    method GetBundleList(apiKey: string, limit: int, offset: int, filter: Option<Object>, order: seq<string>,
      execute: Request -> Reply, parse: JsonParser) returns (r: Result<seq<Object>, Error>)
      requires filter.Some? ==> Enumerates(order, filter.value.Keys)
      ensures r == ListResult(apiKey, "collectionbundle", limit, offset, filter, order, proxy, execute, parse)
    {
      r := GetObjectList(apiKey, "collectionbundle", limit, offset, filter, order, proxy, execute, parse);
    }

    /** `getBundle`. */
    method GetBundle(apiKey: string, uuid: Option<string>, execute: Request -> Reply, parse: JsonParser) returns (r: Result<Object, Error>)
      ensures r == GetResult(apiKey, "collectionbundle", uuid, proxy, execute, parse)
    {
      r := GetObject(apiKey, "collectionbundle", uuid, proxy, execute, parse);
    }

    /** `deleteBundle`. */
    method DeleteBundle(apiKey: string, uuid: Option<string>, execute: Request -> Reply) returns (r: Result<Object, Error>)
      ensures r == DeleteResult(apiKey, "collectionbundle", uuid, proxy, execute)
    {
      r := DeleteObject(apiKey, "collectionbundle", uuid, proxy, execute);
    }
  }
}
