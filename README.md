# JCraftAR client core, modelled in Dafny

JCraftAR is a Java client for the CraftAR (Catchoom) visual recognition
service. This project models its core.

- **Commons.** The generic resource gateway: request validation (`validate`),
  canonical URL construction (`getUrl`), the proxied, TLS-pinned transport,
  response validation (`validateResponse`), the rewriting of reference URLs in
  returned objects (`parseObject`), and the list, count, get, create (JSON and
  multipart), update (JSON and multipart) and delete operations.
- **Management.** The process-wide proxy slot with `setProxy`/`unsetProxy`,
  `getObjectUrl`, the payload builder of every create and update operation,
  and every per-resource wrapper, each shown to forward to the right gateway
  operation with the right resource type.
- **Proxy.** The proxy value, whether it is authenticated, and the host and
  credentials it hands to the HTTP client.
- **SearchParameters and SyncParameters.** Mutable parameter objects with
  chaining setters and their `getOptionalsAsJSON`.
- **Recognition.** Its own proxy slot, the in-place grayscale conversion of
  the query image, the multipart search request (its parts in order), and the
  form-encoded sync request (its pairs in order), each with its error handling.

## How the model is built

- **Exceptions.** A Java method that may throw returns a `Result`, or an
  `Outcome` when it returns `void`. `JavaLang.Error` names each exception that
  can escape.
- **Null.** A reference that may be null is an `Option`.
- **JSON.** A `JSONObject` is a value of type `map<string, Json>`. Every object
  the source mutates (`parseObject`, the payload builders) is fresh or
  discarded by its caller, so no aliasing is lost.
- **Things outside the library.** Three inputs are parameters:
  - the iteration order of `keySet()`, required to list every key once;
  - the HTTP exchange, a function from `Http.Request` to `Http.Reply`;
  - JSON text parsing.
- **Gateway operations.** Each is a method proved equal to a specification
  function of the inputs and of the server's reply. The properties the source
  promises are lemmas about those functions.
- **Loops.** The loops are kept as loops: validation, the filter query,
  rewriting reference arrays, the list, the multipart text parts, the tag
  URLs, the sync form pairs and the pixel loops.
  - The validation loop is proved against membership in the allowed types
    scanned so far.
  - The two pixel loops are proved pixel by pixel against `GrayPixel`.
  - Every other loop is proved against a prefix-recursive function.
- **Static state.** `Management` and `Recognition` keep their static `PROXY`
  slot. Each class becomes a Dafny class `Api` whose single field is that
  slot. Its wrappers read the field, and `SetProxy`/`UnsetProxy` write it.
- **Parameter objects.** The parameter classes are Dafny classes with the
  same fields. Each setter is proved to change its own field only and to
  return the receiver.
- **Pixels.** A pixel is the 32-bit pattern of Java's `int`. Java's shifts and
  masks become the same operations on `bv32`. Arithmetic `>>` followed by
  `& 0xff` matches the logical shift. The channel sum is at most 765, so the
  unsigned division is Java's division.

### Where the code differs from its documented intent

The comment at `Commons.java:99` says reference rewriting sets the uuid in
place of the API URI. The code does something else, and this model follows
the code:

- `parseObject` takes piece `length - 2` of `uri.split("/")`. Java's `split`
  drops the empty piece after the trailing slash, so a URI such as
  `/api/v0/collection/<uuid>/` yields `collection`, the resource TYPE
  (`Commons.SegmentOfResourceUri`, `Management.ObjectUrlRewritesToType`).
- A bare identifier splits into one piece. Rewriting it throws
  `ArrayIndexOutOfBoundsException` with index -1
  (`Commons.SegmentOfBareIdentifier`). Rewriting an already rewritten value
  therefore fails (`Commons.SegmentNotIdempotent`).

Some other behaviours of the code are also kept as written:

- `updateItem` ignores its `url` argument.
- `updateImage` always throws, because it passes null data, whose
  `toString()` is then called.
- A null name is absent from a create payload, because org.json's
  `put(key, null)` removes the key.
- `sync` never uses the proxy slot.
- Neither recognition client pins TLS.

## Model

| member | source | states |
|---|---|---|
| JavaLang.DecimalString | src/main/java/com/noxwizard/jcraftar/Commons.java:136 | the text of an int is non-empty, all digits for a non-negative value and starts with '-' for a negative one |
| JavaLang.DigitsRoundTrip | src/main/java/com/noxwizard/jcraftar/Commons.java:136 | reading the decimal digits of a number back gives the number |
| JavaLang.DecimalStringInjective | src/main/java/com/noxwizard/jcraftar/Commons.java:136 | different numbers print differently, so a limit or offset is sent unambiguously |
| JavaLang.JavaSplit | src/main/java/com/noxwizard/jcraftar/Commons.java:103 | `split("/")` returns the string itself when it has no slash, and no piece ever contains a slash |
| JavaLang.JoinRawSplit | src/main/java/com/noxwizard/jcraftar/Commons.java:103 | joining the split pieces with the separator gives the original string back |
| JavaLang.StripTrailingEmpty | src/main/java/com/noxwizard/jcraftar/Commons.java:103 | the split result is a prefix of the raw pieces, its last piece is non-empty, and only empty pieces were dropped |
| JavaLang.TrailingSeparatorSplit | src/main/java/com/noxwizard/jcraftar/Commons.java:103 | a string ending in `p/t/u/` splits into the pieces of `p` and then `t`, `u`: the trailing slash leaves no piece |
| JavaLang.LastPieceSplit | src/main/java/com/noxwizard/jcraftar/Management.java:593-594 | a string ending in `/n` has `n` as the last piece of its split |
| OrgJson.GetString | src/main/java/com/noxwizard/jcraftar/Commons.java:103 | `getString` succeeds exactly when the key holds a string, returns it, and otherwise throws a JSONException |
| OrgJson.GetJsonArray | src/main/java/com/noxwizard/jcraftar/Commons.java:111 | `getJSONArray` succeeds exactly when the key holds an array, returns it, and otherwise throws a JSONException |
| OrgJson.GetJsonObject | src/main/java/com/noxwizard/jcraftar/Commons.java:84 | `getJSONObject` succeeds exactly when the key holds an object, returns it, and otherwise throws a JSONException |
| OrgJson.GetInt | src/main/java/com/noxwizard/jcraftar/Commons.java:216 | `getInt` succeeds exactly when the key holds an integer, returns it, and otherwise throws a JSONException |
| OrgJson.ElementString | src/main/java/com/noxwizard/jcraftar/Commons.java:113 | `array.getString(i)` succeeds exactly on a string element and returns it |
| OrgJson.ElementObject | src/main/java/com/noxwizard/jcraftar/Commons.java:179 | `array.getJSONObject(i)` succeeds exactly on an object element and returns it |
| Proxies.NewProxy | src/main/java/com/noxwizard/jcraftar/Proxy.java:20-25 | the four-argument constructor keeps every field, and the proxy is authenticated iff a user or a password is given |
| Proxies.NewAnonymousProxy | src/main/java/com/noxwizard/jcraftar/Proxy.java:27-32 | the two-argument constructor leaves user and password null, so the proxy is not authenticated and has no credentials |
| Proxies.Proxy.HttpProxy | src/main/java/com/noxwizard/jcraftar/Proxy.java:50-53 | the proxy host is the configured host and port |
| Proxies.Proxy.CredentialsProvider | src/main/java/com/noxwizard/jcraftar/Proxy.java:59-68 | credentials exist iff the proxy is authenticated, scoped to its host and port and carrying its user and password |
| Commons.Validation | src/main/java/com/noxwizard/jcraftar/Commons.java:42-78 | validation passes iff the type (when given) is allowed, the data (when given) is non-empty and the uuid (when given) is 16 lower-case hex digits for a token and 32 otherwise; a failure is a CatchoomException |
| Commons.ValidationOrder | src/main/java/com/noxwizard/jcraftar/Commons.java:54-65 | the type is checked first ("Wrong object_type: t"), then the data ("Empty data") |
| Commons.Validate | src/main/java/com/noxwizard/jcraftar/Commons.java:42-78 | the loop over the allowed types gives exactly the validation verdict |
| Commons.FilterQuerySucceeds | src/main/java/com/noxwizard/jcraftar/Commons.java:141-145 | the filter query builds iff every filter key holds a string |
| Commons.FilterQueryAppend | src/main/java/com/noxwizard/jcraftar/Commons.java:141-145 | the query of a longer key sequence is the query of the prefix followed by that of the rest, and a failure stops it |
| Commons.FilterQuerySingle | src/main/java/com/noxwizard/jcraftar/Commons.java:143 | one filter key adds `&key=value` |
| Commons.AppendFilter | src/main/java/com/noxwizard/jcraftar/Commons.java:141-145 | the filter loop appends the filter query to the url, or fails as `getString` does |
| Commons.GetUrl | src/main/java/com/noxwizard/jcraftar/Commons.java:121-147 | the url is the base url, then `&limit`/`&offset` when positive, then the filter pairs in key order |
| Commons.CountPagination | src/main/java/com/noxwizard/jcraftar/Commons.java:191 | counting asks for one object: the pagination is `&limit=1` and no offset |
| Commons.SingleResourceUrl | src/main/java/com/noxwizard/jcraftar/Commons.java:121-134 | without pagination and filter the url is exactly the base url of the resource |
| Commons.CountUrl | src/main/java/com/noxwizard/jcraftar/Commons.java:186-191 | the count url is the base url, `&limit=1` and the filter query |
| Commons.ClientTransport | src/main/java/com/noxwizard/jcraftar/Commons.java:155-161 | the management client pins TLS, uses the proxy host iff a proxy is set and its credentials iff it is authenticated |
| Commons.ValidateResponse | src/main/java/com/noxwizard/jcraftar/Commons.java:80-92 | a response passes iff it parses and has no `error` key; an unparsable response becomes a CatchoomException with the parser's message |
| Commons.ErrorEnvelopeMessage | src/main/java/com/noxwizard/jcraftar/Commons.java:83-86 | an error envelope fails with exactly its `error.message` |
| Commons.Segment | src/main/java/com/noxwizard/jcraftar/Commons.java:103-104 | taking the second-to-last split piece succeeds iff there are at least two pieces, and otherwise fails with the index that was out of bounds |
| Commons.SegmentOfResourceUri | src/main/java/com/noxwizard/jcraftar/Commons.java:103-104 | on a resource uri `…/type/uuid/` the rewrite yields the TYPE, not the uuid |
| Commons.SegmentOfBareIdentifier | src/main/java/com/noxwizard/jcraftar/Commons.java:103-104 | a bare identifier (no slash) makes the rewrite throw with index -1 |
| Commons.SegmentNotIdempotent | src/main/java/com/noxwizard/jcraftar/Commons.java:103-104 | rewriting the result of a rewrite throws: the rewrite is not idempotent |
| Commons.RewriteElementsSucceeds | src/main/java/com/noxwizard/jcraftar/Commons.java:111-115 | an array is rewritten iff every element is a string with at least two pieces |
| Commons.RewriteElementsResult | src/main/java/com/noxwizard/jcraftar/Commons.java:111-115 | the rewritten array has the same length and holds each element's second-to-last piece at its index |
| Commons.RewriteKeySpec | src/main/java/com/noxwizard/jcraftar/Commons.java:101-106 | rewriting one key succeeds iff its value is rewritable, changes only that key and keeps the key set |
| Commons.RewriteKeysSpec | src/main/java/com/noxwizard/jcraftar/Commons.java:100-117 | rewriting a list of keys succeeds iff every present one is rewritable; the listed keys are rewritten and all others are unchanged |
| Commons.ParsedObjectSpec | src/main/java/com/noxwizard/jcraftar/Commons.java:94-119 | `parseObject` succeeds iff every reference and reference-list field is rewritable; it drops `resource_uri`, rewrites those fields and keeps every other field |
| Commons.RewriteArray | src/main/java/com/noxwizard/jcraftar/Commons.java:111-115 | the in-array loop computes exactly the rewritten array or its first failure |
| Commons.ParseObject | src/main/java/com/noxwizard/jcraftar/Commons.java:94-119 | the two key loops compute exactly the parsed object or its first failure |
| Commons.PreparedUrlSpec | src/main/java/com/noxwizard/jcraftar/Commons.java:254-258 | preparing a request succeeds iff validation passes and the filter query builds; the url is base, pagination and filter; a validation failure is returned as is |
| Commons.Prepare | src/main/java/com/noxwizard/jcraftar/Commons.java:221-225 | validation followed by `getUrl` computes exactly the prepared url |
| Commons.CheckedResponse | src/main/java/com/noxwizard/jcraftar/Commons.java:163-176 | a reply is accepted iff the server answered and the body passes response validation; an unreachable server is an IOException |
| Commons.CountFromReply | src/main/java/com/noxwizard/jcraftar/Commons.java:214-216 | a count succeeds exactly with the integer at `meta.total_count` of an accepted response: any success is that integer, and an accepted response holding an integer there yields it |
| Commons.StatusFromReply | src/main/java/com/noxwizard/jcraftar/Commons.java:358-360 | the update and delete result is `{statusCode, message}` of the status line, whatever the body |
| Commons.ParseEachSpec | src/main/java/com/noxwizard/jcraftar/Commons.java:177-181 | the list succeeds iff every element is an object that parses, and holds the parsed objects in order |
| Commons.InvalidRequestNeverSent | src/main/java/com/noxwizard/jcraftar/Commons.java:254-369 | a create or update whose validation fails returns that CatchoomException, whatever the server would answer |
| Commons.InvalidReadNeverSent | src/main/java/com/noxwizard/jcraftar/Commons.java:149-410 | a list, count, get or delete whose validation fails returns that CatchoomException, whatever the server would answer |
| Commons.UpdateWithoutDataFails | src/main/java/com/noxwizard/jcraftar/Commons.java:336-404 | an update with null data passes validation and then throws a NullPointerException |
| Commons.StatusOperationsIgnoreBody | src/main/java/com/noxwizard/jcraftar/Commons.java:358-360 | a valid update returns the status code and reason of the reply |
| Commons.GetObjectList | src/main/java/com/noxwizard/jcraftar/Commons.java:149-184 | the list operation returns exactly the specified list result (loop over `objects`) |
| Commons.CountObjectsInList | src/main/java/com/noxwizard/jcraftar/Commons.java:186-219 | the count operation returns exactly the specified count result |
| Commons.GetObject | src/main/java/com/noxwizard/jcraftar/Commons.java:221-252 | the get operation returns exactly the specified result |
| Commons.CreateObject | src/main/java/com/noxwizard/jcraftar/Commons.java:254-290 | the JSON create returns exactly the specified result |
| Commons.TextPartsSpec | src/main/java/com/noxwizard/jcraftar/Commons.java:311-315 | the text parts build iff every data value is a string, and list the keys in iteration order with their values |
| Commons.BuildTextParts | src/main/java/com/noxwizard/jcraftar/Commons.java:311-315 | the `addTextBody` loop computes exactly the text parts or the first `getString` failure |
| Commons.CreateObjectMultipart | src/main/java/com/noxwizard/jcraftar/Commons.java:292-334 | the multipart create returns exactly the specified result |
| Commons.CreatePartsSpec | src/main/java/com/noxwizard/jcraftar/Commons.java:310-315 | the multipart entity is the file under `file`, then one text part per data key in iteration order |
| Commons.UpdateObject | src/main/java/com/noxwizard/jcraftar/Commons.java:336-363 | the JSON update returns exactly the specified result |
| Commons.UpdateObjectMultipart | src/main/java/com/noxwizard/jcraftar/Commons.java:365-404 | the multipart update returns exactly the specified result |
| Commons.DeleteObject | src/main/java/com/noxwizard/jcraftar/Commons.java:406-428 | the delete returns exactly the specified result |
| Management.ObjectUrlPieces | src/main/java/com/noxwizard/jcraftar/Management.java:25-27 | the split of an object url ends in the type and the uuid |
| Management.ObjectUrlRewritesToType | src/main/java/com/noxwizard/jcraftar/Management.java:25-27 | rewriting an object url built by `getObjectUrl` gives back its TYPE |
| Management.ObjectUrlInjective | src/main/java/com/noxwizard/jcraftar/Management.java:25-27 | two urls for the same type are equal only for the same identifier text |
| Management.TagUrlsSpec | src/main/java/com/noxwizard/jcraftar/Management.java:227-233 | one tag url per tag, in order |
| Management.ParseTags | src/main/java/com/noxwizard/jcraftar/Management.java:227-233 | the tag loop computes exactly the tag urls |
| Management.ParseTagList | src/main/java/com/noxwizard/jcraftar/Management.java:227-233 | null tags give no tag array, and otherwise the tag urls |
| Management.CollectionData | src/main/java/com/noxwizard/jcraftar/Management.java:92-94 | the payload holds `offline` and holds `name` exactly when the name is non-null |
| Management.CollectionUpdateData | src/main/java/com/noxwizard/jcraftar/Management.java:111-117 | the payload exists exactly when the name is non-null, and then is `{name}` |
| Management.ItemData | src/main/java/com/noxwizard/jcraftar/Management.java:212-233 | the payload always holds the collection url, and each optional field exactly when it is non-null |
| Management.ItemUpdateData | src/main/java/com/noxwizard/jcraftar/Management.java:262-281 | the payload holds each given field exactly when it is non-null, and never a url |
| Management.EmptyItemUpdateRejected | src/main/java/com/noxwizard/jcraftar/Management.java:262-282 | an item update with nothing to change is rejected with "Empty data" |
| Management.ImageData | src/main/java/com/noxwizard/jcraftar/Management.java:369-370 | the image payload is exactly the item url |
| Management.TokenData | src/main/java/com/noxwizard/jcraftar/Management.java:455-463 | the token payload holds the collection url, and the tag urls exactly when tags are given |
| Management.TokenUpdateData | src/main/java/com/noxwizard/jcraftar/Management.java:480-490 | the token update payload exists exactly when tags are given, and then is `{tags}` |
| Management.VideoName | src/main/java/com/noxwizard/jcraftar/Management.java:589-595 | the video name is the given name, and without a name or url a NullPointerException |
| Management.VideoNameFromUrl | src/main/java/com/noxwizard/jcraftar/Management.java:593-594 | without a name, the video name is the last path piece of the url |
| Management.VideoNameWithoutSlash | src/main/java/com/noxwizard/jcraftar/Management.java:593-594 | without a name, a URL with no slash is its own video name |
| Management.VideoNameTrailingSlash | src/main/java/com/noxwizard/jcraftar/Management.java:593-594 | without a name, a URL ending in `/file/` is named `file`, since the trailing slash leaves no piece |
| Management.VideoNameOfSlash | src/main/java/com/noxwizard/jcraftar/Management.java:593-594 | the url "/" has no piece and throws |
| Management.VideoMediaData | src/main/java/com/noxwizard/jcraftar/Management.java:596-601 | the video payload holds the `video` mimetype, the name and a meta object carrying the url when it is non-null |
| Management.NamedInCollection | src/main/java/com/noxwizard/jcraftar/Management.java:684-686 | the tag and app payloads hold the collection url, and the name exactly when it is non-null |
| Management.BundleData | src/main/java/com/noxwizard/jcraftar/Management.java:903-909 | the bundle payload holds the collection, version and app urls, and the tag url exactly when a tag is given |
| Management.CreatePayloadsNotEmpty | src/main/java/com/noxwizard/jcraftar/Management.java:203-235 | no create payload is empty, so a create never fails for empty data |
| Management.WrapperTypeTagsAllowed | src/main/java/com/noxwizard/jcraftar/Settings.java:20-21 | every resource type the wrappers pass is allowed, so their type check never fails |
| Management.UpdateImageAlwaysFails | src/main/java/com/noxwizard/jcraftar/Management.java:385-389 | `updateImage` passes null data and so always throws |
| Management.NullUpdatesFail | src/main/java/com/noxwizard/jcraftar/Management.java:109-119 | a collection update without a name and a token update without tags throw a NullPointerException |
| Management.Api.constructor | src/main/java/com/noxwizard/jcraftar/Management.java:15 | the proxy slot starts out null |
| Management.Api.SetProxy | src/main/java/com/noxwizard/jcraftar/Management.java:17-19 | the slot holds the given proxy |
| Management.Api.UnsetProxy | src/main/java/com/noxwizard/jcraftar/Management.java:21-23 | the slot is null again |
| Management.Api.CreateCollection | src/main/java/com/noxwizard/jcraftar/Management.java:90-96 | creates a `collection` from its payload through the current proxy slot |
| Management.Api.UpdateCollection | src/main/java/com/noxwizard/jcraftar/Management.java:109-119 | updates a `collection` with its payload (or null) through the current proxy slot |
| Management.Api.CreateItem | src/main/java/com/noxwizard/jcraftar/Management.java:203-235 | creates an `item` from its payload, tags rewritten to tag urls, through the current proxy slot |
| Management.Api.UpdateItem | src/main/java/com/noxwizard/jcraftar/Management.java:253-283 | updates an `item` with its payload, ignoring the url argument |
| Management.Api.CreateImage | src/main/java/com/noxwizard/jcraftar/Management.java:366-372 | creates an `image` by multipart with the file and the item url |
| Management.Api.UpdateImage | src/main/java/com/noxwizard/jcraftar/Management.java:385-389 | updates an `image` by multipart with null data |
| Management.Api.CreateToken | src/main/java/com/noxwizard/jcraftar/Management.java:453-465 | creates a `token` from the collection url and tag urls |
| Management.Api.UpdateToken | src/main/java/com/noxwizard/jcraftar/Management.java:478-492 | updates a `token` with its tag urls (or null) |
| Management.Api.CreateMedia | src/main/java/com/noxwizard/jcraftar/Management.java:570-574 | creates a `media` by multipart with only the file |
| Management.Api.CreateVideoMedia | src/main/java/com/noxwizard/jcraftar/Management.java:587-603 | derives the video name (or throws) and creates a `media` from the video payload |
| Management.Api.CreateTag | src/main/java/com/noxwizard/jcraftar/Management.java:682-688 | creates a `tag` from the collection url and name |
| Management.Api.CreateApp | src/main/java/com/noxwizard/jcraftar/Management.java:763-769 | creates an `app` from the collection url and name |
| Management.Api.CreateBundle | src/main/java/com/noxwizard/jcraftar/Management.java:901-911 | creates a `collectionbundle` from its payload |
| Management.Api.GetCollectionsCount | src/main/java/com/noxwizard/jcraftar/Management.java:41-44 | returns exactly the count of `collection` objects through the current proxy slot |
| Management.Api.GetCollectionList | src/main/java/com/noxwizard/jcraftar/Management.java:59-62 | returns exactly the list of `collection` objects through the current proxy slot |
| Management.Api.GetCollection | src/main/java/com/noxwizard/jcraftar/Management.java:74-77 | returns exactly the `collection` object with that identifier through the current proxy slot |
| Management.Api.DeleteCollection | src/main/java/com/noxwizard/jcraftar/Management.java:131-133 | returns exactly the deletion of that `collection` object through the current proxy slot |
| Management.Api.GetItemsCount | src/main/java/com/noxwizard/jcraftar/Management.java:148-151 | returns exactly the count of `item` objects through the current proxy slot |
| Management.Api.GetItemList | src/main/java/com/noxwizard/jcraftar/Management.java:166-169 | returns exactly the list of `item` objects through the current proxy slot |
| Management.Api.GetItem | src/main/java/com/noxwizard/jcraftar/Management.java:181-184 | returns exactly the `item` object with that identifier through the current proxy slot |
| Management.Api.DeleteItem | src/main/java/com/noxwizard/jcraftar/Management.java:295-298 | returns exactly the deletion of that `item` object through the current proxy slot |
| Management.Api.GetImagesCount | src/main/java/com/noxwizard/jcraftar/Management.java:315-318 | returns exactly the count of `image` objects through the current proxy slot |
| Management.Api.GetImageList | src/main/java/com/noxwizard/jcraftar/Management.java:335-338 | returns exactly the list of `image` objects through the current proxy slot |
| Management.Api.GetImage | src/main/java/com/noxwizard/jcraftar/Management.java:350-353 | returns exactly the `image` object with that identifier through the current proxy slot |
| Management.Api.DeleteImage | src/main/java/com/noxwizard/jcraftar/Management.java:401-404 | returns exactly the deletion of that `image` object through the current proxy slot |
| Management.Api.GetTokensCount | src/main/java/com/noxwizard/jcraftar/Management.java:419-422 | returns exactly the count of `token` objects through the current proxy slot |
| Management.Api.GetTokenList | src/main/java/com/noxwizard/jcraftar/Management.java:437-440 | returns exactly the list of `token` objects through the current proxy slot |
| Management.Api.DeleteToken | src/main/java/com/noxwizard/jcraftar/Management.java:504-507 | returns exactly the deletion of that `token` object through the current proxy slot |
| Management.Api.GetMediaCount | src/main/java/com/noxwizard/jcraftar/Management.java:522-525 | returns exactly the count of `media` objects through the current proxy slot |
| Management.Api.GetMediaList | src/main/java/com/noxwizard/jcraftar/Management.java:540-543 | returns exactly the list of `media` objects through the current proxy slot |
| Management.Api.GetMedia | src/main/java/com/noxwizard/jcraftar/Management.java:555-558 | returns exactly the `media` object with that identifier through the current proxy slot |
| Management.Api.DeleteMedia | src/main/java/com/noxwizard/jcraftar/Management.java:615-618 | returns exactly the deletion of that `media` object through the current proxy slot |
| Management.Api.GetTagsCount | src/main/java/com/noxwizard/jcraftar/Management.java:633-636 | returns exactly the count of `tag` objects through the current proxy slot |
| Management.Api.GetTagList | src/main/java/com/noxwizard/jcraftar/Management.java:651-654 | returns exactly the list of `tag` objects through the current proxy slot |
| Management.Api.GetTag | src/main/java/com/noxwizard/jcraftar/Management.java:666-669 | returns exactly the `tag` object with that identifier through the current proxy slot |
| Management.Api.DeleteTag | src/main/java/com/noxwizard/jcraftar/Management.java:700-703 | returns exactly the deletion of that `tag` object through the current proxy slot |
| Management.Api.GetAppsCount | src/main/java/com/noxwizard/jcraftar/Management.java:716-719 | returns exactly the count of `app` objects, with no filter, through the current proxy slot |
| Management.Api.GetAppList | src/main/java/com/noxwizard/jcraftar/Management.java:732-735 | returns exactly the list of `app` objects, with no filter, through the current proxy slot |
| Management.Api.GetApp | src/main/java/com/noxwizard/jcraftar/Management.java:747-750 | returns exactly the `app` object with that identifier through the current proxy slot |
| Management.Api.DeleteApp | src/main/java/com/noxwizard/jcraftar/Management.java:781-784 | returns exactly the deletion of that `app` object through the current proxy slot |
| Management.Api.GetVersionsCount | src/main/java/com/noxwizard/jcraftar/Management.java:799-802 | returns exactly the count of `version` objects through the current proxy slot |
| Management.Api.GetVersionList | src/main/java/com/noxwizard/jcraftar/Management.java:817-820 | returns exactly the list of `version` objects through the current proxy slot |
| Management.Api.GetVersion | src/main/java/com/noxwizard/jcraftar/Management.java:832-835 | returns exactly the `version` object with that identifier through the current proxy slot |
| Management.Api.GetBundlesCount | src/main/java/com/noxwizard/jcraftar/Management.java:850-853 | returns exactly the count of `collectionbundle` objects through the current proxy slot |
| Management.Api.GetBundleList | src/main/java/com/noxwizard/jcraftar/Management.java:868-871 | returns exactly the list of `collectionbundle` objects through the current proxy slot |
| Management.Api.GetBundle | src/main/java/com/noxwizard/jcraftar/Management.java:883-886 | returns exactly the `collectionbundle` object with that identifier through the current proxy slot |
| Management.Api.DeleteBundle | src/main/java/com/noxwizard/jcraftar/Management.java:923-926 | returns exactly the deletion of that `collectionbundle` object through the current proxy slot |
| DataPassing.SearchOptionals | src/main/java/com/noxwizard/jcraftar/datapassing/SearchParameters.java:93-103 | the optionals never hold color or minSize; the three flags are "true"/"false", appID is the id or "", and strategy and version are present exactly when non-null |
| DataPassing.SearchOptionalsKeys | src/main/java/com/noxwizard/jcraftar/datapassing/SearchParameters.java:95-101 | with a strategy and a version set, the optionals hold exactly the six keys |
| DataPassing.SearchOptionalsFlags | src/main/java/com/noxwizard/jcraftar/datapassing/SearchParameters.java:96-98 | each flag reads "true" exactly when it is set |
| DataPassing.SearchOptionalsIgnoreColorAndSize | src/main/java/com/noxwizard/jcraftar/datapassing/SearchParameters.java:93-103 | color and minSize do not affect the optionals |
| DataPassing.NullAndEmptyAppIdCollide | src/main/java/com/noxwizard/jcraftar/datapassing/SearchParameters.java:99 | a null appID and an empty one send the same optionals |
| DataPassing.DefaultSearchOptionals | src/main/java/com/noxwizard/jcraftar/datapassing/SearchParameters.java:12-19 | fresh parameters send false flags, an empty appID, the default strategy and the recognition API version |
| DataPassing.SearchParameters.constructor | src/main/java/com/noxwizard/jcraftar/datapassing/SearchParameters.java:12-19 | the fields start at their declared defaults |
| DataPassing.SearchParameters.SetColor | src/main/java/com/noxwizard/jcraftar/datapassing/SearchParameters.java:25-28 | sets only `color` and returns the same object |
| DataPassing.SearchParameters.SetMinSize | src/main/java/com/noxwizard/jcraftar/datapassing/SearchParameters.java:34-37 | sets only `minSize` and returns the same object |
| DataPassing.SearchParameters.SetEmbedCustom | src/main/java/com/noxwizard/jcraftar/datapassing/SearchParameters.java:43-46 | sets only `embedCustom` and returns the same object |
| DataPassing.SearchParameters.SetEmbedTracking | src/main/java/com/noxwizard/jcraftar/datapassing/SearchParameters.java:52-55 | sets only `embedTracking` and returns the same object |
| DataPassing.SearchParameters.SetBbox | src/main/java/com/noxwizard/jcraftar/datapassing/SearchParameters.java:61-64 | sets only `bbox` and returns the same object |
| DataPassing.SearchParameters.SetAppId | src/main/java/com/noxwizard/jcraftar/datapassing/SearchParameters.java:70-73 | sets only `appID` and returns the same object |
| DataPassing.SearchParameters.SetStrategy | src/main/java/com/noxwizard/jcraftar/datapassing/SearchParameters.java:79-82 | sets only `strategy` and returns the same object |
| DataPassing.SearchParameters.SetVersion | src/main/java/com/noxwizard/jcraftar/datapassing/SearchParameters.java:88-91 | sets only `version` and returns the same object |
| DataPassing.SearchParameters.OptionalsAsJson | src/main/java/com/noxwizard/jcraftar/datapassing/SearchParameters.java:93-103 | the optionals of the current fields, without color or minSize |
| DataPassing.SyncOptionals | src/main/java/com/noxwizard/jcraftar/datapassing/SyncParameters.java:32-38 | the sync optionals hold exactly `bundled` (a boolean) and `tag` (the tag or "") |
| DataPassing.SyncOptionalsInjective | src/main/java/com/noxwizard/jcraftar/datapassing/SyncParameters.java:34-36 | equal optionals mean the same bundled flag and the same tag text |
| DataPassing.SyncParameters.constructor | src/main/java/com/noxwizard/jcraftar/datapassing/SyncParameters.java:11-12 | bundled starts true and the tag null |
| DataPassing.SyncParameters.SetBundled | src/main/java/com/noxwizard/jcraftar/datapassing/SyncParameters.java:18-21 | sets only `bundled` and returns the same object |
| DataPassing.SyncParameters.SetTag | src/main/java/com/noxwizard/jcraftar/datapassing/SyncParameters.java:27-30 | sets only `tag` and returns the same object |
| DataPassing.SyncParameters.OptionalsAsJson | src/main/java/com/noxwizard/jcraftar/datapassing/SyncParameters.java:32-38 | the sync optionals of the current fields |
| Recognition.GrayPixelKeepsAlpha | src/main/java/com/noxwizard/jcraftar/Recognition.java:209-216 | the grayscale conversion keeps the alpha byte |
| Recognition.GrayPixelChannels | src/main/java/com/noxwizard/jcraftar/Recognition.java:209-216 | red, green and blue all become the integer mean of the old three, which fits in a byte |
| Recognition.GrayPixelFixesGray | src/main/java/com/noxwizard/jcraftar/Recognition.java:209-216 | a pixel that is already gray is left unchanged |
| Recognition.GrayPixelIdempotent | src/main/java/com/noxwizard/jcraftar/Recognition.java:209-216 | converting a pixel twice is converting it once |
| Recognition.ConvertToGray | src/main/java/com/noxwizard/jcraftar/Recognition.java:204-219 | without colour every pixel is replaced in place by its gray value; with colour the image is unchanged |
| Recognition.GrayColumn | src/main/java/com/noxwizard/jcraftar/Recognition.java:208-217 | the inner loop grays column x and leaves every other column unchanged |
| Recognition.SearchTransport | src/main/java/com/noxwizard/jcraftar/Recognition.java:77-84 | the search client is the management client without TLS pinning: same proxy host and credentials |
| Recognition.SearchOptionalsAreStrings | src/main/java/com/noxwizard/jcraftar/datapassing/SearchParameters.java:96-101 | every search optional is a string, so the `getString` calls of search never throw |
| Recognition.SearchPartsOrder | src/main/java/com/noxwizard/jcraftar/Recognition.java:92-99 | the search entity is the image, then the token, then one text part per optional key in iteration order |
| Recognition.SearchFailsSoft | src/main/java/com/noxwizard/jcraftar/Recognition.java:68-122 | a search always builds its entity; an unreachable server or an unparsable reply gives the empty object, and a parsed reply is returned unvalidated |
| Recognition.OptionalPairs | src/main/java/com/noxwizard/jcraftar/Recognition.java:161-164 | one form pair per optional key, in iteration order, carrying its value |
| Recognition.SyncForm | src/main/java/com/noxwizard/jcraftar/Recognition.java:157-164 | the form is token, app_id (decimal text), version, then the optional pairs |
| Recognition.SyncFormAppIdInjective | src/main/java/com/noxwizard/jcraftar/Recognition.java:159 | different app ids produce different forms |
| Recognition.SyncFailures | src/main/java/com/noxwizard/jcraftar/Recognition.java:168-180 | an unreachable server gives the empty object, while an unparsable reply escapes as a JSONException |
| Recognition.AddOptionalPairs | src/main/java/com/noxwizard/jcraftar/Recognition.java:161-164 | the optional-pair loop appends exactly the optional pairs |
| Recognition.Api.constructor | src/main/java/com/noxwizard/jcraftar/Recognition.java:37 | the proxy slot starts out null |
| Recognition.Api.SetProxy | src/main/java/com/noxwizard/jcraftar/Recognition.java:39-41 | the slot holds the given proxy |
| Recognition.Api.UnsetProxy | src/main/java/com/noxwizard/jcraftar/Recognition.java:43-45 | the slot is null again |
| Recognition.Api.Search | src/main/java/com/noxwizard/jcraftar/Recognition.java:68-122 | returns exactly the specified search result for the current proxy slot |
| Recognition.Api.SearchWithDefaults | src/main/java/com/noxwizard/jcraftar/Recognition.java:55-57 | searches with freshly created default parameters |
| Recognition.Api.Sync | src/main/java/com/noxwizard/jcraftar/Recognition.java:145-182 | returns exactly the specified sync result; the proxy slot is not used |
| Recognition.Api.SyncWithDefaults | src/main/java/com/noxwizard/jcraftar/Recognition.java:132-134 | syncs with freshly created default parameters |

## Left out

- **HTTP.** TLS pinning (`getSSLContext`) and its `NoSuchAlgorithmException`, connections, and the `User-Agent` and `content-type` headers are left out. The exchange is the `execute` parameter, which returns the status line and the body as read line by line, or `Unreachable` for an `IOException`. Every `execute` is assumed to be a deterministic function of the request.
- **URL syntax.** The request URL is not checked. `new HttpGet(url)`, `new HttpPost(url)` and `new HttpDelete(url)` parse it as a URI (`Commons.java:164-421`). An apiKey or filter value with a space, `%` or `"` makes them throw IllegalArgumentException before anything is sent. The model sends that request instead: `Error` has no such exception, and callers must supply URL-safe text.
- **JSON text.** Parsing is the `parse` parameter. Serialisation (`data.toString()` in a JSON body or a `data` text part) is left out: the request carries the object itself.
- **Key order.** The order of `keySet()` is the `order` parameter. Only its completeness and lack of duplicates are modelled.
- **Image files.** The file I/O around a search is not modelled: `saveFileContent`, the `ImageIO` read and write, restoring the original bytes in `finally`, the resize step of `prepareImage` and the `IOException` it throws before the request. The grayscale step runs on a pixel buffer (`Recognition.ConvertToGray`), and the search request names the prepared file.
- **Error printing.** `System.err` output is not modelled.
- **Null strings.** An apiKey, token, version, file name or multipart text value that is null is left out. These are plain strings here. Null type tags are not modelled either, since every wrapper passes a literal.
- **Tag elements.** A tag that is not a string is left out; tags are modelled as strings. The source calls `tag.toString()` on each element.
- **Integer width.** `getInt` coercion of numeric strings and doubles is left out, and so is the 32-bit range of `total_count`, `limit`, `offset`, a proxy port and the sync `appID`. These are unbounded integers here.
- Recognition.Api.Sync: each optional pair carries the JSON value, not the text `getString(k)` produces. Whether `getString` on the boolean `bundled` returns "true"/"false" or throws a JSONException depends on the org.json release, and that choice is not modelled.
- **Parameters interface.** The interface shared by the two parameter classes is left out. Each class has its own `OptionalsAsJson`.
- **Search strategy.** The value of `DEFAULT_SEARCH_STRATEGY` is not part of this model. It is an unspecified constant.
- **Proxy races.** A proxy change racing a call in flight is left out: calls read the slot once.
- **Accessors.** The `Proxy` getters and `ALLOWED_IMG_EXTENSIONS` are plain field reads or are unused by the core. They are not modelled separately.
