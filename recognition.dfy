/** The recognition API: the grayscale conversion applied to a query image,
    the multipart search request and the form-encoded sync request, and the
    static proxy slot (which only search uses). Both calls swallow transport
    failures and answer an empty object instead. */
module Recognition {
  import opened Wrappers
  import opened JavaLang
  import opened OrgJson
  import opened Http
  import opened Proxies
  import opened Commons
  import opened DataPassing
  import Settings

  // ===========================================================================
  // Grayscale conversion of an ARGB pixel

  function Alpha(p: bv32): bv32 { (p >> 24) & 0xff }
  function Red(p: bv32): bv32 { (p >> 16) & 0xff }
  function Green(p: bv32): bv32 { (p >> 8) & 0xff }
  function Blue(p: bv32): bv32 { p & 0xff }

  /** A pixel with its three colour channels replaced by their integer mean
      (the sum of three bytes cannot overflow, so unsigned division is Java's
      division here). */
  function GrayPixel(p: bv32): bv32 {
    var avg := (Red(p) + Green(p) + Blue(p)) / 3;
    (Alpha(p) << 24) | (avg << 16) | (avg << 8) | avg
  }

  /** The alpha byte is kept. */
  lemma GrayPixelKeepsAlpha(p: bv32)
    ensures Alpha(GrayPixel(p)) == Alpha(p)
  {
    var avg := (Red(p) + Green(p) + Blue(p)) / 3;
    assert avg <= 255;
  }

  /** The three channels all become the mean of the old ones, which fits in a
      byte. */
  lemma GrayPixelChannels(p: bv32)
    ensures var q := GrayPixel(p);
      && Red(q) == Green(q) == Blue(q) == (Red(p) + Green(p) + Blue(p)) / 3
      && Red(q) <= 255
  {
    var avg := (Red(p) + Green(p) + Blue(p)) / 3;
    assert avg <= 255;
  }

  /** A gray pixel is left as it is, so converting twice is converting once. */
  lemma GrayPixelFixesGray(p: bv32)
    requires Red(p) == Green(p) == Blue(p)
    ensures GrayPixel(p) == p
  {
  }

  lemma GrayPixelIdempotent(p: bv32)
    ensures GrayPixel(GrayPixel(p)) == GrayPixel(p)
  {
    GrayPixelChannels(p);
    GrayPixelFixesGray(GrayPixel(p));
  }

  /** The grayscale step of `prepareImage`: unless colour is kept, every pixel
      of the width-by-height buffer, indexed [x, y], is replaced in place by its
      gray value, column by column. */
  method ConvertToGray(image: array2<bv32>, color: bool)
    modifies image
    ensures color ==> forall x, y :: 0 <= x < image.Length0 && 0 <= y < image.Length1 ==>
      image[x, y] == old(image[x, y])
    ensures !color ==> forall x, y :: 0 <= x < image.Length0 && 0 <= y < image.Length1 ==>
      image[x, y] == GrayPixel(old(image[x, y]))
  {
    if !color {
      var x := 0;
      while x < image.Length0
        invariant 0 <= x <= image.Length0
        invariant forall i, j :: 0 <= i < x && 0 <= j < image.Length1 ==> image[i, j] == GrayPixel(old(image[i, j]))
        invariant forall i, j :: x <= i < image.Length0 && 0 <= j < image.Length1 ==> image[i, j] == old(image[i, j])
      {
        GrayColumn(image, x);
        x := x + 1;
      }
    }
  }

  /** The inner loop of the conversion: column x, top to bottom. */
  method GrayColumn(image: array2<bv32>, x: int)
    requires 0 <= x < image.Length0
    modifies image
    ensures forall j :: 0 <= j < image.Length1 ==> image[x, j] == GrayPixel(old(image[x, j]))
    ensures forall i, j :: 0 <= i < image.Length0 && i != x && 0 <= j < image.Length1 ==> image[i, j] == old(image[i, j])
  {
    var y := 0;
    while y < image.Length1
      invariant 0 <= y <= image.Length1
      invariant forall j :: 0 <= j < y ==> image[x, j] == GrayPixel(old(image[x, j]))
      invariant forall j :: y <= j < image.Length1 ==> image[x, j] == old(image[x, j])
      invariant forall i, j :: 0 <= i < image.Length0 && i != x && 0 <= j < image.Length1 ==> image[i, j] == old(image[i, j])
    {
      image[x, y] := GrayPixel(image[x, y]);
      y := y + 1;
    }
  }

  // ===========================================================================
  // search

  function SearchUrl(): string {
    Settings.RecognitionHostname + "/" + Settings.RecognitionApiVersion + "/search"
  }

  /** The search client: the proxy and its credentials as for the management
      calls, but without the pinned TLS configuration. */
  function SearchTransport(proxy: Option<Proxy>): (t: Transport)
    ensures t == ClientTransport(proxy).(tlsPinned := false)
  {
    match proxy
    case None => Transport(false, None, None)
    case Some(p) => Transport(false, Some(p.HttpProxy()), if p.IsAuthenticated() then p.CredentialsProvider() else None)
  }

  /** The search entity: the image, then the token, then one text part per
      optional key in iteration order. */
  function SearchParts(image: string, token: string, optionals: Object, order: seq<string>): Result<seq<Part>, Error> {
    var texts :- TextParts(optionals, order);
    Success([BinaryPart("image", image), TextPart("token", token)] + texts)
  }

  /** Every value of the search optionals is a string. */
  lemma SearchOptionalsAreStrings(s: SearchState)
    ensures forall k :: k in SearchOptionals(s) ==> SearchOptionals(s)[k].JString?
  {
  }

  /** The search entity builds whenever every optional value is a string: the
      image part, the token part, and then the optional fields with their
      string values, in iteration order. */
  lemma SearchPartsOrder(image: string, token: string, optionals: Object, order: seq<string>)
    requires Enumerates(order, optionals.Keys)
    requires forall k :: k in optionals ==> optionals[k].JString?
    ensures SearchParts(image, token, optionals, order).Success?
    ensures var parts := SearchParts(image, token, optionals, order).value;
      && |parts| == |order| + 2
      && parts[0] == BinaryPart("image", image)
      && parts[1] == TextPart("token", token)
      && forall i :: 0 <= i < |order| ==> parts[i + 2] == TextPart(order[i], optionals[order[i]].str)
  {
    TextPartsSpec(optionals, order);
    var texts := TextParts(optionals, order).value;
    var parts := [BinaryPart("image", image), TextPart("token", token)] + texts;
    forall i | 0 <= i < |order| ensures parts[i + 2] == TextPart(order[i], optionals[order[i]].str) {
      assert parts[i + 2] == texts[i];
    }
  }

  /** What `search` returns: the parsed reply, or an empty object when the
      exchange fails or the reply does not parse. The reply is not checked for
      an error envelope. */
  function SearchResult(token: string, image: string, s: SearchState, order: seq<string>,
                        proxy: Option<Proxy>, execute: Request -> Reply, parse: JsonParser): Object
  {
    match SearchParts(image, token, SearchOptionals(s), order)
    case Failure(_) => map[]
    case Success(parts) =>
      match execute(Request(Post, SearchUrl(), Multipart(parts), SearchTransport(proxy)))
      case Unreachable(_) => map[]
      case Reply(_, _, body) =>
        match parse(body)
        case Failure(_) => map[]
        case Success(o) => o
  }

  /** A search never throws once the image is prepared: every failure becomes
      the empty object, and a reply that parses is returned as it is. */
  lemma SearchFailsSoft(token: string, image: string, s: SearchState, order: seq<string>,
                        proxy: Option<Proxy>, execute: Request -> Reply, parse: JsonParser)
    requires Enumerates(order, SearchOptionals(s).Keys)
    ensures SearchParts(image, token, SearchOptionals(s), order).Success?
    ensures var request := Request(Post, SearchUrl(), Multipart(SearchParts(image, token, SearchOptionals(s), order).value),
                                   SearchTransport(proxy));
      && (execute(request).Unreachable? ==> SearchResult(token, image, s, order, proxy, execute, parse) == map[])
      && (execute(request).Reply? && parse(execute(request).body).Failure? ==>
            SearchResult(token, image, s, order, proxy, execute, parse) == map[])
      && (execute(request).Reply? && parse(execute(request).body).Success? ==>
            SearchResult(token, image, s, order, proxy, execute, parse) == parse(execute(request).body).value)
  {
    SearchOptionalsAreStrings(s);
    SearchPartsOrder(image, token, SearchOptionals(s), order);
  }

  // ===========================================================================
  // sync

  function SyncUrl(): string {
    Settings.RecognitionHostname + "/" + Settings.RecognitionApiVersion + "/sync"
  }

  /** The sync client: a default client, with no proxy. */
  const SyncTransport := Transport(false, None, None)

  /** One form pair per optional key, in iteration order. */
  function OptionalPairs(optionals: Object, order: seq<string>): (pairs: seq<(string, Json)>)
    requires forall i :: 0 <= i < |order| ==> order[i] in optionals
    ensures |pairs| == |order|
    ensures forall i :: 0 <= i < |order| ==> pairs[i] == (order[i], optionals[order[i]])
  {
    if order == [] then []
    else OptionalPairs(optionals, order[..|order| - 1]) + [(order[|order| - 1], optionals[order[|order| - 1]])]
  }

  /** The sync form: token, app_id (the decimal text of the id), version, then
      the optional pairs. */
  function SyncForm(token: string, appId: int, version: string, optionals: Object, order: seq<string>)
    : (form: seq<(string, Json)>)
    requires forall i :: 0 <= i < |order| ==> order[i] in optionals
    ensures |form| == |order| + 3
    ensures form[0] == ("token", JString(token))
    ensures form[1] == ("app_id", JString(DecimalString(appId)))
    ensures form[2] == ("version", JString(version))
    ensures forall i :: 0 <= i < |order| ==> form[i + 3] == (order[i], optionals[order[i]])
  {
    [("token", JString(token)), ("app_id", JString(DecimalString(appId))), ("version", JString(version))]
      + OptionalPairs(optionals, order)
  }

  /** The app id is sent faithfully: different ids give different forms. */
  lemma SyncFormAppIdInjective(token: string, m: int, n: int, version: string, optionals: Object, order: seq<string>)
    requires forall i :: 0 <= i < |order| ==> order[i] in optionals
    requires SyncForm(token, m, version, optionals, order) == SyncForm(token, n, version, optionals, order)
    ensures m == n
  {
    assert SyncForm(token, m, version, optionals, order)[1] == SyncForm(token, n, version, optionals, order)[1];
    DecimalStringInjective(m, n);
  }

  /** What `sync` returns: the parsed reply, or an empty object when the
      exchange fails; a reply that does not parse throws, since only I/O
      failures are caught. */
  function SyncResult(token: string, appId: int, version: string, s: SyncState, order: seq<string>,
                      execute: Request -> Reply, parse: JsonParser): Result<Object, Error>
    requires forall i :: 0 <= i < |order| ==> order[i] in SyncOptionals(s)
  {
    var form := SyncForm(token, appId, version, SyncOptionals(s), order);
    match execute(Request(Post, SyncUrl(), Form(form), SyncTransport))
    case Unreachable(_) => Success(map[])
    case Reply(_, _, body) =>
      match parse(body)
      case Failure(message) => Failure(JsonException(message))
      case Success(o) => Success(o)
  }

  /** Sync fails soft only on I/O: an unreachable server gives the empty object
      and an unparsable reply throws JSONException. */
  lemma SyncFailures(token: string, appId: int, version: string, s: SyncState, order: seq<string>,
                     execute: Request -> Reply, parse: JsonParser)
    requires forall i :: 0 <= i < |order| ==> order[i] in SyncOptionals(s)
    ensures var reply := execute(Request(Post, SyncUrl(), Form(SyncForm(token, appId, version, SyncOptionals(s), order)), SyncTransport));
      && (reply.Unreachable? ==> SyncResult(token, appId, version, s, order, execute, parse) == Success(map[]))
      && (reply.Reply? && parse(reply.body).Failure? ==>
            SyncResult(token, appId, version, s, order, execute, parse) == Failure(JsonException(parse(reply.body).error)))
  {
  }

  /** The `postParameters` loop over the optional keys. */
  method AddOptionalPairs(pairs: seq<(string, Json)>, optionals: Object, order: seq<string>)
    returns (r: seq<(string, Json)>)
    requires forall i :: 0 <= i < |order| ==> order[i] in optionals
    ensures r == pairs + OptionalPairs(optionals, order)
  {
    r := pairs;
    for i := 0 to |order|
      invariant r == pairs + OptionalPairs(optionals, order[..i])
    {
      assert order[..i + 1][..i] == order[..i];
      r := r + [(order[i], optionals[order[i]])];
    }
    assert order[..|order|] == order;
  }

  // ===========================================================================
  // The static proxy slot and the entry points

  class Api {
    var proxy: Option<Proxy>

    /** The slot starts out null. */
    constructor ()
      ensures proxy.None?
    {
      proxy := None;
    }

    /** `setProxy`. */
    method SetProxy(p: Option<Proxy>)
      modifies this
      ensures proxy == p
    {
      proxy := p;
    }

    /** `unsetProxy`. */
    method UnsetProxy()
      modifies this
      ensures proxy.None?
    {
      proxy := None;
    }

    /** `search` with its parameter object, after the image has been prepared:
        the entity is built part by part and sent through the proxy slot. */
    method Search(token: string, image: string, optionals: SearchParameters, order: seq<string>,
                  execute: Request -> Reply, parse: JsonParser) returns (r: Object)
      requires Enumerates(order, optionals.OptionalsAsJson().Keys)
      ensures r == SearchResult(token, image, optionals.State(), order, proxy, execute, parse)
    {
      var jOptionals := optionals.OptionalsAsJson();
      var texts := BuildTextParts(jOptionals, order);
      if texts.Failure? {
        return map[];
      }
      var parts := [BinaryPart("image", image), TextPart("token", token)] + texts.value;
      var reply := execute(Request(Post, SearchUrl(), Multipart(parts), SearchTransport(proxy)));
      if reply.Unreachable? {
        return map[];
      }
      var searchResult := parse(reply.body);
      if searchResult.Failure? {
        return map[];
      }
      return searchResult.value;
    }

    /** `search` without a parameter object: a fresh one, with its defaults. */
    method SearchWithDefaults(token: string, image: string, order: seq<string>,
                              execute: Request -> Reply, parse: JsonParser) returns (r: Object)
      requires Enumerates(order, SearchOptionals(DefaultSearchState).Keys)
      ensures r == SearchResult(token, image, DefaultSearchState, order, proxy, execute, parse)
    {
      var optionals := new SearchParameters();
      r := Search(token, image, optionals, order, execute, parse);
    }

    /** `sync` with its parameter object: a form built pair by pair, sent
        without the proxy. */
    method Sync(token: string, appId: int, version: string, optionals: SyncParameters, order: seq<string>,
                execute: Request -> Reply, parse: JsonParser) returns (r: Result<Object, Error>)
      requires Enumerates(order, optionals.OptionalsAsJson().Keys)
      ensures r == SyncResult(token, appId, version, optionals.State(), order, execute, parse)
    {
      var postParameters := [("token", JString(token)), ("app_id", JString(DecimalString(appId))),
                             ("version", JString(version))];
      var jOptionals := optionals.OptionalsAsJson();
      postParameters := AddOptionalPairs(postParameters, jOptionals, order);
      var reply := execute(Request(Post, SyncUrl(), Form(postParameters), SyncTransport));
      if reply.Unreachable? {
        return Success(map[]);
      }
      var syncResult := parse(reply.body);
      if syncResult.Failure? {
        return Failure(JsonException(syncResult.error));
      }
      return Success(syncResult.value);
    }

    /** `sync` without a parameter object: a fresh one, with its defaults. */
    method SyncWithDefaults(token: string, appId: int, version: string, order: seq<string>,
                            execute: Request -> Reply, parse: JsonParser) returns (r: Result<Object, Error>)
      requires Enumerates(order, SyncOptionals(DefaultSyncState).Keys)
      ensures r == SyncResult(token, appId, version, DefaultSyncState, order, execute, parse)
    {
      var optionals := new SyncParameters();
      r := Sync(token, appId, version, optionals, order, execute, parse);
    }
  }
}
