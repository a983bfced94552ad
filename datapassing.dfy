/** The parameter objects of the recognition calls: mutable holders with
    defaults, fluent setters that return the same object, and the optional
    fields they contribute to a request as a JSON object. */
module DataPassing {
  import opened Wrappers
  import opened JavaLang
  import opened OrgJson
  import Settings

  // ===========================================================================
  // SearchParameters

  /** The fields of a SearchParameters object at one moment. */
  datatype SearchState = SearchState(
    color: bool,
    minSize: int,
    embedCustom: bool,
    embedTracking: bool,
    bbox: bool,
    appId: Option<string>,
    strategy: Option<string>,
    version: Option<string>)

  /** The field initialisers. */
  const DefaultSearchState := SearchState(
    false, Settings.DefaultQueryMinSize, false, false, false,
    None, Some(Settings.DefaultSearchStrategy), Some(Settings.RecognitionApiVersion))

  /** `getOptionalsAsJSON` of a search: the three flags as the strings
      "true"/"false", the app id ("" when null), and strategy and version, each
      absent when null; color and minSize are never included. */
  function SearchOptionals(s: SearchState): (o: Object)
    ensures o.Keys <= {"embedCustom", "embedTracking", "bbox", "appID", "strategy", "version"}
    ensures "color" !in o && "minSize" !in o
    ensures {"embedCustom", "embedTracking", "bbox", "appID"} <= o.Keys
    ensures o["embedCustom"] == JString(BoolText(s.embedCustom))
    ensures o["embedTracking"] == JString(BoolText(s.embedTracking))
    ensures o["bbox"] == JString(BoolText(s.bbox))
    ensures o["appID"] == JString(s.appId.GetOr(""))
    ensures Carries(o, "strategy", s.strategy) && Carries(o, "version", s.version)
  {
    var o := map["embedCustom" := JString(BoolText(s.embedCustom)),
                 "embedTracking" := JString(BoolText(s.embedTracking)),
                 "bbox" := JString(BoolText(s.bbox)),
                 "appID" := JString(if s.appId.Some? then s.appId.value else "")];
    var o := PutString(o, "strategy", s.strategy);
    PutString(o, "version", s.version)
  }

  /** With strategy and version set, as they are by default, the optionals have
      exactly six keys. */
  lemma SearchOptionalsKeys(s: SearchState)
    requires s.strategy.Some? && s.version.Some?
    ensures SearchOptionals(s).Keys == {"embedCustom", "embedTracking", "bbox", "appID", "strategy", "version"}
  {
  }

  /** The flag strings read back as the flags: the serialisation loses none of
      them. */
  lemma SearchOptionalsFlags(s: SearchState)
    ensures SearchOptionals(s)["embedCustom"] == JString("true") <==> s.embedCustom
    ensures SearchOptionals(s)["embedTracking"] == JString("true") <==> s.embedTracking
    ensures SearchOptionals(s)["bbox"] == JString("true") <==> s.bbox
  {
  }

  /** The optionals do not depend on color or minSize. */
  lemma SearchOptionalsIgnoreColorAndSize(s: SearchState, color: bool, minSize: int)
    ensures SearchOptionals(s.(color := color, minSize := minSize)) == SearchOptionals(s)
  {
  }

  /** A null app id and an empty one serialise alike. */
  lemma NullAndEmptyAppIdCollide(s: SearchState)
    ensures SearchOptionals(s.(appId := None)) == SearchOptionals(s.(appId := Some("")))
  {
  }

  /** The optionals of a fresh object. */
  lemma DefaultSearchOptionals()
    ensures SearchOptionals(DefaultSearchState) ==
      map["embedCustom" := JString("false"), "embedTracking" := JString("false"), "bbox" := JString("false"),
          "appID" := JString(""), "strategy" := JString(Settings.DefaultSearchStrategy),
          "version" := JString(Settings.RecognitionApiVersion)]
  {
  }

  class SearchParameters {
    var color: bool
    var minSize: int
    var embedCustom: bool
    var embedTracking: bool
    var bbox: bool
    var appId: Option<string>
    var strategy: Option<string>
    var version: Option<string>

    function State(): SearchState
      reads this
    {
      SearchState(color, minSize, embedCustom, embedTracking, bbox, appId, strategy, version)
    }

    /** A fresh object holds the defaults. */
    constructor ()
      ensures State() == DefaultSearchState
    {
      color := false;
      minSize := Settings.DefaultQueryMinSize;
      embedCustom := false;
      embedTracking := false;
      bbox := false;
      appId := None;
      strategy := Some(Settings.DefaultSearchStrategy);
      version := Some(Settings.RecognitionApiVersion);
    }

    function IsColor(): bool reads this { color }
    function MinSize(): int reads this { minSize }
    function IsEmbedCustom(): bool reads this { embedCustom }
    function IsEmbedTracking(): bool reads this { embedTracking }
    function IsBbox(): bool reads this { bbox }
    function AppId(): Option<string> reads this { appId }
    function Strategy(): Option<string> reads this { strategy }
    function Version(): Option<string> reads this { version }

    // Each setter changes its own field only, and returns this object.

    method SetColor(color': bool) returns (self: SearchParameters)
      modifies this
      ensures self == this && IsColor() == color'
      ensures State() == old(State()).(color := color')
    {
      color := color';
      return this;
    }

    method SetMinSize(minSize': int) returns (self: SearchParameters)
      modifies this
      ensures self == this && MinSize() == minSize'
      ensures State() == old(State()).(minSize := minSize')
    {
      minSize := minSize';
      return this;
    }

    method SetEmbedCustom(embedCustom': bool) returns (self: SearchParameters)
      modifies this
      ensures self == this && IsEmbedCustom() == embedCustom'
      ensures State() == old(State()).(embedCustom := embedCustom')
    {
      embedCustom := embedCustom';
      return this;
    }

    method SetEmbedTracking(embedTracking': bool) returns (self: SearchParameters)
      modifies this
      ensures self == this && IsEmbedTracking() == embedTracking'
      ensures State() == old(State()).(embedTracking := embedTracking')
    {
      embedTracking := embedTracking';
      return this;
    }

    method SetBbox(bbox': bool) returns (self: SearchParameters)
      modifies this
      ensures self == this && IsBbox() == bbox'
      ensures State() == old(State()).(bbox := bbox')
    {
      bbox := bbox';
      return this;
    }

    method SetAppId(appId': Option<string>) returns (self: SearchParameters)
      modifies this
      ensures self == this && AppId() == appId'
      ensures State() == old(State()).(appId := appId')
    {
      appId := appId';
      return this;
    }

    method SetStrategy(strategy': Option<string>) returns (self: SearchParameters)
      modifies this
      ensures self == this && Strategy() == strategy'
      ensures State() == old(State()).(strategy := strategy')
    {
      strategy := strategy';
      return this;
    }

    method SetVersion(version': Option<string>) returns (self: SearchParameters)
      modifies this
      ensures self == this && Version() == version'
      ensures State() == old(State()).(version := version')
    {
      version := version';
      return this;
    }

    /** `getOptionalsAsJSON`. */
    function OptionalsAsJson(): (o: Object)
      reads this
      ensures o == SearchOptionals(State())
      ensures "color" !in o && "minSize" !in o
    {
      SearchOptionals(State())
    }
  }

  // ===========================================================================
  // SyncParameters

  datatype SyncState = SyncState(bundled: bool, tag: Option<string>)

  const DefaultSyncState := SyncState(true, None)

  /** `getOptionalsAsJSON` of a sync: exactly "bundled", as a boolean value,
      and "tag" ("" when null). */
  function SyncOptionals(s: SyncState): (o: Object)
    ensures o.Keys == {"bundled", "tag"}
    ensures o["bundled"] == JBool(s.bundled)
    ensures o["tag"] == JString(s.tag.GetOr(""))
  {
    map["bundled" := JBool(s.bundled), "tag" := JString(if s.tag.Some? then s.tag.value else "")]
  }

  /** The sync optionals determine the flag, and the tag up to null versus "". */
  lemma SyncOptionalsInjective(s: SyncState, t: SyncState)
    requires SyncOptionals(s) == SyncOptionals(t)
    ensures s.bundled == t.bundled && s.tag.GetOr("") == t.tag.GetOr("")
  {
    assert SyncOptionals(s)["bundled"] == SyncOptionals(t)["bundled"];
    assert SyncOptionals(s)["tag"] == SyncOptionals(t)["tag"];
  }

  class SyncParameters {
    var bundled: bool
    var tag: Option<string>

    function State(): SyncState
      reads this
    {
      SyncState(bundled, tag)
    }

    /** A fresh object is bundled and has no tag. */
    constructor ()
      ensures State() == DefaultSyncState
    {
      bundled := true;
      tag := None;
    }

    function IsBundled(): bool reads this { bundled }
    function Tag(): Option<string> reads this { tag }

    method SetBundled(bundled': bool) returns (self: SyncParameters)
      modifies this
      ensures self == this && IsBundled() == bundled'
      ensures State() == old(State()).(bundled := bundled')
    {
      bundled := bundled';
      return this;
    }

    method SetTag(tag': Option<string>) returns (self: SyncParameters)
      modifies this
      ensures self == this && Tag() == tag'
      ensures State() == old(State()).(tag := tag')
    {
      tag := tag';
      return this;
    }

    /** `getOptionalsAsJSON`. */
    function OptionalsAsJson(): (o: Object)
      reads this
      ensures o == SyncOptionals(State())
    {
      SyncOptionals(State())
    }
  }
}
