/** The settings handling of the Silverlight DLR host script: a right-biased
    merge of two settings objects, the extraction of the DLR-specific keys
    into the `initParams` string, the default settings, and the id and
    counter rule applied when a Silverlight control is created.  The page's
    DOM and the HTML the control is built from are not part of this model. */
module SilverlightSettings {
  import opened Wrappers
  import Decimal

  /** The JavaScript values settings hold.  Numbers are integers; an object
      is known only by its identity. */
  datatype JsValue = Undefined | Null | Bool(b: bool) | Num(n: int) | Str(s: string) | Obj(id: nat)

  /** ToBoolean (section 7.1.2 of ECMAScript 2015). */
  predicate Truthy(v: JsValue) {
    match v
    case Undefined => false
    case Null => false
    case Bool(b) => b
    case Num(n) => n != 0
    case Str(s) => s != ""
    case Obj(_) => true
  }

  /** ToString (section 7.1.12 of ECMAScript 2015), as string concatenation
      applies it; a plain object prints as `[object Object]`. */
  function ToJsString(v: JsValue): string {
    match v
    case Undefined => "undefined"
    case Null => "null"
    case Bool(b) => if b then "true" else "false"
    case Num(n) => Decimal.IntToString(n)
    case Str(s) => s
    case Obj(_) => "[object Object]"
  }

  /** A settings object: its own enumerable properties.  The order a `for-in`
      enumerates them in is not modelled. */
  type JsObject = map<string, JsValue>

  /** Property read: a missing property is `undefined`. */
  function Get(o: JsObject, key: string): JsValue {
    if key in o then o[key] else Undefined
  }

  // ---------------------------------------------------------------------------
  // Object.merge

  /** `Object.merge(dest, src)`: copy every property of `dest`, then every
      property of `src`, into a new object.  The inputs are values, so
      neither can change. */
  method Merge(dest: JsObject, src: JsObject) returns (temp: JsObject)
    ensures temp.Keys == dest.Keys + src.Keys
    ensures forall k :: k in src ==> temp[k] == src[k]
    ensures forall k :: k in dest && k !in src ==> temp[k] == dest[k]
    ensures temp == dest + src
  {
    temp := map[];
    var props := dest.Keys;
    while props != {}
      invariant props <= dest.Keys
      invariant temp.Keys == dest.Keys - props
      invariant forall k :: k in temp ==> temp[k] == dest[k]
      decreases props
    {
      var prop :| prop in props;
      temp := temp[prop := dest[prop]];
      props := props - {prop};
    }
    props := src.Keys;
    while props != {}
      invariant props <= src.Keys
      invariant temp.Keys == dest.Keys + (src.Keys - props)
      invariant forall k :: k in temp && k in src && k !in props ==> temp[k] == src[k]
      invariant forall k :: k in temp && !(k in src && k !in props) ==> temp[k] == dest[k]
      decreases props
    {
      var prop :| prop in props;
      temp := temp[prop := src[prop]];
      props := props - {prop};
    }
  }

  // ---------------------------------------------------------------------------
  // DLR.parseSettings

  /** `dlr_keys`, in order. */
  const DlrKeys: seq<string> := ["debug", "console", "start", "exceptionDetail", "reportErrors", "xamlid"]

  const InitParamsKey := "initParams"

  /** One property copied into `dlr_options`. */
  datatype Entry = Entry(key: string, value: JsValue)

  /** The properties of `raw` named in `keys` whose values are truthy, in
      the order of `keys`: the contents of `dlr_options` in insertion order,
      which is the order a `for-in` over it visits them. */
  function Extracted(raw: JsObject, keys: seq<string>): seq<Entry>
    decreases |keys|
  {
    if keys == [] then []
    else
      var key := keys[|keys| - 1];
      Extracted(raw, keys[..|keys| - 1]) + (if Truthy(Get(raw, key)) then [Entry(key, Get(raw, key))] else [])
  }

  /** `raw` after deleting every property named in `keys` whose value is truthy. */
  function Stripped(raw: JsObject, keys: seq<string>): JsObject {
    map k | k in raw && !(k in keys && Truthy(raw[k])) :: raw[k]
  }

  /** `opt + "=" + dlr_options[opt]`. */
  function OptionText(o: Entry): string {
    o.key + "=" + ToJsString(o.value)
  }

  /** The string the `initParams` loop builds: every option followed by a comma. */
  function Trailing(opts: seq<Entry>): string
    decreases |opts|
  {
    if opts == [] then "" else Trailing(opts[..|opts| - 1]) + OptionText(opts[|opts| - 1]) + ","
  }

  /** The options joined by commas, with no comma at the end. */
  function JoinOptions(opts: seq<Entry>): (r: string)
    ensures r == "" <==> opts == []
    decreases |opts|
  {
    if opts == [] then ""
    else if |opts| == 1 then OptionText(opts[0])
    else JoinOptions(opts[..|opts| - 1]) + "," + OptionText(opts[|opts| - 1])
  }

  function Clamp(i: int, len: nat): (r: nat)
    ensures r <= len
  {
    if i < 0 then 0 else if i > len then len else i
  }

  /** `String.prototype.substring(start, end)` (section 21.1.3.19 of
      ECMAScript 2015): both positions are clamped to the string, and the
      smaller one is the start. */
  function JsSubstring(s: string, start: int, end: int): (r: string)
    ensures 0 <= start <= end <= |s| ==> r == s[start..end]
    ensures start <= 0 && end <= 0 ==> r == ""
  {
    var a := Clamp(start, |s|);
    var b := Clamp(end, |s|);
    if a <= b then s[a..b] else s[b..a]
  }

  /** `substring` does not care which argument is the larger. */
  lemma SubstringArgumentsCommute(s: string, start: int, end: int)
    ensures JsSubstring(s, start, end) == JsSubstring(s, end, start)
  {
  }

  /** The text of `initParams`: the loop's string without its last character. */
  function InitParamsText(opts: seq<Entry>): string {
    var t := Trailing(opts);
    JsSubstring(t, 0, |t| - 1)
  }

  lemma {:induction false} TrailingIsJoinPlusComma(opts: seq<Entry>)
    requires opts != []
    ensures Trailing(opts) == JoinOptions(opts) + ","
    decreases |opts|
  {
    var init := opts[..|opts| - 1];
    if |opts| == 1 {
      assert init == [];
    } else {
      TrailingIsJoinPlusComma(init);
    }
  }

  /** `initParams` is the options joined by commas with no trailing comma,
      and the empty string when there are none (the end position -1 clamps
      to 0). */
  lemma InitParamsIsJoin(opts: seq<Entry>)
    ensures InitParamsText(opts) == JoinOptions(opts)
  {
    if opts != [] {
      TrailingIsJoinPlusComma(opts);
      var t := Trailing(opts);
      assert t[..|t| - 1] == JoinOptions(opts);
    }
  }

  /** An option is extracted exactly when its key is listed and its value is
      truthy, and it carries that value. */
  lemma {:induction false} ExtractedOptions(raw: JsObject, keys: seq<string>, o: Entry)
    ensures o in Extracted(raw, keys) <==> o.key in keys && Truthy(Get(raw, o.key)) && o.value == Get(raw, o.key)
    decreases |keys|
  {
    if keys != [] {
      var init := keys[..|keys| - 1];
      ExtractedOptions(raw, init, o);
      assert keys == init + [keys[|keys| - 1]];
    }
  }

  /** What `DLR.parseSettings(defaults, settings)` returns. */
  function ParsedSettings(defaults: JsObject, settings: JsObject): JsObject {
    var raw := defaults + settings;
    Stripped(raw, DlrKeys)[InitParamsKey := Str(InitParamsText(Extracted(raw, DlrKeys)))]
  }

  lemma StrippedStep(raw: JsObject, keys: seq<string>, key: string)
    ensures Stripped(raw, keys + [key]) ==
      if Truthy(Get(raw, key)) then Stripped(raw, keys) - {key} else Stripped(raw, keys)
  {
  }

  /** No DLR key is listed twice, so deleting one never hides another. */
  lemma DlrKeysDistinct()
    ensures forall i, j :: 0 <= i < j < |DlrKeys| ==> DlrKeys[i] != DlrKeys[j]
  {
  }

  /** The first loop of `DLR.parseSettings`: move each truthy DLR key of
      the merged settings into `dlr_options`, deleting it. */
  method ExtractDlrOptions(merged: JsObject) returns (rawSettings: JsObject, dlrOptions: seq<Entry>)
    ensures rawSettings == Stripped(merged, DlrKeys)
    ensures dlrOptions == Extracted(merged, DlrKeys)
  {
    DlrKeysDistinct();
    rawSettings := merged;
    dlrOptions := [];
    var d := 0;
    while d < |DlrKeys|
      invariant 0 <= d <= |DlrKeys|
      invariant rawSettings == Stripped(merged, DlrKeys[..d])
      invariant dlrOptions == Extracted(merged, DlrKeys[..d])
    {
      var key := DlrKeys[d];
      assert DlrKeys[..d + 1] == DlrKeys[..d] + [key];
      assert key !in DlrKeys[..d];
      StrippedStep(merged, DlrKeys[..d], key);
      var value := Get(rawSettings, key);
      if Truthy(value) {
        dlrOptions := dlrOptions + [Entry(key, value)];
        rawSettings := rawSettings - {key};
      }
      d := d + 1;
    }
    assert DlrKeys[..|DlrKeys|] == DlrKeys;
  }

  /** The second loop of `DLR.parseSettings`: append `key=value,` for each option. */
  method TrailingText(dlrOptions: seq<Entry>) returns (initParams: string)
    ensures initParams == Trailing(dlrOptions)
  {
    initParams := "";
    var i := 0;
    while i < |dlrOptions|
      invariant 0 <= i <= |dlrOptions|
      invariant initParams == Trailing(dlrOptions[..i])
    {
      assert dlrOptions[..i + 1][..i] == dlrOptions[..i];
      initParams := initParams + (dlrOptions[i].key + "=" + ToJsString(dlrOptions[i].value) + ",");
      i := i + 1;
    }
    assert dlrOptions[..|dlrOptions|] == dlrOptions;
  }

  /** `DLR.parseSettings`: merge, move the truthy DLR keys into `dlr_options`
      deleting them from the merged object, and record them as `initParams`
      without the last comma. */
  method ParseSettings(defaults: JsObject, settings: JsObject) returns (rawSettings: JsObject)
    ensures rawSettings == ParsedSettings(defaults, settings)
  {
    var merged := Merge(defaults, settings);
    var dlrOptions;
    rawSettings, dlrOptions := ExtractDlrOptions(merged);
    var initParams := TrailingText(dlrOptions);
    initParams := JsSubstring(initParams, 0, |initParams| - 1);
    rawSettings := rawSettings[InitParamsKey := Str(initParams)];
  }

  /** The keys of the parsed settings: every merged property except the
      truthy DLR keys, with its merged value, and `initParams` always set to
      the comma-joined extracted options, whatever either input held under
      that name. */
  lemma ParsedSettingsContents(defaults: JsObject, settings: JsObject, k: string)
    ensures var r := ParsedSettings(defaults, settings);
      var raw := defaults + settings;
      && (k != InitParamsKey && k !in DlrKeys ==> (k in r <==> k in raw) && (k in r ==> r[k] == raw[k]))
      && (k in DlrKeys ==> (k in r <==> k in raw && !Truthy(raw[k])) && (k in r ==> r[k] == raw[k]))
      && InitParamsKey in r && r[InitParamsKey] == Str(JoinOptions(Extracted(raw, DlrKeys)))
  {
    InitParamsIsJoin(Extracted(defaults + settings, DlrKeys));
  }

  /** `initParams` is empty exactly when no DLR key has a truthy merged value. */
  lemma InitParamsEmptyIff(defaults: JsObject, settings: JsObject)
    ensures ParsedSettings(defaults, settings)[InitParamsKey] == Str("") <==>
      forall k :: k in DlrKeys ==> !Truthy(Get(defaults + settings, k))
  {
    var raw := defaults + settings;
    var opts := Extracted(raw, DlrKeys);
    InitParamsIsJoin(opts);
    if opts != [] {
      ExtractedOptions(raw, DlrKeys, opts[0]);
    } else {
      forall k | k in DlrKeys
        ensures !Truthy(Get(raw, k))
      {
        ExtractedOptions(raw, DlrKeys, Entry(k, Get(raw, k)));
      }
    }
  }

  // ---------------------------------------------------------------------------
  // DLR.defaultSettings and DLR.createObject

  const DefaultSettingsId := "silverlightDlrObject_DOMOnly"
  const DefaultObjectId := "silverlightDLRObject"

  /** `DLR.defaultSettings()` for the current `DLR.path`; `!= null` is also
      false for `undefined`. */
  function DefaultSettings(path: JsValue): (r: JsObject)
    ensures r.Keys == {"width", "height", "onError", "reportErrors", "source", "id"}
    ensures r["source"] == if path == Null || path == Undefined then Str("dlr.xap") else Str(ToJsString(path) + "/dlr.xap")
    ensures r["id"] == Str(DefaultSettingsId)
  {
    map[
      "width" := Num(1),
      "height" := Num(1),
      "onError" := Str("Silverlight.default_error_handler"),
      "reportErrors" := Str("errorLocation"),
      "source" := if path != Null && path != Undefined then Str(ToJsString(path) + "/dlr.xap") else Str("dlr.xap"),
      "id" := Str(DefaultSettingsId)]
  }

  /** Settings in which `reportErrors` is the only truthy DLR key yield
      exactly that option. */
  lemma OnlyReportErrors(raw: JsObject, value: JsValue)
    requires Get(raw, "reportErrors") == value && Truthy(value)
    requires !Truthy(Get(raw, "debug")) && !Truthy(Get(raw, "console")) && !Truthy(Get(raw, "start"))
    requires !Truthy(Get(raw, "exceptionDetail")) && !Truthy(Get(raw, "xamlid"))
    ensures Extracted(raw, DlrKeys) == [Entry("reportErrors", value)]
  {
    assert Extracted(raw, ["debug"]) == [];
    assert ["debug", "console"][..1] == ["debug"];
    assert ["debug", "console", "start"][..2] == ["debug", "console"];
    assert ["debug", "console", "start", "exceptionDetail"][..3] == ["debug", "console", "start"];
    assert DlrKeys[..4] == ["debug", "console", "start", "exceptionDetail"];
    assert Extracted(raw, DlrKeys[..4]) == [];
    assert DlrKeys[..5][..4] == DlrKeys[..4];
    assert Extracted(raw, DlrKeys[..5]) == [Entry("reportErrors", value)];
    assert DlrKeys[..5] == DlrKeys[..|DlrKeys| - 1];
  }

  /** With nothing else given, the defaults produce
      `initParams=reportErrors=errorLocation` and lose `reportErrors`. */
  lemma DefaultsParse(path: JsValue)
    ensures var r := ParsedSettings(DefaultSettings(path), map[]);
      && r[InitParamsKey] == Str("reportErrors" + "=" + "errorLocation")
      && "reportErrors" !in r
      && r["id"] == Str(DefaultSettingsId)
  {
    var raw := DefaultSettings(path) + map[];
    assert raw == DefaultSettings(path);
    assert Get(raw, "reportErrors") == Str("errorLocation");
    assert "debug" !in raw && "console" !in raw && "start" !in raw;
    assert "exceptionDetail" !in raw && "xamlid" !in raw;
    OnlyReportErrors(raw, Str("errorLocation"));
    var opts := Extracted(raw, DlrKeys);
    InitParamsIsJoin(opts);
    assert JoinOptions(opts) == OptionText(Entry("reportErrors", Str("errorLocation")));
  }

  /** The id rule of `createObject`: a control still carrying the default id
      is renamed after the number of controls created before it, except the
      first. */
  function WithObjectId(settings: JsObject, count: nat): (r: JsObject)
    ensures r.Keys == settings.Keys + (if count > 0 && Get(settings, "id") == Str(DefaultSettingsId) then {"id"} else {})
    ensures forall k :: k in settings && k != "id" ==> r[k] == settings[k]
    ensures Get(r, "id") == if count > 0 && Get(settings, "id") == Str(DefaultSettingsId)
      then Str(DefaultObjectId + Decimal.NatToString(count)) else Get(settings, "id")
  {
    if Get(settings, "id") == Str(DefaultSettingsId) && count > 0
    then settings["id" := Str(DefaultObjectId + Decimal.NatToString(count))]
    else settings
  }

  /** Controls created at different counts get different generated ids. */
  lemma GeneratedIdsDistinct(a: nat, b: nat)
    requires a != b
    ensures DefaultObjectId + Decimal.NatToString(a) != DefaultObjectId + Decimal.NatToString(b)
  {
    var sa := DefaultObjectId + Decimal.NatToString(a);
    var sb := DefaultObjectId + Decimal.NatToString(b);
    if sa == sb {
      assert sa[|DefaultObjectId|..] == Decimal.NatToString(a);
      assert sb[|DefaultObjectId|..] == Decimal.NatToString(b);
      Decimal.NatToStringInjective(a, b);
    }
  }

  /** A generated id is never the default id, so a renamed control is not
      renamed again. */
  lemma GeneratedIdIsNotDefault(count: nat)
    ensures DefaultObjectId + Decimal.NatToString(count) != DefaultSettingsId
  {
    var s := DefaultObjectId + Decimal.NatToString(count);
    assert s[12] == 'L' != DefaultSettingsId[12];
  }

  /** The `DLR` global: `__objectCount`, `path`, `autoAdd`, `settings`, and
      the settings of every control created so far (what
      `Silverlight.buildHTML` was given). */
  class DlrHost {
    var objectCount: nat
    var path: JsValue
    var autoAdd: JsValue
    var settings: JsObject
    var created: seq<JsObject>

    /** Loading the script: a falsy `autoAdd` becomes `true`, a falsy `path`
        becomes `null`, the counter starts at 0 and `DLR.settings` is parsed
        against the defaults (an absent or falsy one counting as `{}`). */
    constructor(initialAutoAdd: JsValue, initialPath: JsValue, initialSettings: Option<JsObject>)
      ensures autoAdd == if Truthy(initialAutoAdd) then initialAutoAdd else Bool(true)
      ensures path == if Truthy(initialPath) then initialPath else Null
      ensures objectCount == 0 && created == []
      ensures settings == ParsedSettings(DefaultSettings(path), initialSettings.GetOr(map[]))
    {
      var dlrPath := if Truthy(initialPath) then initialPath else Null;
      var parsed := ParseSettings(DefaultSettings(dlrPath), initialSettings.GetOr(map[]));
      autoAdd := if Truthy(initialAutoAdd) then initialAutoAdd else Bool(true);
      path := dlrPath;
      objectCount := 0;
      created := [];
      settings := parsed;
    }

    /** `DLR.createObject(settings)`: parse the settings against the
        defaults (`undefined` counting as `{}`), apply the id rule, build the
        control and count it.  `==` against a string is strict equality on
        these values. */
    method CreateObject(objectSettings: Option<JsObject>)
      modifies this
      ensures objectCount == old(objectCount) + 1
      ensures created == old(created) +
        [WithObjectId(ParsedSettings(DefaultSettings(path), objectSettings.GetOr(map[])), old(objectCount))]
      ensures path == old(path) && autoAdd == old(autoAdd) && settings == old(settings)
    {
      var s := ParseSettings(DefaultSettings(path), objectSettings.GetOr(map[]));
      if Get(s, "id") == Get(DefaultSettings(path), "id") && objectCount > 0 {
        s := s["id" := Str(DefaultObjectId + Decimal.NatToString(objectCount))];
      }
      created := created + [s];
      objectCount := objectCount + 1;
    }
  }
}
