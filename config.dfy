/**
 * The settings of `hyukebox/config.py`: their defaults and the check that the
 * four API keys are set. Loading from the environment and the `.env` file is
 * left out, and so is the floating-point `llm_temperature`; paths are strings.
 */
module Config {
  import opened Wrappers
  import opened Text

  datatype Settings = Settings(
    spotifyClientId: string,
    spotifyClientSecret: string,
    lastfmApiKey: string,
    anthropicApiKey: string,
    youtubeCredentialsPath: string,
    youtubeTokenPath: string,
    cacheDir: string,
    cacheTtl: int,
    logLevel: string,
    maxPlaylistSize: int,
    defaultLanguageContext: string,
    spotifyRateLimit: int,
    lastfmRateLimit: int,
    llmModel: string,
    llmMaxTokens: int)

  /** The settings when no variable is set. */
  function Defaults(): Settings {
    Settings(
      "", "", "", "",
      "./config/youtube_credentials.json",
      "./config/youtube_token.pickle",
      "./cache",
      86400,
      "INFO",
      20,
      "korean",
      180,
      300,
      "claude-opus-4-5-20251101",
      2000)
  }

  /** The cache keeps entries for a day; a playlist holds 20 songs; the limits are per minute. */
  lemma DefaultValues()
    ensures Defaults().cacheTtl == 24 * 60 * 60
    ensures Defaults().maxPlaylistSize == 20
    ensures Defaults().spotifyRateLimit == 180 && Defaults().lastfmRateLimit == 300
    ensures Defaults().logLevel == "INFO" && Defaults().defaultLanguageContext == "korean"
    ensures Defaults().llmMaxTokens == 2000
  {
  }

  /** The environment names of the required keys, in the order they are checked. */
  const RequiredKeys: seq<string> :=
    ["SPOTIFY_CLIENT_ID", "SPOTIFY_CLIENT_SECRET", "LASTFM_API_KEY", "ANTHROPIC_API_KEY"]

  /** The values of the required keys, in the same order. */
  function KeyValues(s: Settings): seq<string> {
    [s.spotifyClientId, s.spotifyClientSecret, s.lastfmApiKey, s.anthropicApiKey]
  }

  /** The names whose value is empty, in order. */
  function Unset(names: seq<string>, values: seq<string>): seq<string>
    requires |names| == |values|
  {
    if names == [] then []
    else
      var n := |names| - 1;
      Unset(names[..n], values[..n]) + (if values[n] == "" then [names[n]] else [])
  }

  /** The `missing` list. */
  function MissingKeys(s: Settings): seq<string> {
    Unset(RequiredKeys, KeyValues(s))
  }

  predicate Distinct(names: seq<string>) {
    forall i, j :: 0 <= i < j < |names| ==> names[i] != names[j]
  }

  /** The last name checked, when unset, closes the list; earlier entries stay put. */
  lemma UnsetLast(names: seq<string>, values: seq<string>)
    requires |names| == |values| && names != []
    ensures var n := |names| - 1;
      Unset(names, values) == Unset(names[..n], values[..n]) + (if values[n] == "" then [names[n]] else [])
  {
  }

  /** The position in `names` that listed entry `p` comes from. */
  function UnsetIndex(names: seq<string>, values: seq<string>, p: nat): nat
    requires |names| == |values| && p < |Unset(names, values)|
  {
    var n := |names| - 1;
    UnsetLast(names, values);
    if p < |Unset(names[..n], values[..n])| then UnsetIndex(names[..n], values[..n], p) else n
  }

  /** Listed entry `p` is the name at its position, and that name's value is empty. */
  lemma {:induction false} UnsetIndexSource(names: seq<string>, values: seq<string>, p: nat)
    requires |names| == |values| && p < |Unset(names, values)|
    ensures var i := UnsetIndex(names, values, p);
      i < |names| && names[i] == Unset(names, values)[p] && values[i] == ""
  {
    var n := |names| - 1;
    UnsetLast(names, values);
    if p < |Unset(names[..n], values[..n])| {
      UnsetIndexSource(names[..n], values[..n], p);
    }
  }

  /** Later entries come from later positions. */
  lemma {:induction false} UnsetIndexIncreasing(names: seq<string>, values: seq<string>, p: nat, q: nat)
    requires |names| == |values| && p < q < |Unset(names, values)|
    ensures UnsetIndex(names, values, p) < UnsetIndex(names, values, q)
  {
    var n := |names| - 1;
    UnsetLast(names, values);
    var prev := Unset(names[..n], values[..n]);
    UnsetIndexSource(names[..n], values[..n], p);
    if q < |prev| {
      UnsetIndexIncreasing(names[..n], values[..n], p, q);
    }
  }

  /** A name whose value is empty is listed. */
  lemma {:induction false} UnsetHas(names: seq<string>, values: seq<string>, i: nat)
    requires |names| == |values| && i < |names| && values[i] == ""
    ensures names[i] in Unset(names, values)
  {
    var n := |names| - 1;
    UnsetLast(names, values);
    if i < n {
      UnsetHas(names[..n], values[..n], i);
    }
  }

  /**
   * A name is listed exactly when its value is empty; each listed entry is
   * the name at its position `UnsetIndex`, and positions increase along the
   * list, so the order of `names` is kept.
   */
  lemma UnsetSpec(names: seq<string>, values: seq<string>)
    requires |names| == |values| && Distinct(names)
    ensures forall i :: 0 <= i < |names| ==> (names[i] in Unset(names, values) <==> values[i] == "")
    ensures forall p :: 0 <= p < |Unset(names, values)| ==>
      UnsetIndex(names, values, p) < |names| && names[UnsetIndex(names, values, p)] == Unset(names, values)[p] &&
      values[UnsetIndex(names, values, p)] == ""
    ensures forall p, q :: 0 <= p < q < |Unset(names, values)| ==> UnsetIndex(names, values, p) < UnsetIndex(names, values, q)
  {
    var r := Unset(names, values);
    forall p | 0 <= p < |r|
      ensures UnsetIndex(names, values, p) < |names| && names[UnsetIndex(names, values, p)] == r[p] &&
        values[UnsetIndex(names, values, p)] == ""
    {
      UnsetIndexSource(names, values, p);
    }
    forall p, q | 0 <= p < q < |r|
      ensures UnsetIndex(names, values, p) < UnsetIndex(names, values, q)
    {
      UnsetIndexIncreasing(names, values, p, q);
    }
    forall i | 0 <= i < |names|
      ensures names[i] in r <==> values[i] == ""
    {
      if values[i] == "" {
        UnsetHas(names, values, i);
      }
      if names[i] in r {
        var p :| 0 <= p < |r| && r[p] == names[i];
        UnsetIndexSource(names, values, p);
        assert UnsetIndex(names, values, p) == i;
      }
    }
  }

  /** One more name checked: the list grows by that name exactly when its value is empty. */
  lemma UnsetSnoc(names: seq<string>, values: seq<string>, k: nat)
    requires |names| == |values| && k < |names|
    ensures Unset(names[..k + 1], values[..k + 1]) == Unset(names[..k], values[..k]) + IfUnset(names[k], values[k])
  {
    assert names[..k + 1][..k] == names[..k];
    assert values[..k + 1][..k] == values[..k];
  }

  lemma RequiredKeysDistinct()
    ensures Distinct(RequiredKeys)
  {
    assert RequiredKeys[0][0] == 'S' && RequiredKeys[3][0] == 'A';
    assert |RequiredKeys[0]| == 17 && |RequiredKeys[1]| == 21 && |RequiredKeys[2]| == 14 && |RequiredKeys[3]| == 17;
  }

  /**
   * Each key is missing exactly when its setting is empty; every missing
   * name is one of the four, and they keep the fixed order.
   */
  lemma MissingKeysSpec(s: Settings)
    ensures forall i :: 0 <= i < 4 ==> (RequiredKeys[i] in MissingKeys(s) <==> KeyValues(s)[i] == "")
    ensures forall p :: 0 <= p < |MissingKeys(s)| ==>
      UnsetIndex(RequiredKeys, KeyValues(s), p) < 4 &&
      MissingKeys(s)[p] == RequiredKeys[UnsetIndex(RequiredKeys, KeyValues(s), p)]
    ensures forall p, q :: 0 <= p < q < |MissingKeys(s)| ==>
      UnsetIndex(RequiredKeys, KeyValues(s), p) < UnsetIndex(RequiredKeys, KeyValues(s), q)
    ensures MissingKeys(s) == [] <==>
      s.spotifyClientId != "" && s.spotifyClientSecret != "" && s.lastfmApiKey != "" && s.anthropicApiKey != ""
  {
    RequiredKeysDistinct();
    UnsetSpec(RequiredKeys, KeyValues(s));
    var m := MissingKeys(s);
    assert KeyValues(s)[0] == s.spotifyClientId && KeyValues(s)[1] == s.spotifyClientSecret;
    assert KeyValues(s)[2] == s.lastfmApiKey && KeyValues(s)[3] == s.anthropicApiKey;
    if m == [] {
      forall i | 0 <= i < 4
        ensures KeyValues(s)[i] != ""
      {
        assert RequiredKeys[i] !in m;
      }
    } else {
      var i := UnsetIndex(RequiredKeys, KeyValues(s), 0);
      assert i < 4 && KeyValues(s)[i] == "";
    }
  }

  /** Each name in single quotes, as `repr` writes a string without quotes in it. */
  function Quoted(names: seq<string>): (r: seq<string>)
    ensures |r| == |names|
  {
    seq(|names|, i requires 0 <= i < |names| => "'" + names[i] + "'")
  }

  /** Python's `str` of a list of such strings: `['A', 'B']`. */
  function ListRepr(names: seq<string>): string {
    "[" + Join(Quoted(names), ", ") + "]"
  }

  /** A join starts with its first part. */
  lemma JoinStartsWithFirst(parts: seq<string>, sep: string)
    requires |parts| >= 1
    ensures |parts[0]| <= |Join(parts, sep)| && Join(parts, sep)[..|parts[0]|] == parts[0]
  {
  }

  /** The repr of a non-empty list opens with `['`. */
  lemma ListReprOpens(names: seq<string>)
    requires names != []
    ensures |ListRepr(names)| >= 2 && ListRepr(names)[..2] == "['"
  {
    var q := Quoted(names);
    JoinStartsWithFirst(q, ", ");
    assert q[0][0] == '\'';
    var j := Join(q, ", ");
    assert j[0] == '\'';
    assert ListRepr(names) == "[" + j + "]";
  }

  lemma PrefixedStartsWith(a: string, b: string, c: string)
    requires StartsWith(b, c)
    ensures StartsWith(a + b, a + c)
  {
    assert (a + b)[..|a| + |c|] == a + b[..|c|];
  }

  const MissingPrefix := "Missing required API keys: "

  /** The outcome of `validate_required_keys`: `ValueError` with the list when a key is missing. */
  function Validation(s: Settings): Result<(), string> {
    var missing := MissingKeys(s);
    if missing == [] then Success(()) else Failure(MissingPrefix + ListRepr(missing))
  }

  /** What one check contributes: the name when its value is empty. */
  function IfUnset(name: string, value: string): seq<string> {
    if value == "" then [name] else []
  }

  /** Four names checked in turn. */
  lemma UnsetFour(names: seq<string>, values: seq<string>)
    requires |names| == 4 && |values| == 4
    ensures Unset(names, values) ==
      IfUnset(names[0], values[0]) + IfUnset(names[1], values[1]) + IfUnset(names[2], values[2]) + IfUnset(names[3], values[3])
  {
    var a, b, c, d := IfUnset(names[0], values[0]), IfUnset(names[1], values[1]), IfUnset(names[2], values[2]), IfUnset(names[3], values[3]);
    assert Unset(names[..0], values[..0]) == [];
    UnsetSnoc(names, values, 0);
    assert Unset(names[..1], values[..1]) == a;
    UnsetSnoc(names, values, 1);
    assert Unset(names[..2], values[..2]) == a + b;
    UnsetSnoc(names, values, 2);
    assert Unset(names[..3], values[..3]) == a + b + c;
    UnsetSnoc(names, values, 3);
    assert names[..4] == names && values[..4] == values;
  }

  /** The `missing` list, written out check by check. */
  lemma MissingKeysUnfolded(s: Settings)
    ensures MissingKeys(s) ==
      IfUnset(RequiredKeys[0], s.spotifyClientId) + IfUnset(RequiredKeys[1], s.spotifyClientSecret) +
      IfUnset(RequiredKeys[2], s.lastfmApiKey) + IfUnset(RequiredKeys[3], s.anthropicApiKey)
  {
    var values := KeyValues(s);
    UnsetFour(RequiredKeys, values);
  }

  /** One `if not ...: missing.append(...)` of `validate_required_keys`. */
  method AppendIfUnset(missing: seq<string>, name: string, value: string) returns (missing': seq<string>)
    ensures missing' == missing + IfUnset(name, value)
  {
    missing' := missing;
    if value == "" {
      missing' := missing' + [name];
    }
  }

  /** `validate_required_keys`: collect the missing names one check at a time, then raise. */
  method ValidateRequiredKeys(s: Settings) returns (r: Result<(), string>)
    ensures r == Validation(s)
  {
    var missing: seq<string> := [];
    missing := AppendIfUnset(missing, RequiredKeys[0], s.spotifyClientId);
    missing := AppendIfUnset(missing, RequiredKeys[1], s.spotifyClientSecret);
    missing := AppendIfUnset(missing, RequiredKeys[2], s.lastfmApiKey);
    missing := AppendIfUnset(missing, RequiredKeys[3], s.anthropicApiKey);
    MissingKeysUnfolded(s);
    assert missing == MissingKeys(s);
    if missing != [] {
      return Failure(MissingPrefix + ListRepr(missing));
    }
    return Success(());
  }

  /**
   * `validate_required_keys` raises exactly when one of the four keys is
   * empty, and then its message lists them; it returns when all are set.
   */
  lemma ValidationSpec(s: Settings)
    ensures Validation(s).Failure? <==>
      s.spotifyClientId == "" || s.spotifyClientSecret == "" || s.lastfmApiKey == "" || s.anthropicApiKey == ""
    ensures Validation(s).Failure? ==> StartsWith(Validation(s).error, MissingPrefix + "['")
  {
    MissingKeysSpec(s);
    var missing := MissingKeys(s);
    if missing != [] {
      ListReprOpens(missing);
      PrefixedStartsWith(MissingPrefix, ListRepr(missing), "['");
    }
  }

  /** With nothing set, all four keys are reported, in the fixed order. */
  lemma DefaultsMissEveryKey()
    ensures MissingKeys(Defaults()) == RequiredKeys
    ensures Validation(Defaults()) == Failure(MissingPrefix + ListRepr(RequiredKeys))
  {
    MissingKeysUnfolded(Defaults());
    var r := RequiredKeys;
    assert r == [r[0]] + [r[1]] + [r[2]] + [r[3]];
  }
}
