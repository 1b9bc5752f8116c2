/** The configuration manager: settings and credentials read from YAML
    files (here: the parsed documents, or nothing when a file is absent),
    looked up by dotted path, with `${VAR}` values taken from the
    environment (a parameter). */
module Config {
  import opened Wrappers
  import opened Text
  import Json

  /** `_default_config`: what a missing configuration file is replaced by. */
  function DefaultConfig(): (d: Json.Obj)
    ensures d.Keys == {"library", "sources", "thresholds", "output"}
  {
    map["library" := Json.Object(map["root" := Json.Str("/path/to/music"),
                                      "backup_enabled" := Json.Bool(true),
                                      "backup_path" := Json.Str("D:/music_backup")]),
        "sources" := Json.Object(map["primary" := Json.Str("musicbrainz"),
                                      "fallback" := Json.List([Json.Str("itunes"), Json.Str("discogs"), Json.Str("acoustid")])]),
        "thresholds" := Json.Object(map["auto_approve" := Json.Real(0.95),
                                         "review_required" := Json.Real(0.70),
                                         "auto_reject" := Json.Real(0.70)]),
        "output" := Json.Object(map["reports_path" := Json.Str("D:/music cleanup/outputs"),
                                     "logs_path" := Json.Str("D:/music cleanup/logs"),
                                     "state_path" := Json.Str("D:/music cleanup/state")])]
  }

  /** The walk of `get`: through maps only, stopping at the first segment
      that is missing or null. */
  function Walk(value: Json.Value, keys: seq<string>): (r: Option<Json.Value>)
    ensures r.Some? ==> r.value != Json.Null || (keys == [] && value == Json.Null)
    ensures keys != [] && !value.Object? ==> r.None?
  {
    if keys == [] then Some(value)
    else if !value.Object? then None
    else
      var next := Json.Get(value.fields, keys[0], Json.Null);
      if next == Json.Null then None else Walk(next, keys[1..])
  }

  /** A `${VAR}` reference. */
  predicate IsReference(s: string) {
    StartsWith(s, "${") && EndsWith(s, "}")
  }

  /** The variable a `${VAR}` reference names. */
  function ReferenceName(s: string): (name: string)
    requires IsReference(s)
    ensures "${" + name + "}" == s
  {
    assert s[1] == '{' && s[|s| - 1] == '}';
    s[2..|s| - 1]
  }

  /** `get(key, default)`: the value at the dotted path, the default when
      the walk fails, and for a `${VAR}` string the environment's value of
      VAR, or the default when VAR is unset. */
  function Lookup(config: Json.Value, key: string, default: Json.Value, env: string -> Option<string>)
    : (r: Json.Value)
  {
    var found := Walk(config, SplitOn(key, '.'));
    if found.None? then default
    else if found.value.Str? && IsReference(found.value.s) then
      var name := ReferenceName(found.value.s);
      if env(name).Some? then Json.Str(env(name).value) else default
    else found.value
  }

  /** The walk of `get_credential`: a null is carried on and fails only at
      the next segment; the value found may be null. */
  function WalkCredential(value: Json.Value, keys: seq<string>): (r: Json.Value)
    ensures keys != [] && !value.Object? ==> r == Json.Null
    decreases |keys|
  {
    if keys == [] then value
    else if !value.Object? then Json.Null
    else WalkCredential(Json.Get(value.fields, keys[0], Json.Null), keys[1..])
  }

  const AutoApproveKey: string := "thresholds.auto_approve"
  const ReviewKey: string := "thresholds.review_required"

  class ConfigManager {
    var config: Json.Value
    var credentials: Json.Value

    /** `load`: a missing configuration file gives the defaults, an empty
        one `{}`; the credentials file is optional and keeps `{}` when
        absent. */
    constructor (configFile: Option<Json.Value>, credentialsFile: Option<Json.Value>)
      ensures configFile.None? ==> config == Json.Object(DefaultConfig())
      ensures configFile.Some? ==> config == (if Json.Truthy(configFile.value) then configFile.value else Json.Object(map[]))
      ensures credentialsFile.None? ==> credentials == Json.Object(map[])
      ensures credentialsFile.Some? ==>
                credentials == (if Json.Truthy(credentialsFile.value) then credentialsFile.value else Json.Object(map[]))
    {
      credentials := Json.Object(map[]);
      if configFile.Some? {
        config := if Json.Truthy(configFile.value) then configFile.value else Json.Object(map[]);
      } else {
        config := Json.Object(DefaultConfig());
      }
      if credentialsFile.Some? {
        credentials := if Json.Truthy(credentialsFile.value) then credentialsFile.value else Json.Object(map[]);
      }
    }

    /** `get`: the loop over the path's segments. */
    method Get(key: string, default: Json.Value, env: string -> Option<string>) returns (r: Json.Value)
      ensures r == Lookup(config, key, default, env)
    {
      var keys := SplitOn(key, '.');
      var value := config;
      for i := 0 to |keys|
        invariant Walk(config, keys) == Walk(value, keys[i..])
        invariant value != Json.Null || (i == 0 && config == Json.Null)
      {
        assert keys[i..][1..] == keys[i + 1..];
        if value.Object? {
          value := Json.Get(value.fields, keys[i], Json.Null);
        } else {
          return default;
        }
        if value == Json.Null {
          return default;
        }
      }
      assert keys[|keys|..] == [];
      if value.Str? && IsReference(value.s) {
        var name := ReferenceName(value.s);
        var v := env(name);
        return if v.Some? then Json.Str(v.value) else default;
      }
      return value;
    }

    /** `get_credential`: the same walk without the null check; anything
        missing is null. */
    method GetCredential(key: string) returns (r: Json.Value)
      ensures r == WalkCredential(credentials, SplitOn(key, '.'))
    {
      var keys := SplitOn(key, '.');
      var value := credentials;
      for i := 0 to |keys|
        invariant WalkCredential(credentials, keys) == WalkCredential(value, keys[i..])
      {
        assert keys[i..][1..] == keys[i + 1..];
        if value.Object? {
          value := Json.Get(value.fields, keys[i], Json.Null);
        } else {
          return Json.Null;
        }
      }
      assert keys[|keys|..] == [];
      return value;
    }

    /** `auto_approve_threshold`. */
    function AutoApproveThreshold(env: string -> Option<string>): Json.Value
      reads this
    {
      Lookup(config, AutoApproveKey, Json.Real(0.95), env)
    }

    /** `review_threshold`. */
    function ReviewThreshold(env: string -> Option<string>): Json.Value
      reads this
    {
      Lookup(config, ReviewKey, Json.Real(0.70), env)
    }
  }

  /** A path with no dot is one segment. */
  lemma SplitPlain(key: string)
    requires '.' !in key
    ensures SplitOn(key, '.') == [key]
  {
  }

  /** A stored value other than null is returned as it is, even when it is
      falsy (false, 0, ""): only a missing or null entry gives the default. */
  lemma LookupStored(config: Json.Obj, key: string, default: Json.Value, env: string -> Option<string>)
    requires '.' !in key && key in config && config[key] != Json.Null
    requires !(config[key].Str? && IsReference(config[key].s))
    ensures Lookup(Json.Object(config), key, default, env) == config[key]
  {
    SplitPlain(key);
    assert [key][1..] == [];
    assert Walk(Json.Object(config), [key]) == Walk(config[key], []);
  }

  /** A missing or null entry gives the default. */
  lemma LookupMissing(config: Json.Obj, key: string, default: Json.Value, env: string -> Option<string>)
    requires '.' !in key && (key !in config || config[key] == Json.Null)
    ensures Lookup(Json.Object(config), key, default, env) == default
  {
    SplitPlain(key);
  }

  /** Below a value that is not a map, every path gives the default. */
  lemma LookupThroughLeaf(config: Json.Obj, first: string, rest: string, default: Json.Value,
                          env: string -> Option<string>)
    requires '.' !in first && first in config && config[first] != Json.Null && !config[first].Object?
    ensures Lookup(Json.Object(config), first + "." + rest, default, env) == default
  {
    var key := first + "." + rest;
    assert BeforeFirst(key, '.') == first by {
      BeforeFirstOfJoin(first, '.', rest);
    }
    var keys := SplitOn(key, '.');
    assert keys[0] == first && |keys| >= 2;
  }

  /** A `${VAR}` value is the environment's VAR, or the default when VAR is
      unset. */
  lemma LookupReference(config: Json.Obj, key: string, name: string, default: Json.Value, env: string -> Option<string>)
    requires '.' !in key && key in config && config[key] == Json.Str("${" + name + "}")
    ensures env(name).Some? ==> Lookup(Json.Object(config), key, default, env) == Json.Str(env(name).value)
    ensures env(name).None? ==> Lookup(Json.Object(config), key, default, env) == default
  {
    SplitPlain(key);
    assert [key][1..] == [];
    assert Walk(Json.Object(config), [key]) == Walk(config[key], []);
    var s := "${" + name + "}";
    assert IsReference(s) by {
      assert s[..2] == "${";
      assert s[|s| - 1..] == "}";
    }
    assert ReferenceName(s) == name;
  }

  /** A two-segment path `a.b` finds what is stored under `b` in the map
      stored under `a`. */
  lemma LookupPair(config: Json.Obj, key: string, a: string, b: string, default: Json.Value, env: string -> Option<string>)
    requires SplitOn(key, '.') == [a, b]
    ensures (a !in config || !config[a].Object? || b !in config[a].fields || config[a].fields[b] == Json.Null)
            ==> Lookup(Json.Object(config), key, default, env) == default
    ensures (a in config && config[a].Object? && b in config[a].fields && config[a].fields[b] != Json.Null
             && !config[a].fields[b].Str?)
            ==> Lookup(Json.Object(config), key, default, env) == config[a].fields[b]
  {
    var c := Json.Object(config);
    assert Walk(c, [a, b]) == (if a in config && config[a] != Json.Null then Walk(config[a], [b]) else None) by {
      assert [a, b][1..] == [b];
    }
    if a in config && config[a].Object? {
      var f := config[a].fields;
      assert Walk(config[a], [b]) == (if b in f && f[b] != Json.Null then Walk(f[b], []) else None) by {
        assert [b][1..] == [];
      }
    }
  }

  /** The threshold properties' paths are two segments under `thresholds`. */
  lemma ThresholdKeys()
    ensures SplitOn(AutoApproveKey, '.') == ["thresholds", "auto_approve"]
    ensures SplitOn(ReviewKey, '.') == ["thresholds", "review_required"]
  {
    AutoApproveSegments();
    ReviewSegments();
  }

  lemma AutoApproveSegments()
    ensures SplitOn(AutoApproveKey, '.') == ["thresholds", "auto_approve"]
  {
    SplitKey(AutoApproveKey, "thresholds", "auto_approve");
  }

  lemma ReviewSegments()
    ensures SplitOn(ReviewKey, '.') == ["thresholds", "review_required"]
  {
    SplitKey(ReviewKey, "thresholds", "review_required");
  }

  lemma SplitKey(key: string, a: string, b: string)
    requires '.' !in a && '.' !in b && key == a + "." + b
    ensures SplitOn(key, '.') == [a, b]
  {
    DottedPair(a, b);
  }

  /** Without a configuration file the thresholds are 0.95 and 0.70. */
  lemma DefaultThresholds(env: string -> Option<string>)
    ensures Lookup(Json.Object(DefaultConfig()), AutoApproveKey, Json.Real(0.95), env) == Json.Real(0.95)
    ensures Lookup(Json.Object(DefaultConfig()), ReviewKey, Json.Real(0.70), env) == Json.Real(0.70)
  {
    var t := DefaultConfig()["thresholds"];
    assert t.Object? && t.fields["auto_approve"] == Json.Real(0.95) && t.fields["review_required"] == Json.Real(0.70);
    ThresholdKeys();
    DefaultThreshold(AutoApproveKey, "auto_approve", Json.Real(0.95), env);
    DefaultThreshold(ReviewKey, "review_required", Json.Real(0.70), env);
  }

  lemma DefaultThreshold(key: string, field: string, v: Json.Value, env: string -> Option<string>)
    requires SplitOn(key, '.') == ["thresholds", field]
    requires DefaultConfig()["thresholds"].Object? && field in DefaultConfig()["thresholds"].fields
    requires DefaultConfig()["thresholds"].fields[field] == v && v.Real?
    ensures Lookup(Json.Object(DefaultConfig()), key, v, env) == v
  {
    LookupPair(DefaultConfig(), key, "thresholds", field, v, env);
  }

  /** A configuration without a `thresholds` section falls back to the
      same 0.95 and 0.70. */
  lemma FallbackThresholds(config: Json.Obj, env: string -> Option<string>)
    requires "thresholds" !in config
    ensures Lookup(Json.Object(config), AutoApproveKey, Json.Real(0.95), env) == Json.Real(0.95)
    ensures Lookup(Json.Object(config), ReviewKey, Json.Real(0.70), env) == Json.Real(0.70)
  {
    ThresholdKeys();
    LookupPair(config, AutoApproveKey, "thresholds", "auto_approve", Json.Real(0.95), env);
    LookupPair(config, ReviewKey, "thresholds", "review_required", Json.Real(0.70), env);
  }

  /** `a.b` with no dot in `a` or `b` is the two segments `a` and `b`. */
  lemma DottedPair(a: string, b: string)
    requires '.' !in a && '.' !in b
    ensures SplitOn(a + "." + b, '.') == [a, b]
  {
    SplitPair(a, '.', b);
  }

  /** `get_credential` on a missing first segment is null. */
  lemma CredentialMissing(credentials: Json.Obj, key: string)
    requires '.' !in key && key !in credentials
    ensures WalkCredential(Json.Object(credentials), SplitOn(key, '.')) == Json.Null
  {
    SplitPlain(key);
    assert [key][1..] == [];
  }
}
