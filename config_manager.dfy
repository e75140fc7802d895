/**
 * The configuration store: a nested JSON document read and written through
 * dot-separated key paths ("ui.theme"), loaded by merging the user's file
 * into the defaults.
 */
module Config {
  import opened Text
  import opened Files

  /** A JSON value. */
  datatype Value = Null | Bool(b: bool) | Int(i: int) | Real(r: real) | Str(s: string) | List(items: seq<Value>)
                 | Obj(fields: map<string, Value>)

  /** A JSON object: the configuration itself and every section of it. */
  type Fields = map<string, Value>

  /** `DEFAULT_CONFIG`, for a user whose home directory is `home`. */
  function DefaultConfig(home: string): Fields
  {
    map[
      "ui" := Obj(map["theme" := Str("light"), "font_size" := Int(12), "show_log" := Bool(true),
                      "show_progress" := Bool(true)]),
      "scanner" := Obj(map[
        "exclude_dirs" := List([Str(".git"), Str(".svn"), Str("__pycache__"), Str("node_modules"), Str("venv"),
                                Str("env"), Str(".env"), Str("build"), Str("dist"), Str(".idea"), Str(".vscode")]),
        "exclude_files" := List([Str("*.min.js"), Str("*.min.css"), Str("*.min.html"), Str("*.swp"), Str("*.tmp"),
                                 Str("*.temp"), Str("*.cache"), Str("*.log")]),
        "max_file_size" := Int(5242880),
        "concurrency" := Int(4)]),
      "report" := Obj(map["default_format" := Str("txt"), "include_summary" := Bool(true),
                          "include_details" := Bool(true),
                          "output_dir" := Str(JoinPath(JoinPath(home, "Desktop"), "CodeAuditX_Reports"))]),
      "rules" := Obj(map["default_ruleset" := Str("Google"), "enable_custom_rules" := Bool(true)])
    ]
  }

  /**
   * The value at a key path, or `None` when a key is missing or the walk meets
   * a value that is not a dictionary (indexing it raises `TypeError`).
   */
  function Lookup(v: Value, keys: seq<string>): Option<Value>
  {
    if |keys| == 0 then Some(v)
    else if v.Obj? && keys[0] in v.fields then Lookup(v.fields[keys[0]], keys[1..])
    else None
  }

  /** The value at a key path of a configuration, or the default. */
  function Got(config: Fields, keys: seq<string>, default: Value): Value
  {
    match Lookup(Obj(config), keys)
    case Some(v) => v
    case None => default
  }

  /** `get(key_path, default)` on a configuration. */
  function ValueAt(config: Fields, keyPath: string, default: Value): Value
  {
    Got(config, Split(keyPath, '.'), default)
  }

  /** The section `set` moves into at one key: the existing value, or a new empty dictionary. */
  function Section(fields: Fields, key: string): Value
  {
    if key in fields then fields[key] else Obj(map[])
  }

  /**
   * `set`: the configuration after assigning the value at the path, creating
   * missing sections; `None` when the walk meets a value that is not a
   * dictionary.
   */
  function Assigned(fields: Fields, keys: seq<string>, value: Value): Option<Fields>
    requires |keys| > 0
    decreases |keys|
  {
    if |keys| == 1 then Some(fields[keys[0] := value])
    else
      var sub := Section(fields, keys[0]);
      if !sub.Obj? then None
      else
        match Assigned(sub.fields, keys[1..], value)
        case None => None
        case Some(m) => Some(fields[keys[0] := Obj(m)])
  }

  /** After a successful assignment the path holds the new value. */
  lemma {:induction false} AssignedThenLookup(fields: Fields, keys: seq<string>, value: Value)
    requires |keys| > 0 && Assigned(fields, keys, value).Some?
    ensures Lookup(Obj(Assigned(fields, keys, value).value), keys) == Some(value)
    decreases |keys|
  {
    if |keys| > 1 {
      AssignedThenLookup(Section(fields, keys[0]).fields, keys[1..], value);
    }
  }

  /** After a successful `set(key_path, value)`, `get(key_path)` returns the value. */
  lemma SetThenGet(config: Fields, keyPath: string, value: Value, default: Value)
    requires Assigned(config, Split(keyPath, '.'), value).Some?
    ensures ValueAt(Assigned(config, Split(keyPath, '.'), value).value, keyPath, default) == value
  {
    AssignedThenLookup(config, Split(keyPath, '.'), value);
  }

  /** The two paths part ways: they differ at a position both have. */
  predicate Diverge(p: seq<string>, q: seq<string>)
  {
    exists j :: 0 <= j < |p| && j < |q| && p[j] != q[j]
  }

  /** An assignment changes no path that parts ways with the assigned one. */
  lemma {:induction false} AssignedKeepsOthers(fields: Fields, keys: seq<string>, value: Value, q: seq<string>)
    requires |keys| > 0 && Assigned(fields, keys, value).Some?
    requires Diverge(q, keys)
    ensures Lookup(Obj(Assigned(fields, keys, value).value), q) == Lookup(Obj(fields), q)
    decreases |keys|
  {
    var m := Assigned(fields, keys, value).value;
    var j :| 0 <= j < |q| && j < |keys| && q[j] != keys[j];
    if q[0] != keys[0] {
      var x := if |keys| == 1 then value else Obj(Assigned(Section(fields, keys[0]).fields, keys[1..], value).value);
      assert m == fields[keys[0] := x];
    } else {
      assert 1 <= j < |keys|;
      var sub := Section(fields, keys[0]);
      var m' := Assigned(sub.fields, keys[1..], value).value;
      assert m == fields[keys[0] := Obj(m')];
      assert Diverge(q[1..], keys[1..]) by {
        assert q[1..][j - 1] != keys[1..][j - 1];
      }
      AssignedKeepsOthers(sub.fields, keys[1..], value, q[1..]);
      assert Lookup(Obj(m), q) == Lookup(Obj(m'), q[1..]);
      if keys[0] !in fields {
        assert Lookup(Obj(map[]), q[1..]) == None by {
          assert |q[1..]| > 0;
        }
      }
    }
  }

  /**
   * An assignment fails exactly when a proper prefix of the path leads to a
   * value that is not a dictionary.
   */
  lemma {:induction false} AssignedFails(fields: Fields, keys: seq<string>, value: Value)
    requires |keys| > 0
    ensures Assigned(fields, keys, value).None? <==>
            exists j :: 1 <= j < |keys| && Lookup(Obj(fields), keys[..j]).Some? && !Lookup(Obj(fields), keys[..j]).value.Obj?
    decreases |keys|
  {
    if |keys| > 1 {
      var k := keys[0];
      var sub := Section(fields, k);
      assert forall j :: 1 <= j <= |keys| ==> keys[..j][0] == k && keys[..j][1..] == keys[1..][..j - 1];
      if k in fields {
        assert forall j :: 1 <= j <= |keys| ==> Lookup(Obj(fields), keys[..j]) == Lookup(sub, keys[1..][..j - 1]);
        if sub.Obj? {
          AssignedFails(sub.fields, keys[1..], value);
          if exists j :: 1 <= j < |keys| && Lookup(Obj(fields), keys[..j]).Some? && !Lookup(Obj(fields), keys[..j]).value.Obj? {
            var j :| 1 <= j < |keys| && Lookup(Obj(fields), keys[..j]).Some? && !Lookup(Obj(fields), keys[..j]).value.Obj?;
            assert j > 1;
            var l := j - 1;
            assert 1 <= l < |keys[1..]| && Lookup(Obj(sub.fields), keys[1..][..l]) == Lookup(Obj(fields), keys[..j]);
          }
          if Assigned(sub.fields, keys[1..], value).None? {
            var l :| 1 <= l < |keys[1..]| && Lookup(Obj(sub.fields), keys[1..][..l]).Some? &&
                     !Lookup(Obj(sub.fields), keys[1..][..l]).value.Obj?;
            assert Lookup(Obj(fields), keys[..l + 1]) == Lookup(Obj(sub.fields), keys[1..][..l]);
          }
        } else {
          assert Lookup(Obj(fields), keys[..1]) == Some(sub) by {
            assert keys[..1][1..] == [];
          }
        }
      } else {
        assert forall j :: 1 <= j <= |keys| ==> Lookup(Obj(fields), keys[..j]) == None;
        NewSectionSucceeds(keys[1..], value);
      }
    }
  }

  /** An assignment below a new empty section always succeeds. */
  lemma {:induction false} NewSectionSucceeds(keys: seq<string>, value: Value)
    requires |keys| > 0
    ensures Assigned(map[], keys, value).Some?
    decreases |keys|
  {
    if |keys| > 1 {
      NewSectionSucceeds(keys[1..], value);
    }
  }

  /** `_merge_configs`: the update's entries replace the base's, recursing where both sides are dictionaries. */
  function Merged(base: Fields, update: Fields): Fields
    decreases Obj(update)
  {
    map k | k in base.Keys + update.Keys ::
      if k !in update then base[k]
      else if k in base && base[k].Obj? && update[k].Obj? then Obj(Merged(base[k].fields, update[k].fields))
      else update[k]
  }

  /** Every value of the update that is not a dictionary ends up at its path. */
  lemma {:induction false} MergedLeaf(base: Fields, update: Fields, p: seq<string>, x: Value)
    requires Lookup(Obj(update), p) == Some(x) && !x.Obj?
    ensures Lookup(Obj(Merged(base, update)), p) == Some(x)
    decreases |p|
  {
    var k := p[0];
    var m := Merged(base, update);
    assert k in update;
    if k in base && base[k].Obj? && update[k].Obj? {
      assert m[k] == Obj(Merged(base[k].fields, update[k].fields));
      MergedLeaf(base[k].fields, update[k].fields, p[1..], x);
    } else {
      assert m[k] == update[k];
    }
  }

  /**
   * A base value stays where it is when the update has nothing at its path and
   * only dictionaries, if anything, above it.
   */
  lemma {:induction false} MergedKeeps(base: Fields, update: Fields, p: seq<string>, x: Value)
    requires |p| > 0
    requires Lookup(Obj(base), p) == Some(x)
    requires Lookup(Obj(update), p).None?
    requires forall j :: 1 <= j < |p| ==> Lookup(Obj(update), p[..j]).None? || Lookup(Obj(update), p[..j]).value.Obj?
    ensures Lookup(Obj(Merged(base, update)), p) == Some(x)
    decreases |p|
  {
    var k := p[0];
    var m := Merged(base, update);
    assert k in base;
    if k in update {
      assert |p| > 1;
      assert Lookup(Obj(update), p[..1]) == Some(update[k]) by {
        assert p[..1][0] == k && p[..1][1..] == [];
      }
      assert update[k].Obj?;
      assert base[k].Obj?;
      var p' := p[1..];
      forall j | 1 <= j < |p'|
        ensures Lookup(update[k], p'[..j]).None? || Lookup(update[k], p'[..j]).value.Obj?
      {
        assert p[..j + 1][0] == k && p[..j + 1][1..] == p'[..j];
        assert Lookup(Obj(update), p[..j + 1]) == Lookup(update[k], p'[..j]);
      }
      MergedKeeps(base[k].fields, update[k].fields, p', x);
    }
  }

  /** Merging a configuration with itself changes nothing. */
  lemma {:induction false} MergedSelf(fields: Fields)
    ensures Merged(fields, fields) == fields
    decreases Obj(fields)
  {
    forall k | k in fields && fields[k].Obj?
      ensures Merged(fields[k].fields, fields[k].fields) == fields[k].fields
    {
      MergedSelf(fields[k].fields);
    }
  }

  /** `_merge_configs`, entry by entry and recursively into sections. */
  method MergeConfigs(base: Fields, update: Fields) returns (merged: Fields)
    ensures merged == Merged(base, update)
    decreases Obj(update)
  {
    merged := base;
    var todo := update.Keys;
    while todo != {}
      invariant todo <= update.Keys
      invariant merged.Keys == base.Keys + (update.Keys - todo)
      invariant forall k :: k in merged && k !in update ==> merged[k] == base[k]
      invariant forall k :: k in todo && k in base ==> merged[k] == base[k]
      invariant forall k :: k in update && k !in todo ==> merged[k] == Merged(base, update)[k]
      decreases todo
    {
      var k :| k in todo;
      if k in merged && merged[k].Obj? && update[k].Obj? {
        var sub := MergeConfigs(merged[k].fields, update[k].fields);
        merged := merged[k := Obj(sub)];
      } else {
        merged := merged[k := update[k]];
      }
      todo := todo - {k};
    }
  }

  /**
   * The configuration file as it is found: absent (the defaults are written
   * out), valid JSON, not JSON (it is renamed to `.bak` and the defaults are
   * restored), or unreadable.
   */
  datatype ConfigFile = NoConfigFile | ConfigJson(json: Value) | NotJson | ConfigError

  /**
   * `load_config` on a configuration: valid JSON is merged in when it is a
   * dictionary (anything else raises in the merge and is ignored).
   */
  function Loaded(config: Fields, home: string, file: ConfigFile): Fields
  {
    match file
    case ConfigJson(v) => if v.Obj? then Merged(config, v.fields) else config
    case NotJson => DefaultConfig(home)
    case _ => config
  }

  /** The key lists of the typed getters. */
  lemma DottedKeys(a: string, b: string)
    requires '.' !in a && '.' !in b
    ensures Split(a + "." + b, '.') == [a, b]
  {
    SplitFirst(a, '.', b);
    SplitNone(b, '.');
  }

  /** A lookup along two keys. */
  lemma LookupTwo(f: Fields, a: string, b: string)
    ensures Lookup(Obj(f), [a, b]) == if a in f && f[a].Obj? && b in f[a].fields then Some(f[a].fields[b]) else None
  {
    assert [a, b][1..] == [b] && [b][1..] == [];
    assert Lookup(Obj(f), [a, b]) == if a in f then Lookup(f[a], [b]) else None;
    if a in f {
      assert Lookup(f[a], [b]) == if f[a].Obj? && b in f[a].fields then Lookup(f[a].fields[b], []) else None;
    }
  }

  /** Fresh defaults: a concurrency of 4, a 5 MB file-size limit, the Google ruleset, custom rules enabled. */
  lemma DefaultValues(home: string)
    ensures Lookup(Obj(DefaultConfig(home)), ["scanner", "concurrency"]) == Some(Int(4))
    ensures Lookup(Obj(DefaultConfig(home)), ["scanner", "max_file_size"]) == Some(Int(5242880))
    ensures Lookup(Obj(DefaultConfig(home)), ["rules", "default_ruleset"]) == Some(Str("Google"))
    ensures Lookup(Obj(DefaultConfig(home)), ["rules", "enable_custom_rules"]) == Some(Bool(true))
  {
    var d := DefaultConfig(home);
    assert "scanner"[0] != "ui"[0] && "rules"[1] != "report"[1] && "rules"[0] != "scanner"[0];
    LookupTwo(d, "scanner", "concurrency");
    LookupTwo(d, "scanner", "max_file_size");
    LookupTwo(d, "rules", "default_ruleset");
    LookupTwo(d, "rules", "enable_custom_rules");
  }

  /**
   * A user file that does not set the concurrency leaves the default of 4 in
   * place.
   */
  lemma UserFileKeepsConcurrency(home: string, user: Fields)
    requires "scanner" !in user || (user["scanner"].Obj? && "concurrency" !in user["scanner"].fields)
    ensures Lookup(Obj(Loaded(DefaultConfig(home), home, ConfigJson(Obj(user)))), ["scanner", "concurrency"]) == Some(Int(4))
  {
    var p := ["scanner", "concurrency"];
    DefaultValues(home);
    assert p[..1] == ["scanner"];
    assert Lookup(Obj(user), p[..1]).None? || Lookup(Obj(user), p[..1]).value.Obj?;
    MergedKeeps(DefaultConfig(home), user, p, Int(4));
  }

  /** The configuration manager: the configuration as loaded and changed since. */
  class ConfigManager {
    const home: string
    var config: Fields

    /** `__init__`: starts from the defaults and loads the configuration file. */
    constructor(home: string, file: ConfigFile)
      ensures this.home == home
      ensures config == Loaded(DefaultConfig(home), home, file)
    {
      this.home := home;
      config := DefaultConfig(home);
      new;
      LoadConfig(file);
    }

    /** `load_config`. */
    method LoadConfig(file: ConfigFile)
      modifies this
      ensures config == Loaded(old(config), home, file)
    {
      match file {
        case ConfigJson(v) =>
          if v.Obj? {
            config := MergeConfigs(config, v.fields);
          }
        case NotJson =>
          config := DefaultConfig(home);
        case NoConfigFile =>
        case ConfigError =>
      }
    }

    /** `reset_to_default`. */
    method ResetToDefault()
      modifies this
      ensures config == DefaultConfig(home)
    {
      config := DefaultConfig(home);
    }

    /** `get`: walks the keys of the path, falling back to the default. */
    method Get(keyPath: string, default: Value) returns (v: Value)
      ensures v == ValueAt(config, keyPath, default)
    {
      v := GetAt(Split(keyPath, '.'), default);
    }

    /** The walk of `get` over the keys of the path. */
    method GetAt(keys: seq<string>, default: Value) returns (v: Value)
      ensures v == Got(config, keys, default)
    {
      var cur := Obj(config);
      for i := 0 to |keys|
        invariant Lookup(Obj(config), keys) == Lookup(cur, keys[i..])
      {
        assert keys[i..][0] == keys[i] && keys[i..][1..] == keys[i + 1..];
        if !cur.Obj? || keys[i] !in cur.fields {
          return default;
        }
        cur := cur.fields[keys[i]];
      }
      return cur;
    }

    /**
     * `set`: walks to the parent of the last key, creating missing sections,
     * and assigns the value there; false when the walk meets a value that is
     * not a dictionary, and then nothing changes.
     */
    method Set(keyPath: string, value: Value) returns (ok: bool)
      modifies this
      ensures ok == Assigned(old(config), Split(keyPath, '.'), value).Some?
      ensures config == if ok then Assigned(old(config), Split(keyPath, '.'), value).value else old(config)
    {
      var keys := Split(keyPath, '.');
      var n := |keys|;
      var sections := [config];
      for i := 0 to n - 1
        invariant |sections| == i + 1 && sections[0] == config
        invariant forall j :: 0 <= j < i ==> Section(sections[j], keys[j]) == Obj(sections[j + 1])
      {
        var sub := Section(sections[i], keys[i]);
        if !sub.Obj? {
          WalkFails(sections, keys, value, i, 0);
          return false;
        }
        sections := sections + [sub.fields];
      }
      var m := sections[n - 1][keys[n - 1] := value];
      var i := n - 1;
      assert keys[i..] == [keys[n - 1]];
      while i > 0
        invariant 0 <= i <= n - 1
        invariant Assigned(sections[i], keys[i..], value) == Some(m)
      {
        i := i - 1;
        assert keys[i..][1..] == keys[i + 1..];
        m := sections[i][keys[i] := Obj(m)];
      }
      assert keys[0..] == keys;
      config := m;
      return true;
    }

    /**
     * The typed getters: `get` on a fixed path of two dot-free keys, which
     * `DottedKeys` shows is how the dotted path splits.
     */

    /** `get_excluded_dirs`: an empty list when unset. */
    method GetExcludedDirs() returns (v: Value)
      ensures v == Got(config, ["scanner", "exclude_dirs"], List([]))
    {
      v := GetAt(["scanner", "exclude_dirs"], List([]));
    }

    /** `get_excluded_files`: an empty list when unset. */
    method GetExcludedFiles() returns (v: Value)
      ensures v == Got(config, ["scanner", "exclude_files"], List([]))
    {
      v := GetAt(["scanner", "exclude_files"], List([]));
    }

    /** `get_max_file_size`: 5 MB when unset. */
    method GetMaxFileSize() returns (v: Value)
      ensures v == Got(config, ["scanner", "max_file_size"], Int(5242880))
    {
      v := GetAt(["scanner", "max_file_size"], Int(5242880));
    }

    /** `get_concurrency`: 4 when unset. */
    method GetConcurrency() returns (v: Value)
      ensures v == Got(config, ["scanner", "concurrency"], Int(4))
    {
      v := GetAt(["scanner", "concurrency"], Int(4));
    }

    /** `get_default_ruleset`: Google when unset. */
    method GetDefaultRuleset() returns (v: Value)
      ensures v == Got(config, ["rules", "default_ruleset"], Str("Google"))
    {
      v := GetAt(["rules", "default_ruleset"], Str("Google"));
    }

    /** `is_custom_rules_enabled`: enabled when unset. */
    method IsCustomRulesEnabled() returns (v: Value)
      ensures v == Got(config, ["rules", "enable_custom_rules"], Bool(true))
    {
      v := GetAt(["rules", "enable_custom_rules"], Bool(true));
    }
  }

  /**
   * When the walk of `set` has passed the sections `sections[j..i]` and the
   * value at the next key is not a dictionary, the assignment from section j
   * fails.
   */
  lemma {:induction false} WalkFails(sections: seq<Fields>, keys: seq<string>, value: Value, i: nat, j: nat)
    requires j <= i < |sections| && i + 1 < |keys|
    requires forall l :: j <= l < i ==> Section(sections[l], keys[l]) == Obj(sections[l + 1])
    requires !Section(sections[i], keys[i]).Obj?
    ensures Assigned(sections[j], keys[j..], value).None?
    decreases i - j
  {
    assert keys[j..][0] == keys[j] && keys[j..][1..] == keys[j + 1..];
    if j < i {
      WalkFails(sections, keys, value, i, j + 1);
    }
  }
}
