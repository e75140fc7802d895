/**
 * The rule manager: the table of rulesets in force (the built-in ones with
 * the user's custom overrides merged in), per-language rule lookup, rule
 * validation and the repair of missing or damaged rulesets.
 */
module Rules {
  import opened Text
  import opened PyNumbers
  import opened Rulesets

  /** Ruleset name to ruleset. */
  type Table = map<string, RuleMap>

  /** One item of a custom file's top-level object: "global" or a section key, and its value. */
  datatype Entry = Entry(key: string, value: RuleValue)

  /** The custom overrides of one ruleset: the items of its file, in file order. */
  type CustomSet = seq<Entry>

  /** One custom file, read for the built-in ruleset `name`. */
  datatype CustomFile = CustomFile(name: string, entries: CustomSet)

  /** `custom_rules`: the custom files in the order they were read, one per ruleset name. */
  type Customs = seq<CustomFile>

  // ---------------------------------------------------------------------
  // Loading

  /** `_define_fallback_rulesets`. */
  const FallbackRulesets: Table := map[
    "Google" := map["python" := Map(map[
      "variable_naming" := Str(SnakeCase), "function_naming" := Str(SnakeCase),
      "class_naming" := Str(PascalCase), "constant_naming" := Str(UpperSnake),
      "max_line_length" := Int(100), "expected_indent" := Int(4),
      "min_comment_coverage" := Real(0.1)])],
    "PEP8" := map["python" := Map(map[
      "variable_naming" := Str(SnakeCase), "function_naming" := Str(SnakeCase),
      "class_naming" := Str(PascalCase), "constant_naming" := Str(UpperSnake),
      "max_line_length" := Int(79), "expected_indent" := Int(4)])],
    "Airbnb" := map[],
    "Standard" := map[]
  ]

  /** `_load_builtin_rules`: a copy of the built-in table, or the fallback when that is empty. */
  function LoadBuiltinRules(all: Table): (r: Table)
    ensures all != map[] ==> r == all
    ensures all == map[] ==> r == FallbackRulesets
  {
    if all != map[] then all else FallbackRulesets
  }

  /** The built-in table is never empty, so the fallback rulesets are never loaded. */
  lemma BuiltinRulesLoaded()
    ensures LoadBuiltinRules(AllRulesets) == AllRulesets
  {
    assert "Google" in AllRulesets;
  }

  /** The order of the built-in ruleset names, in which the custom files are looked for. */
  const BuiltinOrder: seq<string> := ["Google", "PEP8", "Airbnb", "Standard"]

  /** The ruleset names that have a custom set. */
  function Names(customs: Customs): set<string>
  {
    set g | 0 <= g < |customs| :: customs[g].name
  }

  /**
   * `_load_custom_rules`: the custom files that exist, read for the built-in
   * names in their order; `None` stands for a failure while reading, which
   * leaves no custom rules at all.
   */
  function LoadCustomRules(files: Option<map<string, CustomSet>>): (r: Customs)
    ensures files.None? ==> r == []
    ensures files.Some? ==> Names(r) == BuiltinNames * files.value.Keys
    ensures files.Some? ==> forall g :: 0 <= g < |r| ==> r[g].name in files.value && r[g].entries == files.value[r[g].name]
    ensures forall g, h :: 0 <= g < h < |r| ==> r[g].name != r[h].name
  {
    match files
    case None => []
    case Some(f) =>
      assert (set n | n in BuiltinOrder && n in f) == BuiltinNames * f.Keys;
      ReadFiles(BuiltinOrder, f)
  }

  /** The files found for `names`, in the order of `names`. */
  function ReadFiles(names: seq<string>, f: map<string, CustomSet>): (r: Customs)
    requires forall a, b :: 0 <= a < b < |names| ==> names[a] != names[b]
    ensures Names(r) == set n | n in names && n in f
    ensures forall g :: 0 <= g < |r| ==> r[g].name in f && r[g].entries == f[r[g].name]
    ensures forall g, h :: 0 <= g < h < |r| ==> r[g].name != r[h].name
    decreases |names|
  {
    if |names| == 0 then []
    else
      var n := names[|names| - 1];
      var before := ReadFiles(names[..|names| - 1], f);
      assert (set m | m in names && m in f)
        == (set m | m in names[..|names| - 1] && m in f) + (if n in f then {n} else {}) by {
        assert names == names[..|names| - 1] + [n];
      }
      assert forall g :: 0 <= g < |before| ==> before[g].name != n;
      if n in f then
        assert Names(before + [CustomFile(n, f[n])]) == Names(before) + {n} by {
          var r := before + [CustomFile(n, f[n])];
          assert r[|before|].name == n;
          assert forall g :: 0 <= g < |before| ==> r[g] == before[g];
        }
        before + [CustomFile(n, f[n])]
      else before
  }

  // ---------------------------------------------------------------------
  // Per-language lookup

  /** The global layer of a ruleset: every top-level rule whose key is not a language. */
  function GlobalPart(rs: RuleMap): (g: RuleMap)
    ensures g.Keys == rs.Keys - LanguageKeys
    ensures forall k :: k in g ==> g[k] == rs[k]
  {
    map k | k in rs && k !in LanguageKeys :: rs[k]
  }

  /** The rules stored under `lang`, or none when that entry is absent or not a dictionary. */
  function LanguageRules(rs: RuleMap, lang: string): RuleMap
  {
    if lang in rs && rs[lang].Map? then rs[lang].m else map[]
  }

  /** `get_rules_for_language`: the language rules laid over the global layer, key by key. */
  function GetRulesForLanguage(rulesets: Table, name: string, lang: string): (r: RuleMap)
    ensures name !in rulesets ==> r == map[]
    ensures name in rulesets ==>
      r.Keys == (rulesets[name].Keys - LanguageKeys) + LanguageRules(rulesets[name], lang).Keys
    ensures name in rulesets ==> forall k :: k in r ==>
      r[k] == if k in LanguageRules(rulesets[name], lang) then LanguageRules(rulesets[name], lang)[k] else rulesets[name][k]
  {
    if name !in rulesets then map[] else GlobalPart(rulesets[name]) + LanguageRules(rulesets[name], lang)
  }

  /**
   * For a built-in ruleset, the rules of a language are the global rules
   * overlaid with that language's section, and just the global rules when
   * the ruleset has no section for it (which includes any key that is not
   * one of the six language names, such as "unknown", "c" or "c++").
   */
  lemma BuiltinRulesForLanguage(name: string, lang: string)
    requires name in AllRulesets
    ensures GetRulesForLanguage(AllRulesets, name, lang)
      == GlobalRules + (if lang in LanguageSections(name) then Section(name, lang) else map[])
  {
    var sections := map l | l in LanguageSections(name) :: Map(Section(name, l));
    assert AllRulesets[name] == Builtin(name) == GlobalRules + sections;
    GlobalKeysAreNotLanguages();
    SectionsAreLanguages(name);
    GlobalRulesAreFlat();
    LayeredLookup(AllRulesets, name, GlobalRules, sections, lang);
    if lang in LanguageSections(name) {
      SectionLookup(sections, lang, Section(name, lang));
    } else {
      assert lang !in sections;
    }
  }

  lemma SectionLookup(sections: RuleMap, lang: string, rules: RuleMap)
    requires lang in sections && sections[lang] == Map(rules)
    ensures LanguageRules(sections, lang) == rules
  {
  }

  /**
   * Looking up a ruleset made of a global layer and language sections gives
   * the global layer overlaid with the section of that language.
   */
  lemma LayeredLookup(rulesets: Table, name: string, global: RuleMap, sections: RuleMap, lang: string)
    requires name in rulesets && rulesets[name] == global + sections
    requires global.Keys !! LanguageKeys && sections.Keys <= LanguageKeys
    requires forall k :: k in global ==> !global[k].Map?
    ensures GetRulesForLanguage(rulesets, name, lang) == global + LanguageRules(sections, lang)
  {
    var rs := global + sections;
    assert GlobalPart(rs) == global;
    if lang in sections {
      assert rs[lang] == sections[lang];
    } else if lang in global {
      assert rs[lang] == global[lang];
    }
    assert LanguageRules(rs, lang) == LanguageRules(sections, lang);
  }

  /** Every built-in ruleset answers any language with a line length and an indent width. */
  lemma BuiltinHasLengthAndIndent(name: string, lang: string)
    requires name in AllRulesets
    ensures "max_line_length" in GetRulesForLanguage(AllRulesets, name, lang)
    ensures "expected_indent" in GetRulesForLanguage(AllRulesets, name, lang)
  {
    BuiltinRulesForLanguage(name, lang);
    GlobalDefaults();
  }

  // ---------------------------------------------------------------------
  // Validation

  const IntegerRules: set<string> := {
    "max_line_length", "expected_indent", "max_empty_lines",
    "blank_lines_after_imports", "blank_lines_before_class", "blank_lines_before_function"
  }

  const BooleanRules: set<string> := {
    "allow_trailing_whitespace", "allow_multiple_statements", "semicolon_required", "enable_custom_rules"
  }

  const BooleanWords: set<string> := {"true", "false", "yes", "no", "1", "0"}

  /**
   * `validate_rule`: pattern rules must compile (`compiles` is the regular
   * expression compiler's verdict), integer rules must parse as an integer
   * above 0, the coverage rule as a float in [0, 1], boolean rules as one of
   * six words in any case, and any other rule must be non-empty.  A value
   * that does not parse is invalid, as the caught exception makes it.
   */
  function ValidateRule(name: string, value: string, compiles: string -> bool): (ok: bool)
    ensures ok && !EndsWith(name, "_naming") ==> value != ""
  {
    if EndsWith(name, "_naming") then compiles(value)
    else if name in IntegerRules then
      match ParseInt(value)
      case None => false
      case Some(n) => n > 0
    else if name == "min_comment_coverage" then
      match ParseFloat(value)
      case None => false
      case Some(x) => InUnitInterval(x)
    else if name in BooleanRules then
      assert "" !in BooleanWords;
      Lower(value) in BooleanWords
    else value != ""
  }

  /** A pattern rule is valid exactly when its value compiles. */
  lemma ValidatePattern(name: string, value: string, compiles: string -> bool)
    requires EndsWith(name, "_naming")
    ensures ValidateRule(name, value, compiles) == compiles(value)
  {
  }

  /** An integer rule written in decimal digits is valid exactly when its value is positive. */
  lemma ValidateIntegerDigits(name: string, value: string, compiles: string -> bool)
    requires name in IntegerRules
    requires |value| > 0 && forall i :: 0 <= i < |value| ==> IsDigit(value[i])
    ensures IsDigitOrUnderscore(value)
    ensures ValidateRule(name, value, compiles) <==> DigitsValue(value) > 0
  {
    DigitStringParses(value);
    assert !EndsWith(name, "_naming");
  }

  /** A negative integer is never a valid integer rule. */
  lemma ValidateIntegerNegative(name: string, digits: string, compiles: string -> bool)
    requires name in IntegerRules
    requires |digits| > 0 && forall i :: 0 <= i < |digits| ==> IsDigit(digits[i])
    ensures !ValidateRule(name, "-" + digits, compiles)
  {
    NegativeDigitStringParses(digits);
    assert !EndsWith(name, "_naming");
  }

  /** The coverage rule is valid exactly when its value parses as a float in [0, 1]. */
  lemma ValidateCoverage(value: string, compiles: string -> bool)
    ensures ValidateRule("min_comment_coverage", value, compiles)
      <==> ParseFloat(value).Some? && InUnitInterval(ParseFloat(value).value)
  {
    assert !EndsWith("min_comment_coverage", "_naming");
    assert "min_comment_coverage" !in IntegerRules;
  }

  /** A coverage written `0.<digits>` is always valid. */
  lemma ValidateCoverageFraction(value: string, compiles: string -> bool)
    requires |value| >= 3 && value[0] == '0' && value[1] == '.' && IsDigitPart(value[2..])
    ensures ValidateRule("min_comment_coverage", value, compiles)
  {
    var f := value[2..];
    assert value[..1] == "0" && DigitsValue(value[..1]) == 0;
    ParseFractionValue(value, 1);
    DigitsValueBound(f);
    FractionInUnitInterval(DigitsValue(value[..1]), DigitsValue(f), DigitCount(f));
    ValidateCoverage(value, compiles);
  }

  lemma FractionInUnitInterval(whole: nat, c: nat, n: nat)
    requires whole == 0 && c < Pow10(n)
    ensures InUnitInterval(Finite(whole * Pow10(n) + c, -(n as int)))
  {
  }

  /** Any other rule is valid exactly when its value is not empty. */
  lemma ValidateOrdinary(name: string, value: string, compiles: string -> bool)
    requires !EndsWith(name, "_naming") && name !in IntegerRules
    requires name != "min_comment_coverage" && name !in BooleanRules
    ensures ValidateRule(name, value, compiles) <==> value != ""
  {
  }

  /** A boolean rule is valid exactly when its lower-cased value is one of the six words. */
  lemma ValidateBoolean(name: string, value: string, compiles: string -> bool)
    requires name in BooleanRules
    ensures ValidateRule(name, value, compiles) <==> Lower(value) in BooleanWords
  {
    assert !EndsWith(name, "_naming");
    assert name !in IntegerRules && name != "min_comment_coverage";
  }

  /** Case does not matter to a boolean rule. */
  lemma ValidateBooleanIgnoresCase(name: string, value: string, compiles: string -> bool)
    requires name in BooleanRules
    ensures ValidateRule(name, value, compiles) == ValidateRule(name, Lower(value), compiles)
  {
    ValidateBoolean(name, value, compiles);
    ValidateBoolean(name, Lower(value), compiles);
    LowerIdempotent(value);
  }

  lemma LowerIdempotent(s: string)
    ensures Lower(Lower(s)) == Lower(s)
  {
  }

  // ---------------------------------------------------------------------
  // Repair

  /** Defaults for a ruleset name that does not exist. */
  const UnknownRulesetDefaults: RuleMap := map[
    "python" := Map(map[
      "variable_naming" := Str(SnakeCase), "function_naming" := Str(SnakeCase),
      "class_naming" := Str(PascalCase), "constant_naming" := Str(UpperSnake),
      "max_line_length" := Int(100), "expected_indent" := Int(4),
      "min_comment_coverage" := Real(0.1)]),
    "javascript" := Map(map[
      "variable_naming" := Str(CamelCase), "function_naming" := Str(CamelCase),
      "class_naming" := Str(PascalCase), "max_line_length" := Int(100),
      "expected_indent" := Int(2)])
  ]

  /** The basic Python rules, used for an empty ruleset and for a damaged Python section. */
  const BasicPythonRules: RuleMap := map[
    "variable_naming" := Str(SnakeCase), "function_naming" := Str(SnakeCase),
    "class_naming" := Str(PascalCase), "max_line_length" := Int(100),
    "expected_indent" := Int(4)
  ]

  /** The basic JavaScript rules used for a damaged JavaScript section. */
  const BasicJavascriptRules: RuleMap := map[
    "variable_naming" := Str(CamelCase), "function_naming" := Str(CamelCase),
    "max_line_length" := Int(100), "expected_indent" := Int(2)
  ]

  /** `valid_languages`, in the order they are checked. */
  const ValidLanguages: seq<string> := ["python", "javascript", "cpp", "php", "go", "java"]

  /** A section that needs no repair: a non-empty dictionary. */
  predicate UsableSection(v: RuleValue)
  {
    v.Map? && v.m != map[]
  }

  function SectionDefault(lang: string): RuleMap
  {
    if lang == "python" then BasicPythonRules
    else if lang == "javascript" then BasicJavascriptRules
    else map[]
  }

  /** The ruleset with every language section among `langs` repaired. */
  function RepairedFor(rs: RuleMap, langs: set<string>): RuleMap
  {
    map k | k in rs :: if k in langs && !UsableSection(rs[k]) then Map(SectionDefault(k)) else rs[k]
  }

  /** `get_rules_for_ruleset` as a value. */
  function RulesForRuleset(rulesets: Table, name: string): RuleMap
  {
    if name !in rulesets then UnknownRulesetDefaults
    else if rulesets[name] == map[] then map["python" := Map(BasicPythonRules)]
    else RepairedFor(rulesets[name], LanguageKeys)
  }

  /** `get_rules_for_ruleset`: copy the ruleset, then repair its language sections one by one. */
  method GetRulesForRuleset(rulesets: Table, name: string) returns (r: RuleMap)
    ensures r == RulesForRuleset(rulesets, name)
  {
    if name !in rulesets {
      return UnknownRulesetDefaults;
    }
    var ruleset := rulesets[name];
    if ruleset == map[] {
      return map["python" := Map(BasicPythonRules)];
    }
    r := ruleset;
    for i := 0 to |ValidLanguages|
      invariant r == RepairedFor(ruleset, CheckedLanguages(i))
    {
      var lang := ValidLanguages[i];
      RepairStep(ruleset, r, i);
      if lang in r {
        var rules := r[lang];
        if !UsableSection(rules) {
          r := r[lang := Map(SectionDefault(lang))];
        }
      }
    }
    AllLanguagesChecked();
  }

  /** The languages the repair loop has looked at after `i` steps. */
  function CheckedLanguages(i: nat): set<string>
    requires i <= |ValidLanguages|
  {
    set j | 0 <= j < i :: ValidLanguages[j]
  }

  /** One step of the repair loop repairs one more language section. */
  lemma RepairStep(rs: RuleMap, r: RuleMap, i: nat)
    requires i < |ValidLanguages| && r == RepairedFor(rs, CheckedLanguages(i))
    ensures var lang := ValidLanguages[i];
      (if lang in r && !UsableSection(r[lang]) then r[lang := Map(SectionDefault(lang))] else r)
      == RepairedFor(rs, CheckedLanguages(i + 1))
  {
    var lang := ValidLanguages[i];
    assert CheckedLanguages(i + 1) == CheckedLanguages(i) + {lang};
    assert lang !in CheckedLanguages(i);
  }

  lemma AllLanguagesChecked()
    ensures CheckedLanguages(|ValidLanguages|) == LanguageKeys
  {
    assert ValidLanguages[0] == "python" && ValidLanguages[1] == "javascript";
    assert ValidLanguages[2] == "cpp" && ValidLanguages[3] == "php";
    assert ValidLanguages[4] == "go" && ValidLanguages[5] == "java";
  }

  /**
   * Repair keeps the ruleset's keys and its global rules and usable sections;
   * every language section becomes a dictionary, and the Python and
   * JavaScript ones become non-empty.
   */
  lemma RepairedShape(rs: RuleMap)
    ensures RepairedFor(rs, LanguageKeys).Keys == rs.Keys
    ensures forall k :: k in rs && (k !in LanguageKeys || UsableSection(rs[k])) ==> RepairedFor(rs, LanguageKeys)[k] == rs[k]
    ensures forall k :: k in rs && k in LanguageKeys ==> RepairedFor(rs, LanguageKeys)[k].Map?
    ensures forall k :: k in rs && (k == "python" || k == "javascript") ==> UsableSection(RepairedFor(rs, LanguageKeys)[k])
  {
    assert "max_line_length" in BasicPythonRules && "max_line_length" in BasicJavascriptRules;
  }

  /** Repairing a repaired ruleset changes nothing more. */
  lemma RepairIdempotent(rs: RuleMap)
    ensures RepairedFor(RepairedFor(rs, LanguageKeys), LanguageKeys) == RepairedFor(rs, LanguageKeys)
  {
    var r1 := RepairedFor(rs, LanguageKeys);
    forall k | k in r1
      ensures RepairedFor(r1, LanguageKeys)[k] == r1[k]
    {
      if k in LanguageKeys && !UsableSection(r1[k]) {
        assert !UsableSection(rs[k]);
      }
    }
  }

  /** An unknown name yields the Python and JavaScript defaults; an empty ruleset yields Python ones only. */
  lemma RulesForRulesetDefaults(rulesets: Table, name: string)
    ensures name !in rulesets ==> RulesForRuleset(rulesets, name).Keys == {"python", "javascript"}
    ensures name in rulesets && rulesets[name] == map[] ==> RulesForRuleset(rulesets, name).Keys == {"python"}
  {
  }

  /** A built-in ruleset is returned exactly as it is: all its sections are non-empty dictionaries. */
  lemma BuiltinNeedsNoRepair(name: string)
    requires name in AllRulesets
    ensures RulesForRuleset(AllRulesets, name) == AllRulesets[name]
  {
    var sections := map l | l in LanguageSections(name) :: Map(Section(name, l));
    assert AllRulesets[name] == Builtin(name) == GlobalRules + sections;
    GlobalKeysAreNotLanguages();
    SectionsNonEmpty(name);
    assert "max_line_length" in GlobalRules by {
      GlobalDefaults();
    }
    assert forall l :: l in sections ==> UsableSection(sections[l]);
    UsableNeedsNoRepair(GlobalRules, sections);
  }

  /** A non-empty ruleset whose language keys all hold non-empty dictionaries is left as it is. */
  lemma UsableNeedsNoRepair(global: RuleMap, sections: RuleMap)
    requires global.Keys !! LanguageKeys && global != map[]
    requires forall l :: l in sections ==> UsableSection(sections[l])
    ensures global + sections != map[]
    ensures RepairedFor(global + sections, LanguageKeys) == global + sections
  {
    var k :| k in global;
    assert k in global + sections;
  }

  lemma SectionsNonEmpty(name: string)
    ensures forall l :: l in LanguageSections(name) ==> Section(name, l) != map[]
  {
    forall l | l in LanguageSections(name)
      ensures Section(name, l) != map[]
    {
      assert "allow_error_naming" in Section(name, l) by {
        LanguageSectionFacts();
      }
    }
  }

  // ---------------------------------------------------------------------
  // Merging custom rules

  /** `rs` with every entry of `over` written into it, as the source's assignment loops do. */
  method Overlay(base: RuleMap, over: RuleMap) returns (r: RuleMap)
    ensures r == base + over
  {
    r := base;
    var todo := over.Keys;
    while todo != {}
      invariant todo <= over.Keys
      invariant r == base + map k | k in over && k !in todo :: over[k]
      decreases todo
    {
      var k :| k in todo;
      ghost var done := map k' | k' in over && k' !in todo :: over[k'];
      todo := todo - {k};
      assert (map k' | k' in over && k' !in todo :: over[k']) == done[k := over[k]];
      r := r[k := over[k]];
    }
    assert (map k | k in over && k !in todo :: over[k]) == over;
  }

  /** How far a merge got: the value as the writes left it, and whether every write was made. */
  datatype Merged<T> = Merged(result: T, complete: bool)

  /** The dictionary under `lang` to merge into: the existing one, or a new empty one. */
  function SectionOrEmpty(rs: RuleMap, lang: string): RuleMap
  {
    if lang in rs && rs[lang].Map? then rs[lang].m else map[]
  }

  /** A custom section can be merged under `lang` unless a value that is not a dictionary is there. */
  predicate Mergeable(rs: RuleMap, lang: string)
  {
    lang !in rs || rs[lang].Map?
  }

  /**
   * One entry of a custom set written into its ruleset.  The "global" rules
   * go to the top level; any other entry names a section, which is created
   * empty when missing and then receives the rules.  Taking the items of an
   * entry that is not a dictionary raises, and so does the first write into
   * an existing value that is not a dictionary; the empty section created
   * before that stays.
   */
  function EntryMerged(rs: RuleMap, e: Entry): Merged<RuleMap>
  {
    if e.key == "global" then
      if e.value.Map? then Merged(rs + e.value.m, true) else Merged(rs, false)
    else
      var created := if e.key in rs then rs else rs[e.key := Map(map[])];
      if !e.value.Map? then Merged(created, false)
      else if created[e.key].Map? then Merged(created[e.key := Map(created[e.key].m + e.value.m)], true)
      else Merged(created, e.value.m == map[])
  }

  /** A custom set's entries merged in file order; the first write that raises ends the merge. */
  function MergeEntries(rs: RuleMap, entries: CustomSet): Merged<RuleMap>
    decreases |entries|
  {
    if |entries| == 0 then Merged(rs, true)
    else
      var before := MergeEntries(rs, entries[..|entries| - 1]);
      if before.complete then EntryMerged(before.result, entries[|entries| - 1]) else before
  }

  /**
   * The custom sets merged into the table in the order they were loaded.  A
   * set whose name is not in the table is skipped; a write that raises ends
   * the whole merge and keeps the writes made before it.
   */
  function MergeCustoms(table: Table, customs: Customs): Merged<Table>
    decreases |customs|
  {
    if |customs| == 0 then Merged(table, true)
    else
      var before := MergeCustoms(table, customs[..|customs| - 1]);
      var c := customs[|customs| - 1];
      if !before.complete || c.name !in before.result then before
      else
        var m := MergeEntries(before.result[c.name], c.entries);
        Merged(before.result[c.name := m.result], m.complete)
  }

  /** One entry written into the ruleset, as the body of the loop over a custom set's items. */
  method MergeEntry(rs: RuleMap, e: Entry) returns (r: RuleMap, complete: bool)
    ensures Merged(r, complete) == EntryMerged(rs, e)
  {
    r := rs;
    if e.key == "global" {
      if e.value.Map? {
        r := Overlay(r, e.value.m);
        complete := true;
      } else {
        complete := false;
      }
      return;
    }
    if e.key !in r {
      r := r[e.key := Map(map[])];
    }
    if !e.value.Map? {
      complete := false;
    } else if r[e.key].Map? {
      var merged := Overlay(r[e.key].m, e.value.m);
      r := r[e.key := Map(merged)];
      complete := true;
    } else {
      // the first write raises; with no rules there is no write
      complete := e.value.m == map[];
    }
  }

  /** The loop over one custom set's items, left at the first write that raises. */
  method MergeRulesetLoop(rs: RuleMap, entries: CustomSet) returns (r: RuleMap, complete: bool)
    ensures Merged(r, complete) == MergeEntries(rs, entries)
  {
    r, complete := rs, true;
    var i := 0;
    while i < |entries| && complete
      invariant 0 <= i <= |entries|
      invariant Merged(r, complete) == MergeEntries(rs, entries[..i])
    {
      assert entries[..i + 1][..i] == entries[..i];
      r, complete := MergeEntry(r, entries[i]);
      i := i + 1;
    }
    EntriesStop(rs, entries, i);
  }

  /** The loop over the custom sets, left at the first write that raises. */
  method MergeAllLoop(table: Table, customs: Customs) returns (r: Table, complete: bool)
    ensures Merged(r, complete) == MergeCustoms(table, customs)
  {
    r, complete := table, true;
    var i := 0;
    while i < |customs| && complete
      invariant 0 <= i <= |customs|
      invariant Merged(r, complete) == MergeCustoms(table, customs[..i])
    {
      assert customs[..i + 1][..i] == customs[..i];
      if customs[i].name in r {
        var merged;
        merged, complete := MergeRulesetLoop(r[customs[i].name], customs[i].entries);
        r := r[customs[i].name := merged];
      }
      i := i + 1;
    }
    CustomsStop(table, customs, i);
  }

  /**
   * Once a write has raised, the later entries are never merged: the result
   * is what the entries before it left.
   */
  lemma {:induction false} EntriesStop(rs: RuleMap, entries: CustomSet, i: nat)
    requires i <= |entries|
    requires i < |entries| ==> !MergeEntries(rs, entries[..i]).complete
    ensures MergeEntries(rs, entries) == MergeEntries(rs, entries[..i])
    decreases |entries|
  {
    if i < |entries| {
      var n := |entries|;
      assert entries[..n - 1][..i] == entries[..i];
      EntriesStop(rs, entries[..n - 1], i);
    } else {
      assert entries[..i] == entries;
    }
  }

  /** Once a write has raised, no later custom set is merged. */
  lemma {:induction false} CustomsStop(table: Table, customs: Customs, i: nat)
    requires i <= |customs|
    requires i < |customs| ==> !MergeCustoms(table, customs[..i]).complete
    ensures MergeCustoms(table, customs) == MergeCustoms(table, customs[..i])
    decreases |customs|
  {
    if i < |customs| {
      var n := |customs|;
      assert customs[..n - 1][..i] == customs[..i];
      CustomsStop(table, customs[..n - 1], i);
    } else {
      assert customs[..i] == customs;
    }
  }

  /** Merging `a + b` merges `a`, then `b` into what `a` left when `a` finished. */
  lemma {:induction false} EntriesAppend(rs: RuleMap, a: CustomSet, b: CustomSet)
    ensures MergeEntries(rs, a + b)
      == var m := MergeEntries(rs, a); if m.complete then MergeEntries(m.result, b) else m
    decreases |b|
  {
    if |b| == 0 {
      assert a + b == a;
    } else {
      var n := |b|;
      EntriesAppend(rs, a, b[..n - 1]);
      assert (a + b)[..|a + b| - 1] == a + b[..n - 1];
      assert (a + b)[|a + b| - 1] == b[n - 1];
    }
  }

  /** Merging the custom sets `a + b` merges `a`, then `b` into what `a` left when `a` finished. */
  lemma {:induction false} CustomsAppend(table: Table, a: Customs, b: Customs)
    ensures MergeCustoms(table, a + b)
      == var m := MergeCustoms(table, a); if m.complete then MergeCustoms(m.result, b) else m
    decreases |b|
  {
    if |b| == 0 {
      assert a + b == a;
    } else {
      var n := |b|;
      CustomsAppend(table, a, b[..n - 1]);
      assert (a + b)[..|a + b| - 1] == a + b[..n - 1];
      assert (a + b)[|a + b| - 1] == b[n - 1];
    }
  }

  /** Whether merging entry `e` may write the top-level key `k`. */
  predicate WritesKey(e: Entry, k: string)
  {
    e.key == k || (e.key == "global" && e.value.Map? && k in e.value.m)
  }

  /**
   * A top-level key that no entry writes is neither added nor changed,
   * however far the merge gets.
   */
  lemma {:induction false} MergeKeepsUnnamedRules(rs: RuleMap, entries: CustomSet, k: string)
    requires forall j :: 0 <= j < |entries| ==> !WritesKey(entries[j], k)
    ensures k in MergeEntries(rs, entries).result <==> k in rs
    ensures k in rs ==> MergeEntries(rs, entries).result[k] == rs[k]
    decreases |entries|
  {
    if |entries| > 0 {
      var n := |entries|;
      assert !WritesKey(entries[n - 1], k);
      MergeKeepsUnnamedRules(rs, entries[..n - 1], k);
    }
  }

  /**
   * A custom global rule holds at the top level when the merge finishes,
   * provided no later entry of the set writes the same key: in file order,
   * the last write wins.
   */
  lemma MergeWritesGlobal(rs: RuleMap, entries: CustomSet, j: nat, k: string)
    requires j < |entries| && entries[j].key == "global" && entries[j].value.Map? && k in entries[j].value.m
    requires forall i :: j < i < |entries| ==> !WritesKey(entries[i], k)
    requires MergeEntries(rs, entries).complete
    ensures k in MergeEntries(rs, entries).result
    ensures MergeEntries(rs, entries).result[k] == entries[j].value.m[k]
  {
    var a, b := entries[..j + 1], entries[j + 1..];
    assert entries == a + b;
    EntriesAppend(rs, a, b);
    assert a[..j] == entries[..j];
    var m := MergeEntries(rs, a);
    assert k in m.result && m.result[k] == entries[j].value.m[k];
    forall i | 0 <= i < |b|
      ensures !WritesKey(b[i], k)
    {
      assert b[i] == entries[j + 1 + i];
    }
    MergeKeepsUnnamedRules(m.result, b, k);
  }

  /**
   * A custom section is laid over the section as the earlier entries left
   * it, key by key: its rules win and every other rule of that section keeps
   * its value, provided no later entry writes the same key.  An existing
   * value that is not a dictionary survives a finished merge only when the
   * custom section is empty.
   */
  lemma MergeWritesSection(rs: RuleMap, entries: CustomSet, j: nat)
    requires j < |entries| && entries[j].key != "global" && entries[j].value.Map?
    requires forall i :: j < i < |entries| ==> !WritesKey(entries[i], entries[j].key)
    requires MergeEntries(rs, entries).complete
    ensures var lang, before := entries[j].key, MergeEntries(rs, entries[..j]).result;
      lang in MergeEntries(rs, entries).result
      && (Mergeable(before, lang) ==>
            MergeEntries(rs, entries).result[lang] == Map(SectionOrEmpty(before, lang) + entries[j].value.m))
      && (!Mergeable(before, lang) ==>
            entries[j].value.m == map[] && MergeEntries(rs, entries).result[lang] == before[lang])
  {
    var lang := entries[j].key;
    var a, b := entries[..j + 1], entries[j + 1..];
    assert entries == a + b;
    EntriesAppend(rs, a, b);
    assert a[..j] == entries[..j];
    var m := MergeEntries(rs, a);
    forall i | 0 <= i < |b|
      ensures !WritesKey(b[i], lang)
    {
      assert b[i] == entries[j + 1 + i];
    }
    MergeKeepsUnnamedRules(m.result, b, lang);
  }

  /** Merging never adds or removes a ruleset name. */
  lemma {:induction false} CustomsKeys(table: Table, customs: Customs)
    ensures MergeCustoms(table, customs).result.Keys == table.Keys
    decreases |customs|
  {
    if |customs| > 0 {
      CustomsKeys(table, customs[..|customs| - 1]);
    }
  }

  /** A ruleset that no custom set names stays as it was. */
  lemma {:induction false} CustomsKeep(table: Table, customs: Customs, n: string)
    requires n in table
    requires forall g :: 0 <= g < |customs| ==> customs[g].name != n
    ensures n in MergeCustoms(table, customs).result && MergeCustoms(table, customs).result[n] == table[n]
    decreases |customs|
  {
    if |customs| > 0 {
      var k := |customs|;
      assert customs[k - 1].name != n;
      CustomsKeep(table, customs[..k - 1], n);
    }
  }

  /**
   * Merging keeps the table's ruleset names, and a ruleset with no custom
   * set stays as it was.
   */
  lemma MergeKeepsNames(table: Table, customs: Customs)
    ensures MergeCustoms(table, customs).result.Keys == table.Keys
    ensures forall n :: n in table && FileAt(customs, n).None? ==> MergeCustoms(table, customs).result[n] == table[n]
  {
    CustomsKeys(table, customs);
    forall n | n in table && FileAt(customs, n).None?
      ensures MergeCustoms(table, customs).result[n] == table[n]
    {
      CustomsKeep(table, customs, n);
    }
  }

  /**
   * The ruleset of a custom set that no later set shares a name with is what
   * merging its entries into the ruleset as the earlier sets left it gives,
   * when the merge finishes.
   */
  lemma MergedFileResult(table: Table, customs: Customs, f: nat)
    requires f < |customs| && customs[f].name in table
    requires forall g :: f < g < |customs| ==> customs[g].name != customs[f].name
    requires MergeCustoms(table, customs).complete
    ensures var name, before := customs[f].name, MergeCustoms(table, customs[..f]).result;
      name in before && name in MergeCustoms(table, customs).result
      && MergeEntries(before[name], customs[f].entries).complete
      && MergeCustoms(table, customs).result[name] == MergeEntries(before[name], customs[f].entries).result
  {
    var name := customs[f].name;
    var a, b := customs[..f + 1], customs[f + 1..];
    assert customs == a + b;
    CustomsAppend(table, a, b);
    assert a[..|a| - 1] == customs[..f];
    assert a[|a| - 1] == customs[f];
    CustomsKeys(table, customs[..f]);
    var m := MergeCustoms(table, a);
    forall g | 0 <= g < |b|
      ensures b[g].name != name
    {
      assert b[g] == customs[f + 1 + g];
    }
    CustomsKeep(m.result, b, name);
  }

  /**
   * A rule of a custom section reaches the rules of that language once the
   * merge finishes, provided no later custom set has the same name and no
   * later entry writes the section.
   */
  lemma MergedSectionRuleVisible(table: Table, customs: Customs, f: nat, j: nat, k: string)
    requires f < |customs| && customs[f].name in table
    requires forall g :: f < g < |customs| ==> customs[g].name != customs[f].name
    requires j < |customs[f].entries|
    requires customs[f].entries[j].key != "global" && customs[f].entries[j].value.Map?
    requires k in customs[f].entries[j].value.m
    requires forall i :: j < i < |customs[f].entries| ==> !WritesKey(customs[f].entries[i], customs[f].entries[j].key)
    requires MergeCustoms(table, customs).complete
    ensures var name, lang := customs[f].name, customs[f].entries[j].key;
      k in GetRulesForLanguage(MergeCustoms(table, customs).result, name, lang)
      && GetRulesForLanguage(MergeCustoms(table, customs).result, name, lang)[k] == customs[f].entries[j].value.m[k]
  {
    var name, e := customs[f].name, customs[f].entries;
    MergedFileResult(table, customs, f);
    var before := MergeCustoms(table, customs[..f]).result;
    var m := SectionRuleWritten(before[name], e, j, k);
    SectionRuleLookup(MergeCustoms(table, customs).result, name, e[j].key, m, k);
  }

  /** A rule of a custom section is in that section once the merge of its set finishes. */
  lemma SectionRuleWritten(rs: RuleMap, entries: CustomSet, j: nat, k: string) returns (m: RuleMap)
    requires j < |entries| && entries[j].key != "global" && entries[j].value.Map? && k in entries[j].value.m
    requires forall i :: j < i < |entries| ==> !WritesKey(entries[i], entries[j].key)
    requires MergeEntries(rs, entries).complete
    ensures entries[j].key in MergeEntries(rs, entries).result
    ensures MergeEntries(rs, entries).result[entries[j].key] == Map(m)
    ensures k in m && m[k] == entries[j].value.m[k]
  {
    MergeWritesSection(rs, entries, j);
    assert entries[j].value.m != map[];
    m := SectionOrEmpty(MergeEntries(rs, entries[..j]).result, entries[j].key) + entries[j].value.m;
  }

  /** A rule stored in a ruleset's section is what the lookup for that language answers. */
  lemma SectionRuleLookup(table: Table, name: string, lang: string, m: RuleMap, k: string)
    requires name in table && lang in table[name] && table[name][lang] == Map(m) && k in m
    ensures k in GetRulesForLanguage(table, name, lang) && GetRulesForLanguage(table, name, lang)[k] == m[k]
  {
    assert LanguageRules(table[name], lang) == m;
  }

  /**
   * A first entry that must be written into a top-level value that is not a
   * dictionary raises at once: nothing is written and nothing after it is
   * merged.
   */
  lemma ScalarSectionStops(rs: RuleMap, entries: CustomSet)
    requires |entries| > 0 && entries[0].key != "global"
    requires entries[0].key in rs && !rs[entries[0].key].Map?
    requires entries[0].value.Map? ==> entries[0].value.m != map[]
    ensures MergeEntries(rs, entries) == Merged(rs, false)
  {
    assert entries[..1][..0] == [];
    assert MergeEntries(rs, entries[..1]) == Merged(rs, false);
    EntriesStop(rs, entries, 1);
  }

  /**
   * With `{"max_line_length": {"x": 1}, "python": {"y": 2}}` as the Google
   * custom set, the write into the scalar `max_line_length` raises, the
   * `python` section is never merged and the table stays as it was.
   */
  lemma MergeStopsAtScalarRule(table: Table)
    requires "Google" in table && "max_line_length" in table["Google"] && !table["Google"]["max_line_length"].Map?
    ensures var m := MergeCustoms(table, [CustomFile("Google", [
              Entry("max_line_length", Map(map["x" := Int(1)])),
              Entry("python", Map(map["y" := Int(2)]))])]);
      !m.complete && m.result == table
  {
    var entries := [Entry("max_line_length", Map(map["x" := Int(1)])), Entry("python", Map(map["y" := Int(2)]))];
    assert "x" in entries[0].value.m;
    ScalarSectionStops(table["Google"], entries);
    SingleCustomStops(table, CustomFile("Google", entries));
  }

  /** The built-in Google ruleset holds the integer `max_line_length`, so that custom set merges nothing. */
  lemma BuiltinMergeStopsAtScalarRule()
    ensures var m := MergeCustoms(AllRulesets, [CustomFile("Google", [
              Entry("max_line_length", Map(map["x" := Int(1)])),
              Entry("python", Map(map["y" := Int(2)]))])]);
      !m.complete && m.result == AllRulesets
  {
    BuiltinLayering("Google");
    GlobalDefaults();
    MergeStopsAtScalarRule(AllRulesets);
  }

  /** A single custom set whose merge raises before any write leaves the table as it was. */
  lemma SingleCustomStops(table: Table, c: CustomFile)
    requires c.name in table && MergeEntries(table[c.name], c.entries) == Merged(table[c.name], false)
    ensures MergeCustoms(table, [c]) == Merged(table, false)
  {
    assert [c][..0] == [];
    assert table[c.name := table[c.name]] == table;
  }

  /**
   * Entries are merged in file order, so a later "global" rule overwrites a
   * section merged before it: `{"javascript": {"x": 2}, "global":
   * {"javascript": {"a": 1}}}` leaves exactly `{"a": 1}` under "javascript".
   */
  lemma LaterGlobalOverwritesSection(rs: RuleMap)
    requires Mergeable(rs, "javascript")
    ensures var m := MergeEntries(rs, [
              Entry("javascript", Map(map["x" := Int(2)])),
              Entry("global", Map(map["javascript" := Map(map["a" := Int(1)])]))]);
      m.complete && m.result["javascript"] == Map(map["a" := Int(1)])
  {
    var entries := [Entry("javascript", Map(map["x" := Int(2)])), Entry("global", Map(map["javascript" := Map(map["a" := Int(1)])]))];
    assert entries[..1][..0] == [];
    assert MergeEntries(rs, entries[..1]).complete;
    assert entries[..|entries| - 1] == entries[..1];
  }

  // ---------------------------------------------------------------------
  // The manager object

  /** The position of the first custom set named `name`, if any. */
  function FileAt(customs: Customs, name: string): (r: Option<nat>)
    ensures r.Some? ==> (r.value < |customs| && customs[r.value].name == name
      && (forall g :: 0 <= g < r.value ==> customs[g].name != name))
    ensures r.None? ==> forall g :: 0 <= g < |customs| ==> customs[g].name != name
  {
    FileFrom(customs, name, 0)
  }

  function FileFrom(customs: Customs, name: string, i: nat): (r: Option<nat>)
    requires i <= |customs|
    ensures r.Some? ==> (i <= r.value < |customs| && customs[r.value].name == name
      && (forall g :: i <= g < r.value ==> customs[g].name != name))
    ensures r.None? ==> forall g :: i <= g < |customs| ==> customs[g].name != name
    decreases |customs| - i
  {
    if i == |customs| then None
    else if customs[i].name == name then Some(i)
    else FileFrom(customs, name, i + 1)
  }

  /** The position of the first entry with key `key`, if any. */
  function EntryAt(entries: CustomSet, key: string): (r: Option<nat>)
    ensures r.Some? ==> (r.value < |entries| && entries[r.value].key == key
      && (forall g :: 0 <= g < r.value ==> entries[g].key != key))
    ensures r.None? ==> forall g :: 0 <= g < |entries| ==> entries[g].key != key
  {
    EntryFrom(entries, key, 0)
  }

  function EntryFrom(entries: CustomSet, key: string, i: nat): (r: Option<nat>)
    requires i <= |entries|
    ensures r.Some? ==> (i <= r.value < |entries| && entries[r.value].key == key
      && (forall g :: i <= g < r.value ==> entries[g].key != key))
    ensures r.None? ==> forall g :: i <= g < |entries| ==> entries[g].key != key
    decreases |entries| - i
  {
    if i == |entries| then None
    else if entries[i].key == key then Some(i)
    else EntryFrom(entries, key, i + 1)
  }

  /** The entries of the "Google" custom set, or none when there is no such set. */
  function GoogleEntries(customs: Customs): CustomSet
  {
    match FileAt(customs, "Google")
    case None => []
    case Some(i) => customs[i].entries
  }

  /** `customs` with the "Google" set's entries replaced in place, or the set added at the end. */
  function PutGoogle(customs: Customs, entries: CustomSet): Customs
  {
    match FileAt(customs, "Google")
    case None => customs + [CustomFile("Google", entries)]
    case Some(i) => customs[i := CustomFile("Google", entries)]
  }

  /**
   * `custom_rules` after `save_custom_rule` stores one value into the
   * "Google" custom set: a missing set or section is added at the end, an
   * existing one keeps its place.  `None` when the section exists but is
   * not a dictionary, where the item assignment raises.
   */
  function WithCustomRule(customs: Customs, lang: string, rule: string, value: RuleValue): Option<Customs>
  {
    var google := GoogleEntries(customs);
    var at := EntryAt(google, lang);
    if at.Some? && !google[at.value].value.Map? then None
    else Some(PutGoogle(customs, SavedEntries(google, lang, rule, value)))
  }

  /** Saving fails exactly when the "Google" set already holds a section `lang` that is not a dictionary. */
  lemma WithCustomRuleFails(customs: Customs, lang: string, rule: string, value: RuleValue)
    ensures WithCustomRule(customs, lang, rule, value).None?
      <==> EntryAt(GoogleEntries(customs), lang).Some?
           && !GoogleEntries(customs)[EntryAt(GoogleEntries(customs), lang).value].value.Map?
  {
  }

  /** The first custom set named `name` is at `x` when `x` holds one and none comes before it. */
  lemma FileAtIs(customs: Customs, name: string, x: nat)
    requires x < |customs| && customs[x].name == name
    requires forall g :: 0 <= g < x ==> customs[g].name != name
    ensures FileAt(customs, name) == Some(x)
  {
  }

  /** The first entry with key `key` is at `x` when `x` holds one and none comes before it. */
  lemma EntryAtIs(entries: CustomSet, key: string, x: nat)
    requires x < |entries| && entries[x].key == key
    requires forall g :: 0 <= g < x ==> entries[g].key != key
    ensures EntryAt(entries, key) == Some(x)
  {
  }

  /**
   * The entries the save puts back into the "Google" set.  A section there
   * that is not a dictionary makes the save raise before this is used.
   */
  function SavedEntries(google: CustomSet, lang: string, rule: string, value: RuleValue): CustomSet
  {
    match EntryAt(google, lang)
    case None => google + [Entry(lang, Map(map[rule := value]))]
    case Some(j) => google[j := Entry(lang, Map(if google[j].value.Map? then google[j].value.m[rule := value] else map[rule := value]))]
  }

  /** After a successful save the value is what the "Google" set's section `lang` holds for the rule. */
  lemma WithCustomRuleStores(customs: Customs, lang: string, rule: string, value: RuleValue)
    requires WithCustomRule(customs, lang, rule, value).Some?
    ensures var r := WithCustomRule(customs, lang, rule, value).value;
      var at := EntryAt(GoogleEntries(r), lang);
      at.Some? && GoogleEntries(r)[at.value].value.Map?
      && rule in GoogleEntries(r)[at.value].value.m
      && GoogleEntries(r)[at.value].value.m[rule] == value
  {
    var google := GoogleEntries(customs);
    var entries := SavedEntries(google, lang, rule, value);
    assert WithCustomRule(customs, lang, rule, value).value == PutGoogle(customs, entries);
    PutGoogleEntries(customs, entries);
    if EntryAt(google, lang).None? {
      EntryAtIs(entries, lang, |google|);
    } else {
      EntryAtIs(entries, lang, EntryAt(google, lang).value);
    }
  }

  /** The "Google" set put back is the one found afterwards, and every other set keeps its place. */
  lemma PutGoogleEntries(customs: Customs, entries: CustomSet)
    ensures GoogleEntries(PutGoogle(customs, entries)) == entries
    ensures |PutGoogle(customs, entries)| == if FileAt(customs, "Google").Some? then |customs| else |customs| + 1
    ensures forall g :: 0 <= g < |customs| && FileAt(customs, "Google") != Some(g) ==> PutGoogle(customs, entries)[g] == customs[g]
  {
    var r := PutGoogle(customs, entries);
    var at := if FileAt(customs, "Google").Some? then FileAt(customs, "Google").value else |customs|;
    assert forall g :: 0 <= g < at ==> r[g] == customs[g];
    FileAtIs(r, "Google", at);
  }

  /**
   * Saving touches no other custom set, no other section and no other rule,
   * and keeps the order of what was there.
   */
  lemma WithCustomRuleFrame(customs: Customs, lang: string, rule: string, value: RuleValue)
    requires WithCustomRule(customs, lang, rule, value).Some?
    ensures var r := WithCustomRule(customs, lang, rule, value).value;
      |r| == (if FileAt(customs, "Google").Some? then |customs| else |customs| + 1)
      && (forall g :: 0 <= g < |customs| && FileAt(customs, "Google") != Some(g) ==> r[g] == customs[g])
    ensures var google, after := GoogleEntries(customs), GoogleEntries(WithCustomRule(customs, lang, rule, value).value);
      |after| == (if EntryAt(google, lang).Some? then |google| else |google| + 1)
      && (forall i :: 0 <= i < |google| && EntryAt(google, lang) != Some(i) ==> after[i] == google[i])
    ensures var google, after := GoogleEntries(customs), GoogleEntries(WithCustomRule(customs, lang, rule, value).value);
      EntryAt(google, lang).Some? ==>
        var j := EntryAt(google, lang).value;
        after[j].key == lang && after[j].value.Map?
        && forall k :: k in google[j].value.m && k != rule ==> k in after[j].value.m && after[j].value.m[k] == google[j].value.m[k]
  {
    var google := GoogleEntries(customs);
    var entries := SavedEntries(google, lang, rule, value);
    assert WithCustomRule(customs, lang, rule, value).value == PutGoogle(customs, entries);
    PutGoogleEntries(customs, entries);
  }

  class RuleManager {
    var rulesets: Table
    var customRules: Customs

    /**
     * Loads the built-in rulesets and the custom files that could be read,
     * then merges them.
     */
    constructor (files: Option<map<string, CustomSet>>)
      ensures customRules == LoadCustomRules(files)
      ensures rulesets == MergeCustoms(AllRulesets, customRules).result
    {
      rulesets := LoadBuiltinRules(AllRulesets);
      customRules := LoadCustomRules(files);
      new;
      MergeCustomRules();
    }

    /**
     * `merge_custom_rules`: start again from the built-in table and write the
     * custom sets into it in order; a write that raises is logged and ends
     * the merge, keeping what was written before it.
     */
    method MergeCustomRules()
      modifies this
      ensures rulesets == MergeCustoms(AllRulesets, customRules).result
      ensures customRules == old(customRules)
    {
      var complete;
      rulesets, complete := MergeAllLoop(AllRulesets, customRules);
    }

    /**
     * `save_custom_rule`: stores the value in the "Google" custom set under
     * `lang` and merges again.  It answers false, changing nothing, when the
     * section there is not a dictionary.  Writing the file is left out.
     */
    method SaveCustomRule(ruleType: string, rule: string, value: RuleValue, lang: string) returns (ok: bool)
      modifies this
      ensures ok <==> WithCustomRule(old(customRules), lang, rule, value).Some?
      ensures ok ==> customRules == WithCustomRule(old(customRules), lang, rule, value).value
      ensures ok ==> rulesets == MergeCustoms(AllRulesets, customRules).result
      ensures !ok ==> customRules == old(customRules) && rulesets == old(rulesets)
    {
      var google := GoogleEntries(customRules);
      var at := EntryAt(google, lang);
      if at.None? {
        google := google + [Entry(lang, Map(map[rule := value]))];
      } else if google[at.value].value.Map? {
        google := google[at.value := Entry(lang, Map(google[at.value].value.m[rule := value]))];
      } else {
        return false;
      }
      customRules := PutGoogle(customRules, google);
      MergeCustomRules();
      ok := true;
    }

    /** `get_available_rulesets`. */
    function AvailableRulesets(): set<string>
      reads this
    {
      rulesets.Keys
    }
  }

  /** `get_available_languages`. */
  const AvailableLanguages: seq<string> := ["global", "python", "javascript", "cpp", "php", "go", "java"]

  /** The manager's table always holds exactly the four built-in names. */
  lemma ManagerNames(customs: Customs)
    ensures MergeCustoms(AllRulesets, customs).result.Keys == BuiltinNames
  {
    MergeKeepsNames(AllRulesets, customs);
  }
}
