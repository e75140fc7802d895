/**
 * The built-in rulesets (Google, PEP8, Airbnb, Standard). A ruleset is a
 * dictionary whose top level holds the global rules and whose language keys
 * ("python", "javascript", "cpp", "php", "go", "java") hold nested
 * dictionaries of language-specific rules.
 */
module Rulesets {
  import opened Text

  /** A rule value as the Python dictionaries hold it; regex patterns are plain strings. */
  datatype RuleValue =
    | Int(i: int)
    | Real(r: real)
    | Bool(b: bool)
    | Str(s: string)
    | Map(m: map<string, RuleValue>)

  type RuleMap = map<string, RuleValue>

  /** Python truthiness of a rule value. */
  predicate Truthy(v: RuleValue)
  {
    match v
    case Int(i) => i != 0
    case Real(r) => r != 0.0
    case Bool(b) => b
    case Str(s) => s != ""
    case Map(m) => m != map[]
  }

  /** The value as a Python integer; `bool` is a subclass of `int`. */
  function AsInt(v: RuleValue): Option<int>
  {
    match v
    case Int(i) => Some(i)
    case Bool(b) => Some(if b then 1 else 0)
    case _ => None
  }

  /** The value as a number that may be compared with a float. */
  function AsReal(v: RuleValue): Option<real>
  {
    match v
    case Int(i) => Some(i as real)
    case Bool(b) => Some(if b then 1.0 else 0.0)
    case Real(r) => Some(r)
    case _ => None
  }

  /** `rules.get(key, default)`. */
  function Get(rules: RuleMap, key: string, default: RuleValue): RuleValue
  {
    if key in rules then rules[key] else default
  }

  /** The keys that name a language section inside a ruleset. */
  const LanguageKeys: set<string> := {"python", "javascript", "cpp", "php", "go", "java"}

  const SnakeCase := @"^[a-z_][a-z0-9_]*$"
  const CamelCase := @"^[a-z][a-zA-Z0-9]*$"
  const PascalCase := @"^[A-Z][a-zA-Z0-9]*$"
  const UpperSnake := @"^[A-Z_][A-Z0-9_]*$"

  const GlobalRules: RuleMap := map[
    "function_naming" := Str(SnakeCase),
    "variable_naming" := Str(SnakeCase),
    "class_naming" := Str(PascalCase),
    "constant_naming" := Str(UpperSnake),
    "max_line_length" := Int(120),
    "expected_indent" := Int(4),
    "min_comment_coverage" := Real(0.1),
    "allow_trailing_whitespace" := Bool(false),
    "allow_multiple_statements" := Bool(false),
    "max_empty_lines" := Int(2),
    "allow_error_naming" := Bool(true)
  ]

  const GooglePython: RuleMap := map[
    "function_naming" := Str(SnakeCase), "variable_naming" := Str(SnakeCase),
    "class_naming" := Str(PascalCase), "constant_naming" := Str(UpperSnake),
    "max_line_length" := Int(120), "expected_indent" := Int(4),
    "min_comment_coverage" := Real(0.15), "docstring_style" := Str("google"),
    "allow_error_naming" := Bool(true)
  ]

  const GoogleJavascript: RuleMap := map[
    "function_naming" := Str(CamelCase), "variable_naming" := Str(CamelCase),
    "class_naming" := Str(PascalCase), "constant_naming" := Str(UpperSnake),
    "max_line_length" := Int(120), "expected_indent" := Int(2),
    "min_comment_coverage" := Real(0.1), "semicolon_required" := Bool(true),
    "allow_error_naming" := Bool(true)
  ]

  const GoogleCpp: RuleMap := map[
    "function_naming" := Str(CamelCase), "variable_naming" := Str(CamelCase),
    "class_naming" := Str(PascalCase), "constant_naming" := Str(UpperSnake),
    "max_line_length" := Int(120), "expected_indent" := Int(4),
    "min_comment_coverage" := Real(0.2), "header_guard_style" := Str("include_guard"),
    "allow_error_naming" := Bool(true)
  ]

  const GooglePhp: RuleMap := map[
    "function_naming" := Str(SnakeCase), "variable_naming" := Str(@"^\$[a-z_][a-z0-9_]*$"),
    "class_naming" := Str(PascalCase), "constant_naming" := Str(UpperSnake),
    "max_line_length" := Int(120), "expected_indent" := Int(4),
    "min_comment_coverage" := Real(0.1), "allow_error_naming" := Bool(true)
  ]

  const GoogleGo: RuleMap := map[
    "function_naming" := Str(PascalCase), "variable_naming" := Str(CamelCase),
    "type_naming" := Str(PascalCase), "constant_naming" := Str(UpperSnake),
    "max_line_length" := Int(120), "expected_indent" := Int(4),
    "min_comment_coverage" := Real(0.1), "allow_error_naming" := Bool(true)
  ]

  const GoogleJava: RuleMap := map[
    "function_naming" := Str(CamelCase), "variable_naming" := Str(CamelCase),
    "class_naming" := Str(PascalCase), "constant_naming" := Str(UpperSnake),
    "max_line_length" := Int(120), "expected_indent" := Int(4),
    "min_comment_coverage" := Real(0.15), "allow_error_naming" := Bool(true)
  ]

  const Pep8Python: RuleMap := map[
    "function_naming" := Str(SnakeCase), "variable_naming" := Str(SnakeCase),
    "class_naming" := Str(PascalCase), "constant_naming" := Str(UpperSnake),
    "max_line_length" := Int(120), "expected_indent" := Int(4),
    "min_comment_coverage" := Real(0.1),
    "blank_lines_after_imports" := Int(2), "blank_lines_before_class" := Int(2),
    "blank_lines_before_function" := Int(2), "allow_error_naming" := Bool(true)
  ]


  const AirbnbJavascript: RuleMap := map[
    "function_naming" := Str(CamelCase), "variable_naming" := Str(CamelCase),
    "class_naming" := Str(PascalCase), "constant_naming" := Str(UpperSnake),
    "max_line_length" := Int(120), "expected_indent" := Int(2),
    "min_comment_coverage" := Real(0.1), "semicolon_required" := Bool(false),
    "arrow_function_preference" := Str("always"), "allow_error_naming" := Bool(true)
  ]


  const StandardJavascript: RuleMap := map[
    "function_naming" := Str(CamelCase), "variable_naming" := Str(CamelCase),
    "class_naming" := Str(PascalCase), "constant_naming" := Str(UpperSnake),
    "max_line_length" := Int(120), "expected_indent" := Int(2),
    "min_comment_coverage" := Real(0.1), "semicolon_required" := Bool(false),
    "quotes_style" := Str("single"), "allow_error_naming" := Bool(true)
  ]


  /** The built-in ruleset names, the keys of `all_rulesets`. */
  const BuiltinNames: set<string> := {"Google", "PEP8", "Airbnb", "Standard"}

  /** The language sections each built-in ruleset adds on top of the global rules. */
  function LanguageSections(name: string): set<string>
  {
    if name == "Google" then LanguageKeys
    else if name == "PEP8" then {"python"}
    else if name == "Airbnb" || name == "Standard" then {"javascript"}
    else {}
  }

  /** The rules a built-in ruleset stores under one of its language keys. */
  function Section(name: string, lang: string): RuleMap
  {
    if name == "Google" then
      (if lang == "python" then GooglePython
       else if lang == "javascript" then GoogleJavascript
       else if lang == "cpp" then GoogleCpp
       else if lang == "php" then GooglePhp
       else if lang == "go" then GoogleGo
       else GoogleJava)
    else if name == "PEP8" then Pep8Python
    else if name == "Airbnb" then AirbnbJavascript
    else StandardJavascript
  }

  /** A built-in ruleset: `{**global_rules, <language>: {...}, ...}`. */
  function Builtin(name: string): RuleMap
  {
    GlobalRules + map l | l in LanguageSections(name) :: Map(Section(name, l))
  }

  /** `all_rulesets`. */
  const AllRulesets: map<string, RuleMap> := map n | n in BuiltinNames :: Builtin(n)

  /** Display names of the rule categories. */
  const TypeMapping: map<string, string> := map[
    "naming" := "命名规范",
    "style" := "代码风格",
    "comment" := "注释规范",
    "config" := "配置规范"
  ]

  lemma GlobalKeysAreNotLanguages()
    ensures GlobalRules.Keys !! LanguageKeys
  {
  }

  /** No global rule holds a dictionary. */
  lemma GlobalRulesAreFlat()
    ensures forall k :: k in GlobalRules ==> !GlobalRules[k].Map?
  {
  }

  /**
   * Every built-in ruleset is the global rules plus its language sections:
   * all global rules keep their global values, and every other key is one of
   * its language sections, holding a dictionary.
   */
  lemma BuiltinLayering(name: string)
    requires name in AllRulesets
    ensures AllRulesets[name].Keys == GlobalRules.Keys + LanguageSections(name)
    ensures forall k :: k in GlobalRules ==> AllRulesets[name][k] == GlobalRules[k]
    ensures forall l :: l in LanguageSections(name) ==> AllRulesets[name][l] == Map(Section(name, l))
  {
    GlobalKeysAreNotLanguages();
    SectionsAreLanguages(name);
    var sections := map l | l in LanguageSections(name) :: Map(Section(name, l));
    assert sections.Keys == LanguageSections(name);
    assert AllRulesets[name] == GlobalRules + sections;
    Layered(GlobalRules, sections, LanguageSections(name));
  }

  /** Layering `s` over `g`, where `s` has the keys `keys` and shares none with `g`. */
  lemma Layered<V>(g: map<string, V>, s: map<string, V>, keys: set<string>)
    requires s.Keys == keys && g.Keys !! keys
    ensures (g + s).Keys == g.Keys + keys
    ensures forall k :: k in g ==> (g + s)[k] == g[k]
    ensures forall l :: l in keys ==> (g + s)[l] == s[l]
  {
  }

  lemma SectionsAreLanguages(name: string)
    ensures LanguageSections(name) <= LanguageKeys
  {
  }

  /** The global defaults: 120 columns, 4-space indent, 10% comment coverage, error names allowed. */
  lemma GlobalDefaults()
    ensures GlobalRules["max_line_length"] == Int(120)
    ensures GlobalRules["expected_indent"] == Int(4)
    ensures GlobalRules["min_comment_coverage"] == Real(0.1)
    ensures GlobalRules["allow_error_naming"] == Bool(true)
    ensures GlobalRules["function_naming"] == Str(SnakeCase) && GlobalRules["class_naming"] == Str(PascalCase)
    ensures GlobalRules["variable_naming"] == Str(SnakeCase) && GlobalRules["constant_naming"] == Str(UpperSnake)
    ensures "semicolon_required" !in GlobalRules && "indentation" !in GlobalRules
  {
  }

  /**
   * Every JavaScript section uses a 2-space indent; Google requires
   * semicolons while Airbnb and Standard do not.
   */
  lemma JavascriptSections()
    ensures Section("Google", "javascript")["expected_indent"] == Int(2)
    ensures Section("Airbnb", "javascript")["expected_indent"] == Int(2)
    ensures Section("Standard", "javascript")["expected_indent"] == Int(2)
    ensures Section("Google", "javascript")["semicolon_required"] == Bool(true)
    ensures Section("Airbnb", "javascript")["semicolon_required"] == Bool(false)
    ensures Section("Standard", "javascript")["semicolon_required"] == Bool(false)
  {
  }

  /**
   * Every language section of every built-in ruleset allows names containing
   * "Error", and the Go section names types with `type_naming` instead of
   * `class_naming`.
   */
  lemma LanguageSectionFacts()
    ensures GooglePython["allow_error_naming"] == GoogleJavascript["allow_error_naming"]
      == GoogleCpp["allow_error_naming"] == GooglePhp["allow_error_naming"]
      == GoogleGo["allow_error_naming"] == GoogleJava["allow_error_naming"]
      == Pep8Python["allow_error_naming"] == AirbnbJavascript["allow_error_naming"]
      == StandardJavascript["allow_error_naming"] == Bool(true)
    ensures "type_naming" in GoogleGo && "class_naming" !in GoogleGo
  {
  }
}
