/**
 * The Python parser.  `ast.parse` is a parameter of the model (`PyAst`): a
 * syntax error with its message, or the function and class definitions the
 * visitor meets, in visiting order, and the import statements among the
 * module's top-level statements.  `re.match` is the `Matcher` parameter.
 *
 * The visitor's `visit_Name` asks whether an `ast.Name` node has a `name`
 * attribute, which it never has (the identifier is in `id`), so the parser
 * extracts no variables and no constants.
 */
module PythonParser {
  import opened Text
  import opened Rulesets
  import opened Rules
  import opened BaseParser

  /** A top-level import: `import a.b, c` or `from m import x` (`module` is `None` for `from . import x`). */
  datatype ImportNode = Import(names: seq<string>, line: int) | ImportFrom(fromModule: Option<string>, line: int)

  /** What `ast.parse` and the visitor yield for a file. */
  datatype PyAst =
    | SyntaxError(message: string)
    | Tree(functionDefs: seq<Entity>, classDefs: seq<Entity>, imports: seq<ImportNode>)

  /** The dictionary `parse` returns. */
  datatype Parsed =
    | Parsed(functions: seq<Entity>, variables: seq<Entity>, classes: seq<Entity>, constants: seq<Entity>,
             imports: seq<ImportNode>, content: string)
    | ParseFailed(errorMessage: string, content: string)

  // ---------------------------------------------------------------------
  // Name deduplication

  /** The names of the entities, in order. */
  function Names(es: seq<Entity>): (r: seq<string>)
    ensures |r| == |es|
    ensures forall i :: 0 <= i < |es| ==> r[i] == es[i].name
  {
    if |es| == 0 then [] else Names(es[..|es| - 1]) + [es[|es| - 1].name]
  }

  /** Where an entity named `name` sits in `es`, if anywhere. */
  function IndexOfName(es: seq<Entity>, name: string): (r: Option<nat>)
    ensures r.Some? ==> r.value < |es| && es[r.value].name == name
    ensures r.None? ==> name !in Names(es)
  {
    if |es| == 0 then None
    else if es[|es| - 1].name == name then Some(|es| - 1)
    else IndexOfName(es[..|es| - 1], name)
  }

  /** One step of `{f['name']: f for f in es}`: a known name takes the new entity in its old place. */
  function Record(acc: seq<Entity>, e: Entity): seq<Entity>
  {
    match IndexOfName(acc, e.name)
    case Some(k) => acc[k := e]
    case None => acc + [e]
  }

  /** `list({f['name']: f for f in es}.values())`. */
  function DedupByName(es: seq<Entity>): seq<Entity>
  {
    if |es| == 0 then [] else Record(DedupByName(es[..|es| - 1]), es[|es| - 1])
  }

  /** The reference order: every name where it first occurs, later repeats dropped. */
  function FirstOccurrences(ns: seq<string>): seq<string>
  {
    if |ns| == 0 then []
    else
      var before := FirstOccurrences(ns[..|ns| - 1]);
      if ns[|ns| - 1] in before then before else before + [ns[|ns| - 1]]
  }

  /** The last entity of `es` named `name`. */
  function LastNamed(es: seq<Entity>, name: string): Option<Entity>
  {
    if |es| == 0 then None
    else if es[|es| - 1].name == name then Some(es[|es| - 1])
    else LastNamed(es[..|es| - 1], name)
  }

  lemma RecordNames(acc: seq<Entity>, e: Entity)
    ensures Names(Record(acc, e)) == if e.name in Names(acc) then Names(acc) else Names(acc) + [e.name]
  {
    match IndexOfName(acc, e.name)
    case Some(k) =>
      assert Names(acc[k := e]) == Names(acc);
    case None =>
  }

  /**
   * Deduplication keeps each name once, in the order of its first
   * occurrence, holding the entity of its last occurrence (and so that
   * occurrence's line).
   */
  lemma {:induction false} DedupMeaning(es: seq<Entity>)
    ensures Names(DedupByName(es)) == FirstOccurrences(Names(es))
    ensures forall k :: 0 <= k < |DedupByName(es)| ==> LastNamed(es, DedupByName(es)[k].name) == Some(DedupByName(es)[k])
  {
    if |es| > 0 {
      var init, e := es[..|es| - 1], es[|es| - 1];
      DedupMeaning(init);
      RecordNames(DedupByName(init), e);
      assert Names(es)[..|es| - 1] == Names(init);
      forall k | 0 <= k < |DedupByName(es)|
        ensures LastNamed(es, DedupByName(es)[k].name) == Some(DedupByName(es)[k])
      {
        RecordKeepsLast(es, DedupByName(init), k);
      }
    }
  }

  /** After one more entity, every kept entity is still the last of its name. */
  lemma RecordKeepsLast(es: seq<Entity>, acc: seq<Entity>, k: nat)
    requires |es| > 0
    requires Names(acc) == FirstOccurrences(Names(es[..|es| - 1]))
    requires forall j :: 0 <= j < |acc| ==> LastNamed(es[..|es| - 1], acc[j].name) == Some(acc[j])
    requires k < |Record(acc, es[|es| - 1])|
    ensures LastNamed(es, Record(acc, es[|es| - 1])[k].name) == Some(Record(acc, es[|es| - 1])[k])
  {
    var e := es[|es| - 1];
    var r := Record(acc, e);
    match IndexOfName(acc, e.name)
    case Some(j) =>
      if k != j {
        assert r[k] == acc[k];
        FirstOccurrencesDistinct(Names(es[..|es| - 1]), k, j);
        assert Names(acc)[k] != Names(acc)[j];
      }
    case None =>
      if k < |acc| {
        assert r[k] == acc[k];
        assert acc[k].name in Names(acc);
      }
  }

  /** The reference order repeats no name. */
  lemma {:induction false} FirstOccurrencesDistinct(ns: seq<string>, a: nat, b: nat)
    requires a < |FirstOccurrences(ns)| && b < |FirstOccurrences(ns)| && a != b
    ensures FirstOccurrences(ns)[a] != FirstOccurrences(ns)[b]
  {
    var before := FirstOccurrences(ns[..|ns| - 1]);
    if ns[|ns| - 1] !in before && (a == |before| || b == |before|) {
      if a == |before| {
        assert FirstOccurrences(ns)[b] == before[b];
      } else {
        assert FirstOccurrences(ns)[a] == before[a];
      }
    } else {
      FirstOccurrencesDistinct(ns[..|ns| - 1], a, b);
    }
  }

  /** The reference order holds every name, and only names, of the input. */
  lemma {:induction false} FirstOccurrencesMembers(ns: seq<string>)
    ensures forall n :: n in FirstOccurrences(ns) <==> n in ns
  {
    if |ns| > 0 {
      FirstOccurrencesMembers(ns[..|ns| - 1]);
      assert ns == ns[..|ns| - 1] + [ns[|ns| - 1]];
    }
  }

  /** `parse`: deduplicated function and class lists, and (see above) no variables or constants. */
  function Parse(content: string, ast: PyAst): Parsed
  {
    match ast
    case SyntaxError(message) => ParseFailed(message, content)
    case Tree(functionDefs, classDefs, imports) =>
      Parsed(DedupByName(functionDefs), [], DedupByName(classDefs), [], imports, content)
  }

  // ---------------------------------------------------------------------
  // Tab indentation

  /** The violation for line `i`, which starts with a tab. */
  function TabViolation(i: nat): Violation
  {
    Violation("使用制表符缩进", TabIndent, Some(i + 1), None)
  }

  predicate StartsWithTab(line: string)
  {
    |line| > 0 && line[0] == '\t'
  }

  /** What line `i` adds to the tab scan. */
  function TabAt(line: string, i: nat): seq<Violation>
  {
    if StartsWithTab(line) then [TabViolation(i)] else []
  }

  /** The tab violations among the first `n` lines, in order. */
  function TabLines(lines: seq<string>, n: nat): seq<Violation>
    requires n <= |lines|
  {
    if n == 0 then [] else TabLines(lines, n - 1) + TabAt(lines[n - 1], n - 1)
  }

  method CheckTabIndentation(content: string) returns (vs: seq<Violation>)
    ensures vs == TabLines(Lines(content), |Lines(content)|)
  {
    vs := ScanTabs(Lines(content));
  }

  /** The loop of `_check_tab_indentation`. */
  method ScanTabs(lines: seq<string>) returns (vs: seq<Violation>)
    ensures vs == TabLines(lines, |lines|)
  {
    vs := [];
    for i := 0 to |lines|
      invariant vs == TabLines(lines, i)
    {
      if StartsWithTab(lines[i]) {
        vs := vs + [TabViolation(i)];
      }
    }
  }

  /** Every line starting with a tab is reported once, at its 1-based number, and nothing else is. */
  lemma TabsExact(lines: seq<string>)
    ensures forall v :: v in TabLines(lines, |lines|) ==>
      v.line.Some? && 1 <= v.line.value <= |lines| && StartsWithTab(lines[v.line.value - 1]) && v == TabViolation(v.line.value - 1)
    ensures forall i :: 0 <= i < |lines| && StartsWithTab(lines[i]) ==> TabViolation(i) in TabLines(lines, |lines|)
    ensures OnAscendingLines(TabLines(lines, |lines|))
  {
    TabsSound(lines, |lines|);
    TabsComplete(lines);
    TabsOrdered(lines, |lines|);
    IncreaseIsAscending(TabLines(lines, |lines|));
  }

  /** Every line starting with a tab is reported. */
  lemma TabsComplete(lines: seq<string>)
    ensures forall i :: 0 <= i < |lines| && StartsWithTab(lines[i]) ==> TabViolation(i) in TabLines(lines, |lines|)
  {
    forall i | 0 <= i < |lines| && StartsWithTab(lines[i])
      ensures TabViolation(i) in TabLines(lines, |lines|)
    {
      TabsPrefix(lines, i + 1, |lines|);
      assert TabAt(lines[i], i) == [TabViolation(i)];
      InPrefix(TabLines(lines, i), TabAt(lines[i], i), TabViolation(i), TabLines(lines, |lines|));
    }
  }

  lemma {:induction false} TabsSound(lines: seq<string>, n: nat)
    requires n <= |lines|
    ensures forall v :: v in TabLines(lines, n) ==>
      v.line.Some? && 1 <= v.line.value <= n && StartsWithTab(lines[v.line.value - 1]) && v == TabViolation(v.line.value - 1)
  {
    if n > 0 {
      TabsSound(lines, n - 1);
    }
  }

  lemma {:induction false} TabsPrefix(lines: seq<string>, m: nat, n: nat)
    requires m <= n <= |lines|
    ensures TabLines(lines, m) <= TabLines(lines, n)
  {
    if m < n {
      TabsPrefix(lines, m, n - 1);
      PrefixOfAppend(TabLines(lines, n - 1), TabAt(lines[n - 1], n - 1));
    }
  }

  lemma {:induction false} TabsOrdered(lines: seq<string>, n: nat)
    requires n <= |lines|
    ensures LinesIncrease(TabLines(lines, n)) && EndsBy(TabLines(lines, n), n)
  {
    if n > 0 {
      TabsOrdered(lines, n - 1);
      StepIncrease(TabLines(lines, n - 1), TabAt(lines[n - 1], n - 1), n - 1);
    }
  }

  // ---------------------------------------------------------------------
  // Import order

  /** The twelve module names the parser treats as the standard library. */
  const StdModules: set<string> := {"os", "sys", "re", "math", "datetime", "collections",
    "json", "csv", "io", "random", "itertools", "functools"}

  predicate IsStd(moduleName: string)
  {
    moduleName in StdModules
  }

  /** An import as the check sees it: the first dotted component of the module, and the line. */
  datatype ImportEntry = ImportEntry(moduleName: string, line: int)

  /** The first dotted component of a module name (`name.split('.')[0]`). */
  function TopModule(name: string): string
  {
    BeforeFirst(name, ".")
  }

  /** The entries of one import node: one per alias of an `import`, one for a `from` import. */
  function EntriesOf(node: ImportNode): seq<ImportEntry>
  {
    match node
    case Import(names, line) => AliasEntries(names, line)
    case ImportFrom(m, line) => [ImportEntry(match m case Some(name) => TopModule(name) case None => "", line)]
  }

  function AliasEntries(names: seq<string>, line: int): (r: seq<ImportEntry>)
    ensures |r| == |names|
    ensures forall i :: 0 <= i < |names| ==> r[i] == ImportEntry(TopModule(names[i]), line)
  {
    if |names| == 0 then [] else AliasEntries(names[..|names| - 1], line) + [ImportEntry(TopModule(names[|names| - 1]), line)]
  }

  /** The entries of the first `n` import nodes, in order. */
  function Entries(nodes: seq<ImportNode>, n: nat): seq<ImportEntry>
    requires n <= |nodes|
  {
    if n == 0 then [] else Entries(nodes, n - 1) + EntriesOf(nodes[n - 1])
  }

  /** Standard-library entries rank 0, all others 1: a descent is a standard import right after another. */
  function Ranks(es: seq<ImportEntry>): (r: seq<Option<nat>>)
    ensures |r| == |es|
    ensures forall i :: 0 <= i < |es| ==> r[i] == Some(if IsStd(es[i].moduleName) then 0 else 1)
  {
    if |es| == 0 then [] else Ranks(es[..|es| - 1]) + [Some(if IsStd(es[|es| - 1].moduleName) then 0 else 1)]
  }

  /** A standard-library entry `i` whose predecessor is not one. */
  predicate StdAfterOther(es: seq<ImportEntry>, i: nat)
  {
    0 < i < |es| && IsStd(es[i].moduleName) && !IsStd(es[i - 1].moduleName)
  }

  /** `_check_import_order`: at most one violation, at the first standard import that follows a non-standard one. */
  function ImportOrder(nodes: seq<ImportNode>): Option<Violation>
  {
    OrderViolation(Entries(nodes, |nodes|))
  }

  /** The import-order verdict on the flattened entries. */
  function OrderViolation(es: seq<ImportEntry>): Option<Violation>
  {
    match FirstDescent(Ranks(es), 0)
    case None => None
    case Some(i) => if i < |es| then Some(StdViolation(es[i])) else None
  }

  function StdViolation(e: ImportEntry): Violation
  {
    Violation("导入语句顺序不规范", StdlibAfterThirdParty(e.moduleName), Some(e.line), None)
  }

  method CheckImportOrder(nodes: seq<ImportNode>) returns (r: Option<Violation>)
    ensures r == ImportOrder(nodes)
  {
    var es := CollectEntries(nodes);
    var found := FindDescent(Ranks(es));
    match found
    case None => r := None;
    case Some(i) => r := Some(StdViolation(es[i]));
  }

  /** The loop of `_check_import_order` over the top-level statements. */
  method CollectEntries(nodes: seq<ImportNode>) returns (es: seq<ImportEntry>)
    ensures es == Entries(nodes, |nodes|)
  {
    es := [];
    for k := 0 to |nodes|
      invariant es == Entries(nodes, k)
    {
      var more := NodeEntries(nodes[k]);
      es := es + more;
    }
  }

  method NodeEntries(node: ImportNode) returns (more: seq<ImportEntry>)
    ensures more == EntriesOf(node)
  {
    match node
    case Import(names, line) =>
      more := [];
      for a := 0 to |names|
        invariant more == AliasEntries(names[..a], line)
      {
        assert names[..a + 1][..a] == names[..a];
        more := more + [ImportEntry(TopModule(names[a]), line)];
      }
      assert names[..|names|] == names;
    case ImportFrom(m, line) =>
      more := [ImportEntry(match m case Some(name) => TopModule(name) case None => "", line)];
  }

  /** With a descent at `i - 1`, the ranks of the entries say the standard import `i` follows a non-standard one. */
  lemma DescentIsStdAfterOther(es: seq<ImportEntry>, i: nat)
    requires 0 < i < |es|
    ensures Descends(Ranks(es), i - 1) <==> StdAfterOther(es, i)
  {
    var r := Ranks(es);
    var a, b := IsStd(es[i - 1].moduleName), IsStd(es[i].moduleName);
    assert r[i - 1] == Some(if a then 0 else 1) && r[i] == Some(if b then 0 else 1);
    assert Descends(r, i - 1) <==> !a && b;
  }

  /** The first standard import after a non-standard one is the one reported. */
  lemma OrderViolationAt(es: seq<ImportEntry>, i: nat)
    requires StdAfterOther(es, i)
    requires forall j :: 0 < j < i ==> !StdAfterOther(es, j)
    ensures OrderViolation(es) == Some(StdViolation(es[i]))
  {
    DescentIsStdAfterOther(es, i);
    forall j | 0 <= j < i - 1
      ensures !Descends(Ranks(es), j)
    {
      DescentIsStdAfterOther(es, j + 1);
    }
    FirstDescentIs(Ranks(es), 0, i);
  }

  /** Without a standard import after a non-standard one, nothing is reported. */
  lemma OrderViolationNone(es: seq<ImportEntry>)
    requires forall i :: 0 < i < |es| ==> !StdAfterOther(es, i)
    ensures OrderViolation(es) == None
  {
    match FirstDescent(Ranks(es), 0)
    case None =>
    case Some(i) =>
      DescentIsStdAfterOther(es, i);
  }

  // ---------------------------------------------------------------------
  // check_rules

  /** The settings a Python parser freezes at construction, with their defaults. */
  datatype Settings = Settings(
    functionPattern: RuleValue, variablePattern: RuleValue, classPattern: RuleValue, constantPattern: RuleValue,
    maxLineLength: RuleValue, expectedIndent: RuleValue, minCommentCoverage: RuleValue)

  function SettingsOf(rules: RuleMap): Settings
  {
    Settings(
      Get(rules, "function_naming", Str(SnakeCase)), Get(rules, "variable_naming", Str(SnakeCase)),
      Get(rules, "class_naming", Str(PascalCase)), Get(rules, "constant_naming", Str(UpperSnake)),
      Get(rules, "max_line_length", Int(100)), Get(rules, "expected_indent", Int(4)),
      Get(rules, "min_comment_coverage", Real(0.1)))
  }

  const FunctionExplanation := "函数名称应使用蛇形命名法（全部小写字母，单词间用下划线分隔）"
  const VariableExplanation := "变量名称应使用蛇形命名法（全部小写字母，单词间用下划线分隔）"
  const ClassExplanation := "类名称应使用驼峰命名法（首字母大写，其余单词首字母大写，无下划线）"
  const ConstantExplanation := "常量名称应使用全大写字母，单词间用下划线分隔"

  /**
   * The checks of `check_rules` in the order it runs them: the naming
   * checks (functions, variables, classes, constants, none exempt), then
   * line length, indentation, comment coverage, tabs and import order.
   * `rules` is the parser's current rule map, which only the indentation
   * check reads; everything else comes from the frozen settings.
   */
  function Checks(s: Settings, rules: RuleMap, parsed: Parsed, matches: Matcher): (r: seq<Option<seq<Violation>>>)
    requires parsed.Parsed?
    ensures |r| == 9
  {
    NamingChecks(s, parsed, matches) + LineChecks(s, rules, parsed)
  }

  /** The four naming checks. */
  function NamingChecks(s: Settings, parsed: Parsed, matches: Matcher): (r: seq<Option<seq<Violation>>>)
    requires parsed.Parsed?
    ensures |r| == 4
  {
    [ NamingViolations(parsed.functions, |parsed.functions|, s.functionPattern, "函数命名不规范", false, matches, Explained(FunctionExplanation)),
      NamingViolations(parsed.variables, |parsed.variables|, s.variablePattern, "变量命名不规范", false, matches, Explained(VariableExplanation)),
      NamingViolations(parsed.classes, |parsed.classes|, s.classPattern, "类命名不规范", false, matches, Explained(ClassExplanation)),
      NamingViolations(parsed.constants, |parsed.constants|, s.constantPattern, "常量命名不规范", false, matches, Explained(ConstantExplanation))]
  }

  /** The checks on the content's lines, after the naming checks. */
  function LineChecks(s: Settings, rules: RuleMap, parsed: Parsed): (r: seq<Option<seq<Violation>>>)
    requires parsed.Parsed?
    ensures |r| == 5
  {
    var lines := Lines(parsed.content);
    [ LineLengthCheck(lines, s.maxLineLength),
      IndentationCheck(lines, s.expectedIndent, rules, false),
      CoverageList(parsed.content, s.minCommentCoverage),
      Some(TabLines(lines, |lines|)),
      Some(AsList(ImportOrder(parsed.imports)))]
  }

  method RunNamingChecks(s: Settings, parsed: Parsed, matches: Matcher) returns (parts: seq<Option<seq<Violation>>>)
    requires parsed.Parsed?
    ensures parts == NamingChecks(s, parsed, matches)
  {
    var f := CheckNames(parsed.functions, s.functionPattern, "函数命名不规范", false, matches, Explained(FunctionExplanation));
    var v := CheckNames(parsed.variables, s.variablePattern, "变量命名不规范", false, matches, Explained(VariableExplanation));
    var c := CheckNames(parsed.classes, s.classPattern, "类命名不规范", false, matches, Explained(ClassExplanation));
    var k := CheckNames(parsed.constants, s.constantPattern, "常量命名不规范", false, matches, Explained(ConstantExplanation));
    parts := [f, v, c, k];
  }

  method RunLineChecks(s: Settings, rules: RuleMap, parsed: Parsed) returns (parts: seq<Option<seq<Violation>>>)
    requires parsed.Parsed?
    ensures parts == LineChecks(s, rules, parsed)
  {
    var lines := Lines(parsed.content);
    var length := ScanLineLength(lines, s.maxLineLength);
    var indent := ScanIndentation(lines, s.expectedIndent, rules, false);
    var coverage := CheckCommentCoverage(parsed.content, s.minCommentCoverage);
    var tabs := ScanTabs(lines);
    var order := CheckImportOrder(parsed.imports);
    parts := [length, indent, match coverage case None => None case Some(v) => Some(AsList(v)), Some(tabs), Some(AsList(order))];
  }

  /** `check_rules`: the parse-error violation alone, or the checks' results one after another. */
  function CheckRulesSpec(s: Settings, rules: RuleMap, parsed: Parsed, matches: Matcher): Option<seq<Violation>>
  {
    match parsed
    case ParseFailed(message, _) => Some([ParseErrorViolation(message)])
    case Parsed(_, _, _, _, _, _) => Chain(Checks(s, rules, parsed, matches))
  }

  /** `PythonParser`: the rules it was built with, frozen settings, and the rules `set_rules` may replace. */
  class Parser {
    var rules: RuleMap
    const ruleset: string
    const settings: Settings

    constructor (table: Table, ruleset: string)
      ensures rules == BaseRules(table, ruleset) && this.ruleset == ruleset
      ensures settings == SettingsOf(BaseRules(table, ruleset))
    {
      this.ruleset := ruleset;
      rules := BaseRules(table, ruleset);
      settings := SettingsOf(BaseRules(table, ruleset));
    }

    /** `set_rules`: replaces the rules; the settings frozen at construction stay. */
    method SetRules(rules: RuleMap)
      modifies this
      ensures this.rules == rules
    {
      this.rules := rules;
    }

    /** `check_rules`, check by check, appending to one list. */
    method CheckRules(parsed: Parsed, matches: Matcher) returns (r: Option<seq<Violation>>)
      ensures r == CheckRulesSpec(settings, rules, parsed, matches)
    {
      if parsed.ParseFailed? {
        return Some([ParseErrorViolation(parsed.errorMessage)]);
      }
      var naming := RunNamingChecks(settings, parsed, matches);
      var others := RunLineChecks(settings, rules, parsed);
      r := Chain(naming + others);
    }

    /** `scan` on a file read as `file`, whose syntax tree is `ast`. */
    method Scan(file: Option<string>, ast: PyAst, matches: Matcher) returns (vs: seq<Violation>)
      ensures file.Some? ==> vs == ScanOutcome(file, CheckRulesSpec(settings, rules, Parse(file.value, ast), matches), rules)
      ensures file.None? ==> vs == [ScanError()]
    {
      if file.None? {
        return [ScanError()];
      }
      var content := file.value;
      if Strip(content) == [] {
        StripEmptyIffBlank(content);
        return [];
      }
      StripEmptyIffBlank(content);
      var checked := CheckRules(Parse(content, ast), matches);
      vs := FinishScan(content, checked, rules);
    }
  }

  /** A syntax error yields exactly the parse-error violation, whatever the rules. */
  lemma SyntaxErrorSingle(s: Settings, rules: RuleMap, content: string, message: string, matches: Matcher)
    ensures CheckRulesSpec(s, rules, Parse(content, SyntaxError(message)), matches) == Some([ParseErrorViolation(message)])
  {
  }

  /** A Python file never has variable or constant naming violations. */
  lemma NoVariablesOrConstants(content: string, ast: PyAst)
    requires ast.Tree?
    ensures Parse(content, ast).variables == [] && Parse(content, ast).constants == []
  {
  }

  /**
   * There is no `allow_error_naming` exemption: a function whose name
   * contains "Error" and fails the pattern is still reported, at its line.
   */
  lemma ErrorNamesStillChecked(s: Settings, rules: RuleMap, parsed: Parsed, matches: Matcher, e: Entity)
    requires parsed.Parsed? && e in parsed.functions && ErrorName(e.name)
    requires s.functionPattern.Str? && matches(s.functionPattern.s, e.name) == Some(false)
    requires forall f :: f in parsed.functions ==> matches(s.functionPattern.s, f.name).Some?
    requires NamingViolations(parsed.functions, |parsed.functions|, s.functionPattern, "函数命名不规范", false, matches, Explained(FunctionExplanation)).Some?
    ensures Violation("函数命名不规范", ExplainedName(FunctionExplanation, e.name), Some(e.line), None)
      in NamingViolations(parsed.functions, |parsed.functions|, s.functionPattern, "函数命名不规范", false, matches, Explained(FunctionExplanation)).value
  {
    var fs := parsed.functions;
    var i :| 0 <= i < |fs| && fs[i] == e;
    NamingExact(fs, |fs|, s.functionPattern, "函数命名不规范", false, matches, Explained(FunctionExplanation));
    ReportedMembers(fs, |fs|, s.functionPattern, "函数命名不规范", false, matches, Explained(FunctionExplanation));
  }

  /**
   * When every check answers, the function naming violations come first
   * and the tab violations then the import-order violation come last.
   */
  lemma CheckOrder(s: Settings, rules: RuleMap, parsed: Parsed, matches: Matcher)
    requires parsed.Parsed? && CheckRulesSpec(s, rules, parsed, matches).Some?
    ensures var r := CheckRulesSpec(s, rules, parsed, matches).value;
      var lines := Lines(parsed.content);
      var tail := TabLines(lines, |lines|) + AsList(ImportOrder(parsed.imports));
      NamingViolations(parsed.functions, |parsed.functions|, s.functionPattern, "函数命名不规范", false, matches, Explained(FunctionExplanation)).Some?
      && NamingViolations(parsed.functions, |parsed.functions|, s.functionPattern, "函数命名不规范", false, matches, Explained(FunctionExplanation)).value <= r
      && |tail| <= |r| && r[|r| - |tail|..] == tail
  {
    var parts := Checks(s, rules, parsed, matches);
    ChainEnds(parts);
    assert parts[0] == NamingChecks(s, parsed, matches)[0];
    assert parts[7] == LineChecks(s, rules, parsed)[3] && parts[8] == LineChecks(s, rules, parsed)[4];
  }

  /**
   * The settings are frozen from the rules the parser was built with: for a
   * built-in ruleset that is the global layer, so the Python section (for
   * Google, a 15% coverage minimum) is never used; `set_rules` does not
   * change them.
   */
  lemma BuiltinSettings(name: string)
    requires name in AllRulesets
    ensures SettingsOf(BaseRules(AllRulesets, name)).minCommentCoverage == Real(0.1)
    ensures SettingsOf(BaseRules(AllRulesets, name)).maxLineLength == Int(120)
    ensures SettingsOf(BaseRules(AllRulesets, name)).expectedIndent == Int(4)
    ensures SettingsOf(BaseRules(AllRulesets, name)).functionPattern == Str(SnakeCase)
  {
    BuiltinParsersSeeGlobalLayer(name);
    GlobalSettings();
  }

  lemma GlobalSettings()
    ensures SettingsOf(GlobalRules).minCommentCoverage == Real(0.1)
    ensures SettingsOf(GlobalRules).maxLineLength == Int(120)
    ensures SettingsOf(GlobalRules).expectedIndent == Int(4)
    ensures SettingsOf(GlobalRules).functionPattern == Str(SnakeCase)
  {
    GlobalDefaults();
  }
}
