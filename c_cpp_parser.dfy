/**
 * The C/C++ parser.  Its extractors and its brace check run regular
 * expressions (`Pattern`) over each line; `re.finditer` is the `Finder`
 * parameter and `re.search` the `Searcher` parameter.  The include-order
 * categories, which only look at the characters after `#include`, are
 * written out.  Running cpplint is a
 * parameter of `Scan`: its standard output, or `None` when it is missing.
 */
module CCppParser {
  import opened Text
  import opened Rulesets
  import opened Rules
  import opened BaseParser

  /** The dictionary `parse` returns. */
  datatype Parsed =
    | Parsed(functions: seq<Entity>, variables: seq<Entity>, classes: seq<Entity>, constants: seq<Entity>, content: string)
    | ParseFailed(errorMessage: string, content: string)

  // ---------------------------------------------------------------------
  // Extraction

  /** The parser's regular expressions; `Regex` gives each one's text. */
  datatype Pattern =
    | FunctionPattern | VariablePattern | ArrayPattern | ClassPattern | ConstPattern | DefinePattern
    | FunctionBracePattern | TypeBracePattern | ControlBracePattern

  function Regex(p: Pattern): string
  {
    match p
    case FunctionPattern => @"(\w+(?:\s*<[^>]*>)?\s+)+(\w+)\s*\([^)]*\)\s*(?:const\s*)?\{?"
    case VariablePattern => @"(\w+(?:\s*<[^>]*>)?(?:\s+\*)?\s+)+([a-z_]\w*)\s*(?:=|;)"
    case ArrayPattern => @"(\w+(?:\s*<[^>]*>)?\s+)+([a-z_]\w*)\s*\[[^\]]*\]\s*(?:=|;)"
    case ClassPattern => @"(class|struct)\s+(\w+)"
    case ConstPattern => @"const\s+(\w+(?:\s*<[^>]*>)?(?:\s+\*)?)\s+([A-Z_][A-Z0-9_]*)\s*="
    case DefinePattern => @"#define\s+([A-Z_][A-Z0-9_]*)"
    case FunctionBracePattern => @"(\w+(?:\s*<[^>]*>)?\s+)+(\w+)\s*\([^)]*\)\s*(?:const\s*)?\{"
    case TypeBracePattern => @"(class|struct)\s+(\w+)\s*\{"
    case ControlBracePattern => @"(if|else|for|while|switch)\s*\([^)]*\)\s*\{"
  }

  /** The four extractors of `parse`. */
  datatype Extractor = Functions | Variables | Classes | Constants

  /** A line mentioning `class` or `struct` yields no functions. */
  predicate DeclaresType(line: string)
  {
    Contains(line, "class") || Contains(line, "struct")
  }

  /** The entities one extractor takes from line `i`. */
  function FoundAt(x: Extractor, line: string, i: nat, find: Finder<Pattern>): seq<Entity>
  {
    match x
    case Functions => if DeclaresType(line) then [] else AtLine(find(FunctionPattern, line), i + 1)
    case Variables =>
      if LooksLikeFunction(line) then []
      else AtLine(NotUpper(find(VariablePattern, line)), i + 1) + AtLine(NotUpper(find(ArrayPattern, line)), i + 1)
    case Classes => AtLine(find(ClassPattern, line), i + 1)
    case Constants => AtLine(find(ConstPattern, line), i + 1) + AtLine(find(DefinePattern, line), i + 1)
  }

  /** One extractor as a function of the line and its index. */
  function LineFinds(x: Extractor, find: Finder<Pattern>): LineExtractor
  {
    (line: string, i: nat) => FoundAt(x, line, i, find)
  }

  /** The entities an extractor takes from all lines, line by line. */
  function Extracted(x: Extractor, lines: seq<string>, find: Finder<Pattern>): seq<Entity>
  {
    FromLines(LineFinds(x, find), lines, |lines|)
  }

  /** `_extract_functions`, `_extract_variables`, `_extract_classes` or `_extract_constants`. */
  method Extract(x: Extractor, content: string, find: Finder<Pattern>) returns (es: seq<Entity>)
    ensures es == Extracted(x, Lines(content), find)
  {
    var lines := Lines(content);
    var f := LineFinds(x, find);
    es := [];
    for i := 0 to |lines|
      invariant es == FromLines(f, lines, i)
    {
      var found := ExtractFromLine(x, lines[i], i, find);
      FromLinesStep(f, lines, i, found);
      es := es + found;
    }
  }

  /** The body of an extractor's line loop. */
  method ExtractFromLine(x: Extractor, line: string, i: nat, find: Finder<Pattern>) returns (found: seq<Entity>)
    ensures found == FoundAt(x, line, i, find)
  {
    found := [];
    match x
    case Functions =>
      if !DeclaresType(line) {
        found := Matches(find(FunctionPattern, line), i + 1);
      }
    case Variables =>
      if !LooksLikeFunction(line) {
        var simple := MatchesNotUpper(find(VariablePattern, line), i + 1);
        var arrays := MatchesNotUpper(find(ArrayPattern, line), i + 1);
        found := simple + arrays;
      }
    case Classes =>
      found := Matches(find(ClassPattern, line), i + 1);
    case Constants =>
      var consts := Matches(find(ConstPattern, line), i + 1);
      var defines := Matches(find(DefinePattern, line), i + 1);
      found := consts + defines;
  }

  /** An extractor's result holds exactly what it takes from each line, at that line's number. */
  lemma ExtractedExact(x: Extractor, lines: seq<string>, find: Finder<Pattern>)
    ensures forall e :: e in Extracted(x, lines, find) ==>
      1 <= e.line <= |lines| && e in FoundAt(x, lines[e.line - 1], e.line - 1, find)
    ensures forall i, e :: 0 <= i < |lines| && e in FoundAt(x, lines[i], i, find) ==> e in Extracted(x, lines, find)
  {
    LineFindsNumbered(x, find);
    FromLinesNumbered(LineFinds(x, find), lines, |lines|);
  }

  /** Everything an extractor takes from any line carries that line's number. */
  lemma LineFindsNumbered(x: Extractor, find: Finder<Pattern>)
    ensures forall line, i: nat, e :: e in LineFinds(x, find)(line, i) ==> e.line == i + 1
  {
    forall line, i: nat, e | e in LineFinds(x, find)(line, i)
      ensures e.line == i + 1
    {
      FoundAtNumber(x, line, i, find);
    }
  }

  /** Everything an extractor takes from line `i` carries the number `i + 1`. */
  lemma FoundAtNumber(x: Extractor, line: string, i: nat, find: Finder<Pattern>)
    ensures forall e :: e in FoundAt(x, line, i, find) ==> e.line == i + 1
  {
    match x
    case Functions =>
      AtLineMembers(find(FunctionPattern, line), i + 1);
    case Variables =>
      AtLineMembers(NotUpper(find(VariablePattern, line)), i + 1);
      AtLineMembers(NotUpper(find(ArrayPattern, line)), i + 1);
      NotUpperMembers(find(VariablePattern, line));
      NotUpperMembers(find(ArrayPattern, line));
    case Classes =>
      AtLineMembers(find(ClassPattern, line), i + 1);
    case Constants =>
      AtLineMembers(find(ConstPattern, line), i + 1);
      AtLineMembers(find(DefinePattern, line), i + 1);
  }

  /**
   * What each extractor takes from a line: functions only from lines without
   * `class` or `struct`; variables only from lines that do not look like a
   * function, and never all-upper-case names; classes and constants from
   * every line.
   */
  lemma FoundAtLine(x: Extractor, line: string, i: nat, find: Finder<Pattern>)
    ensures x == Functions ==> forall e :: e in FoundAt(x, line, i, find) <==>
      !DeclaresType(line) && e.line == i + 1 && e.name in find(FunctionPattern, line)
    ensures x == Variables ==> forall e :: e in FoundAt(x, line, i, find) <==>
      !LooksLikeFunction(line) && e.line == i + 1 && !IsUpper(e.name)
      && (e.name in find(VariablePattern, line) || e.name in find(ArrayPattern, line))
    ensures x == Classes ==> forall e :: e in FoundAt(x, line, i, find) <==>
      e.line == i + 1 && e.name in find(ClassPattern, line)
    ensures x == Constants ==> forall e :: e in FoundAt(x, line, i, find) <==>
      e.line == i + 1 && (e.name in find(ConstPattern, line) || e.name in find(DefinePattern, line))
  {
    match x
    case Functions =>
      AtLineMembers(find(FunctionPattern, line), i + 1);
    case Variables =>
      AtLineMembers(NotUpper(find(VariablePattern, line)), i + 1);
      AtLineMembers(NotUpper(find(ArrayPattern, line)), i + 1);
      NotUpperMembers(find(VariablePattern, line));
      NotUpperMembers(find(ArrayPattern, line));
    case Classes =>
      AtLineMembers(find(ClassPattern, line), i + 1);
    case Constants =>
      AtLineMembers(find(ConstPattern, line), i + 1);
      AtLineMembers(find(DefinePattern, line), i + 1);
  }

  /** `parse`: the four extractors over the content; it never reports a parse error. */
  function Parse(content: string, find: Finder<Pattern>): (r: Parsed)
    ensures r.Parsed? && r.content == content
  {
    var lines := Lines(content);
    Parsed(Extracted(Functions, lines, find), Extracted(Variables, lines, find),
           Extracted(Classes, lines, find), Extracted(Constants, lines, find), content)
  }

  method ParseContent(content: string, find: Finder<Pattern>) returns (r: Parsed)
    ensures r == Parse(content, find)
  {
    var functions := Extract(Functions, content, find);
    var variables := Extract(Variables, content, find);
    var classes := Extract(Classes, content, find);
    var constants := Extract(Constants, content, find);
    r := Parsed(functions, variables, classes, constants, content);
  }

  // ---------------------------------------------------------------------
  // Include order

  predicate IsInclude(line: string)
  {
    StartsWith(line, "#include")
  }

  /** A character `\w` matches, restricted to ASCII. */
  predicate WordChar(c: char)
  {
    'a' <= c <= 'z' || 'A' <= c <= 'Z' || '0' <= c <= '9' || c == '_'
  }

  /**
   * The first of the four include patterns that matches: `<` and a
   * lower-case letter (0, C library), `<` and an upper-case letter (1, C++
   * library), `<` and another word character (2, third party), a double
   * quote (3, local).  Whitespace may separate it from `#include`.
   */
  function IncludeCategory(line: string): (r: Option<nat>)
    ensures r.Some? ==> r.value < 4 && IsInclude(line)
  {
    if !IsInclude(line) then None
    else
      var t := StripLeft(line[8..]);
      if |t| >= 2 && t[0] == '<' && 'a' <= t[1] <= 'z' then Some(0)
      else if |t| >= 2 && t[0] == '<' && 'A' <= t[1] <= 'Z' then Some(1)
      else if |t| >= 2 && t[0] == '<' && WordChar(t[1]) then Some(2)
      else if |t| >= 1 && t[0] == '"' then Some(3)
      else None
  }

  /** An include line and its 1-based number. */
  datatype Include = Include(text: string, line: int)

  /** The include lines among the first `n` lines, in order. */
  function Includes(lines: seq<string>, n: nat): seq<Include>
    requires n <= |lines|
  {
    if n == 0 then []
    else Includes(lines, n - 1) + (if IsInclude(lines[n - 1]) then [Include(lines[n - 1], n)] else [])
  }

  function Categories(incs: seq<Include>): (r: seq<Option<nat>>)
    ensures |r| == |incs|
    ensures forall i :: 0 <= i < |incs| ==> r[i] == IncludeCategory(incs[i].text)
  {
    if |incs| == 0 then [] else Categories(incs[..|incs| - 1]) + [IncludeCategory(incs[|incs| - 1].text)]
  }

  function IncludeViolation(line: int): Violation
  {
    Violation("头文件包含顺序不规范", IncludeOrder, Some(line), None)
  }

  /** `_check_include_order`: at most one violation, at the later include of the first falling pair. */
  function IncludeOrderCheck(lines: seq<string>): Option<Violation>
  {
    var incs := Includes(lines, |lines|);
    match FirstDescent(Categories(incs), 0)
    case None => None
    case Some(i) => if i < |incs| then Some(IncludeViolation(incs[i].line)) else None
  }

  method CheckIncludeOrder(lines: seq<string>) returns (r: Option<Violation>)
    ensures r == IncludeOrderCheck(lines)
  {
    var incs := CollectIncludes(lines);
    var found := FindDescent(Categories(incs));
    match found
    case None => r := None;
    case Some(i) => r := Some(IncludeViolation(incs[i].line));
  }

  /** The loop that gathers the include lines. */
  method CollectIncludes(lines: seq<string>) returns (incs: seq<Include>)
    ensures incs == Includes(lines, |lines|)
  {
    incs := [];
    for i := 0 to |lines|
      invariant incs == Includes(lines, i)
    {
      if IsInclude(lines[i]) {
        incs := incs + [Include(lines[i], i + 1)];
      }
    }
  }

  /** The include list holds every include line, and only those, with its own number, in order. */
  lemma {:induction false} IncludesExact(lines: seq<string>, n: nat)
    requires n <= |lines|
    ensures forall k :: 0 <= k < |Includes(lines, n)| ==>
      1 <= Includes(lines, n)[k].line <= n && Includes(lines, n)[k].text == lines[Includes(lines, n)[k].line - 1]
      && IsInclude(Includes(lines, n)[k].text)
    ensures forall i :: 0 <= i < n && IsInclude(lines[i]) ==> Include(lines[i], i + 1) in Includes(lines, n)
    ensures forall a, b :: 0 <= a < b < |Includes(lines, n)| ==> Includes(lines, n)[a].line < Includes(lines, n)[b].line
  {
    if n > 0 {
      IncludesExact(lines, n - 1);
      var prev := Includes(lines, n - 1);
      if IsInclude(lines[n - 1]) {
        assert Includes(lines, n) == prev + [Include(lines[n - 1], n)];
      } else {
        assert Includes(lines, n) == prev;
      }
    }
  }

  /**
   * The violation, when there is one, is at the later include of the first
   * adjacent pair whose categories are both known and fall; without such a
   * pair there is none.
   */
  lemma IncludeOrderMeaning(lines: seq<string>)
    ensures var incs := Includes(lines, |lines|);
      IncludeOrderCheck(lines).None? <==> forall j :: 0 <= j < |incs| - 1 ==> !Descends(Categories(incs), j)
    ensures var incs := Includes(lines, |lines|);
      IncludeOrderCheck(lines).Some? ==> exists i :: (0 < i < |incs| && Descends(Categories(incs), i - 1)
        && (forall j :: 0 <= j < i - 1 ==> !Descends(Categories(incs), j))
        && IncludeOrderCheck(lines) == Some(IncludeViolation(incs[i].line)))
  {
  }

  /**
   * Only a `<` followed by a digit or an underscore counts as a third-party
   * include: every header name starting with a letter is taken for a
   * standard library one, so `<boost/any.hpp>` ranks with `<stdio.h>`.
   */
  lemma ThirdPartyNeedsNonLetter(line: string)
    requires IncludeCategory(line) == Some(2)
    ensures var t := StripLeft(line[8..]); |t| >= 2 && t[0] == '<' && ('0' <= t[1] <= '9' || t[1] == '_')
  {
  }

  /** A local include followed by a C library include is out of order, at the second line. */
  lemma LocalBeforeSystem()
    ensures IncludeOrderCheck(["#include \"util.h\"", "#include <stdio.h>"]) == Some(IncludeViolation(2))
  {
    var lines := ["#include \"util.h\"", "#include <stdio.h>"];
    assert StripLeft(lines[0][8..]) == " \"util.h\""[1..];
    assert StripLeft(lines[1][8..]) == " <stdio.h>"[1..];
    assert IncludeCategory(lines[0]) == Some(3);
    assert IncludeCategory(lines[1]) == Some(0);
    var incs := Includes(lines, 2);
    assert incs == [Include(lines[0], 1), Include(lines[1], 2)];
    assert Descends(Categories(incs), 0);
  }

  // ---------------------------------------------------------------------
  // Brace style

  /** Headers are tried on the raw line; the next line must be exactly `{`; reported at that line. */
  const Style := BraceStyle("大括号风格不规范", false, true, 2, BraceSameLine)

  const BracePatterns: seq<Pattern> := [FunctionBracePattern, TypeBracePattern, ControlBracePattern]

  /** `_check_brace_style`: the three header patterns are searched for in each line as it is. */
  method CheckBraceStyle(lines: seq<string>, search: Searcher<Pattern>) returns (vs: seq<Violation>)
    ensures vs == Braces(Style, lines, |lines|, BracePatterns, search)
  {
    vs := [];
    for i := 0 to |lines|
      invariant vs == Braces(Style, lines, i, BracePatterns, search)
    {
      var found := LineBraces(lines, i, search);
      vs := vs + found;
    }
  }

  /** The loop over the three patterns for line `i`. */
  method LineBraces(lines: seq<string>, i: nat, search: Searcher<Pattern>) returns (found: seq<Violation>)
    requires i < |lines|
    ensures found == BracesAt(Style, lines, i, BracePatterns, search)
  {
    found := [];
    for k := 0 to |BracePatterns|
      invariant found == if BraceBelow(Style, lines, i) then Hits(lines[i], BracePatterns[..k], search, BraceViolation(Style, i)) else []
    {
      assert BracePatterns[..k + 1][..k] == BracePatterns[..k];
      if search(BracePatterns[k], lines[i]) && i + 1 < |lines| {
        if Strip(lines[i + 1]) == "{" {
          found := found + [BraceViolation(Style, i)];
        }
      }
    }
    assert BracePatterns[..|BracePatterns|] == BracePatterns;
  }

  /**
   * A header line followed by a lone `{` is reported at the brace's line
   * once per pattern it matches, so up to three times.
   */
  lemma BraceRepeats(lines: seq<string>, j: nat, search: Searcher<Pattern>)
    requires j < |lines|
    ensures Occurrences(Braces(Style, lines, |lines|, BracePatterns, search), BraceViolation(Style, j)) ==
      if BraceBelow(Style, lines, j) then MatchCount(lines[j], BracePatterns, search) else 0
    ensures MatchCount(lines[j], BracePatterns, search) <= 3
  {
    BraceMultiplicity(Style, lines, |lines|, j, BracePatterns, search);
  }

  // ---------------------------------------------------------------------
  // Namespace usage

  const NamespaceViolation := Violation("命名空间使用不规范", NamespaceStd, None, None)

  /** `_check_namespace_usage`: one violation, without a line, when the text holds `using namespace std;`. */
  function NamespaceCheck(content: string): Option<Violation>
  {
    if Contains(content, "using namespace std;") then Some(NamespaceViolation) else None
  }

  /**
   * The check reads the raw text, comments and string literals included: it
   * reports exactly when the directive occurs somewhere, and then once,
   * without a line.
   */
  lemma NamespaceMeaning(content: string)
    ensures NamespaceCheck(content).Some? <==> exists j: nat :: OccursAt(content, "using namespace std;", j)
    ensures NamespaceCheck(content).Some? ==> NamespaceCheck(content).value.line.None?
  {
    if Contains(content, "using namespace std;") {
      ContainsWitness(content, "using namespace std;");
    } else {
      forall j: nat
        ensures !OccursAt(content, "using namespace std;", j)
      {
        if OccursAt(content, "using namespace std;", j) {
          ContainsAt(content, "using namespace std;", j);
        }
      }
    }
  }

  // ---------------------------------------------------------------------
  // check_rules

  /** The settings the parser freezes at construction, with the C/C++ defaults. */
  datatype Settings = Settings(
    functionPattern: RuleValue, variablePattern: RuleValue, classPattern: RuleValue, constantPattern: RuleValue,
    maxLineLength: RuleValue, expectedIndent: RuleValue, minCommentCoverage: RuleValue)

  const VariableDefault := @"^[a-z][a-zA-Z0-9]*$|^[a-z_][a-z0-9_]*$"

  function SettingsOf(rules: RuleMap): Settings
  {
    Settings(
      Get(rules, "function_naming", Str(CamelCase)), Get(rules, "variable_naming", Str(VariableDefault)),
      Get(rules, "class_naming", Str(PascalCase)), Get(rules, "constant_naming", Str(UpperSnake)),
      Get(rules, "max_line_length", Int(100)), Get(rules, "expected_indent", Int(4)),
      Get(rules, "min_comment_coverage", Real(0.1)))
  }

  /**
   * The checks of `check_rules` in order: naming of functions and variables
   * (exempt names skipped), classes and constants (never skipped), line
   * length, indentation, comment coverage, include order, brace style and
   * namespace usage.
   */
  function Checks(s: Settings, rules: RuleMap, parsed: Parsed, matches: Matcher, search: Searcher<Pattern>): (r: seq<Option<seq<Violation>>>)
    requires parsed.Parsed?
    ensures |r| == 10
  {
    NamingChecks(s, rules, parsed, matches) + LineChecks(s, rules, parsed, search)
  }

  function NamingChecks(s: Settings, rules: RuleMap, parsed: Parsed, matches: Matcher): (r: seq<Option<seq<Violation>>>)
    requires parsed.Parsed?
    ensures |r| == 4
  {
    [ NamingViolations(parsed.functions, |parsed.functions|, s.functionPattern, "函数命名不规范", Exempt(rules), matches, BaseWording),
      NamingViolations(parsed.variables, |parsed.variables|, s.variablePattern, "变量命名不规范", Exempt(rules), matches, BaseWording),
      NamingViolations(parsed.classes, |parsed.classes|, s.classPattern, "类命名不规范", false, matches, BaseWording),
      NamingViolations(parsed.constants, |parsed.constants|, s.constantPattern, "常量命名不规范", false, matches, BaseWording)]
  }

  function LineChecks(s: Settings, rules: RuleMap, parsed: Parsed, search: Searcher<Pattern>): (r: seq<Option<seq<Violation>>>)
    requires parsed.Parsed?
    ensures |r| == 6
  {
    var lines := Lines(parsed.content);
    [ LineLengthCheck(lines, s.maxLineLength),
      IndentationCheck(lines, s.expectedIndent, rules, false),
      CoverageList(parsed.content, s.minCommentCoverage),
      Some(AsList(IncludeOrderCheck(lines))),
      Some(Braces(Style, lines, |lines|, BracePatterns, search)),
      Some(AsList(NamespaceCheck(parsed.content)))]
  }

  method RunNamingChecks(s: Settings, rules: RuleMap, parsed: Parsed, matches: Matcher) returns (parts: seq<Option<seq<Violation>>>)
    requires parsed.Parsed?
    ensures parts == NamingChecks(s, rules, parsed, matches)
  {
    var exempt := Exempt(rules);
    var f := CheckNames(parsed.functions, s.functionPattern, "函数命名不规范", exempt, matches, BaseWording);
    var v := CheckNames(parsed.variables, s.variablePattern, "变量命名不规范", exempt, matches, BaseWording);
    var c := CheckNames(parsed.classes, s.classPattern, "类命名不规范", false, matches, BaseWording);
    var k := CheckNames(parsed.constants, s.constantPattern, "常量命名不规范", false, matches, BaseWording);
    parts := [f, v, c, k];
  }

  method RunLineChecks(s: Settings, rules: RuleMap, parsed: Parsed, search: Searcher<Pattern>) returns (parts: seq<Option<seq<Violation>>>)
    requires parsed.Parsed?
    ensures parts == LineChecks(s, rules, parsed, search)
  {
    var lines := Lines(parsed.content);
    var length := ScanLineLength(lines, s.maxLineLength);
    var indent := ScanIndentation(lines, s.expectedIndent, rules, false);
    var coverage := CheckCommentCoverage(parsed.content, s.minCommentCoverage);
    var order := CheckIncludeOrder(lines);
    var braces := CheckBraceStyle(lines, search);
    var namespace := NamespaceCheck(parsed.content);
    parts := [length, indent, match coverage case None => None case Some(v) => Some(AsList(v)),
              Some(AsList(order)), Some(braces), Some(AsList(namespace))];
  }

  /** `check_rules`: the parse-error violation alone, or the checks' results one after another. */
  function CheckRulesSpec(s: Settings, rules: RuleMap, parsed: Parsed, matches: Matcher, search: Searcher<Pattern>): Option<seq<Violation>>
  {
    match parsed
    case ParseFailed(message, _) => Some([ParseErrorViolation(message)])
    case Parsed(_, _, _, _, _) => Chain(Checks(s, rules, parsed, matches, search))
  }

  /** `_parse_cpplint_output` on cpplint's standard output, which is only read when it is not empty. */
  function CpplintViolations(stdout: Option<string>): seq<Violation>
  {
    match stdout
    case None => []
    case Some(out) => if out == "" then [] else ToolLines(Lines(out), |Lines(out)|, "cpplint检查问题", NonBlankLines)
  }

  /** `CCppParser`: frozen settings, and the rules `set_rules` may replace. */
  class Parser {
    var rules: RuleMap
    const ruleset: string
    const settings: Settings

    constructor (table: Table, ruleset: string)
      ensures rules == BaseRules(table, ruleset) && this.ruleset == ruleset
      ensures settings == SettingsOf(BaseRules(table, ruleset))
    {
      this.ruleset := ruleset;
      rules := BaseRules(table, ruleset);
      settings := SettingsOf(BaseRules(table, ruleset));
    }

    /** `set_rules`: replaces the rules; the settings frozen at construction stay. */
    method SetRules(rules: RuleMap)
      modifies this
      ensures this.rules == rules
    {
      this.rules := rules;
    }

    method CheckRules(parsed: Parsed, matches: Matcher, search: Searcher<Pattern>) returns (r: Option<seq<Violation>>)
      ensures r == CheckRulesSpec(settings, rules, parsed, matches, search)
    {
      if parsed.ParseFailed? {
        return Some([ParseErrorViolation(parsed.errorMessage)]);
      }
      var naming := RunNamingChecks(settings, rules, parsed, matches);
      var others := RunLineChecks(settings, rules, parsed, search);
      r := Chain(naming + others);
    }

    /**
     * `scan`: the base scan of the file read as `file`, then cpplint's
     * findings when cpplint could run (`cpplint` is its standard output).
     */
    method Scan(file: Option<string>, find: Finder<Pattern>, matches: Matcher, search: Searcher<Pattern>, cpplint: Option<string>)
      returns (vs: seq<Violation>)
      ensures file.Some? ==>
        vs == ScanOutcome(file, CheckRulesSpec(settings, rules, Parse(file.value, find), matches, search), rules)
          + CpplintViolations(cpplint)
      ensures file.None? ==> vs == [ScanError()] + CpplintViolations(cpplint)
    {
      var base: seq<Violation>;
      if file.None? {
        base := [ScanError()];
      } else if Strip(file.value) == [] {
        StripEmptyIffBlank(file.value);
        base := [];
      } else {
        StripEmptyIffBlank(file.value);
        var parsed := ParseContent(file.value, find);
        var checked := CheckRules(parsed, matches, search);
        base := FinishScan(file.value, checked, rules);
      }
      var lint: seq<Violation> := [];
      if cpplint.Some? && cpplint.value != "" {
        lint := ParseToolOutput(cpplint.value, "cpplint检查问题", NonBlankLines);
      }
      vs := base + lint;
    }
  }

  /** A parse error yields exactly the parse-error violation. */
  lemma ParseErrorSingle(s: Settings, rules: RuleMap, message: string, content: string, matches: Matcher, search: Searcher<Pattern>)
    ensures CheckRulesSpec(s, rules, ParseFailed(message, content), matches, search) == Some([ParseErrorViolation(message)])
  {
  }

  /**
   * When every check answers, the function naming violations come first and
   * the include-order, brace and namespace violations come last, in that
   * order.
   */
  lemma CheckOrder(s: Settings, rules: RuleMap, parsed: Parsed, matches: Matcher, search: Searcher<Pattern>)
    requires parsed.Parsed? && CheckRulesSpec(s, rules, parsed, matches, search).Some?
    ensures var r := CheckRulesSpec(s, rules, parsed, matches, search).value;
      var lines := Lines(parsed.content);
      var tail := AsList(IncludeOrderCheck(lines)) + Braces(Style, lines, |lines|, BracePatterns, search) + AsList(NamespaceCheck(parsed.content));
      NamingChecks(s, rules, parsed, matches)[0].Some? && NamingChecks(s, rules, parsed, matches)[0].value <= r
      && |tail| <= |r| && r[|r| - |tail|..] == tail
  {
    var parts := Checks(s, rules, parsed, matches, search);
    assert parts[0] == NamingChecks(s, rules, parsed, matches)[0];
    assert parts[7..] == LineChecks(s, rules, parsed, search)[3..];
    ChainEnds3(parts);
  }

  /**
   * With `allow_error_naming` on, no function is reported for a name holding
   * "Error" or "ERROR", while a class with such a name that fails its pattern
   * is still reported at its line.
   */
  lemma ExemptionScope(s: Settings, rules: RuleMap, parsed: Parsed, matches: Matcher, e: Entity)
    requires parsed.Parsed? && Exempt(rules) && s.functionPattern.Str? && s.classPattern.Str?
    requires forall f :: f in parsed.functions ==> matches(s.functionPattern.s, f.name).Some?
    requires forall c :: c in parsed.classes ==> matches(s.classPattern.s, c.name).Some?
    requires e in parsed.classes && ErrorName(e.name) && matches(s.classPattern.s, e.name) == Some(false)
    ensures var fs := NamingChecks(s, rules, parsed, matches)[0];
      fs.Some? && forall v :: v in fs.value ==> exists i :: 0 <= i < |parsed.functions| && !ErrorName(parsed.functions[i].name) && v.line == Some(parsed.functions[i].line)
    ensures var cs := NamingChecks(s, rules, parsed, matches)[2];
      cs.Some? && Violation("类命名不规范", NameMismatch(e.name), Some(e.line), None) in cs.value
  {
    var fs, cs := parsed.functions, parsed.classes;
    ExemptNamesPass(fs, s.functionPattern, "函数命名不规范", matches, BaseWording);
    var i :| 0 <= i < |cs| && cs[i] == e;
    NamingExact(cs, |cs|, s.classPattern, "类命名不规范", false, matches, BaseWording);
    ReportedMembers(cs, |cs|, s.classPattern, "类命名不规范", false, matches, BaseWording);
  }

  /**
   * Built-in rulesets freeze the global layer, not the C/C++ section: snake
   * case functions, 120 columns, 10% coverage; and the exemption is on.
   */
  lemma BuiltinSettings(name: string)
    requires name in AllRulesets
    ensures SettingsOf(BaseRules(AllRulesets, name)).functionPattern == Str(SnakeCase)
    ensures SettingsOf(BaseRules(AllRulesets, name)).maxLineLength == Int(120)
    ensures SettingsOf(BaseRules(AllRulesets, name)).minCommentCoverage == Real(0.1)
    ensures Exempt(BaseRules(AllRulesets, name))
  {
    BuiltinParsersSeeGlobalLayer(name);
    GlobalSettings();
  }

  lemma GlobalSettings()
    ensures SettingsOf(GlobalRules).functionPattern == Str(SnakeCase)
    ensures SettingsOf(GlobalRules).maxLineLength == Int(120)
    ensures SettingsOf(GlobalRules).minCommentCoverage == Real(0.1)
    ensures Exempt(GlobalRules)
  {
    GlobalDefaults();
  }

  /** Every non-blank line of cpplint's output becomes one violation with its stripped text, and nothing else does. */
  lemma CpplintExact(out: string)
    requires out != ""
    ensures forall i :: 0 <= i < |Lines(out)| && !IsBlank(Lines(out)[i]) ==>
      ToolViolation("cpplint检查问题", Lines(out)[i]) in CpplintViolations(Some(out))
    ensures forall v :: v in CpplintViolations(Some(out)) ==>
      (exists i :: 0 <= i < |Lines(out)| && !IsBlank(Lines(out)[i]) && v == ToolViolation("cpplint检查问题", Lines(out)[i]))
      && Render(v.message) != "" && v.line.None?
  {
    ToolLinesExact(Lines(out), |Lines(out)|, "cpplint检查问题", NonBlankLines);
    forall v | v in CpplintViolations(Some(out))
      ensures (exists i :: 0 <= i < |Lines(out)| && !IsBlank(Lines(out)[i]) && v == ToolViolation("cpplint检查问题", Lines(out)[i]))
        && Render(v.message) != "" && v.line.None?
    {
      var i :| 0 <= i < |Lines(out)| && Keeps(NonBlankLines, Lines(out)[i]) && v == ToolViolation("cpplint检查问题", Lines(out)[i]);
      ToolMessageNonEmpty("cpplint检查问题", Lines(out)[i]);
    }
  }
}
