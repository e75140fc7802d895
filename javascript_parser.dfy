/**
 * The JavaScript/TypeScript parser.  Its extractors run regular expressions
 * (`Pattern`) over each line with `re.finditer` (the `Finder` parameter);
 * the semicolon check searches each stripped line with `re.search` (the
 * `search` parameter) and the brace check matches the stripped header line
 * with `re.match` (the `matchAt` parameter).  Running ESLint is a parameter
 * of `Scan`: the finished run with its output decoded as JSON, or `None`
 * when Node.js or ESLint is missing.
 */
module JavascriptParser {
  import opened Text
  import opened Rulesets
  import opened Rules
  import opened BaseParser

  /** The dictionary `parse` returns. */
  datatype Parsed =
    | Parsed(functions: seq<Entity>, variables: seq<Entity>, classes: seq<Entity>, constants: seq<Entity>, content: string)
    | ParseFailed(errorMessage: string, content: string)

  // ---------------------------------------------------------------------
  // Extraction

  /** The parser's regular expressions; `Regex` gives each one's text. */
  datatype Pattern =
    | DeclarationPattern | ArrowPattern | VarPattern | LetPattern | ClassPattern | ConstPattern
    | StatementPattern | HeaderPattern

  function Regex(p: Pattern): string
  {
    match p
    case DeclarationPattern => @"function\s+([a-zA-Z0-9_$]+)\s*\("
    case ArrowPattern => @"const\s+([a-zA-Z0-9_$]+)\s*=\s*\([^)]*\)\s*=>"
    case VarPattern => @"var\s+([a-zA-Z0-9_$]+)"
    case LetPattern => @"let\s+([a-zA-Z0-9_$]+)"
    case ClassPattern => @"class\s+([a-zA-Z0-9_$]+)"
    case ConstPattern => @"const\s+([A-Z_][A-Z0-9_]*)"
    case StatementPattern => @"[\w\(\)\[\]\{\}\+\-\*/%\^&\|!]=[^=]|\w+\([^)]*\)|\w+\[.*\]|return|break|continue|throw"
    case HeaderPattern =>
      @"(function\s+\w+\s*\([^)]*\)|if\s*\([^)]*\)|else|for\s*\([^)]*\)|while\s*\([^)]*\)|switch\s*\([^)]*\))\s*$"
  }

  /** The four extractors of `parse`. */
  datatype Extractor = Functions | Variables | Classes | Constants

  /**
   * The entities one extractor takes from line `i`: function declarations
   * then arrow functions bound with `const`; `var` then `let` names that
   * are not all upper-case; class names; `const` names starting upper-case.
   */
  function FoundAt(x: Extractor, line: string, i: nat, find: Finder<Pattern>): seq<Entity>
  {
    match x
    case Functions => AtLine(find(DeclarationPattern, line), i + 1) + AtLine(find(ArrowPattern, line), i + 1)
    case Variables => AtLine(NotUpper(find(VarPattern, line)), i + 1) + AtLine(NotUpper(find(LetPattern, line)), i + 1)
    case Classes => AtLine(find(ClassPattern, line), i + 1)
    case Constants => AtLine(find(ConstPattern, line), i + 1)
  }

  /** One extractor as a function of the line and its index. */
  function LineFinds(x: Extractor, find: Finder<Pattern>): LineExtractor
  {
    (line: string, i: nat) => FoundAt(x, line, i, find)
  }

  /** The entities an extractor takes from all lines, line by line. */
  function Extracted(x: Extractor, lines: seq<string>, find: Finder<Pattern>): seq<Entity>
  {
    FromLines(LineFinds(x, find), lines, |lines|)
  }

  /** `_extract_functions`, `_extract_variables`, `_extract_classes` or `_extract_constants`. */
  method Extract(x: Extractor, content: string, find: Finder<Pattern>) returns (es: seq<Entity>)
    ensures es == Extracted(x, Lines(content), find)
  {
    var lines := Lines(content);
    var f := LineFinds(x, find);
    es := [];
    for i := 0 to |lines|
      invariant es == FromLines(f, lines, i)
    {
      var found := ExtractFromLine(x, lines[i], i, find);
      FromLinesStep(f, lines, i, found);
      es := es + found;
    }
  }

  /** The body of an extractor's line loop: each pattern's matches in turn. */
  method ExtractFromLine(x: Extractor, line: string, i: nat, find: Finder<Pattern>) returns (found: seq<Entity>)
    ensures found == FoundAt(x, line, i, find)
  {
    match x
    case Functions =>
      var declared := Matches(find(DeclarationPattern, line), i + 1);
      var arrows := Matches(find(ArrowPattern, line), i + 1);
      found := declared + arrows;
    case Variables =>
      var vars := MatchesNotUpper(find(VarPattern, line), i + 1);
      var lets := MatchesNotUpper(find(LetPattern, line), i + 1);
      found := vars + lets;
    case Classes =>
      found := Matches(find(ClassPattern, line), i + 1);
    case Constants =>
      found := Matches(find(ConstPattern, line), i + 1);
  }

  /** An extractor's result holds exactly what it takes from each line, at that line's number. */
  lemma ExtractedExact(x: Extractor, lines: seq<string>, find: Finder<Pattern>)
    ensures forall e :: e in Extracted(x, lines, find) ==>
      1 <= e.line <= |lines| && e in FoundAt(x, lines[e.line - 1], e.line - 1, find)
    ensures forall i, e :: 0 <= i < |lines| && e in FoundAt(x, lines[i], i, find) ==> e in Extracted(x, lines, find)
  {
    LineFindsNumbered(x, find);
    FromLinesNumbered(LineFinds(x, find), lines, |lines|);
  }

  /** Everything an extractor takes from any line carries that line's number. */
  lemma LineFindsNumbered(x: Extractor, find: Finder<Pattern>)
    ensures forall line, i: nat, e :: e in LineFinds(x, find)(line, i) ==> e.line == i + 1
  {
    forall line, i: nat, e | e in LineFinds(x, find)(line, i)
      ensures e.line == i + 1
    {
      FoundAtNumber(x, line, i, find);
    }
  }

  /** Everything an extractor takes from line `i` carries the number `i + 1`. */
  lemma FoundAtNumber(x: Extractor, line: string, i: nat, find: Finder<Pattern>)
    ensures forall e :: e in FoundAt(x, line, i, find) ==> e.line == i + 1
  {
    match x
    case Functions =>
      AtLineMembers(find(DeclarationPattern, line), i + 1);
      AtLineMembers(find(ArrowPattern, line), i + 1);
    case Variables =>
      AtLineMembers(NotUpper(find(VarPattern, line)), i + 1);
      AtLineMembers(NotUpper(find(LetPattern, line)), i + 1);
    case Classes =>
      AtLineMembers(find(ClassPattern, line), i + 1);
    case Constants =>
      AtLineMembers(find(ConstPattern, line), i + 1);
  }

  /**
   * What each extractor takes from a line, always at that line's number:
   * every declared or arrow function; every `var` or `let` name except the
   * all-upper-case ones; every class and `const` name the patterns find.
   */
  lemma FoundAtLine(x: Extractor, line: string, i: nat, find: Finder<Pattern>)
    ensures x == Functions ==> forall e :: e in FoundAt(x, line, i, find) <==>
      e.line == i + 1 && (e.name in find(DeclarationPattern, line) || e.name in find(ArrowPattern, line))
    ensures x == Variables ==> forall e :: e in FoundAt(x, line, i, find) <==>
      e.line == i + 1 && !IsUpper(e.name) && (e.name in find(VarPattern, line) || e.name in find(LetPattern, line))
    ensures x == Classes ==> forall e :: e in FoundAt(x, line, i, find) <==>
      e.line == i + 1 && e.name in find(ClassPattern, line)
    ensures x == Constants ==> forall e :: e in FoundAt(x, line, i, find) <==>
      e.line == i + 1 && e.name in find(ConstPattern, line)
  {
    match x
    case Functions =>
      AtLineMembers(find(DeclarationPattern, line), i + 1);
      AtLineMembers(find(ArrowPattern, line), i + 1);
    case Variables =>
      AtLineMembers(NotUpper(find(VarPattern, line)), i + 1);
      AtLineMembers(NotUpper(find(LetPattern, line)), i + 1);
      NotUpperMembers(find(VarPattern, line));
      NotUpperMembers(find(LetPattern, line));
    case Classes =>
      AtLineMembers(find(ClassPattern, line), i + 1);
    case Constants =>
      AtLineMembers(find(ConstPattern, line), i + 1);
  }

  /** `parse`: the four extractors over the content; it never reports a parse error. */
  function Parse(content: string, find: Finder<Pattern>): (r: Parsed)
    ensures r.Parsed? && r.content == content
  {
    var lines := Lines(content);
    Parsed(Extracted(Functions, lines, find), Extracted(Variables, lines, find),
           Extracted(Classes, lines, find), Extracted(Constants, lines, find), content)
  }

  method ParseContent(content: string, find: Finder<Pattern>) returns (r: Parsed)
    ensures r == Parse(content, find)
  {
    var functions := Extract(Functions, content, find);
    var variables := Extract(Variables, content, find);
    var classes := Extract(Classes, content, find);
    var constants := Extract(Constants, content, find);
    r := Parsed(functions, variables, classes, constants, content);
  }

  // ---------------------------------------------------------------------
  // Semicolons

  /** `semicolon_required`, read from the current rules when the check runs (default on). */
  predicate SemicolonsRequired(rules: RuleMap)
  {
    Truthy(Get(rules, "semicolon_required", Bool(true)))
  }

  /** A stripped line the check passes over: blank, a line comment, the start of a block comment, or already ending in `;`. */
  predicate Passed(t: string)
  {
    t == [] || (|t| > 1 && t[0] == '/' && (t[1] == '/' || t[1] == '*')) || t[|t| - 1] == ';'
  }

  function SemicolonViolation(i: nat): Violation
  {
    Violation("缺少分号", SemicolonMissing, Some(i + 1), None)
  }

  /** Line `i` is reported when its stripped text is not passed over and looks like a statement. */
  predicate LacksSemicolon(line: string, search: Searcher<Pattern>)
  {
    var t := Strip(line);
    !Passed(t) && search(StatementPattern, t)
  }

  /** What the check reports for line `i`. */
  function SemicolonAtLine(lines: seq<string>, search: Searcher<Pattern>, i: nat): Option<Violation>
  {
    if i < |lines| && LacksSemicolon(lines[i], search) then Some(SemicolonViolation(i)) else None
  }

  function SemicolonAt(lines: seq<string>, search: Searcher<Pattern>): LineRule
  {
    (i: nat) => SemicolonAtLine(lines, search, i)
  }

  /** `_check_semicolon_usage`: nothing when semicolons are not required, else one violation per reported line. */
  function SemicolonCheck(rules: RuleMap, lines: seq<string>, search: Searcher<Pattern>): seq<Violation>
  {
    if SemicolonsRequired(rules) then Flagged(SemicolonAt(lines, search), |lines|) else []
  }

  method CheckSemicolons(rules: RuleMap, lines: seq<string>, search: Searcher<Pattern>) returns (vs: seq<Violation>)
    ensures vs == SemicolonCheck(rules, lines, search)
  {
    if !SemicolonsRequired(rules) {
      return [];
    }
    var f := SemicolonAt(lines, search);
    vs := [];
    for i := 0 to |lines|
      invariant vs == Flagged(f, i)
    {
      var found: seq<Violation> := [];
      var t := Strip(lines[i]);
      if t == [] || (|t| > 1 && t[0] == '/' && (t[1] == '/' || t[1] == '*')) {
        found := [];
      } else if t[|t| - 1] == ';' {
        found := [];
      } else if search(StatementPattern, t) {
        found := [SemicolonViolation(i)];
      }
      assert f(i) == SemicolonAtLine(lines, search, i);
      FlaggedStep(f, i, found);
      vs := vs + found;
    }
  }

  /**
   * With semicolons required, every line the check does not pass over and
   * that looks like a statement is reported at its own number, once, and
   * nothing else is; without, nothing is reported.
   */
  lemma SemicolonsExact(rules: RuleMap, lines: seq<string>, search: Searcher<Pattern>)
    ensures !SemicolonsRequired(rules) ==> SemicolonCheck(rules, lines, search) == []
    ensures SemicolonsRequired(rules) ==> forall i :: 0 <= i < |lines| && LacksSemicolon(lines[i], search) ==>
      SemicolonViolation(i) in SemicolonCheck(rules, lines, search)
    ensures forall v :: v in SemicolonCheck(rules, lines, search) ==>
      exists i :: 0 <= i < |lines| && LacksSemicolon(lines[i], search) && v == SemicolonViolation(i)
    ensures OnAscendingLines(SemicolonCheck(rules, lines, search))
  {
    if SemicolonsRequired(rules) {
      var f := SemicolonAt(lines, search);
      FlaggedExact(f, |lines|, 1);
      IncreaseIsAscending(Flagged(f, |lines|));
      forall i | 0 <= i < |lines| && LacksSemicolon(lines[i], search)
        ensures SemicolonViolation(i) in Flagged(f, |lines|)
      {
        assert f(i) == SemicolonAtLine(lines, search, i);
      }
      forall v | v in Flagged(f, |lines|)
        ensures exists i :: 0 <= i < |lines| && LacksSemicolon(lines[i], search) && v == SemicolonViolation(i)
      {
        var i :| 0 <= i < |lines| && f(i) == Some(v);
        assert f(i) == SemicolonAtLine(lines, search, i);
        assert LacksSemicolon(lines[i], search) && v == SemicolonViolation(i);
      }
    }
  }

  // ---------------------------------------------------------------------
  // Brace style

  /** The header is tried on the stripped line; the next line need only start with `{`; reported at the header. */
  const Style := BraceStyle("大括号风格不规范", true, false, 1, BraceKAndR)

  const BracePatterns: seq<Pattern> := [HeaderPattern]

  /** `_check_brace_style`. */
  method CheckBraceStyle(lines: seq<string>, matchAt: Searcher<Pattern>) returns (vs: seq<Violation>)
    ensures vs == Braces(Style, lines, |lines|, BracePatterns, matchAt)
  {
    vs := [];
    for i := 0 to |lines|
      invariant vs == Braces(Style, lines, i, BracePatterns, matchAt)
    {
      var found := LineBraces(lines, i, matchAt);
      vs := vs + found;
    }
  }

  /** The loop over the one header pattern for line `i`. */
  method LineBraces(lines: seq<string>, i: nat, matchAt: Searcher<Pattern>) returns (found: seq<Violation>)
    requires i < |lines|
    ensures found == BracesAt(Style, lines, i, BracePatterns, matchAt)
  {
    found := [];
    var header := Strip(lines[i]);
    var below := BraceBelow(Style, lines, i);
    for k := 0 to |BracePatterns|
      invariant found == if below then Hits(header, BracePatterns[..k], matchAt, BraceViolation(Style, i)) else []
    {
      assert BracePatterns[..k + 1][..k] == BracePatterns[..k];
      if matchAt(BracePatterns[k], header) && below {
        found := found + [BraceViolation(Style, i)];
      }
    }
    assert BracePatterns[..|BracePatterns|] == BracePatterns;
  }

  /**
   * A header line whose next line starts with `{` is reported once, at the
   * header's own number; no other line is reported.
   */
  lemma BraceOnce(lines: seq<string>, j: nat, matchAt: Searcher<Pattern>)
    requires j < |lines|
    ensures Occurrences(Braces(Style, lines, |lines|, BracePatterns, matchAt), BraceViolation(Style, j)) ==
      if BraceBelow(Style, lines, j) && matchAt(HeaderPattern, Strip(lines[j])) then 1 else 0
    ensures BraceViolation(Style, j).line == Some(j + 1)
    ensures forall v :: v in Braces(Style, lines, |lines|, BracePatterns, matchAt) ==>
      exists k :: 0 <= k < |lines| && BraceBelow(Style, lines, k) && v == BraceViolation(Style, k)
  {
    BraceMultiplicity(Style, lines, |lines|, j, BracePatterns, matchAt);
    BracesShape(Style, lines, |lines|, BracePatterns, matchAt);
    assert BracePatterns[..0] == [];
  }

  // ---------------------------------------------------------------------
  // check_rules

  /** The settings the parser freezes at construction, with the JavaScript defaults. */
  datatype Settings = Settings(
    functionPattern: RuleValue, variablePattern: RuleValue, classPattern: RuleValue, constantPattern: RuleValue,
    maxLineLength: RuleValue, expectedIndent: RuleValue, minCommentCoverage: RuleValue)

  const FunctionDefault := @"^(function\s+)?[a-z][a-zA-Z0-9]*$|^(function\s+)?[_$][a-zA-Z0-9]*$"
  const VariableDefault := @"^[a-z][a-zA-Z0-9]*$|^_[a-zA-Z0-9]*$"

  function SettingsOf(rules: RuleMap): Settings
  {
    Settings(
      Get(rules, "function_naming", Str(FunctionDefault)), Get(rules, "variable_naming", Str(VariableDefault)),
      Get(rules, "class_naming", Str(PascalCase)), Get(rules, "constant_naming", Str(UpperSnake)),
      Get(rules, "max_line_length", Int(120)), Get(rules, "expected_indent", Int(2)),
      Get(rules, "min_comment_coverage", Real(0.1)))
  }

  /**
   * The checks of `check_rules` in order: naming of functions, variables,
   * classes and constants (no exemption), line length, indentation (with
   * the JavaScript leniency), comment coverage, semicolons and brace style.
   */
  function Checks(s: Settings, rules: RuleMap, parsed: Parsed, matches: Matcher, search: Searcher<Pattern>, matchAt: Searcher<Pattern>)
    : (r: seq<Option<seq<Violation>>>)
    requires parsed.Parsed?
    ensures |r| == 9
  {
    NamingChecks(s, parsed, matches) + LineChecks(s, rules, parsed, search, matchAt)
  }

  function NamingChecks(s: Settings, parsed: Parsed, matches: Matcher): (r: seq<Option<seq<Violation>>>)
    requires parsed.Parsed?
    ensures |r| == 4
  {
    [ NamingViolations(parsed.functions, |parsed.functions|, s.functionPattern, "函数命名不规范", false, matches, BaseWording),
      NamingViolations(parsed.variables, |parsed.variables|, s.variablePattern, "变量命名不规范", false, matches, BaseWording),
      NamingViolations(parsed.classes, |parsed.classes|, s.classPattern, "类命名不规范", false, matches, BaseWording),
      NamingViolations(parsed.constants, |parsed.constants|, s.constantPattern, "常量命名不规范", false, matches, BaseWording)]
  }

  function LineChecks(s: Settings, rules: RuleMap, parsed: Parsed, search: Searcher<Pattern>, matchAt: Searcher<Pattern>)
    : (r: seq<Option<seq<Violation>>>)
    requires parsed.Parsed?
    ensures |r| == 5
  {
    var lines := Lines(parsed.content);
    [ LineLengthCheck(lines, s.maxLineLength),
      IndentationCheck(lines, s.expectedIndent, rules, true),
      CoverageList(parsed.content, s.minCommentCoverage),
      Some(SemicolonCheck(rules, lines, search)),
      Some(Braces(Style, lines, |lines|, BracePatterns, matchAt))]
  }

  method RunNamingChecks(s: Settings, parsed: Parsed, matches: Matcher) returns (parts: seq<Option<seq<Violation>>>)
    requires parsed.Parsed?
    ensures parts == NamingChecks(s, parsed, matches)
  {
    var f := CheckNames(parsed.functions, s.functionPattern, "函数命名不规范", false, matches, BaseWording);
    var v := CheckNames(parsed.variables, s.variablePattern, "变量命名不规范", false, matches, BaseWording);
    var c := CheckNames(parsed.classes, s.classPattern, "类命名不规范", false, matches, BaseWording);
    var k := CheckNames(parsed.constants, s.constantPattern, "常量命名不规范", false, matches, BaseWording);
    parts := [f, v, c, k];
  }

  method RunLineChecks(s: Settings, rules: RuleMap, parsed: Parsed, search: Searcher<Pattern>, matchAt: Searcher<Pattern>)
    returns (parts: seq<Option<seq<Violation>>>)
    requires parsed.Parsed?
    ensures parts == LineChecks(s, rules, parsed, search, matchAt)
  {
    var lines := Lines(parsed.content);
    var length := ScanLineLength(lines, s.maxLineLength);
    var indent := ScanIndentation(lines, s.expectedIndent, rules, true);
    var coverage := CheckCommentCoverage(parsed.content, s.minCommentCoverage);
    var semicolons := CheckSemicolons(rules, lines, search);
    var braces := CheckBraceStyle(lines, matchAt);
    parts := [length, indent, match coverage case None => None case Some(v) => Some(AsList(v)),
              Some(semicolons), Some(braces)];
  }

  /** `check_rules`: the parse-error violation alone, or the checks' results one after another. */
  function CheckRulesSpec(s: Settings, rules: RuleMap, parsed: Parsed, matches: Matcher, search: Searcher<Pattern>, matchAt: Searcher<Pattern>)
    : Option<seq<Violation>>
  {
    match parsed
    case ParseFailed(message, _) => Some([ParseErrorViolation(message)])
    case Parsed(_, _, _, _, _) => Chain(Checks(s, rules, parsed, matches, search, matchAt))
  }

  /** A parse error yields exactly the parse-error violation, whatever the rules. */
  lemma ParseErrorSingle(s: Settings, rules: RuleMap, message: string, content: string, matches: Matcher, search: Searcher<Pattern>, matchAt: Searcher<Pattern>)
    ensures CheckRulesSpec(s, rules, ParseFailed(message, content), matches, search, matchAt) == Some([ParseErrorViolation(message)])
  {
  }

  // ---------------------------------------------------------------------
  // ESLint

  /** A string field of an ESLint message in the JSON output: absent, `null`, or a string. */
  datatype Field = Absent | Null | Text(s: string)

  /** One ESLint message: its severity, rule id, text and line, each as the JSON has it. */
  datatype LintMessage = LintMessage(severity: Option<int>, ruleId: Field, text: Field, line: Option<int>)

  /** One file's entry in the JSON output; `messages` is `None` when the entry has no such key. */
  datatype FileResult = FileResult(messages: Option<seq<LintMessage>>)

  /**
   * A finished `eslint --format=json` run: its exit code, its standard
   * output, and that output decoded as a list of file entries (`None` when
   * it is not valid JSON).
   */
  datatype EslintRun = EslintRun(returncode: int, stdout: string, decoded: Option<seq<FileResult>>)

  /** How `f"{value}"` shows a field read with `message.get(key, default)`. */
  function FieldText(f: Field, default: string): string
  {
    match f
    case Absent => default
    case Null => "None"
    case Text(s) => s
  }

  /** A message counts when its severity (0 when absent) is at least 2. */
  predicate Serious(m: LintMessage)
  {
    (match m.severity case None => 0 case Some(s) => s) >= 2
  }

  function LintViolation(m: LintMessage): Violation
  {
    Violation("ESLint检查问题", EslintRule(FieldText(m.ruleId, "未知规则"), FieldText(m.text, "")),
      Some(match m.line case None => 0 case Some(l) => l), None)
  }

  /** The violations of the first `n` messages of one file entry. */
  function Kept(ms: seq<LintMessage>, n: nat): seq<Violation>
    requires n <= |ms|
  {
    if n == 0 then [] else Kept(ms, n - 1) + (if Serious(ms[n - 1]) then [LintViolation(ms[n - 1])] else [])
  }

  function FileViolations(r: FileResult): seq<Violation>
  {
    match r.messages
    case None => []
    case Some(ms) => Kept(ms, |ms|)
  }

  /** The violations of the first `n` file entries, file by file. */
  function ResultViolations(rs: seq<FileResult>, n: nat): seq<Violation>
    requires n <= |rs|
  {
    if n == 0 then [] else ResultViolations(rs, n - 1) + FileViolations(rs[n - 1])
  }

  /**
   * `_run_eslint_check` on a finished run: nothing without output; the
   * serious messages of a JSON output; one line-less violation for output
   * that is not JSON from a failing run.
   */
  function EslintViolations(run: Option<EslintRun>): seq<Violation>
  {
    match run
    case None => []
    case Some(r) =>
      if r.stdout == "" then []
      else match r.decoded
        case None => if r.returncode != 0 then [Violation("ESLint检查问题", EslintProblem, None, None)] else []
        case Some(rs) => ResultViolations(rs, |rs|)
  }

  method ParseEslint(run: Option<EslintRun>) returns (vs: seq<Violation>)
    ensures vs == EslintViolations(run)
  {
    vs := [];
    if run.None? || run.value.stdout == "" {
      return;
    }
    var r := run.value;
    match r.decoded
    case None =>
      if r.returncode != 0 {
        vs := [Violation("ESLint检查问题", EslintProblem, None, None)];
      }
    case Some(rs) =>
      for i := 0 to |rs|
        invariant vs == ResultViolations(rs, i)
      {
        if rs[i].messages.Some? {
          var more := KeepSerious(rs[i].messages.value);
          vs := vs + more;
        }
      }
  }

  /** The loop over one file entry's messages. */
  method KeepSerious(ms: seq<LintMessage>) returns (vs: seq<Violation>)
    ensures vs == Kept(ms, |ms|)
  {
    vs := [];
    for k := 0 to |ms|
      invariant vs == Kept(ms, k)
    {
      if Serious(ms[k]) {
        vs := vs + [LintViolation(ms[k])];
      }
    }
  }

  /** A file entry's violations are exactly its serious messages'. */
  lemma {:induction false} KeptExact(ms: seq<LintMessage>, n: nat)
    requires n <= |ms|
    ensures forall v :: v in Kept(ms, n) <==> exists k :: 0 <= k < n && Serious(ms[k]) && v == LintViolation(ms[k])
  {
    if n > 0 {
      KeptExact(ms, n - 1);
    }
  }

  /** Message `k` of file `i` is serious and gives `v`. */
  predicate SeriousAt(rs: seq<FileResult>, i: nat, v: Violation)
    requires i < |rs|
  {
    match rs[i].messages
    case None => false
    case Some(ms) => exists k :: 0 <= k < |ms| && Serious(ms[k]) && v == LintViolation(ms[k])
  }

  lemma {:induction false} ResultsExact(rs: seq<FileResult>, n: nat, v: Violation)
    requires n <= |rs|
    ensures v in ResultViolations(rs, n) <==> exists i :: 0 <= i < n && SeriousAt(rs, i, v)
  {
    if n > 0 {
      ResultsExact(rs, n - 1, v);
      FileExact(rs, n - 1);
      var before := ResultViolations(rs, n - 1);
      var here := FileViolations(rs[n - 1]);
      assert ResultViolations(rs, n) == before + here;
      if exists i :: 0 <= i < n && SeriousAt(rs, i, v) {
        var i :| 0 <= i < n && SeriousAt(rs, i, v);
        if i < n - 1 {
          assert v in before;
        } else {
          assert v in here;
        }
      }
    }
  }

  /** One file entry's violations are exactly its serious messages'. */
  lemma FileExact(rs: seq<FileResult>, i: nat)
    requires i < |rs|
    ensures forall v :: v in FileViolations(rs[i]) <==> SeriousAt(rs, i, v)
  {
    if rs[i].messages.Some? {
      KeptExact(rs[i].messages.value, |rs[i].messages.value|);
    }
  }

  /**
   * The ESLint violations of a JSON output are exactly the messages of
   * severity 2 or more, of any file entry; messages of lower or no severity
   * are dropped.  Output that is not JSON gives one line-less violation
   * exactly when the run failed.
   */
  lemma EslintExact(r: EslintRun)
    requires r.stdout != ""
    ensures r.decoded.Some? ==> forall v :: v in EslintViolations(Some(r)) <==>
      exists i :: 0 <= i < |r.decoded.value| && SeriousAt(r.decoded.value, i, v)
    ensures r.decoded.None? ==> (EslintViolations(Some(r)) != [] <==> r.returncode != 0)
    ensures forall v :: v in EslintViolations(Some(r)) ==> v.kind == "ESLint检查问题"
  {
    if r.decoded.Some? {
      var rs := r.decoded.value;
      forall v
        ensures v in EslintViolations(Some(r)) <==> exists i :: 0 <= i < |rs| && SeriousAt(rs, i, v)
        ensures v in EslintViolations(Some(r)) ==> v.kind == "ESLint检查问题"
      {
        ResultsExact(rs, |rs|, v);
      }
    }
  }

  /** The parser's class: frozen settings, and the rules `set_rules` may replace. */
  class Parser {
    var rules: RuleMap
    const ruleset: string
    const settings: Settings

    constructor (table: Table, ruleset: string)
      ensures rules == BaseRules(table, ruleset) && this.ruleset == ruleset
      ensures settings == SettingsOf(BaseRules(table, ruleset))
    {
      this.ruleset := ruleset;
      rules := BaseRules(table, ruleset);
      settings := SettingsOf(BaseRules(table, ruleset));
    }

    /** `set_rules`: replaces the rules; the settings frozen at construction stay. */
    method SetRules(rules: RuleMap)
      modifies this
      ensures this.rules == rules
    {
      this.rules := rules;
    }

    method CheckRules(parsed: Parsed, matches: Matcher, search: Searcher<Pattern>, matchAt: Searcher<Pattern>)
      returns (r: Option<seq<Violation>>)
      ensures r == CheckRulesSpec(settings, rules, parsed, matches, search, matchAt)
    {
      if parsed.ParseFailed? {
        return Some([ParseErrorViolation(parsed.errorMessage)]);
      }
      var naming := RunNamingChecks(settings, parsed, matches);
      var others := RunLineChecks(settings, rules, parsed, search, matchAt);
      r := Chain(naming + others);
    }

    /**
     * `scan`: the base scan of the file read as `file`, then ESLint's
     * findings when Node.js and ESLint are installed (`eslint` is the
     * finished run).
     */
    method Scan(file: Option<string>, find: Finder<Pattern>, matches: Matcher, search: Searcher<Pattern>, matchAt: Searcher<Pattern>,
                eslint: Option<EslintRun>)
      returns (vs: seq<Violation>)
      ensures file.Some? ==>
        vs == ScanOutcome(file, CheckRulesSpec(settings, rules, Parse(file.value, find), matches, search, matchAt), rules)
          + EslintViolations(eslint)
      ensures file.None? ==> vs == [ScanError()] + EslintViolations(eslint)
    {
      var base: seq<Violation>;
      if file.None? {
        base := [ScanError()];
      } else if Strip(file.value) == [] {
        StripEmptyIffBlank(file.value);
        base := [];
      } else {
        StripEmptyIffBlank(file.value);
        var parsed := ParseContent(file.value, find);
        var checked := CheckRules(parsed, matches, search, matchAt);
        base := FinishScan(file.value, checked, rules);
      }
      var lint := ParseEslint(eslint);
      vs := base + lint;
    }
  }

  /**
   * When every check answers, the function naming violations come first and
   * the semicolon and brace violations come last, in that order.
   */
  lemma CheckOrder(s: Settings, rules: RuleMap, parsed: Parsed, matches: Matcher, search: Searcher<Pattern>, matchAt: Searcher<Pattern>)
    requires parsed.Parsed? && CheckRulesSpec(s, rules, parsed, matches, search, matchAt).Some?
    ensures var r := CheckRulesSpec(s, rules, parsed, matches, search, matchAt).value;
      var lines := Lines(parsed.content);
      var tail := SemicolonCheck(rules, lines, search) + Braces(Style, lines, |lines|, BracePatterns, matchAt);
      NamingChecks(s, parsed, matches)[0].Some? && NamingChecks(s, parsed, matches)[0].value <= r
      && |tail| <= |r| && r[|r| - |tail|..] == tail
  {
    var parts := Checks(s, rules, parsed, matches, search, matchAt);
    assert parts[0] == NamingChecks(s, parsed, matches)[0];
    assert parts[7..] == LineChecks(s, rules, parsed, search, matchAt)[3..];
    ChainEnds(parts);
  }

  /**
   * There is no `allow_error_naming` exemption: a function whose name
   * contains "Error" and fails the pattern is still reported, at its line.
   */
  lemma ErrorNamesStillChecked(s: Settings, parsed: Parsed, matches: Matcher, e: Entity)
    requires parsed.Parsed? && e in parsed.functions && ErrorName(e.name)
    requires s.functionPattern.Str? && matches(s.functionPattern.s, e.name) == Some(false)
    requires forall f :: f in parsed.functions ==> matches(s.functionPattern.s, f.name).Some?
    ensures NamingChecks(s, parsed, matches)[0].Some?
    ensures Violation("函数命名不规范", NameMismatch(e.name), Some(e.line), None) in NamingChecks(s, parsed, matches)[0].value
  {
    var fs := parsed.functions;
    var i :| 0 <= i < |fs| && fs[i] == e;
    NamingExact(fs, |fs|, s.functionPattern, "函数命名不规范", false, matches, BaseWording);
    ReportedMembers(fs, |fs|, s.functionPattern, "函数命名不规范", false, matches, BaseWording);
  }

  /**
   * A parser built for a built-in ruleset freezes the global layer: snake
   * case functions and variables and a 4-space indent (not the 2 spaces of
   * the JavaScript sections); and its own rules require semicolons.
   */
  lemma BuiltinSettings(name: string)
    requires name in AllRulesets
    ensures SettingsOf(BaseRules(AllRulesets, name)).functionPattern == Str(SnakeCase)
    ensures SettingsOf(BaseRules(AllRulesets, name)).variablePattern == Str(SnakeCase)
    ensures SettingsOf(BaseRules(AllRulesets, name)).expectedIndent == Int(4)
    ensures SettingsOf(BaseRules(AllRulesets, name)).maxLineLength == Int(120)
    ensures SemicolonsRequired(BaseRules(AllRulesets, name))
  {
    BuiltinParsersSeeGlobalLayer(name);
    GlobalSettings();
  }

  lemma GlobalSettings()
    ensures SettingsOf(GlobalRules).functionPattern == Str(SnakeCase)
    ensures SettingsOf(GlobalRules).variablePattern == Str(SnakeCase)
    ensures SettingsOf(GlobalRules).expectedIndent == Int(4)
    ensures SettingsOf(GlobalRules).maxLineLength == Int(120)
    ensures SemicolonsRequired(GlobalRules)
  {
    GlobalDefaults();
  }

  /**
   * Once the scanner has applied a built-in ruleset's JavaScript rules with
   * `set_rules`, semicolons are required except under Airbnb and Standard.
   */
  lemma JavascriptRulesSemicolons(name: string)
    requires name in AllRulesets
    ensures SemicolonsRequired(GetRulesForLanguage(AllRulesets, name, "javascript")) <==> name != "Airbnb" && name != "Standard"
  {
    BuiltinRulesForLanguage(name, "javascript");
    var section := if "javascript" in LanguageSections(name) then Section(name, "javascript") else map[];
    assert GetRulesForLanguage(AllRulesets, name, "javascript") == GlobalRules + section;
    SectionSemicolons(name);
    LayerSemicolons(section);
  }

  lemma SectionSemicolons(name: string)
    requires name in BuiltinNames
    ensures var section := if "javascript" in LanguageSections(name) then Section(name, "javascript") else map[];
      Truthy(Get(section, "semicolon_required", Bool(true))) <==> name != "Airbnb" && name != "Standard"
  {
    JavascriptSections();
  }

  /** A language section over the global layer requires semicolons unless the section says otherwise. */
  lemma LayerSemicolons(section: RuleMap)
    ensures SemicolonsRequired(GlobalRules + section) <==> Truthy(Get(section, "semicolon_required", Bool(true)))
  {
    GlobalDefaults();
  }
}
