/**
 * The Go parser.  Its extractors run regular expressions (`Pattern`) over
 * each line with `re.finditer` (the `Finder` parameter); the brace check
 * matches the stripped header line with `re.match` (the `matchAt`
 * parameter) and the import check searches the whole content (the `search`
 * parameter).  Running `go fmt` and `go vet` is a parameter of `Scan`: both
 * finished runs, or `None` when Go is missing.
 */
module GoParser {
  import opened Text
  import opened Rulesets
  import opened Rules
  import opened BaseParser

  /** The dictionary `parse` returns. */
  datatype Parsed =
    | Parsed(functions: seq<Entity>, variables: seq<Entity>, types: seq<Entity>, constants: seq<Entity>, content: string)
    | ParseFailed(errorMessage: string, content: string)

  // ---------------------------------------------------------------------
  // Extraction

  /** The parser's regular expressions; `Regex` gives each one's text. */
  datatype Pattern =
    | FuncPattern | VarPattern | ShortVarPattern | TypePattern | ConstPattern | BlockConstPattern
    | ImportPattern | FuncBracePattern | ControlBracePattern

  function Regex(p: Pattern): string
  {
    match p
    case FuncPattern => @"func\s+(?:\(\w+\s+\*?\w+\)\s+)?([a-zA-Z0-9_]+)\s*\("
    case VarPattern => @"var\s+([a-z][a-z0-9]*)\s+(?:[\w\[\]\*]+)(?:\s*=|;)"
    case ShortVarPattern => @"([a-z][a-z0-9]*)\s*:="
    case TypePattern => @"type\s+([A-Z][a-zA-Z0-9]*)\s+"
    case ConstPattern => @"const\s+([A-Z_][A-Z0-9_]*)\s*="
    case BlockConstPattern => @"\s+([A-Z_][A-Z0-9_]*)\s*="
    // `re.DOTALL`, written as the inline flag.
    case ImportPattern => @"(?s)import\s+(?:\(.*?\)|\S+)"
    case FuncBracePattern => @"func\s+(?:\(\w+\s+\*?\w+\)\s+)?([a-zA-Z0-9_]+)\s*\(.*\)\s*$"
    case ControlBracePattern => @"(if|else|for|switch|select)\s*\([^)]*\)\s*$"
  }

  /** The three extractors that look at one line at a time. */
  datatype Extractor = Functions | Variables | Types

  /**
   * The entities one extractor takes from line `i`: function and method
   * names; `var` names then names declared with `:=`; type names.
   */
  function FoundAt(x: Extractor, line: string, i: nat, find: Finder<Pattern>): seq<Entity>
  {
    match x
    case Functions => AtLine(find(FuncPattern, line), i + 1)
    case Variables => AtLine(find(VarPattern, line), i + 1) + AtLine(find(ShortVarPattern, line), i + 1)
    case Types => AtLine(find(TypePattern, line), i + 1)
  }

  function LineFinds(x: Extractor, find: Finder<Pattern>): LineExtractor
  {
    (line: string, i: nat) => FoundAt(x, line, i, find)
  }

  function Extracted(x: Extractor, lines: seq<string>, find: Finder<Pattern>): seq<Entity>
  {
    FromLines(LineFinds(x, find), lines, |lines|)
  }

  /** `_extract_functions`, `_extract_variables` or `_extract_types`. */
  method Extract(x: Extractor, content: string, find: Finder<Pattern>) returns (es: seq<Entity>)
    ensures es == Extracted(x, Lines(content), find)
  {
    var lines := Lines(content);
    var f := LineFinds(x, find);
    es := [];
    for i := 0 to |lines|
      invariant es == FromLines(f, lines, i)
    {
      var found := ExtractFromLine(x, lines[i], i, find);
      FromLinesStep(f, lines, i, found);
      es := es + found;
    }
  }

  method ExtractFromLine(x: Extractor, line: string, i: nat, find: Finder<Pattern>) returns (found: seq<Entity>)
    ensures found == FoundAt(x, line, i, find)
  {
    match x
    case Functions =>
      found := Matches(find(FuncPattern, line), i + 1);
    case Variables =>
      var declared := Matches(find(VarPattern, line), i + 1);
      var short := Matches(find(ShortVarPattern, line), i + 1);
      found := declared + short;
    case Types =>
      found := Matches(find(TypePattern, line), i + 1);
  }

  /** An extractor's result holds exactly what it takes from each line, at that line's number. */
  lemma ExtractedExact(x: Extractor, lines: seq<string>, find: Finder<Pattern>)
    ensures forall e :: e in Extracted(x, lines, find) ==>
      1 <= e.line <= |lines| && e in FoundAt(x, lines[e.line - 1], e.line - 1, find)
    ensures forall i, e :: 0 <= i < |lines| && e in FoundAt(x, lines[i], i, find) ==> e in Extracted(x, lines, find)
  {
    LineFindsNumbered(x, find);
    FromLinesNumbered(LineFinds(x, find), lines, |lines|);
  }

  /** Everything an extractor takes from any line carries that line's number. */
  lemma LineFindsNumbered(x: Extractor, find: Finder<Pattern>)
    ensures forall line, i: nat, e :: e in LineFinds(x, find)(line, i) ==> e.line == i + 1
  {
    forall line, i: nat, e | e in LineFinds(x, find)(line, i)
      ensures e.line == i + 1
    {
      FoundAtLine(x, line, i, find);
    }
  }

  /** What each extractor takes from a line: every name its patterns find, at that line's number. */
  lemma FoundAtLine(x: Extractor, line: string, i: nat, find: Finder<Pattern>)
    ensures x == Functions ==> forall e :: e in FoundAt(x, line, i, find) <==>
      e.line == i + 1 && e.name in find(FuncPattern, line)
    ensures x == Variables ==> forall e :: e in FoundAt(x, line, i, find) <==>
      e.line == i + 1 && (e.name in find(VarPattern, line) || e.name in find(ShortVarPattern, line))
    ensures x == Types ==> forall e :: e in FoundAt(x, line, i, find) <==>
      e.line == i + 1 && e.name in find(TypePattern, line)
  {
    match x
    case Functions =>
      AtLineMembers(find(FuncPattern, line), i + 1);
    case Variables =>
      AtLineMembers(find(VarPattern, line), i + 1);
      AtLineMembers(find(ShortVarPattern, line), i + 1);
    case Types =>
      AtLineMembers(find(TypePattern, line), i + 1);
  }

  // ---------------------------------------------------------------------
  // Constants and the const block

  /** A stripped line that enters a const block: it starts with `const` and has no `=`, or has a `(`. */
  predicate OpensBlock(t: string)
  {
    StartsWith(t, "const") && (!Contains(t, "=") || Contains(t, "("))
  }

  /** The flag after seeing one more stripped line: set on entry, cleared inside the block by a lone `}`. */
  function NextInBlock(inBlock: bool, t: string): bool
  {
    if OpensBlock(t) then true else if inBlock && t == "}" then false else inBlock
  }

  /** `in_const_block` once the first `n` lines have been seen. */
  function InBlock(lines: seq<string>, n: nat): bool
    requires n <= |lines|
  {
    if n == 0 then false else NextInBlock(InBlock(lines, n - 1), Strip(lines[n - 1]))
  }

  /** A match the flag allows: any outside a const block, only a name `str.isupper` accepts inside one. */
  predicate Allowed(name: string, inBlock: bool)
  {
    !inBlock || IsUpper(name)
  }

  /** The matches a line keeps, in order. */
  function Kept(names: seq<string>, inBlock: bool): seq<string>
  {
    if |names| == 0 then []
    else Kept(names[..|names| - 1], inBlock) + (if Allowed(names[|names| - 1], inBlock) then [names[|names| - 1]] else [])
  }

  lemma {:induction false} KeptMembers(names: seq<string>, inBlock: bool)
    ensures forall n :: n in Kept(names, inBlock) <==> n in names && Allowed(n, inBlock)
  {
    if |names| > 0 {
      var init := names[..|names| - 1];
      KeptMembers(init, inBlock);
      assert names == init + [names[|names| - 1]];
    }
  }

  /**
   * The constants taken from line `i`, with the flag already updated for
   * that line: matches of `const NAME =`, then of an indented `NAME =`.
   */
  function ConstantsAt(line: string, i: nat, inBlock: bool, find: Finder<Pattern>): seq<Entity>
  {
    AtLine(Kept(find(ConstPattern, line), inBlock), i + 1) + AtLine(Kept(find(BlockConstPattern, line), inBlock), i + 1)
  }

  /** The flag in force on each line, once that line has been seen. */
  function Flags(lines: seq<string>): seq<bool>
  {
    seq(|lines|, i requires 0 <= i < |lines| => InBlock(lines, i + 1))
  }

  /** What each line yields under its own flag. */
  function ConstantFinds(flags: seq<bool>, find: Finder<Pattern>): LineExtractor
  {
    (line: string, i: nat) => ConstantsAt(line, i, i < |flags| && flags[i], find)
  }

  function Constants(lines: seq<string>, find: Finder<Pattern>): seq<Entity>
  {
    FromLines(ConstantFinds(Flags(lines), find), lines, |lines|)
  }

  /** `_extract_constants`. */
  method ExtractConstants(content: string, find: Finder<Pattern>) returns (es: seq<Entity>)
    ensures es == Constants(Lines(content), find)
  {
    var lines := Lines(content);
    ghost var f := ConstantFinds(Flags(lines), find);
    var inBlock := false;
    es := [];
    for i := 0 to |lines|
      invariant inBlock == InBlock(lines, i)
      invariant es == FromLines(f, lines, i)
    {
      var t := Strip(lines[i]);
      if StartsWith(t, "const") && (!Contains(t, "=") || Contains(t, "(")) {
        inBlock := true;
      } else if inBlock && t == "}" {
        inBlock := false;
      }
      assert inBlock == Flags(lines)[i];
      var found := ConstantsFromLine(lines[i], i, inBlock, find);
      assert found == f(lines[i], i);
      FromLinesStep(f, lines, i, found);
      es := es + found;
    }
  }

  /** The two pattern loops for line `i`. */
  method ConstantsFromLine(line: string, i: nat, inBlock: bool, find: Finder<Pattern>) returns (found: seq<Entity>)
    ensures found == ConstantsAt(line, i, inBlock, find)
  {
    var declared := KeepConstants(find(ConstPattern, line), inBlock, i + 1);
    var indented := KeepConstants(find(BlockConstPattern, line), inBlock, i + 1);
    found := declared + indented;
  }

  /** The loop over one pattern's matches, keeping those the flag allows. */
  method KeepConstants(names: seq<string>, inBlock: bool, line: int) returns (es: seq<Entity>)
    ensures es == AtLine(Kept(names, inBlock), line)
  {
    es := [];
    for k := 0 to |names|
      invariant es == AtLine(Kept(names[..k], inBlock), line)
    {
      assert names[..k + 1][..k] == names[..k];
      var kept := Kept(names[..k], inBlock);
      if Allowed(names[k], inBlock) {
        assert AtLine(kept + [names[k]], line) == AtLine(kept, line) + [Entity(names[k], line)] by {
          assert (kept + [names[k]])[..|kept|] == kept;
        }
        es := es + [Entity(names[k], line)];
      }
    }
    assert names[..|names|] == names;
  }

  /**
   * The constants hold exactly what each line yields under its flag (the
   * flag after that line, see `InBlockMeaning`), at that line's number.
   */
  lemma ConstantsExact(lines: seq<string>, find: Finder<Pattern>)
    ensures forall e :: e in Constants(lines, find) ==>
      1 <= e.line <= |lines| && e in ConstantsAt(lines[e.line - 1], e.line - 1, Flags(lines)[e.line - 1], find)
    ensures forall i, e :: 0 <= i < |lines| && e in ConstantsAt(lines[i], i, Flags(lines)[i], find) ==>
      e in Constants(lines, find)
  {
    var flags := Flags(lines);
    var f := ConstantFinds(flags, find);
    forall line, i: nat, e | e in f(line, i)
      ensures e.line == i + 1
    {
      ConstantsAtNumber(line, i, i < |flags| && flags[i], find);
    }
    FromLinesNumbered(f, lines, |lines|);
  }

  /** Line `k`'s flag is `in_const_block` once that line has been seen. */
  lemma FlagsMeaning(lines: seq<string>, k: nat)
    requires k < |lines|
    ensures Flags(lines)[k] == InBlock(lines, k + 1)
    ensures Flags(lines)[k] == NextInBlock(if k == 0 then false else Flags(lines)[k - 1], Strip(lines[k]))
  {
  }

  /** Everything taken from line `i` carries the number `i + 1`. */
  lemma ConstantsAtNumber(line: string, i: nat, inBlock: bool, find: Finder<Pattern>)
    ensures forall e :: e in ConstantsAt(line, i, inBlock, find) ==> e.line == i + 1
  {
    AtLineMembers(Kept(find(ConstPattern, line), inBlock), i + 1);
    AtLineMembers(Kept(find(BlockConstPattern, line), inBlock), i + 1);
  }

  /**
   * What a line yields: every match of either pattern on it, at its number,
   * except, inside a const block, the names that are not upper-case.
   */
  lemma ConstantsAtLine(line: string, i: nat, inBlock: bool, find: Finder<Pattern>)
    ensures forall e :: e in ConstantsAt(line, i, inBlock, find) <==>
      e.line == i + 1 && (e.name in find(ConstPattern, line) || e.name in find(BlockConstPattern, line))
      && (inBlock ==> IsUpper(e.name))
  {
    AtLineMembers(Kept(find(ConstPattern, line), inBlock), i + 1);
    AtLineMembers(Kept(find(BlockConstPattern, line), inBlock), i + 1);
    KeptMembers(find(ConstPattern, line), inBlock);
    KeptMembers(find(BlockConstPattern, line), inBlock);
  }

  /** Line `i` entered a const block and no line after it, before line `n`, was a lone `}`. */
  predicate OpenSince(lines: seq<string>, i: nat, n: nat)
    requires i < n <= |lines|
  {
    OpensBlock(Strip(lines[i])) && forall j :: i < j < n ==> Strip(lines[j]) != "}"
  }

  /**
   * The flag is set after line `n` exactly when some earlier line entered a
   * const block and no later line was a lone `}`: a block closed by `)`
   * leaves it set.
   */
  lemma {:induction false} InBlockMeaning(lines: seq<string>, n: nat)
    requires n <= |lines|
    ensures InBlock(lines, n) <==> exists i :: 0 <= i < n && OpenSince(lines, i, n)
  {
    if n > 0 {
      InBlockMeaning(lines, n - 1);
      var t := Strip(lines[n - 1]);
      assert t == "}" ==> !StartsWith(t, "const");
      if OpensBlock(t) {
        assert OpenSince(lines, n - 1, n);
      } else if InBlock(lines, n) {
        var i :| 0 <= i < n - 1 && OpenSince(lines, i, n - 1);
        assert OpenSince(lines, i, n);
      } else {
        forall i | 0 <= i < n
          ensures !OpenSince(lines, i, n)
        {
          if i < n - 1 && OpensBlock(Strip(lines[i])) {
            if t != "}" {
              assert !OpenSince(lines, i, n - 1);
            }
          }
        }
      }
    }
  }

  /** `parse`: the four extractors over the content; it never reports a parse error. */
  function Parse(content: string, find: Finder<Pattern>): (r: Parsed)
    ensures r.Parsed? && r.content == content
  {
    var lines := Lines(content);
    Parsed(Extracted(Functions, lines, find), Extracted(Variables, lines, find),
           Extracted(Types, lines, find), Constants(lines, find), content)
  }

  method ParseContent(content: string, find: Finder<Pattern>) returns (r: Parsed)
    ensures r == Parse(content, find)
  {
    var functions := Extract(Functions, content, find);
    var variables := Extract(Variables, content, find);
    var types := Extract(Types, content, find);
    var constants := ExtractConstants(content, find);
    r := Parsed(functions, variables, types, constants, content);
  }

  // ---------------------------------------------------------------------
  // Imports and brace style

  const ImportViolation := Violation("可能存在未使用的导入", GoUnusedImports, None, None)

  /** `_check_unused_imports`: one line-less warning when the content has any import. */
  function ImportsCheck(content: string, search: Searcher<Pattern>): (r: seq<Violation>)
    ensures r == [] || r == [ImportViolation]
    ensures r != [] <==> search(ImportPattern, content)
  {
    if search(ImportPattern, content) then [ImportViolation] else []
  }

  /** Headers are tried on the stripped line; the next line need only start with `{`; reported at that line. */
  const Style := BraceStyle("大括号风格不规范", true, false, 2, GoBraceSameLine)

  const BracePatterns: seq<Pattern> := [FuncBracePattern, ControlBracePattern]

  /** `_check_brace_style`. */
  method CheckBraceStyle(lines: seq<string>, matchAt: Searcher<Pattern>) returns (vs: seq<Violation>)
    ensures vs == Braces(Style, lines, |lines|, BracePatterns, matchAt)
  {
    vs := [];
    for i := 0 to |lines|
      invariant vs == Braces(Style, lines, i, BracePatterns, matchAt)
    {
      var found := LineBraces(lines, i, matchAt);
      vs := vs + found;
    }
  }

  /** The loop over the two header patterns for line `i`. */
  method LineBraces(lines: seq<string>, i: nat, matchAt: Searcher<Pattern>) returns (found: seq<Violation>)
    requires i < |lines|
    ensures found == BracesAt(Style, lines, i, BracePatterns, matchAt)
  {
    found := [];
    var header := Strip(lines[i]);
    var below := BraceBelow(Style, lines, i);
    for k := 0 to |BracePatterns|
      invariant found == if below then Hits(header, BracePatterns[..k], matchAt, BraceViolation(Style, i)) else []
    {
      assert BracePatterns[..k + 1][..k] == BracePatterns[..k];
      if matchAt(BracePatterns[k], header) && below {
        found := found + [BraceViolation(Style, i)];
      }
    }
    assert BracePatterns[..|BracePatterns|] == BracePatterns;
  }

  /**
   * A header line whose next line starts with `{` is reported at the
   * brace's line once per header pattern it matches; no other line is
   * reported.
   */
  lemma BraceRepeats(lines: seq<string>, j: nat, matchAt: Searcher<Pattern>)
    requires j < |lines|
    ensures Occurrences(Braces(Style, lines, |lines|, BracePatterns, matchAt), BraceViolation(Style, j)) ==
      if BraceBelow(Style, lines, j) then MatchCount(Strip(lines[j]), BracePatterns, matchAt) else 0
    ensures BraceViolation(Style, j).line == Some(j + 2)
    ensures forall v :: v in Braces(Style, lines, |lines|, BracePatterns, matchAt) ==>
      exists k :: 0 <= k < |lines| && BraceBelow(Style, lines, k) && v == BraceViolation(Style, k)
  {
    BraceMultiplicity(Style, lines, |lines|, j, BracePatterns, matchAt);
    BracesShape(Style, lines, |lines|, BracePatterns, matchAt);
  }

  // ---------------------------------------------------------------------
  // check_rules

  /** The settings the parser freezes at construction, with the Go defaults. */
  datatype Settings = Settings(
    functionPattern: RuleValue, variablePattern: RuleValue, typePattern: RuleValue, constantPattern: RuleValue,
    maxLineLength: RuleValue, expectedIndent: RuleValue, minCommentCoverage: RuleValue)

  const FunctionDefault := @"^[A-Z][a-zA-Z0-9]*$|^[a-z][a-zA-Z0-9]*$"
  const VariableDefault := @"^[a-z][a-z0-9]*$"

  function SettingsOf(rules: RuleMap): Settings
  {
    Settings(
      Get(rules, "function_naming", Str(FunctionDefault)), Get(rules, "variable_naming", Str(VariableDefault)),
      Get(rules, "type_naming", Str(PascalCase)), Get(rules, "constant_naming", Str(UpperSnake)),
      Get(rules, "max_line_length", Int(100)), Get(rules, "expected_indent", Int(4)),
      Get(rules, "min_comment_coverage", Real(0.1)))
  }

  /**
   * The checks of `check_rules` in order: naming of functions and variables
   * (both under the `allow_error_naming` exemption), of types and constants
   * (never exempt), line length, indentation, comment coverage, imports and
   * brace style.
   */
  function Checks(s: Settings, rules: RuleMap, parsed: Parsed, matches: Matcher, search: Searcher<Pattern>, matchAt: Searcher<Pattern>)
    : (r: seq<Option<seq<Violation>>>)
    requires parsed.Parsed?
    ensures |r| == 9
  {
    NamingChecks(s, rules, parsed, matches) + LineChecks(s, rules, parsed, search, matchAt)
  }

  function NamingChecks(s: Settings, rules: RuleMap, parsed: Parsed, matches: Matcher): (r: seq<Option<seq<Violation>>>)
    requires parsed.Parsed?
    ensures |r| == 4
  {
    var exempt := Exempt(rules);
    [ NamingViolations(parsed.functions, |parsed.functions|, s.functionPattern, "函数命名不规范", exempt, matches, BaseWording),
      NamingViolations(parsed.variables, |parsed.variables|, s.variablePattern, "变量命名不规范", exempt, matches, BaseWording),
      NamingViolations(parsed.types, |parsed.types|, s.typePattern, "类型命名不规范", false, matches, BaseWording),
      NamingViolations(parsed.constants, |parsed.constants|, s.constantPattern, "常量命名不规范", false, matches, BaseWording)]
  }

  function LineChecks(s: Settings, rules: RuleMap, parsed: Parsed, search: Searcher<Pattern>, matchAt: Searcher<Pattern>)
    : (r: seq<Option<seq<Violation>>>)
    requires parsed.Parsed?
    ensures |r| == 5
  {
    var lines := Lines(parsed.content);
    [ LineLengthCheck(lines, s.maxLineLength),
      IndentationCheck(lines, s.expectedIndent, rules, false),
      CoverageList(parsed.content, s.minCommentCoverage),
      Some(ImportsCheck(parsed.content, search)),
      Some(Braces(Style, lines, |lines|, BracePatterns, matchAt))]
  }

  method RunNamingChecks(s: Settings, rules: RuleMap, parsed: Parsed, matches: Matcher) returns (parts: seq<Option<seq<Violation>>>)
    requires parsed.Parsed?
    ensures parts == NamingChecks(s, rules, parsed, matches)
  {
    var exempt := Exempt(rules);
    var f := CheckNames(parsed.functions, s.functionPattern, "函数命名不规范", exempt, matches, BaseWording);
    var v := CheckNames(parsed.variables, s.variablePattern, "变量命名不规范", exempt, matches, BaseWording);
    var t := CheckNames(parsed.types, s.typePattern, "类型命名不规范", false, matches, BaseWording);
    var k := CheckNames(parsed.constants, s.constantPattern, "常量命名不规范", false, matches, BaseWording);
    parts := [f, v, t, k];
  }

  method RunLineChecks(s: Settings, rules: RuleMap, parsed: Parsed, search: Searcher<Pattern>, matchAt: Searcher<Pattern>)
    returns (parts: seq<Option<seq<Violation>>>)
    requires parsed.Parsed?
    ensures parts == LineChecks(s, rules, parsed, search, matchAt)
  {
    var lines := Lines(parsed.content);
    var length := ScanLineLength(lines, s.maxLineLength);
    var indent := ScanIndentation(lines, s.expectedIndent, rules, false);
    var coverage := CheckCommentCoverage(parsed.content, s.minCommentCoverage);
    var imports := if search(ImportPattern, parsed.content) then [ImportViolation] else [];
    var braces := CheckBraceStyle(lines, matchAt);
    parts := [length, indent, match coverage case None => None case Some(v) => Some(AsList(v)),
              Some(imports), Some(braces)];
  }

  /** `check_rules`: the parse-error violation alone, or the checks' results one after another. */
  function CheckRulesSpec(s: Settings, rules: RuleMap, parsed: Parsed, matches: Matcher, search: Searcher<Pattern>, matchAt: Searcher<Pattern>)
    : Option<seq<Violation>>
  {
    match parsed
    case ParseFailed(message, _) => Some([ParseErrorViolation(message)])
    case Parsed(_, _, _, _, _) => Chain(Checks(s, rules, parsed, matches, search, matchAt))
  }

  /** A parse error yields exactly the parse-error violation, whatever the rules. */
  lemma ParseErrorSingle(s: Settings, rules: RuleMap, message: string, content: string, matches: Matcher, search: Searcher<Pattern>, matchAt: Searcher<Pattern>)
    ensures CheckRulesSpec(s, rules, ParseFailed(message, content), matches, search, matchAt) == Some([ParseErrorViolation(message)])
  {
  }

  // ---------------------------------------------------------------------
  // go fmt and go vet

  /** The finished `go fmt <path>` and `go vet <path>` runs. */
  datatype GoTools = GoTools(fmt: ToolRun, vet: ToolRun)

  const FormatViolation := Violation("Go代码格式不规范", GoFormat, None, None)

  /** `_run_go_fmt_check`: one warning when `go fmt` printed the file's own path. */
  function FormatViolations(path: string, run: ToolRun): (r: seq<Violation>)
    ensures r == [] || r == [FormatViolation]
    ensures r != [] <==> Strip(run.stdout) == path
  {
    if Strip(run.stdout) == path then [FormatViolation] else []
  }

  /** `_run_go_vet_check`: a failing run with error output gives one violation per non-blank line of it. */
  function VetViolations(run: ToolRun): seq<Violation>
  {
    if run.returncode != 0 && run.stderr != "" then
      ToolLines(Lines(run.stderr), |Lines(run.stderr)|, "go vet检查问题", NonBlankLines)
    else []
  }

  /** What the Go tools add to a scan: nothing without Go, else `go fmt`'s then `go vet`'s findings. */
  function ToolViolations(path: string, go: Option<GoTools>): seq<Violation>
  {
    match go
    case None => []
    case Some(t) => FormatViolations(path, t.fmt) + VetViolations(t.vet)
  }

  /**
   * `go vet` adds nothing unless it failed and wrote errors; then every
   * non-blank error line becomes one violation with its stripped text, and
   * nothing else does.
   */
  lemma VetExact(r: ToolRun)
    ensures r.returncode == 0 || r.stderr == "" ==> VetViolations(r) == []
    ensures r.returncode != 0 && r.stderr != "" ==>
      (forall i :: 0 <= i < |Lines(r.stderr)| && !IsBlank(Lines(r.stderr)[i]) ==>
        ToolViolation("go vet检查问题", Lines(r.stderr)[i]) in VetViolations(r))
      && (forall v :: v in VetViolations(r) ==>
        exists i :: 0 <= i < |Lines(r.stderr)| && !IsBlank(Lines(r.stderr)[i])
          && v == ToolViolation("go vet检查问题", Lines(r.stderr)[i]))
  {
    if r.returncode != 0 && r.stderr != "" {
      ToolLinesExact(Lines(r.stderr), |Lines(r.stderr)|, "go vet检查问题", NonBlankLines);
    }
  }

  /** The parser's class: frozen settings, and the rules `set_rules` may replace. */
  class Parser {
    var rules: RuleMap
    const ruleset: string
    const settings: Settings

    constructor (table: Table, ruleset: string)
      ensures rules == BaseRules(table, ruleset) && this.ruleset == ruleset
      ensures settings == SettingsOf(BaseRules(table, ruleset))
    {
      this.ruleset := ruleset;
      rules := BaseRules(table, ruleset);
      settings := SettingsOf(BaseRules(table, ruleset));
    }

    /** `set_rules`: replaces the rules; the settings frozen at construction stay. */
    method SetRules(rules: RuleMap)
      modifies this
      ensures this.rules == rules
    {
      this.rules := rules;
    }

    method CheckRules(parsed: Parsed, matches: Matcher, search: Searcher<Pattern>, matchAt: Searcher<Pattern>)
      returns (r: Option<seq<Violation>>)
      ensures r == CheckRulesSpec(settings, rules, parsed, matches, search, matchAt)
    {
      if parsed.ParseFailed? {
        return Some([ParseErrorViolation(parsed.errorMessage)]);
      }
      var naming := RunNamingChecks(settings, rules, parsed, matches);
      var others := RunLineChecks(settings, rules, parsed, search, matchAt);
      r := Chain(naming + others);
    }

    /**
     * `scan`: the base scan of the file at `path` read as `file`, then the
     * findings of `go fmt` and `go vet` when Go is installed (`go` holds
     * both finished runs).
     */
    method Scan(path: string, file: Option<string>, find: Finder<Pattern>, matches: Matcher, search: Searcher<Pattern>,
                matchAt: Searcher<Pattern>, go: Option<GoTools>)
      returns (vs: seq<Violation>)
      ensures file.Some? ==>
        vs == ScanOutcome(file, CheckRulesSpec(settings, rules, Parse(file.value, find), matches, search, matchAt), rules)
          + ToolViolations(path, go)
      ensures file.None? ==> vs == [ScanError()] + ToolViolations(path, go)
    {
      var base: seq<Violation>;
      if file.None? {
        base := [ScanError()];
      } else if Strip(file.value) == [] {
        StripEmptyIffBlank(file.value);
        base := [];
      } else {
        StripEmptyIffBlank(file.value);
        var parsed := ParseContent(file.value, find);
        var checked := CheckRules(parsed, matches, search, matchAt);
        base := FinishScan(file.value, checked, rules);
      }
      var tools: seq<Violation> := [];
      if go.Some? {
        var fmt := if Strip(go.value.fmt.stdout) == path then [FormatViolation] else [];
        var vet: seq<Violation> := [];
        if go.value.vet.returncode != 0 && go.value.vet.stderr != "" {
          vet := ParseToolOutput(go.value.vet.stderr, "go vet检查问题", NonBlankLines);
        }
        tools := fmt + vet;
      }
      vs := base + tools;
    }
  }

  /**
   * When every check answers, the function naming violations come first and
   * the import and brace violations come last, in that order.
   */
  lemma CheckOrder(s: Settings, rules: RuleMap, parsed: Parsed, matches: Matcher, search: Searcher<Pattern>, matchAt: Searcher<Pattern>)
    requires parsed.Parsed? && CheckRulesSpec(s, rules, parsed, matches, search, matchAt).Some?
    ensures var r := CheckRulesSpec(s, rules, parsed, matches, search, matchAt).value;
      var lines := Lines(parsed.content);
      var tail := ImportsCheck(parsed.content, search) + Braces(Style, lines, |lines|, BracePatterns, matchAt);
      NamingChecks(s, rules, parsed, matches)[0].Some? && NamingChecks(s, rules, parsed, matches)[0].value <= r
      && |tail| <= |r| && r[|r| - |tail|..] == tail
  {
    var parts := Checks(s, rules, parsed, matches, search, matchAt);
    assert parts[0] == NamingChecks(s, rules, parsed, matches)[0];
    assert parts[7..] == LineChecks(s, rules, parsed, search, matchAt)[3..];
    ChainEnds(parts);
  }

  /**
   * With `allow_error_naming` on, no function or variable whose name holds
   * "Error" or "ERROR" is reported: every such violation comes from an
   * entity whose name does not.
   */
  lemma ExemptionCoversFunctionsAndVariables(s: Settings, rules: RuleMap, parsed: Parsed, matches: Matcher)
    requires parsed.Parsed? && Exempt(rules) && s.functionPattern.Str? && s.variablePattern.Str?
    requires forall f :: f in parsed.functions ==> matches(s.functionPattern.s, f.name).Some?
    requires forall v :: v in parsed.variables ==> matches(s.variablePattern.s, v.name).Some?
    ensures var fs := NamingChecks(s, rules, parsed, matches)[0];
      fs.Some? && forall v :: v in fs.value ==>
        exists i :: 0 <= i < |parsed.functions| && !ErrorName(parsed.functions[i].name) && v.line == Some(parsed.functions[i].line)
    ensures var vs := NamingChecks(s, rules, parsed, matches)[1];
      vs.Some? && forall v :: v in vs.value ==>
        exists i :: 0 <= i < |parsed.variables| && !ErrorName(parsed.variables[i].name) && v.line == Some(parsed.variables[i].line)
  {
    ExemptNamesPass(parsed.functions, s.functionPattern, "函数命名不规范", matches, BaseWording);
    ExemptNamesPass(parsed.variables, s.variablePattern, "变量命名不规范", matches, BaseWording);
  }

  /**
   * Type names are checked whatever the exemption says: a type whose name
   * contains "Error" and fails the pattern is reported at its line.
   */
  lemma ErrorTypesStillChecked(s: Settings, rules: RuleMap, parsed: Parsed, matches: Matcher, e: Entity)
    requires parsed.Parsed? && e in parsed.types && ErrorName(e.name)
    requires s.typePattern.Str? && matches(s.typePattern.s, e.name) == Some(false)
    requires forall t :: t in parsed.types ==> matches(s.typePattern.s, t.name).Some?
    ensures NamingChecks(s, rules, parsed, matches)[2].Some?
    ensures Violation("类型命名不规范", NameMismatch(e.name), Some(e.line), None) in NamingChecks(s, rules, parsed, matches)[2].value
  {
    var ts := parsed.types;
    var i :| 0 <= i < |ts| && ts[i] == e;
    NamingExact(ts, |ts|, s.typePattern, "类型命名不规范", false, matches, BaseWording);
    ReportedMembers(ts, |ts|, s.typePattern, "类型命名不规范", false, matches, BaseWording);
  }

  /**
   * A parser built for a built-in ruleset freezes the global layer: snake
   * case functions and variables, 120 columns instead of the parser's own
   * 100, and, with no `type_naming` there, the default Pascal case types;
   * names containing "Error" are exempt.
   */
  lemma BuiltinSettings(name: string)
    requires name in AllRulesets
    ensures SettingsOf(BaseRules(AllRulesets, name)).functionPattern == Str(SnakeCase)
    ensures SettingsOf(BaseRules(AllRulesets, name)).variablePattern == Str(SnakeCase)
    ensures SettingsOf(BaseRules(AllRulesets, name)).typePattern == Str(PascalCase)
    ensures SettingsOf(BaseRules(AllRulesets, name)).maxLineLength == Int(120)
    ensures Exempt(BaseRules(AllRulesets, name))
  {
    BuiltinParsersSeeGlobalLayer(name);
    GlobalSettings();
  }

  lemma GlobalSettings()
    ensures SettingsOf(GlobalRules).functionPattern == Str(SnakeCase)
    ensures SettingsOf(GlobalRules).variablePattern == Str(SnakeCase)
    ensures SettingsOf(GlobalRules).typePattern == Str(PascalCase)
    ensures SettingsOf(GlobalRules).maxLineLength == Int(120)
    ensures Exempt(GlobalRules)
  {
    GlobalDefaults();
    assert "type_naming" !in GlobalRules;
  }
}
