/**
 * The PHP parser.  Its extractors run regular expressions (`Pattern`) over
 * each line with `re.finditer` (the `Finder` parameter); the short-tag check
 * searches each line with `re.search` (the `search` parameter).  Probing for
 * PHP and PHP_CodeSniffer and running `phpcs` are parameters of `Scan`.
 */
module PhpParser {
  import opened Text
  import opened Rulesets
  import opened Rules
  import opened BaseParser

  /** The dictionary `parse` returns. */
  datatype Parsed =
    | Parsed(functions: seq<Entity>, variables: seq<Entity>, classes: seq<Entity>, constants: seq<Entity>, content: string)
    | ParseFailed(errorMessage: string, content: string)

  // ---------------------------------------------------------------------
  // Extraction

  /** The parser's regular expressions; `Regex` gives each one's text. */
  datatype Pattern =
    | FunctionPattern | MemberFunctionPattern | VariablePattern | ClassPattern | DefinePattern | ConstPattern
    | ShortTagPattern

  function Regex(p: Pattern): string
  {
    match p
    case FunctionPattern => @"function\s+([a-zA-Z0-9_]+)\s*\("
    case MemberFunctionPattern => @"\s*(public|protected|private|static)?\s*(final|abstract)?\s*function\s+([a-zA-Z0-9_]+)\s*\("
    case VariablePattern => @"\$([a-zA-Z0-9_]+)"
    case ClassPattern => @"class\s+([a-zA-Z0-9_]+)"
    case DefinePattern => @"define\s*\(\s*['""]([A-Z_][A-Z0-9_]*)['""]"
    case ConstPattern => @"const\s+([A-Z_][A-Z0-9_]*)\s*="
    case ShortTagPattern => @"<\?\s"
  }

  /** The four extractors of `parse`. */
  datatype Extractor = Functions | Variables | Classes | Constants

  /**
   * The variable names taken from the identifiers after `$`: each one that
   * is not all upper-case, with its `$` put back.
   */
  function Dollars(idents: seq<string>): seq<string>
  {
    if |idents| == 0 then []
    else Dollars(idents[..|idents| - 1]) + (if IsUpper(idents[|idents| - 1]) then [] else ["$" + idents[|idents| - 1]])
  }

  lemma {:induction false} DollarsMembers(idents: seq<string>)
    ensures forall n :: n in Dollars(idents) <==> exists m :: m in idents && !IsUpper(m) && n == "$" + m
  {
    if |idents| > 0 {
      var init := idents[..|idents| - 1];
      DollarsMembers(init);
      assert idents == init + [idents[|idents| - 1]];
    }
  }

  /**
   * The entities one extractor takes from line `i`: the names of both
   * function patterns, one after the other; the `$` variables; class names;
   * `define` then `const` constant names.
   */
  function FoundAt(x: Extractor, line: string, i: nat, find: Finder<Pattern>): seq<Entity>
  {
    match x
    case Functions => AtLine(find(FunctionPattern, line), i + 1) + AtLine(find(MemberFunctionPattern, line), i + 1)
    case Variables => AtLine(Dollars(find(VariablePattern, line)), i + 1)
    case Classes => AtLine(find(ClassPattern, line), i + 1)
    case Constants => AtLine(find(DefinePattern, line), i + 1) + AtLine(find(ConstPattern, line), i + 1)
  }

  /** One extractor as a function of the line and its index. */
  function LineFinds(x: Extractor, find: Finder<Pattern>): LineExtractor
  {
    (line: string, i: nat) => FoundAt(x, line, i, find)
  }

  /** The entities an extractor's line loop collects, line by line. */
  function Collected(x: Extractor, lines: seq<string>, find: Finder<Pattern>): seq<Entity>
  {
    FromLines(LineFinds(x, find), lines, |lines|)
  }

  /** The entities an extractor returns: the variables lose their repeated (name, line) pairs. */
  function Extracted(x: Extractor, lines: seq<string>, find: Finder<Pattern>): seq<Entity>
  {
    if x == Variables then Distinct(Collected(x, lines, find)) else Collected(x, lines, find)
  }

  /** `_extract_functions`, `_extract_variables`, `_extract_classes` or `_extract_constants`. */
  method Extract(x: Extractor, content: string, find: Finder<Pattern>) returns (es: seq<Entity>)
    ensures es == Extracted(x, Lines(content), find)
  {
    var lines := Lines(content);
    var f := LineFinds(x, find);
    es := [];
    for i := 0 to |lines|
      invariant es == FromLines(f, lines, i)
    {
      var found := ExtractFromLine(x, lines[i], i, find);
      FromLinesStep(f, lines, i, found);
      es := es + found;
    }
    if x == Variables {
      es := Deduplicate(es);
    }
  }

  /** The body of an extractor's line loop: each pattern's matches in turn. */
  method ExtractFromLine(x: Extractor, line: string, i: nat, find: Finder<Pattern>) returns (found: seq<Entity>)
    ensures found == FoundAt(x, line, i, find)
  {
    match x
    case Functions =>
      var plain := Matches(find(FunctionPattern, line), i + 1);
      var members := Matches(find(MemberFunctionPattern, line), i + 1);
      found := plain + members;
    case Variables =>
      found := MatchDollars(find(VariablePattern, line), i + 1);
    case Classes =>
      found := Matches(find(ClassPattern, line), i + 1);
    case Constants =>
      var defined := Matches(find(DefinePattern, line), i + 1);
      var declared := Matches(find(ConstPattern, line), i + 1);
      found := defined + declared;
  }

  /** The loop over the variable pattern's matches on a line, skipping the all-upper-case identifiers. */
  method MatchDollars(idents: seq<string>, line: int) returns (es: seq<Entity>)
    ensures es == AtLine(Dollars(idents), line)
  {
    es := [];
    for k := 0 to |idents|
      invariant es == AtLine(Dollars(idents[..k]), line)
    {
      assert idents[..k + 1][..k] == idents[..k];
      if !IsUpper(idents[k]) {
        var kept := Dollars(idents[..k]);
        assert AtLine(kept + ["$" + idents[k]], line) == AtLine(kept, line) + [Entity("$" + idents[k], line)] by {
          assert (kept + ["$" + idents[k]])[..|kept|] == kept;
        }
        es := es + [Entity("$" + idents[k], line)];
      }
    }
    assert idents[..|idents|] == idents;
  }

  // ---------------------------------------------------------------------
  // Removing repeated variables

  /**
   * `list({(v['name'], v['line']): v for v in variables}.values())`: each
   * (name, line) pair once, in the order of its first occurrence.
   */
  function Distinct(es: seq<Entity>): seq<Entity>
  {
    if |es| == 0 then []
    else
      var d := Distinct(es[..|es| - 1]);
      if es[|es| - 1] in d then d else d + [es[|es| - 1]]
  }

  predicate NoRepeats(es: seq<Entity>)
  {
    forall i, j :: 0 <= i < j < |es| ==> es[i] != es[j]
  }

  method Deduplicate(es: seq<Entity>) returns (r: seq<Entity>)
    ensures r == Distinct(es)
  {
    r := [];
    for k := 0 to |es|
      invariant r == Distinct(es[..k])
    {
      assert es[..k + 1][..k] == es[..k];
      if es[k] !in r {
        r := r + [es[k]];
      }
    }
    assert es[..|es|] == es;
  }

  /** Removing repeats keeps every entity, adds none, and leaves no pair twice. */
  lemma {:induction false} DistinctExact(es: seq<Entity>)
    ensures forall e :: e in Distinct(es) <==> e in es
    ensures NoRepeats(Distinct(es))
    ensures |Distinct(es)| <= |es|
  {
    if |es| > 0 {
      var init := es[..|es| - 1];
      DistinctExact(init);
      assert es == init + [es[|es| - 1]];
    }
  }

  /** A list without repeats is left as it is; so removing repeats twice is removing them once. */
  lemma {:induction false} DistinctKeepsDistinct(es: seq<Entity>)
    requires NoRepeats(es)
    ensures Distinct(es) == es
  {
    if |es| > 0 {
      var init := es[..|es| - 1];
      assert NoRepeats(init);
      DistinctKeepsDistinct(init);
      assert es[|es| - 1] !in init by {
        forall j | 0 <= j < |init|
          ensures init[j] != es[|es| - 1]
        {
          assert init[j] == es[j];
        }
      }
      assert es == init + [es[|es| - 1]];
    }
  }

  lemma DistinctIdempotent(es: seq<Entity>)
    ensures Distinct(Distinct(es)) == Distinct(es)
  {
    DistinctExact(es);
    DistinctKeepsDistinct(Distinct(es));
  }

  // ---------------------------------------------------------------------
  // What the extractors find

  /**
   * An extractor's result holds exactly what it takes from each line, at
   * that line's number; the variables hold no (name, line) pair twice.
   */
  lemma ExtractedExact(x: Extractor, lines: seq<string>, find: Finder<Pattern>)
    ensures forall e :: e in Extracted(x, lines, find) ==>
      1 <= e.line <= |lines| && e in FoundAt(x, lines[e.line - 1], e.line - 1, find)
    ensures forall i, e :: 0 <= i < |lines| && e in FoundAt(x, lines[i], i, find) ==> e in Extracted(x, lines, find)
    ensures x == Variables ==> NoRepeats(Extracted(x, lines, find))
  {
    CollectedExact(x, lines, find);
    DistinctExact(Collected(x, lines, find));
    assert forall e :: e in Extracted(x, lines, find) <==> e in Collected(x, lines, find);
  }

  /** The line loop collects exactly what the extractor takes from each line, at that line's number. */
  lemma CollectedExact(x: Extractor, lines: seq<string>, find: Finder<Pattern>)
    ensures forall e :: e in Collected(x, lines, find) ==>
      1 <= e.line <= |lines| && e in FoundAt(x, lines[e.line - 1], e.line - 1, find)
    ensures forall i, e :: 0 <= i < |lines| && e in FoundAt(x, lines[i], i, find) ==> e in Collected(x, lines, find)
  {
    LineFindsNumbered(x, find);
    FromLinesNumbered(LineFinds(x, find), lines, |lines|);
  }

  /** Everything an extractor takes from any line carries that line's number. */
  lemma LineFindsNumbered(x: Extractor, find: Finder<Pattern>)
    ensures forall line, i: nat, e :: e in LineFinds(x, find)(line, i) ==> e.line == i + 1
  {
    forall line, i: nat, e | e in LineFinds(x, find)(line, i)
      ensures e.line == i + 1
    {
      FoundAtNumber(x, line, i, find);
    }
  }

  /** Everything an extractor takes from line `i` carries the number `i + 1`. */
  lemma FoundAtNumber(x: Extractor, line: string, i: nat, find: Finder<Pattern>)
    ensures forall e :: e in FoundAt(x, line, i, find) ==> e.line == i + 1
  {
    match x
    case Functions =>
      AtLineMembers(find(FunctionPattern, line), i + 1);
      AtLineMembers(find(MemberFunctionPattern, line), i + 1);
    case Variables =>
      AtLineMembers(Dollars(find(VariablePattern, line)), i + 1);
    case Classes =>
      AtLineMembers(find(ClassPattern, line), i + 1);
    case Constants =>
      AtLineMembers(find(DefinePattern, line), i + 1);
      AtLineMembers(find(ConstPattern, line), i + 1);
  }

  /**
   * What each extractor takes from a line, always at that line's number:
   * the names of either function pattern; `$` followed by each identifier
   * that is not all upper-case; class names; `define` and `const` names.
   */
  lemma FoundAtLine(x: Extractor, line: string, i: nat, find: Finder<Pattern>)
    ensures x == Functions ==> forall e :: e in FoundAt(x, line, i, find) <==>
      e.line == i + 1 && (e.name in find(FunctionPattern, line) || e.name in find(MemberFunctionPattern, line))
    ensures x == Variables ==> forall e :: e in FoundAt(x, line, i, find) <==>
      e.line == i + 1 && exists m :: m in find(VariablePattern, line) && !IsUpper(m) && e.name == "$" + m
    ensures x == Classes ==> forall e :: e in FoundAt(x, line, i, find) <==>
      e.line == i + 1 && e.name in find(ClassPattern, line)
    ensures x == Constants ==> forall e :: e in FoundAt(x, line, i, find) <==>
      e.line == i + 1 && (e.name in find(DefinePattern, line) || e.name in find(ConstPattern, line))
  {
    match x
    case Functions =>
      AtLineMembers(find(FunctionPattern, line), i + 1);
      AtLineMembers(find(MemberFunctionPattern, line), i + 1);
    case Variables =>
      AtLineMembers(Dollars(find(VariablePattern, line)), i + 1);
      DollarsMembers(find(VariablePattern, line));
    case Classes =>
      AtLineMembers(find(ClassPattern, line), i + 1);
    case Constants =>
      AtLineMembers(find(DefinePattern, line), i + 1);
      AtLineMembers(find(ConstPattern, line), i + 1);
  }

  /**
   * Function names are not deduplicated: a name both function patterns find
   * on a line (as a plain `function name(` is) is recorded twice there.
   */
  lemma FunctionsRecordedPerPattern(line: string, i: nat, find: Finder<Pattern>, name: string)
    requires name in find(FunctionPattern, line) && name in find(MemberFunctionPattern, line)
    ensures var fs := FoundAt(Functions, line, i, find);
      exists j, k :: 0 <= j < k < |fs| && fs[j] == Entity(name, i + 1) && fs[k] == Entity(name, i + 1)
  {
    var plain := find(FunctionPattern, line);
    var members := find(MemberFunctionPattern, line);
    var j :| 0 <= j < |plain| && plain[j] == name;
    var k :| 0 <= k < |members| && members[k] == name;
    var fs := FoundAt(Functions, line, i, find);
    assert fs[j] == Entity(name, i + 1);
    assert fs[|plain| + k] == Entity(name, i + 1);
  }

  /** Every name `Dollars` gives starts with `$`. */
  lemma {:induction false} DollarNames(idents: seq<string>)
    ensures forall n :: n in Dollars(idents) ==> |n| > 0 && n[0] == '$'
  {
    if |idents| > 0 {
      DollarNames(idents[..|idents| - 1]);
    }
  }

  /** Every extracted variable name starts with `$`. */
  lemma VariablesHaveDollar(lines: seq<string>, find: Finder<Pattern>)
    ensures forall e :: e in Extracted(Variables, lines, find) ==> |e.name| > 0 && e.name[0] == '$'
  {
    ExtractedExact(Variables, lines, find);
    forall e | e in Extracted(Variables, lines, find)
      ensures |e.name| > 0 && e.name[0] == '$'
    {
      var idents := find(VariablePattern, lines[e.line - 1]);
      DollarNames(idents);
      AtLineMembers(Dollars(idents), e.line);
    }
  }

  /** `parse`: the four extractors over the content; it never reports a parse error. */
  function Parse(content: string, find: Finder<Pattern>): (r: Parsed)
    ensures r.Parsed? && r.content == content
  {
    var lines := Lines(content);
    Parsed(Extracted(Functions, lines, find), Extracted(Variables, lines, find),
           Extracted(Classes, lines, find), Extracted(Constants, lines, find), content)
  }

  method ParseContent(content: string, find: Finder<Pattern>) returns (r: Parsed)
    ensures r == Parse(content, find)
  {
    var functions := Extract(Functions, content, find);
    var variables := Extract(Variables, content, find);
    var classes := Extract(Classes, content, find);
    var constants := Extract(Constants, content, find);
    r := Parsed(functions, variables, classes, constants, content);
  }

  // ---------------------------------------------------------------------
  // Closing tag

  const OpenTag := "<?php"
  const CloseTag := "?>"

  /** `file_content.split('<?php')[1].split('?>')[0]`: after the first `<?php`, up to the next `<?php` or `?>`. */
  function FirstBlock(content: string): string
  {
    BeforeFirst(BetweenFirstTwo(content, OpenTag), CloseTag)
  }

  /** The file ends with `?>`, opens with `<?php` somewhere, and its first block holds some code. */
  predicate ClosingTagMisused(content: string)
  {
    EndsWith(Strip(content), CloseTag) && Contains(content, OpenTag) && Contains(content, CloseTag)
      && Strip(FirstBlock(content)) != []
  }

  const ClosingTagViolation := Violation("闭合标签使用不规范", PhpClosingTag, None, None)

  /** `_check_closing_tag_usage`. */
  function ClosingTagCheck(content: string): Option<Violation>
  {
    if ClosingTagMisused(content) then Some(ClosingTagViolation) else None
  }

  /** No `?` anywhere in the text. */
  predicate NoQuestionMark(code: string)
  {
    forall k :: 0 <= k < |code| ==> code[k] != '?'
  }

  /** In `<?php` + code + `?>`, the first block starts right after the opening tag and runs to the end. */
  lemma OpenTagOnce(code: string)
    requires NoQuestionMark(code)
    ensures BetweenFirstTwo(OpenTag + code + CloseTag, OpenTag) == code + CloseTag
  {
    var content := OpenTag + code + CloseTag;
    var rest := code + CloseTag;
    assert content[..5] == OpenTag;
    FindFirst(content, OpenTag, 0);
    assert content[|OpenTag|..] == rest;
    forall j: nat
      ensures !OccursAt(rest, OpenTag, j)
    {
      if j + 5 <= |rest| {
        assert rest[j..j + 5][1] == rest[j + 1] == code[j + 1];
      }
    }
    NotContained(rest, OpenTag);
  }

  /** In code + `?>`, the first `?>` is the final one. */
  lemma CloseTagAtEnd(code: string)
    requires NoQuestionMark(code)
    ensures BeforeFirst(code + CloseTag, CloseTag) == code
  {
    var rest := code + CloseTag;
    forall j: nat | j < |code|
      ensures !OccursAt(rest, CloseTag, j)
    {
      assert rest[j..j + 2][0] == rest[j] == code[j];
    }
    assert rest[|code|..|code| + 2] == CloseTag;
    FindFirst(rest, CloseTag, |code|);
    assert rest[..|code|] == code;
  }

  /**
   * A file made of one PHP block, `<?php` then code (without `?`) up to a
   * final `?>`, is reported: PSR-2 asks such files to leave the closing tag
   * out.
   */
  lemma ClosingTagOnPhpOnlyFile(code: string)
    requires NoQuestionMark(code)
    requires Strip(code) != []
    ensures ClosingTagCheck(OpenTag + code + CloseTag) == Some(ClosingTagViolation)
  {
    var content := OpenTag + code + CloseTag;
    OpenTagOnce(code);
    CloseTagAtEnd(code);
    assert FirstBlock(content) == code;
    StripUnchanged(content);
    assert content[|content| - 2..] == CloseTag;
    ContainsAt(content, CloseTag, |content| - 2);
    assert content[..5] == OpenTag;
    ContainsAt(content, OpenTag, 0);
  }

  /**
   * No file is reported unless its stripped text ends with `?>` and it
   * holds `<?php`; and a file whose first block is blank, such as
   * `<?php ?>`, is not reported either.
   */
  lemma ClosingTagRequirements(content: string)
    ensures !EndsWith(Strip(content), CloseTag) ==> ClosingTagCheck(content).None?
    ensures !Contains(content, OpenTag) ==> ClosingTagCheck(content).None?
    ensures IsBlank(FirstBlock(content)) ==> ClosingTagCheck(content).None?
    ensures ClosingTagCheck(content).Some? ==> ClosingTagCheck(content).value.line.None?
  {
    StripEmptyIffBlank(FirstBlock(content));
  }

  // ---------------------------------------------------------------------
  // Short tags

  function ShortTagViolation(i: nat): Violation
  {
    Violation("短标签使用不规范", PhpShortTag, Some(i + 1), None)
  }

  /** A line using `<?` followed by whitespace, unless its stripped text starts with the echo tag `<?=`. */
  predicate UsesShortTag(line: string, search: Searcher<Pattern>)
  {
    search(ShortTagPattern, line) && !StartsWith(Strip(line), "<?=")
  }

  /** What the check reports for line `i`. */
  function ShortTagAtLine(lines: seq<string>, search: Searcher<Pattern>, i: nat): Option<Violation>
  {
    if i < |lines| && UsesShortTag(lines[i], search) then Some(ShortTagViolation(i)) else None
  }

  function ShortTagAt(lines: seq<string>, search: Searcher<Pattern>): LineRule
  {
    (i: nat) => ShortTagAtLine(lines, search, i)
  }

  /** `_check_short_tag_usage`: one violation per line using a short tag. */
  function ShortTagCheck(lines: seq<string>, search: Searcher<Pattern>): seq<Violation>
  {
    Flagged(ShortTagAt(lines, search), |lines|)
  }

  method CheckShortTags(lines: seq<string>, search: Searcher<Pattern>) returns (vs: seq<Violation>)
    ensures vs == ShortTagCheck(lines, search)
  {
    var f := ShortTagAt(lines, search);
    vs := [];
    for i := 0 to |lines|
      invariant vs == Flagged(f, i)
    {
      var found: seq<Violation> := [];
      if search(ShortTagPattern, lines[i]) && !StartsWith(Strip(lines[i]), "<?=") {
        found := [ShortTagViolation(i)];
      }
      assert f(i) == ShortTagAtLine(lines, search, i);
      FlaggedStep(f, i, found);
      vs := vs + found;
    }
  }

  /**
   * Every line using a short tag is reported at its own number, once, and
   * nothing else is; a line starting with `<?=` is never reported.
   */
  lemma ShortTagsExact(lines: seq<string>, search: Searcher<Pattern>)
    ensures forall i :: 0 <= i < |lines| && UsesShortTag(lines[i], search) ==>
      ShortTagViolation(i) in ShortTagCheck(lines, search)
    ensures forall v :: v in ShortTagCheck(lines, search) ==>
      exists i :: 0 <= i < |lines| && UsesShortTag(lines[i], search) && v == ShortTagViolation(i)
    ensures forall i :: 0 <= i < |lines| && StartsWith(Strip(lines[i]), "<?=") ==>
      ShortTagViolation(i) !in ShortTagCheck(lines, search)
    ensures OnAscendingLines(ShortTagCheck(lines, search))
  {
    var f := ShortTagAt(lines, search);
    FlaggedExact(f, |lines|, 1);
    IncreaseIsAscending(Flagged(f, |lines|));
    forall i | 0 <= i < |lines| && UsesShortTag(lines[i], search)
      ensures ShortTagViolation(i) in Flagged(f, |lines|)
    {
      assert f(i) == ShortTagAtLine(lines, search, i);
    }
    forall v | v in Flagged(f, |lines|)
      ensures exists i :: 0 <= i < |lines| && UsesShortTag(lines[i], search) && v == ShortTagViolation(i)
    {
      var i :| 0 <= i < |lines| && f(i) == Some(v);
      assert f(i) == ShortTagAtLine(lines, search, i);
      assert UsesShortTag(lines[i], search) && v == ShortTagViolation(i);
    }
  }

  // ---------------------------------------------------------------------
  // check_rules

  /** The settings the parser freezes at construction, with the PHP defaults. */
  datatype Settings = Settings(
    functionPattern: RuleValue, variablePattern: RuleValue, classPattern: RuleValue, constantPattern: RuleValue,
    maxLineLength: RuleValue, expectedIndent: RuleValue, minCommentCoverage: RuleValue)

  const VariableDefault := @"^\$[a-z_][a-z0-9_]*$"

  function SettingsOf(rules: RuleMap): Settings
  {
    Settings(
      Get(rules, "function_naming", Str(SnakeCase)), Get(rules, "variable_naming", Str(VariableDefault)),
      Get(rules, "class_naming", Str(PascalCase)), Get(rules, "constant_naming", Str(UpperSnake)),
      Get(rules, "max_line_length", Int(120)), Get(rules, "expected_indent", Int(4)),
      Get(rules, "min_comment_coverage", Real(0.1)))
  }

  /**
   * The checks of `check_rules` in order: naming of functions, variables,
   * classes and constants (no exemption), line length, indentation, comment
   * coverage, the closing tag and short tags.
   */
  function Checks(s: Settings, rules: RuleMap, parsed: Parsed, matches: Matcher, search: Searcher<Pattern>)
    : (r: seq<Option<seq<Violation>>>)
    requires parsed.Parsed?
    ensures |r| == 9
  {
    NamingChecks(s, parsed, matches) + LineChecks(s, rules, parsed, search)
  }

  function NamingChecks(s: Settings, parsed: Parsed, matches: Matcher): (r: seq<Option<seq<Violation>>>)
    requires parsed.Parsed?
    ensures |r| == 4
  {
    [ NamingViolations(parsed.functions, |parsed.functions|, s.functionPattern, "函数命名不规范", false, matches, BaseWording),
      NamingViolations(parsed.variables, |parsed.variables|, s.variablePattern, "变量命名不规范", false, matches, BaseWording),
      NamingViolations(parsed.classes, |parsed.classes|, s.classPattern, "类命名不规范", false, matches, BaseWording),
      NamingViolations(parsed.constants, |parsed.constants|, s.constantPattern, "常量命名不规范", false, matches, BaseWording)]
  }

  function LineChecks(s: Settings, rules: RuleMap, parsed: Parsed, search: Searcher<Pattern>): (r: seq<Option<seq<Violation>>>)
    requires parsed.Parsed?
    ensures |r| == 5
  {
    var lines := Lines(parsed.content);
    [ LineLengthCheck(lines, s.maxLineLength),
      IndentationCheck(lines, s.expectedIndent, rules, false),
      CoverageList(parsed.content, s.minCommentCoverage),
      Some(AsList(ClosingTagCheck(parsed.content))),
      Some(ShortTagCheck(lines, search))]
  }

  method RunNamingChecks(s: Settings, parsed: Parsed, matches: Matcher) returns (parts: seq<Option<seq<Violation>>>)
    requires parsed.Parsed?
    ensures parts == NamingChecks(s, parsed, matches)
  {
    var f := CheckNames(parsed.functions, s.functionPattern, "函数命名不规范", false, matches, BaseWording);
    var v := CheckNames(parsed.variables, s.variablePattern, "变量命名不规范", false, matches, BaseWording);
    var c := CheckNames(parsed.classes, s.classPattern, "类命名不规范", false, matches, BaseWording);
    var k := CheckNames(parsed.constants, s.constantPattern, "常量命名不规范", false, matches, BaseWording);
    parts := [f, v, c, k];
  }

  method RunLineChecks(s: Settings, rules: RuleMap, parsed: Parsed, search: Searcher<Pattern>)
    returns (parts: seq<Option<seq<Violation>>>)
    requires parsed.Parsed?
    ensures parts == LineChecks(s, rules, parsed, search)
  {
    var lines := Lines(parsed.content);
    var length := ScanLineLength(lines, s.maxLineLength);
    var indent := ScanIndentation(lines, s.expectedIndent, rules, false);
    var coverage := CheckCommentCoverage(parsed.content, s.minCommentCoverage);
    var closing := ClosingTagCheck(parsed.content);
    var shortTags := CheckShortTags(lines, search);
    parts := [length, indent, match coverage case None => None case Some(v) => Some(AsList(v)),
              Some(AsList(closing)), Some(shortTags)];
  }

  /** `check_rules`: the parse-error violation alone, or the checks' results one after another. */
  function CheckRulesSpec(s: Settings, rules: RuleMap, parsed: Parsed, matches: Matcher, search: Searcher<Pattern>)
    : Option<seq<Violation>>
  {
    match parsed
    case ParseFailed(message, _) => Some([ParseErrorViolation(message)])
    case Parsed(_, _, _, _, _) => Chain(Checks(s, rules, parsed, matches, search))
  }

  /** A parse error yields exactly the parse-error violation, whatever the rules. */
  lemma ParseErrorSingle(s: Settings, rules: RuleMap, message: string, content: string, matches: Matcher, search: Searcher<Pattern>)
    ensures CheckRulesSpec(s, rules, ParseFailed(message, content), matches, search) == Some([ParseErrorViolation(message)])
  {
  }

  // ---------------------------------------------------------------------
  // PHP_CodeSniffer

  /**
   * The probes of `_check_php_and_codesniffer_installed`: whether
   * `php --version` and `phpcs --version` succeed, and what `php -m`
   * printed (`None` when running it raised).
   */
  datatype Probe = Probe(php: bool, phpcs: bool, modules: Option<string>)

  /** PHP must run; then either `phpcs` runs or `php -m` lists it. */
  predicate Installed(p: Probe)
  {
    p.php && (p.phpcs || (p.modules.Some? && Contains(p.modules.value, "phpcs")))
  }

  const PhpcsKind := "PHP_CodeSniffer检查问题"

  /**
   * `_run_phpcs_check` on a finished `phpcs --standard=PSR2` run (`None`
   * when running it raised): a failing run with output gives one
   * violation per output line mentioning ERROR or WARNING.
   */
  function PhpcsViolations(run: Option<ToolRun>): seq<Violation>
  {
    match run
    case None => []
    case Some(r) =>
      if r.returncode != 0 && r.stdout != "" then
        ToolLines(Lines(r.stdout), |Lines(r.stdout)|, PhpcsKind, WithEither("ERROR", "WARNING"))
      else []
  }

  /** What PHP_CodeSniffer adds to a scan: nothing unless it is installed. */
  function CodeSnifferViolations(probe: Probe, run: Option<ToolRun>): seq<Violation>
  {
    if Installed(probe) then PhpcsViolations(run) else []
  }

  /**
   * PHP_CodeSniffer adds nothing without PHP, or unless its run failed with
   * output; then every output line mentioning ERROR or WARNING becomes one
   * violation with its stripped text, and nothing else does.
   */
  lemma PhpcsExact(probe: Probe, r: ToolRun)
    ensures !probe.php ==> CodeSnifferViolations(probe, Some(r)) == []
    ensures r.returncode == 0 || r.stdout == "" ==> CodeSnifferViolations(probe, Some(r)) == []
    ensures Installed(probe) && r.returncode != 0 && r.stdout != "" ==>
      var lines := Lines(r.stdout);
      (forall i :: 0 <= i < |lines| && (Contains(lines[i], "ERROR") || Contains(lines[i], "WARNING")) ==>
        ToolViolation(PhpcsKind, lines[i]) in CodeSnifferViolations(probe, Some(r)))
      && (forall v :: v in CodeSnifferViolations(probe, Some(r)) ==>
        exists i :: 0 <= i < |lines| && (Contains(lines[i], "ERROR") || Contains(lines[i], "WARNING"))
          && v == ToolViolation(PhpcsKind, lines[i]))
  {
    if r.returncode != 0 && r.stdout != "" {
      ToolLinesExact(Lines(r.stdout), |Lines(r.stdout)|, PhpcsKind, WithEither("ERROR", "WARNING"));
    }
  }

  /** The parser's class: frozen settings, and the rules `set_rules` may replace. */
  class Parser {
    var rules: RuleMap
    const ruleset: string
    const settings: Settings

    constructor (table: Table, ruleset: string)
      ensures rules == BaseRules(table, ruleset) && this.ruleset == ruleset
      ensures settings == SettingsOf(BaseRules(table, ruleset))
    {
      this.ruleset := ruleset;
      rules := BaseRules(table, ruleset);
      settings := SettingsOf(BaseRules(table, ruleset));
    }

    /** `set_rules`: replaces the rules; the settings frozen at construction stay. */
    method SetRules(rules: RuleMap)
      modifies this
      ensures this.rules == rules
    {
      this.rules := rules;
    }

    method CheckRules(parsed: Parsed, matches: Matcher, search: Searcher<Pattern>) returns (r: Option<seq<Violation>>)
      ensures r == CheckRulesSpec(settings, rules, parsed, matches, search)
    {
      if parsed.ParseFailed? {
        return Some([ParseErrorViolation(parsed.errorMessage)]);
      }
      var naming := RunNamingChecks(settings, parsed, matches);
      var others := RunLineChecks(settings, rules, parsed, search);
      r := Chain(naming + others);
    }

    /**
     * `scan`: the base scan of the file read as `file`, then PHP_CodeSniffer's
     * findings when the probe finds it installed (`phpcs` is its run).
     */
    method Scan(file: Option<string>, find: Finder<Pattern>, matches: Matcher, search: Searcher<Pattern>,
                probe: Probe, phpcs: Option<ToolRun>)
      returns (vs: seq<Violation>)
      ensures file.Some? ==>
        vs == ScanOutcome(file, CheckRulesSpec(settings, rules, Parse(file.value, find), matches, search), rules)
          + CodeSnifferViolations(probe, phpcs)
      ensures file.None? ==> vs == [ScanError()] + CodeSnifferViolations(probe, phpcs)
    {
      var base: seq<Violation>;
      if file.None? {
        base := [ScanError()];
      } else if Strip(file.value) == [] {
        StripEmptyIffBlank(file.value);
        base := [];
      } else {
        StripEmptyIffBlank(file.value);
        var parsed := ParseContent(file.value, find);
        var checked := CheckRules(parsed, matches, search);
        base := FinishScan(file.value, checked, rules);
      }
      var sniffed: seq<Violation> := [];
      if Installed(probe) && phpcs.Some? {
        var r := phpcs.value;
        if r.returncode != 0 && r.stdout != "" {
          sniffed := ParseToolOutput(r.stdout, PhpcsKind, WithEither("ERROR", "WARNING"));
        }
      }
      vs := base + sniffed;
    }
  }

  /**
   * When every check answers, the function naming violations come first and
   * the closing-tag and short-tag violations come last, in that order.
   */
  lemma CheckOrder(s: Settings, rules: RuleMap, parsed: Parsed, matches: Matcher, search: Searcher<Pattern>)
    requires parsed.Parsed? && CheckRulesSpec(s, rules, parsed, matches, search).Some?
    ensures var r := CheckRulesSpec(s, rules, parsed, matches, search).value;
      var tail := AsList(ClosingTagCheck(parsed.content)) + ShortTagCheck(Lines(parsed.content), search);
      NamingChecks(s, parsed, matches)[0].Some? && NamingChecks(s, parsed, matches)[0].value <= r
      && |tail| <= |r| && r[|r| - |tail|..] == tail
  {
    var parts := Checks(s, rules, parsed, matches, search);
    assert parts[0] == NamingChecks(s, parsed, matches)[0];
    assert parts[7..] == LineChecks(s, rules, parsed, search)[3..];
    ChainEnds(parts);
  }

  /**
   * There is no `allow_error_naming` exemption: a variable whose name
   * contains "Error" and fails the pattern is still reported, at its line.
   */
  lemma ErrorNamesStillChecked(s: Settings, parsed: Parsed, matches: Matcher, e: Entity)
    requires parsed.Parsed? && e in parsed.variables && ErrorName(e.name)
    requires s.variablePattern.Str? && matches(s.variablePattern.s, e.name) == Some(false)
    requires forall v :: v in parsed.variables ==> matches(s.variablePattern.s, v.name).Some?
    ensures NamingChecks(s, parsed, matches)[1].Some?
    ensures Violation("变量命名不规范", NameMismatch(e.name), Some(e.line), None) in NamingChecks(s, parsed, matches)[1].value
  {
    var vs := parsed.variables;
    var i :| 0 <= i < |vs| && vs[i] == e;
    NamingExact(vs, |vs|, s.variablePattern, "变量命名不规范", false, matches, BaseWording);
    ReportedMembers(vs, |vs|, s.variablePattern, "变量命名不规范", false, matches, BaseWording);
  }

  /**
   * A parser built for a built-in ruleset freezes the global layer: its
   * variables are checked against the plain snake-case pattern, which has
   * no `$`, not the parser's own `$` pattern or the Google PHP section's,
   * although every variable it extracts starts with `$`.
   */
  lemma BuiltinSettings(name: string)
    requires name in AllRulesets
    ensures SettingsOf(BaseRules(AllRulesets, name)).functionPattern == Str(SnakeCase)
    ensures SettingsOf(BaseRules(AllRulesets, name)).variablePattern == Str(SnakeCase)
    ensures SettingsOf(BaseRules(AllRulesets, name)).variablePattern != Str(VariableDefault)
    ensures SettingsOf(BaseRules(AllRulesets, name)).expectedIndent == Int(4)
    ensures SettingsOf(BaseRules(AllRulesets, name)).maxLineLength == Int(120)
  {
    BuiltinParsersSeeGlobalLayer(name);
    GlobalSettings();
  }

  lemma GlobalSettings()
    ensures SettingsOf(GlobalRules).functionPattern == Str(SnakeCase)
    ensures SettingsOf(GlobalRules).variablePattern == Str(SnakeCase)
    ensures SettingsOf(GlobalRules).expectedIndent == Int(4)
    ensures SettingsOf(GlobalRules).maxLineLength == Int(120)
    ensures SnakeCase != VariableDefault
  {
    GlobalDefaults();
    assert SnakeCase[1] != VariableDefault[1];
  }
}
