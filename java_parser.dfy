/**
 * The Java parser.  Its extractors run regular expressions (`Pattern`) over
 * each line with `re.finditer` (the `Finder` parameter); its brace check
 * matches three header patterns at the start of each stripped line with
 * `re.match` (the `Searcher` parameter).  The import-order categories, which
 * only look at what follows `import`, are written out.  Running Checkstyle
 * is a parameter of `Scan`: the finished process, or `None` when Java or
 * Checkstyle is missing.
 */
module JavaParser {
  import opened Text
  import opened Rulesets
  import opened Rules
  import opened BaseParser

  /** The dictionary `parse` returns. */
  datatype Parsed =
    | Parsed(functions: seq<Entity>, variables: seq<Entity>, classes: seq<Entity>, constants: seq<Entity>,
             packages: seq<Entity>, content: string)
    | ParseFailed(errorMessage: string, content: string)

  // ---------------------------------------------------------------------
  // Extraction

  /** The parser's regular expressions; `Regex` gives each one's text. */
  datatype Pattern =
    | FunctionPattern | VariablePattern | ArrayPattern | ClassPattern | ConstPattern | PackagePattern
    | TypeBracePattern | MethodBracePattern | ControlBracePattern

  function Regex(p: Pattern): string
  {
    match p
    case FunctionPattern =>
      @"\s*(public|protected|private|static|final|abstract)?\s*(public|protected|private|static|final|abstract)?\s*(public|protected|private|static|final|abstract)?\s*(\w+(?:\<[^>]*\>)?(?:\[\])?)\s+([a-zA-Z0-9_]+)\s*\("
    case VariablePattern =>
      @"\s*(public|protected|private|static|final|volatile|transient)?\s*(public|protected|private|static|final|volatile|transient)?\s*(\w+(?:\<[^>]*\>)?(?:\[\])?)\s+([a-z][a-zA-Z0-9_]*)\s*(?:=|;)"
    case ArrayPattern => @"\s*(\w+(?:\<[^>]*\>)?(?:\[\])?)\s+([a-z][a-zA-Z0-9_]*)\s*\[[^\]]*\]\s*(?:=|;)"
    case ClassPattern => @"\s*(public|protected|private|abstract|final)?\s*(class|interface|enum)\s+([A-Z][a-zA-Z0-9]*)"
    case ConstPattern => @"\s*(public|protected|private)?\s*static\s+final\s+(\w+(?:\<[^>]*\>)?(?:\[\])?)\s+([A-Z_][A-Z0-9_]*)\s*="
    case PackagePattern => @"package\s+([a-zA-Z0-9_.]+);"
    case TypeBracePattern => @"\s*(public|protected|private|abstract|final)?\s*(class|interface|enum)\s+([A-Z][a-zA-Z0-9]*)\s*$"
    case MethodBracePattern =>
      @"\s*(public|protected|private|static|final|abstract)?\s*(public|protected|private|static|final|abstract)?\s*(public|protected|private|static|final|abstract)?\s*(\w+(?:\<[^>]*\>)?(?:\[\])?)\s+([a-zA-Z0-9_]+)\s*\([^)]*\)\s*(throws\s+[\w.]+\s*)*\s*$"
    case ControlBracePattern => @"\s*(if|else|for|while|switch)\s*\([^)]*\)\s*$"
  }

  /** The five extractors of `parse`. */
  datatype Extractor = Functions | Variables | Classes | Constants | Packages

  /** The variable names kept on a line: on a line mentioning `final`, the all-upper-case ones are dropped. */
  function KeptVariables(line: string, names: seq<string>): seq<string>
  {
    if Contains(line, "final") then NotUpper(names) else names
  }

  lemma KeptMembers(line: string, names: seq<string>)
    ensures forall n :: n in KeptVariables(line, names) <==> n in names && (!Contains(line, "final") || !IsUpper(n))
  {
    NotUpperMembers(names);
  }

  /** The entities one extractor takes from line `i`. */
  function FoundAt(x: Extractor, line: string, i: nat, find: Finder<Pattern>): seq<Entity>
  {
    match x
    case Functions => AtLine(find(FunctionPattern, line), i + 1)
    case Variables =>
      if LooksLikeFunction(line) then []
      else (AtLine(KeptVariables(line, find(VariablePattern, line)), i + 1)
            + AtLine(KeptVariables(line, find(ArrayPattern, line)), i + 1))
    case Classes => AtLine(find(ClassPattern, line), i + 1)
    case Constants => AtLine(find(ConstPattern, line), i + 1)
    case Packages => AtLine(find(PackagePattern, line), i + 1)
  }

  /** One extractor as a function of the line and its index. */
  function LineFinds(x: Extractor, find: Finder<Pattern>): LineExtractor
  {
    (line: string, i: nat) => FoundAt(x, line, i, find)
  }

  /** The entities an extractor takes from all lines, line by line. */
  function Extracted(x: Extractor, lines: seq<string>, find: Finder<Pattern>): seq<Entity>
  {
    FromLines(LineFinds(x, find), lines, |lines|)
  }

  /** `_extract_functions`, `_extract_variables`, `_extract_classes`, `_extract_constants` or `_extract_packages`. */
  method Extract(x: Extractor, content: string, find: Finder<Pattern>) returns (es: seq<Entity>)
    ensures es == Extracted(x, Lines(content), find)
  {
    var lines := Lines(content);
    var f := LineFinds(x, find);
    es := [];
    for i := 0 to |lines|
      invariant es == FromLines(f, lines, i)
    {
      var found := ExtractFromLine(x, lines[i], i, find);
      FromLinesStep(f, lines, i, found);
      es := es + found;
    }
  }

  /** The body of an extractor's line loop. */
  method ExtractFromLine(x: Extractor, line: string, i: nat, find: Finder<Pattern>) returns (found: seq<Entity>)
    ensures found == FoundAt(x, line, i, find)
  {
    found := [];
    match x
    case Functions =>
      found := Matches(find(FunctionPattern, line), i + 1);
    case Variables =>
      if !LooksLikeFunction(line) {
        var simple := MatchVariables(line, find(VariablePattern, line), i + 1);
        var arrays := MatchVariables(line, find(ArrayPattern, line), i + 1);
        found := simple + arrays;
      }
    case Classes =>
      found := Matches(find(ClassPattern, line), i + 1);
    case Constants =>
      found := Matches(find(ConstPattern, line), i + 1);
    case Packages =>
      found := Matches(find(PackagePattern, line), i + 1);
  }

  /** The loop over one variable pattern's matches on a line. */
  method MatchVariables(line: string, names: seq<string>, number: int) returns (es: seq<Entity>)
    ensures es == AtLine(KeptVariables(line, names), number)
  {
    if Contains(line, "final") {
      es := MatchesNotUpper(names, number);
    } else {
      es := Matches(names, number);
    }
  }

  /** An extractor's result holds exactly what it takes from each line, at that line's number. */
  lemma ExtractedExact(x: Extractor, lines: seq<string>, find: Finder<Pattern>)
    ensures forall e :: e in Extracted(x, lines, find) ==>
      1 <= e.line <= |lines| && e in FoundAt(x, lines[e.line - 1], e.line - 1, find)
    ensures forall i, e :: 0 <= i < |lines| && e in FoundAt(x, lines[i], i, find) ==> e in Extracted(x, lines, find)
  {
    LineFindsNumbered(x, find);
    FromLinesNumbered(LineFinds(x, find), lines, |lines|);
  }

  /** Everything an extractor takes from any line carries that line's number. */
  lemma LineFindsNumbered(x: Extractor, find: Finder<Pattern>)
    ensures forall line, i: nat, e :: e in LineFinds(x, find)(line, i) ==> e.line == i + 1
  {
    forall line, i: nat, e | e in LineFinds(x, find)(line, i)
      ensures e.line == i + 1
    {
      FoundAtNumber(x, line, i, find);
    }
  }

  /** Everything an extractor takes from line `i` carries the number `i + 1`. */
  lemma FoundAtNumber(x: Extractor, line: string, i: nat, find: Finder<Pattern>)
    ensures forall e :: e in FoundAt(x, line, i, find) ==> e.line == i + 1
  {
    match x
    case Functions =>
      AtLineMembers(find(FunctionPattern, line), i + 1);
    case Variables =>
      AtLineMembers(KeptVariables(line, find(VariablePattern, line)), i + 1);
      AtLineMembers(KeptVariables(line, find(ArrayPattern, line)), i + 1);
    case Classes =>
      AtLineMembers(find(ClassPattern, line), i + 1);
    case Constants =>
      AtLineMembers(find(ConstPattern, line), i + 1);
    case Packages =>
      AtLineMembers(find(PackagePattern, line), i + 1);
  }

  /**
   * What each extractor takes from a line, always at that line's number:
   * variables only from lines that do not look like a method, and on a line
   * mentioning `final` never an all-upper-case name; the other kinds from
   * every line.
   */
  lemma FoundAtLine(x: Extractor, line: string, i: nat, find: Finder<Pattern>)
    ensures x == Functions ==> forall e :: e in FoundAt(x, line, i, find) <==>
      e.line == i + 1 && e.name in find(FunctionPattern, line)
    ensures x == Variables ==> forall e :: e in FoundAt(x, line, i, find) <==>
      !LooksLikeFunction(line) && e.line == i + 1 && (!Contains(line, "final") || !IsUpper(e.name))
      && (e.name in find(VariablePattern, line) || e.name in find(ArrayPattern, line))
    ensures x == Classes ==> forall e :: e in FoundAt(x, line, i, find) <==>
      e.line == i + 1 && e.name in find(ClassPattern, line)
    ensures x == Constants ==> forall e :: e in FoundAt(x, line, i, find) <==>
      e.line == i + 1 && e.name in find(ConstPattern, line)
    ensures x == Packages ==> forall e :: e in FoundAt(x, line, i, find) <==>
      e.line == i + 1 && e.name in find(PackagePattern, line)
  {
    match x
    case Functions =>
      AtLineMembers(find(FunctionPattern, line), i + 1);
    case Variables =>
      AtLineMembers(KeptVariables(line, find(VariablePattern, line)), i + 1);
      AtLineMembers(KeptVariables(line, find(ArrayPattern, line)), i + 1);
      KeptMembers(line, find(VariablePattern, line));
      KeptMembers(line, find(ArrayPattern, line));
    case Classes =>
      AtLineMembers(find(ClassPattern, line), i + 1);
    case Constants =>
      AtLineMembers(find(ConstPattern, line), i + 1);
    case Packages =>
      AtLineMembers(find(PackagePattern, line), i + 1);
  }

  /** `parse`: the five extractors over the content; it never reports a parse error. */
  function Parse(content: string, find: Finder<Pattern>): (r: Parsed)
    ensures r.Parsed? && r.content == content
  {
    var lines := Lines(content);
    Parsed(Extracted(Functions, lines, find), Extracted(Variables, lines, find), Extracted(Classes, lines, find),
           Extracted(Constants, lines, find), Extracted(Packages, lines, find), content)
  }

  method ParseContent(content: string, find: Finder<Pattern>) returns (r: Parsed)
    ensures r == Parse(content, find)
  {
    var functions := Extract(Functions, content, find);
    var variables := Extract(Variables, content, find);
    var classes := Extract(Classes, content, find);
    var constants := Extract(Constants, content, find);
    var packages := Extract(Packages, content, find);
    r := Parsed(functions, variables, classes, constants, packages, content);
  }

  // ---------------------------------------------------------------------
  // Brace style

  /** Headers are tried on the stripped line; the next line must be exactly `{`; reported at that line. */
  const Style := BraceStyle("大括号风格不规范", true, true, 2, BraceSameLine)

  const BracePatterns: seq<Pattern> := [TypeBracePattern, MethodBracePattern, ControlBracePattern]

  /** `_check_brace_style`: the three header patterns are matched at the start of each stripped line. */
  method CheckBraceStyle(lines: seq<string>, matchAt: Searcher<Pattern>) returns (vs: seq<Violation>)
    ensures vs == Braces(Style, lines, |lines|, BracePatterns, matchAt)
  {
    vs := [];
    for i := 0 to |lines|
      invariant vs == Braces(Style, lines, i, BracePatterns, matchAt)
    {
      var found := LineBraces(lines, i, matchAt);
      vs := vs + found;
    }
  }

  /** The loop over the three patterns for line `i`. */
  method LineBraces(lines: seq<string>, i: nat, matchAt: Searcher<Pattern>) returns (found: seq<Violation>)
    requires i < |lines|
    ensures found == BracesAt(Style, lines, i, BracePatterns, matchAt)
  {
    found := [];
    var header := Strip(lines[i]);
    var below := BraceBelow(Style, lines, i);
    for k := 0 to |BracePatterns|
      invariant found == if below then Hits(header, BracePatterns[..k], matchAt, BraceViolation(Style, i)) else []
    {
      assert BracePatterns[..k + 1][..k] == BracePatterns[..k];
      if matchAt(BracePatterns[k], header) && below {
        found := found + [BraceViolation(Style, i)];
      }
    }
    assert BracePatterns[..|BracePatterns|] == BracePatterns;
  }

  /**
   * A header line followed by a lone `{` is reported at the brace's line
   * once per pattern its stripped text matches, so up to three times; no
   * other line is reported.
   */
  lemma BraceRepeats(lines: seq<string>, j: nat, matchAt: Searcher<Pattern>)
    requires j < |lines|
    ensures Occurrences(Braces(Style, lines, |lines|, BracePatterns, matchAt), BraceViolation(Style, j)) ==
      if BraceBelow(Style, lines, j) then MatchCount(Strip(lines[j]), BracePatterns, matchAt) else 0
    ensures MatchCount(Strip(lines[j]), BracePatterns, matchAt) <= 3
    ensures forall v :: v in Braces(Style, lines, |lines|, BracePatterns, matchAt) ==>
      exists k :: 0 <= k < |lines| && BraceBelow(Style, lines, k) && v == BraceViolation(Style, k)
  {
    BraceMultiplicity(Style, lines, |lines|, j, BracePatterns, matchAt);
    BracesShape(Style, lines, |lines|, BracePatterns, matchAt);
  }

  // ---------------------------------------------------------------------
  // Import order

  /** An import line: one that starts with `import`, without stripping. */
  predicate IsImport(line: string)
  {
    StartsWith(line, "import")
  }

  /**
   * How the categories are told apart.  `AsWritten` tries the patterns in
   * the order `_check_import_order` lists them, where `import\s+[a-zA-Z]`
   * comes before `import\s+static` and so takes every static import;
   * `StaticLast` tries the static pattern first, so that static imports get
   * the last category, as the order's own description intends.  The checks
   * below use `AsWritten`.
   */
  datatype Ranking = AsWritten | StaticLast

  /**
   * The category of an import line: each pattern needs at least one
   * whitespace character after `import`, and then looks at the name.
   */
  function Category(ranking: Ranking, line: string): (r: Option<nat>)
    ensures r.Some? ==> IsImport(line) && r.value <= 4
    ensures ranking == AsWritten ==> r != Some(4)
  {
    if !IsImport(line) then None
    else
      var rest := line[6..];
      if |rest| == 0 || !IsSpace(rest[0]) then None
      else NameCategory(ranking, StripLeft(rest))
  }

  /**
   * The category of what follows `import` and its spaces: 0 for
   * `java.lang`, 1 for other `java.` packages, 2 for `javax.`, 3 for any
   * other name starting with a letter, 4 for a static import (only under
   * `StaticLast`); `None` when no pattern matches.
   */
  function NameCategory(ranking: Ranking, t: string): (r: Option<nat>)
    ensures r.Some? ==> r.value <= 4
    ensures ranking == AsWritten ==> r != Some(4)
  {
    if StartsWith(t, "java.lang") then Some(0)
    else if StartsWith(t, "java.") then Some(1)
    else if StartsWith(t, "javax.") then Some(2)
    else if ranking == StaticLast && StartsWith(t, "static") then Some(4)
    else if |t| > 0 && AsciiLetter(t[0]) then Some(3)
    else None
  }

  /** An import line written with one space: its category is its name's. */
  lemma ImportLine(ranking: Ranking, t: string)
    requires |t| > 0 && !IsSpace(t[0])
    ensures Category(ranking, "import " + t) == NameCategory(ranking, t)
  {
    var line := "import " + t;
    assert line[..6] == "import";
    assert line[6..] == " " + t;
    assert (" " + t)[1..] == t;
    assert StripLeft(" " + t) == StripLeft(t) == t;
  }

  /** A name starting with a letter other than `j`, and not `static`, is third-party under both rankings. */
  lemma ThirdPartyName(ranking: Ranking, t: string)
    requires |t| > 0 && AsciiLetter(t[0]) && t[0] != 'j' && t[0] != 's'
    ensures NameCategory(ranking, t) == Some(3)
  {
    FirstCharDiffers(t, "java.lang");
    FirstCharDiffers(t, "java.");
    FirstCharDiffers(t, "javax.");
    FirstCharDiffers(t, "static");
  }

  /** A static import is third-party as written, and last under `StaticLast`. */
  lemma StaticImportName(t: string)
    requires StartsWith(t, "static")
    ensures NameCategory(AsWritten, t) == Some(3) && NameCategory(StaticLast, t) == Some(4)
  {
    assert t[0] == t[..6][0] == 's';
    FirstCharDiffers(t, "java.lang");
    FirstCharDiffers(t, "java.");
    FirstCharDiffers(t, "javax.");
  }

  lemma FirstCharDiffers(t: string, p: string)
    requires |t| > 0 && |p| > 0 && t[0] != p[0]
    ensures !StartsWith(t, p)
  {
    if |p| <= |t| {
      assert t[..|p|][0] == t[0];
    }
  }

  /** `[a-zA-Z]`. */
  predicate AsciiLetter(c: char)
  {
    'a' <= c <= 'z' || 'A' <= c <= 'Z'
  }

  /** An import line and its 1-based number. */
  datatype Import = Import(text: string, line: int)

  /** The import lines among the first `n` lines, in order. */
  function Imports(lines: seq<string>, n: nat): seq<Import>
    requires n <= |lines|
  {
    if n == 0 then []
    else Imports(lines, n - 1) + (if IsImport(lines[n - 1]) then [Import(lines[n - 1], n)] else [])
  }

  function Categories(ranking: Ranking, imps: seq<Import>): (r: seq<Option<nat>>)
    ensures |r| == |imps|
    ensures forall i :: 0 <= i < |imps| ==> r[i] == Category(ranking, imps[i].text)
  {
    if |imps| == 0 then [] else Categories(ranking, imps[..|imps| - 1]) + [Category(ranking, imps[|imps| - 1].text)]
  }

  function ImportViolation(line: int): Violation
  {
    Violation("import语句顺序不规范", JavaImportOrder, Some(line), None)
  }

  /** `_check_import_order`: at most one violation, at the later import of the first falling pair. */
  function ImportOrderCheck(ranking: Ranking, lines: seq<string>): Option<Violation>
  {
    var imps := Imports(lines, |lines|);
    match FirstDescent(Categories(ranking, imps), 0)
    case None => None
    case Some(i) => if i < |imps| then Some(ImportViolation(imps[i].line)) else None
  }
  /** `_check_import_order`, with the categories tried in the order the source writes them. */
  method CheckImportOrder(lines: seq<string>) returns (r: Option<Violation>)
    ensures r == ImportOrderCheck(AsWritten, lines)
  {
    var imps := CollectImports(lines);
    var found := FindDescent(Categories(AsWritten, imps));
    match found
    case None => r := None;
    case Some(i) => r := Some(ImportViolation(imps[i].line));
  }

  /** The loop that gathers the import lines. */
  method CollectImports(lines: seq<string>) returns (imps: seq<Import>)
    ensures imps == Imports(lines, |lines|)
  {
    imps := [];
    for i := 0 to |lines|
      invariant imps == Imports(lines, i)
    {
      if IsImport(lines[i]) {
        imps := imps + [Import(lines[i], i + 1)];
      }
    }
  }

  /** The import list holds every import line, and only those, with its own number, in order. */
  lemma {:induction false} ImportsExact(lines: seq<string>, n: nat)
    requires n <= |lines|
    ensures forall k :: 0 <= k < |Imports(lines, n)| ==>
      1 <= Imports(lines, n)[k].line <= n && Imports(lines, n)[k].text == lines[Imports(lines, n)[k].line - 1]
      && IsImport(Imports(lines, n)[k].text)
    ensures forall i :: 0 <= i < n && IsImport(lines[i]) ==> Import(lines[i], i + 1) in Imports(lines, n)
    ensures forall a, b :: 0 <= a < b < |Imports(lines, n)| ==> Imports(lines, n)[a].line < Imports(lines, n)[b].line
  {
    if n > 0 {
      ImportsExact(lines, n - 1);
      var prev := Imports(lines, n - 1);
      if IsImport(lines[n - 1]) {
        assert Imports(lines, n) == prev + [Import(lines[n - 1], n)];
      } else {
        assert Imports(lines, n) == prev;
      }
    }
  }

  /**
   * The violation, when there is one, is at the later import of the first
   * adjacent pair whose categories are both known and fall; without such a
   * pair there is none.
   */
  lemma ImportOrderMeaning(ranking: Ranking, lines: seq<string>)
    ensures var imps := Imports(lines, |lines|);
      ImportOrderCheck(ranking, lines).None? <==> forall j :: 0 <= j < |imps| - 1 ==> !Descends(Categories(ranking, imps), j)
    ensures var imps := Imports(lines, |lines|);
      ImportOrderCheck(ranking, lines).Some? ==> exists i :: (0 < i < |imps| && Descends(Categories(ranking, imps), i - 1)
        && (forall j :: 0 <= j < i - 1 ==> !Descends(Categories(ranking, imps), j))
        && ImportOrderCheck(ranking, lines) == Some(ImportViolation(imps[i].line)))
  {
  }

  /** The two rankings differ only on static imports, which `StaticLast` alone puts last. */
  lemma RankingsAgree(t: string)
    ensures NameCategory(StaticLast, t) == Some(4) <==> StartsWith(t, "static") && NameCategory(AsWritten, t) == Some(3)
    ensures NameCategory(StaticLast, t) != Some(4) ==> NameCategory(StaticLast, t) == NameCategory(AsWritten, t)
  {
    if StartsWith(t, "static") {
      assert t[0] == t[..6][0] == 's';
    }
  }

  const StaticName := "static org.junit.Assert.assertTrue;"
  const OtherName := "com.google.common.collect.Lists;"

  /** A static import followed by a third-party import. */
  function StaticThenThirdParty(): seq<string>
  {
    ["import " + StaticName, "import " + OtherName]
  }

  /** As written, a static import before a third-party import goes unreported. */
  lemma StaticFirstMissed()
    ensures ImportOrderCheck(AsWritten, StaticThenThirdParty()) == None
  {
    var lines := StaticThenThirdParty();
    StaticFirstCategories();
    assert !Descends(Categories(AsWritten, Imports(lines, 2)), 0);
  }

  /** With static imports ranked last, the same lines are reported at the second import. */
  lemma StaticFirstReported()
    ensures ImportOrderCheck(StaticLast, StaticThenThirdParty()) == Some(ImportViolation(2))
  {
    var lines := StaticThenThirdParty();
    StaticFirstCategories();
    assert Descends(Categories(StaticLast, Imports(lines, 2)), 0);
  }

  lemma StaticFirstCategories()
    ensures var lines := StaticThenThirdParty();
      Imports(lines, 2) == [Import(lines[0], 1), Import(lines[1], 2)]
      && Category(AsWritten, lines[0]) == Some(3) && Category(StaticLast, lines[0]) == Some(4)
      && Category(AsWritten, lines[1]) == Some(3) && Category(StaticLast, lines[1]) == Some(3)
  {
    var lines := StaticThenThirdParty();
    assert StaticName[..6] == "static";
    StaticImportName(StaticName);
    ThirdPartyName(AsWritten, OtherName);
    ThirdPartyName(StaticLast, OtherName);
    ImportLine(AsWritten, StaticName);
    ImportLine(StaticLast, StaticName);
    ImportLine(AsWritten, OtherName);
    ImportLine(StaticLast, OtherName);
    assert Imports(lines, 1) == [Import(lines[0], 1)];
  }

  // ---------------------------------------------------------------------
  // check_rules

  /** The settings the parser freezes at construction, with the Java defaults. */
  datatype Settings = Settings(
    functionPattern: RuleValue, variablePattern: RuleValue, classPattern: RuleValue, constantPattern: RuleValue,
    packagePattern: RuleValue, maxLineLength: RuleValue, expectedIndent: RuleValue, minCommentCoverage: RuleValue)

  const PackageDefault := @"^[a-z]+(\.[a-z0-9]+)*$"

  function SettingsOf(rules: RuleMap): Settings
  {
    Settings(
      Get(rules, "function_naming", Str(CamelCase)), Get(rules, "variable_naming", Str(CamelCase)),
      Get(rules, "class_naming", Str(PascalCase)), Get(rules, "constant_naming", Str(UpperSnake)),
      Get(rules, "package_naming", Str(PackageDefault)),
      Get(rules, "max_line_length", Int(120)), Get(rules, "expected_indent", Int(4)),
      Get(rules, "min_comment_coverage", Real(0.1)))
  }

  /**
   * The checks of `check_rules` in order: naming of functions, variables,
   * classes, constants and packages (exempt names skipped in all five),
   * line length, indentation, comment coverage, brace style and import
   * order.
   */
  function Checks(s: Settings, rules: RuleMap, parsed: Parsed, matches: Matcher, matchAt: Searcher<Pattern>): (r: seq<Option<seq<Violation>>>)
    requires parsed.Parsed?
    ensures |r| == 10
  {
    NamingChecks(s, rules, parsed, matches) + LineChecks(s, rules, parsed, matchAt)
  }

  function NamingChecks(s: Settings, rules: RuleMap, parsed: Parsed, matches: Matcher): (r: seq<Option<seq<Violation>>>)
    requires parsed.Parsed?
    ensures |r| == 5
  {
    var exempt := Exempt(rules);
    [ NamingViolations(parsed.functions, |parsed.functions|, s.functionPattern, "函数命名不规范", exempt, matches, BaseWording),
      NamingViolations(parsed.variables, |parsed.variables|, s.variablePattern, "变量命名不规范", exempt, matches, BaseWording),
      NamingViolations(parsed.classes, |parsed.classes|, s.classPattern, "类命名不规范", exempt, matches, BaseWording),
      NamingViolations(parsed.constants, |parsed.constants|, s.constantPattern, "常量命名不规范", exempt, matches, BaseWording),
      NamingViolations(parsed.packages, |parsed.packages|, s.packagePattern, "包命名不规范", exempt, matches, BaseWording)]
  }

  function LineChecks(s: Settings, rules: RuleMap, parsed: Parsed, matchAt: Searcher<Pattern>): (r: seq<Option<seq<Violation>>>)
    requires parsed.Parsed?
    ensures |r| == 5
  {
    var lines := Lines(parsed.content);
    [ LineLengthCheck(lines, s.maxLineLength),
      IndentationCheck(lines, s.expectedIndent, rules, false),
      CoverageList(parsed.content, s.minCommentCoverage),
      Some(Braces(Style, lines, |lines|, BracePatterns, matchAt)),
      Some(AsList(ImportOrderCheck(AsWritten, lines)))]
  }

  method RunNamingChecks(s: Settings, rules: RuleMap, parsed: Parsed, matches: Matcher) returns (parts: seq<Option<seq<Violation>>>)
    requires parsed.Parsed?
    ensures parts == NamingChecks(s, rules, parsed, matches)
  {
    var exempt := Exempt(rules);
    var f := CheckNames(parsed.functions, s.functionPattern, "函数命名不规范", exempt, matches, BaseWording);
    var v := CheckNames(parsed.variables, s.variablePattern, "变量命名不规范", exempt, matches, BaseWording);
    var c := CheckNames(parsed.classes, s.classPattern, "类命名不规范", exempt, matches, BaseWording);
    var k := CheckNames(parsed.constants, s.constantPattern, "常量命名不规范", exempt, matches, BaseWording);
    var p := CheckNames(parsed.packages, s.packagePattern, "包命名不规范", exempt, matches, BaseWording);
    parts := [f, v, c, k, p];
  }

  method RunLineChecks(s: Settings, rules: RuleMap, parsed: Parsed, matchAt: Searcher<Pattern>) returns (parts: seq<Option<seq<Violation>>>)
    requires parsed.Parsed?
    ensures parts == LineChecks(s, rules, parsed, matchAt)
  {
    var lines := Lines(parsed.content);
    var length := ScanLineLength(lines, s.maxLineLength);
    var indent := ScanIndentation(lines, s.expectedIndent, rules, false);
    var coverage := CheckCommentCoverage(parsed.content, s.minCommentCoverage);
    var braces := CheckBraceStyle(lines, matchAt);
    var order := CheckImportOrder(lines);
    parts := [length, indent, match coverage case None => None case Some(v) => Some(AsList(v)),
              Some(braces), Some(AsList(order))];
  }

  /** `check_rules`: the parse-error violation alone, or the checks' results one after another. */
  function CheckRulesSpec(s: Settings, rules: RuleMap, parsed: Parsed, matches: Matcher, matchAt: Searcher<Pattern>): Option<seq<Violation>>
  {
    match parsed
    case ParseFailed(message, _) => Some([ParseErrorViolation(message)])
    case Parsed(_, _, _, _, _, _) => Chain(Checks(s, rules, parsed, matches, matchAt))
  }

  /** A parse error yields exactly the parse-error violation, whatever the rules. */
  lemma ParseErrorSingle(s: Settings, rules: RuleMap, message: string, content: string, matches: Matcher, matchAt: Searcher<Pattern>)
    ensures CheckRulesSpec(s, rules, ParseFailed(message, content), matches, matchAt) == Some([ParseErrorViolation(message)])
  {
  }

  /**
   * `_run_checkstyle_check` on a finished Checkstyle run: only a failing run
   * with output is read, and only its lines mentioning `ERROR` count.
   */
  function CheckstyleViolations(run: Option<ToolRun>): seq<Violation>
  {
    match run
    case None => []
    case Some(r) =>
      if r.returncode != 0 && r.stdout != "" then
        ToolLines(Lines(r.stdout), |Lines(r.stdout)|, "Checkstyle检查问题", NonBlankWith("ERROR"))
      else []
  }

  /** `JavaParser`: frozen settings, and the rules `set_rules` may replace. */
  class Parser {
    var rules: RuleMap
    const ruleset: string
    const settings: Settings

    constructor (table: Table, ruleset: string)
      ensures rules == BaseRules(table, ruleset) && this.ruleset == ruleset
      ensures settings == SettingsOf(BaseRules(table, ruleset))
    {
      this.ruleset := ruleset;
      rules := BaseRules(table, ruleset);
      settings := SettingsOf(BaseRules(table, ruleset));
    }

    /** `set_rules`: replaces the rules; the settings frozen at construction stay. */
    method SetRules(rules: RuleMap)
      modifies this
      ensures this.rules == rules
    {
      this.rules := rules;
    }

    method CheckRules(parsed: Parsed, matches: Matcher, matchAt: Searcher<Pattern>) returns (r: Option<seq<Violation>>)
      ensures r == CheckRulesSpec(settings, rules, parsed, matches, matchAt)
    {
      if parsed.ParseFailed? {
        return Some([ParseErrorViolation(parsed.errorMessage)]);
      }
      var naming := RunNamingChecks(settings, rules, parsed, matches);
      var others := RunLineChecks(settings, rules, parsed, matchAt);
      r := Chain(naming + others);
    }

    /**
     * `scan`: the base scan of the file read as `file`, then Checkstyle's
     * findings when Java and Checkstyle are installed (`checkstyle` is the
     * finished run).
     */
    method Scan(file: Option<string>, find: Finder<Pattern>, matches: Matcher, matchAt: Searcher<Pattern>, checkstyle: Option<ToolRun>)
      returns (vs: seq<Violation>)
      ensures file.Some? ==>
        vs == ScanOutcome(file, CheckRulesSpec(settings, rules, Parse(file.value, find), matches, matchAt), rules)
          + CheckstyleViolations(checkstyle)
      ensures file.None? ==> vs == [ScanError()] + CheckstyleViolations(checkstyle)
    {
      var base: seq<Violation>;
      if file.None? {
        base := [ScanError()];
      } else if Strip(file.value) == [] {
        StripEmptyIffBlank(file.value);
        base := [];
      } else {
        StripEmptyIffBlank(file.value);
        var parsed := ParseContent(file.value, find);
        var checked := CheckRules(parsed, matches, matchAt);
        base := FinishScan(file.value, checked, rules);
      }
      var lint: seq<Violation> := [];
      if checkstyle.Some? && checkstyle.value.returncode != 0 && checkstyle.value.stdout != "" {
        lint := ParseToolOutput(checkstyle.value.stdout, "Checkstyle检查问题", NonBlankWith("ERROR"));
      }
      vs := base + lint;
    }
  }

  /**
   * When every check answers, the function naming violations come first and
   * the brace and import-order violations come last, in that order.
   */
  lemma CheckOrder(s: Settings, rules: RuleMap, parsed: Parsed, matches: Matcher, matchAt: Searcher<Pattern>)
    requires parsed.Parsed? && CheckRulesSpec(s, rules, parsed, matches, matchAt).Some?
    ensures var r := CheckRulesSpec(s, rules, parsed, matches, matchAt).value;
      var lines := Lines(parsed.content);
      var tail := Braces(Style, lines, |lines|, BracePatterns, matchAt) + AsList(ImportOrderCheck(AsWritten, lines));
      NamingChecks(s, rules, parsed, matches)[0].Some? && NamingChecks(s, rules, parsed, matches)[0].value <= r
      && |tail| <= |r| && r[|r| - |tail|..] == tail
  {
    var parts := Checks(s, rules, parsed, matches, matchAt);
    assert parts[0] == NamingChecks(s, rules, parsed, matches)[0];
    assert parts[8..] == LineChecks(s, rules, parsed, matchAt)[3..];
    ChainEnds(parts);
  }

  /**
   * With `allow_error_naming` on, no name of any of the five kinds that holds
   * "Error" or "ERROR" is reported: every package violation comes from a
   * package whose name does not.
   */
  lemma ExemptionCoversPackages(s: Settings, rules: RuleMap, parsed: Parsed, matches: Matcher)
    requires parsed.Parsed? && Exempt(rules) && s.packagePattern.Str?
    requires forall p :: p in parsed.packages ==> matches(s.packagePattern.s, p.name).Some?
    ensures var ps := NamingChecks(s, rules, parsed, matches)[4];
      ps.Some? && forall v :: v in ps.value ==>
        exists i :: 0 <= i < |parsed.packages| && !ErrorName(parsed.packages[i].name) && v.line == Some(parsed.packages[i].line)
  {
    ExemptNamesPass(parsed.packages, s.packagePattern, "包命名不规范", matches, BaseWording);
  }

  /**
   * Built-in rulesets freeze the global layer, not the Java section: snake
   * case functions and variables, the default package pattern, 120 columns,
   * 10% coverage; and the exemption is on.
   */
  lemma BuiltinSettings(name: string)
    requires name in AllRulesets
    ensures SettingsOf(BaseRules(AllRulesets, name)).functionPattern == Str(SnakeCase)
    ensures SettingsOf(BaseRules(AllRulesets, name)).variablePattern == Str(SnakeCase)
    ensures SettingsOf(BaseRules(AllRulesets, name)).packagePattern == Str(PackageDefault)
    ensures SettingsOf(BaseRules(AllRulesets, name)).maxLineLength == Int(120)
    ensures SettingsOf(BaseRules(AllRulesets, name)).minCommentCoverage == Real(0.1)
    ensures Exempt(BaseRules(AllRulesets, name))
  {
    BuiltinParsersSeeGlobalLayer(name);
    GlobalSettings();
  }

  lemma GlobalSettings()
    ensures SettingsOf(GlobalRules).functionPattern == Str(SnakeCase)
    ensures SettingsOf(GlobalRules).variablePattern == Str(SnakeCase)
    ensures SettingsOf(GlobalRules).packagePattern == Str(PackageDefault)
    ensures SettingsOf(GlobalRules).maxLineLength == Int(120)
    ensures SettingsOf(GlobalRules).minCommentCoverage == Real(0.1)
    ensures Exempt(GlobalRules)
  {
    GlobalDefaults();
    assert "package_naming" !in GlobalRules;
  }

  /**
   * A failing Checkstyle run with output yields one violation per line
   * mentioning `ERROR`, with its stripped text, and nothing else; a run that
   * passed yields nothing.
   */
  lemma CheckstyleExact(r: ToolRun)
    ensures r.returncode == 0 || r.stdout == "" ==> CheckstyleViolations(Some(r)) == []
    ensures r.returncode != 0 && r.stdout != "" ==>
      (forall i :: 0 <= i < |Lines(r.stdout)| && !IsBlank(Lines(r.stdout)[i]) && Contains(Lines(r.stdout)[i], "ERROR") ==>
        ToolViolation("Checkstyle检查问题", Lines(r.stdout)[i]) in CheckstyleViolations(Some(r)))
      && (forall v :: v in CheckstyleViolations(Some(r)) ==>
        exists i :: 0 <= i < |Lines(r.stdout)| && Contains(Lines(r.stdout)[i], "ERROR")
          && v == ToolViolation("Checkstyle检查问题", Lines(r.stdout)[i]))
  {
    if r.returncode != 0 && r.stdout != "" {
      ToolLinesExact(Lines(r.stdout), |Lines(r.stdout)|, "Checkstyle检查问题", NonBlankWith("ERROR"));
    }
  }
}
