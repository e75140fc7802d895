/**
 * What every parser shares: the violation record, rule loading at
 * construction, the line-length, indentation, comment-coverage and naming
 * checks, the fallback "basic checks", and the post-processing `scan`
 * applies to a parser's `check_rules` result.
 *
 * A check that Python would abort with an exception (comparing a length
 * with a string, dividing by a zero indent, calling `re.match` with a
 * non-string pattern) yields `None`; `scan` turns that into one
 * "扫描错误" violation.
 */
module BaseParser {
  import opened Text
  import opened Rulesets
  import opened Rules

  /** A violation dictionary; `None` marks a key the dictionary does not have. */
  datatype Violation = Violation(kind: string, message: Message, line: Option<int>, severity: Option<string>)

  /**
   * A violation message, kept as the template the parsers fill in and its
   * arguments; `Render` gives the text.  `Raw` is text taken as it is: a
   * linter's output line, or the error message a parser recorded.
   */
  datatype Message =
    | Raw(text: string)
    | LineLength(length: nat, limit: RuleValue)
    | IndentNotMultiple(spaces: nat, unit: RuleValue, wording: IndentWording)
    | CoverageBelow(count: nat, total: nat, minimum: RuleValue)
    | OverLimit(limit: RuleValue)
    | NoComment
    | ScanFailed
    | NameMismatch(name: string)
    | ExplainedName(explanation: string, name: string)
    | TabIndent
    | StdlibAfterThirdParty(moduleName: string)
    | IncludeOrder
    | BraceSameLine
    | NamespaceStd
    | SemicolonMissing
    | BraceKAndR
    | GoBraceSameLine
    | GoUnusedImports
    | GoFormat
    | JavaImportOrder
    | PhpClosingTag
    | PhpShortTag
    | EslintRule(ruleId: string, text: string)
    | EslintProblem

  /** The three wordings of an indentation message. */
  datatype IndentWording = LenientHint | CommentIndent | PlainIndent

  /** The text of a message. */
  function Render(m: Message): string
  {
    match m
    case Raw(text) => text
    case LineLength(length, limit) => "行长度: " + NatToString(length) + ", 最大允许: " + Show(limit)
    case IndentNotMultiple(spaces, unit, wording) =>
      (match wording
       case LenientHint => "缩进空格数: " + NatToString(spaces) + ", 建议为" + Show(unit)
         + "的倍数。注意：在某些JavaScript风格中，也可接受较小的缩进增量。"
       case CommentIndent => "注释行缩进空格数: " + NatToString(spaces) + ", 建议为" + Show(unit) + "的倍数"
       case PlainIndent => "缩进空格数: " + NatToString(spaces) + ", 应为" + Show(unit) + "的倍数")
    case CoverageBelow(count, total, minimum) =>
      "注释覆盖率: " + PercentText(if total == 0 then 1.0 else count as real / total as real)
      + ", 要求: " + (match AsReal(minimum) case Some(r) => PercentText(r) case None => Show(minimum))
    case OverLimit(limit) => "行长度超过" + Show(limit) + "个字符"
    case NoComment => "文件缺少注释说明"
    case ScanFailed => "文件扫描过程中发生错误"
    case NameMismatch(name) => "命名不符合规范: " + name
    case ExplainedName(explanation, name) => explanation + ": '" + name + "'"
    case TabIndent => "Python代码应使用空格而非制表符进行缩进"
    case StdlibAfterThirdParty(moduleName) => "标准库模块 " + moduleName + " 应在第三方库导入之前"
    case IncludeOrder => "建议按照：C标准库 -> C++标准库 -> 第三方库 -> 本地库 的顺序包含头文件"
    case BraceSameLine => "建议使用Google风格：将大括号放在同一行"
    case NamespaceStd => "不建议在头文件中使用using namespace std;，可能导致命名冲突"
    case SemicolonMissing => "JavaScript语句应以分号结束"
    case BraceKAndR => "建议使用K&R风格：将大括号放在同一行"
    case GoBraceSameLine => "Go语言要求将大括号放在同一行"
    case GoUnusedImports => "Go编译器要求移除未使用的导入，请使用goimports工具进行检查"
    case GoFormat => "文件格式不符合Go标准，请运行go fmt进行格式化"
    case JavaImportOrder => "建议按照：Java标准库 -> 第三方库 -> 静态导入 的顺序组织import语句"
    case PhpClosingTag => "PSR-2规范建议在只包含PHP代码的文件中省略闭合标签 ?>"
    case PhpShortTag => "PSR-2规范建议使用完整的PHP标签 <?php 而不是短标签 <?"
    case EslintRule(ruleId, text) => ruleId + ": " + text
    case EslintProblem => "ESLint检测到代码规范问题"
  }

  /**
   * The ratio as a percentage with one decimal, rounded half up over the exact
   * real. Python's `format(x, '.1%')` rounds the binary double instead, so a
   * tie such as 1/16 comes out one tenth higher here ("6.3%" against "6.2%").
   */
  function PercentText(x: real): string
  {
    var tenths := (x * 1000.0 + 0.5).Floor;
    IntToString(tenths / 10) + "." + NatToString(tenths % 10) + "%"
  }

  /** A named entity another part of the parser extracted, with its 1-based line. */
  datatype Entity = Entity(name: string, line: int)

  /**
   * `re.match(pattern, name)` for a string pattern: whether the pattern
   * matches at the start of the name, or `None` when it does not compile.
   */
  type Matcher = (string, string) -> Option<bool>

  /**
   * `[m.group(k) for m in re.compile(pattern).finditer(line)]`: the names
   * one of a parser's patterns `P` captures on a line, match by match, from
   * the group `k` the extractor reads.
   */
  type Finder<-P> = (P, string) -> seq<string>

  /**
   * Whether one of a parser's patterns `P` is found in a text:
   * `re.search(...) is not None`, or `re.match` for a parser whose patterns
   * are matched at the start.
   */
  type Searcher<-P> = (P, string) -> bool

  /** The entities of the names found on one line, at that line's 1-based number. */
  function AtLine(names: seq<string>, line: int): (r: seq<Entity>)
    ensures |r| == |names|
    ensures forall k :: 0 <= k < |names| ==> r[k] == Entity(names[k], line)
  {
    if |names| == 0 then [] else AtLine(names[..|names| - 1], line) + [Entity(names[|names| - 1], line)]
  }

  /** What an extractor takes from one line, given the line and its 0-based index. */
  type LineExtractor = (string, nat) -> seq<Entity>

  /** What `f` takes from each of the first `n` lines, one line after another. */
  function FromLines(f: LineExtractor, lines: seq<string>, n: nat): seq<Entity>
    requires n <= |lines|
  {
    if n == 0 then [] else FromLines(f, lines, n - 1) + f(lines[n - 1], n - 1)
  }

  /** One more line adds what `f` takes from it at the end. */
  lemma FromLinesStep(f: LineExtractor, lines: seq<string>, i: nat, found: seq<Entity>)
    requires i < |lines| && found == f(lines[i], i)
    ensures FromLines(f, lines, i + 1) == FromLines(f, lines, i) + found
  {
  }

  /**
   * When everything taken from line `i` carries the number `i + 1`, the
   * result holds exactly what each line yields, at that line's number.
   */
  lemma {:induction false} FromLinesNumbered(f: LineExtractor, lines: seq<string>, n: nat)
    requires n <= |lines|
    requires forall line, i: nat, e :: e in f(line, i) ==> e.line == i + 1
    ensures forall e :: e in FromLines(f, lines, n) ==> 1 <= e.line <= n && e in f(lines[e.line - 1], e.line - 1)
    ensures forall i, e :: 0 <= i < n && e in f(lines[i], i) ==> e in FromLines(f, lines, n)
  {
    if n > 0 {
      FromLinesNumbered(f, lines, n - 1);
      assert FromLines(f, lines, n) == FromLines(f, lines, n - 1) + f(lines[n - 1], n - 1);
    }
  }

  lemma AtLineMembers(names: seq<string>, line: int)
    ensures forall e :: e in AtLine(names, line) <==> e.line == line && e.name in names
  {
    forall e: Entity | e.line == line && e.name in names
      ensures e in AtLine(names, line)
    {
      var k :| 0 <= k < |names| && names[k] == e.name;
      assert AtLine(names, line)[k] == e;
    }
  }

  /** A line with both parentheses and a brace or semicolon looks like a function and yields no variables. */
  predicate LooksLikeFunction(line: string)
  {
    '(' in line && ')' in line && ('{' in line || ';' in line)
  }

  /** The names that are not all upper-case (those are taken for constants). */
  function NotUpper(names: seq<string>): seq<string>
  {
    if |names| == 0 then []
    else NotUpper(names[..|names| - 1]) + (if IsUpper(names[|names| - 1]) then [] else [names[|names| - 1]])
  }

  /** `NotUpper` keeps exactly the names that are not all upper-case. */
  lemma {:induction false} NotUpperMembers(names: seq<string>)
    ensures forall n :: n in NotUpper(names) <==> n in names && !IsUpper(n)
  {
    if |names| > 0 {
      var init := names[..|names| - 1];
      NotUpperMembers(init);
      assert names == init + [names[|names| - 1]];
    }
  }

  /** The loop over one pattern's matches on a line. */
  method Matches(names: seq<string>, line: int) returns (es: seq<Entity>)
    ensures es == AtLine(names, line)
  {
    es := [];
    for k := 0 to |names|
      invariant es == AtLine(names[..k], line)
    {
      assert names[..k + 1][..k] == names[..k];
      es := es + [Entity(names[k], line)];
    }
    assert names[..|names|] == names;
  }

  /** The same loop where all-upper-case names are skipped. */
  method MatchesNotUpper(names: seq<string>, line: int) returns (es: seq<Entity>)
    ensures es == AtLine(NotUpper(names), line)
  {
    es := [];
    for k := 0 to |names|
      invariant es == AtLine(NotUpper(names[..k]), line)
    {
      assert names[..k + 1][..k] == names[..k];
      if !IsUpper(names[k]) {
        var kept := NotUpper(names[..k]);
        assert AtLine(kept + [names[k]], line) == AtLine(kept, line) + [Entity(names[k], line)] by {
          assert (kept + [names[k]])[..|kept|] == kept;
        }
        es := es + [Entity(names[k], line)];
      }
    }
    assert names[..|names|] == names;
  }

  /** `str(v)` for a numeric rule value; a non-integral float shows its integer part only. */
  function Show(v: RuleValue): string
  {
    match v
    case Int(i) => IntToString(i)
    case Bool(b) => if b then "True" else "False"
    case Real(r) => IntToString(r.Floor) + (if r == r.Floor as real then ".0" else ".…")
    case Str(s) => s
    case Map(_) => "{…}"
  }

  // ---------------------------------------------------------------------
  // Violations reported line by line

  /** Every violation has a line number, and the numbers strictly increase: no line is reported twice. */
  predicate OnAscendingLines(vs: seq<Violation>)
  {
    forall a, b :: 0 <= a < b < |vs| ==>
      vs[a].line.Some? && vs[b].line.Some? && vs[a].line.value < vs[b].line.value
  }

  /** The last violation, if any, is on line `n` or earlier. */
  predicate EndsBy(vs: seq<Violation>, n: int)
  {
    |vs| == 0 || (vs[|vs| - 1].line.Some? && vs[|vs| - 1].line.value <= n)
  }

  /** `OnAscendingLines` stated one violation at a time, from the last one back. */
  predicate LinesIncrease(vs: seq<Violation>)
  {
    |vs| == 0
    || (vs[|vs| - 1].line.Some? && LinesIncrease(vs[..|vs| - 1]) && EndsBy(vs[..|vs| - 1], vs[|vs| - 1].line.value - 1))
  }

  lemma {:induction false} IncreaseIsAscending(vs: seq<Violation>)
    requires LinesIncrease(vs)
    ensures OnAscendingLines(vs)
  {
    if |vs| > 0 {
      var init := vs[..|vs| - 1];
      IncreaseIsAscending(init);
      forall a, b | 0 <= a < b < |vs|
        ensures vs[a].line.Some? && vs[b].line.Some? && vs[a].line.value < vs[b].line.value
      {
        assert vs[a] == init[a];
        if b < |vs| - 1 {
          assert vs[b] == init[b];
        } else if a < |init| - 1 {
          assert init[|init| - 1] == vs[|vs| - 2];
        }
      }
    }
  }

  /** One step of a line scan: a violation on the next line, or nothing, keeps the numbers increasing. */
  lemma StepIncrease(before: seq<Violation>, found: seq<Violation>, n: nat)
    requires LinesIncrease(before) && EndsBy(before, n)
    requires OnLine(found, n + 1)
    ensures LinesIncrease(before + found) && EndsBy(before + found, n + 1)
  {
    if found == [] {
      assert before + found == before;
    } else {
      assert (before + found)[..|before|] == before;
    }
  }

  /** What one line adds to a scan: nothing, or one violation on line `line`. */
  predicate OnLine(found: seq<Violation>, line: int)
  {
    found == [] || (|found| == 1 && found[0].line == Some(line))
  }

  /** A violation a scan step adds stays in every longer scan. */
  lemma InPrefix(before: seq<Violation>, found: seq<Violation>, v: Violation, whole: seq<Violation>)
    requires found == [v] && before + found <= whole
    ensures v in whole
  {
    assert whole[|before|] == v;
  }

  lemma PrefixOfAppend(before: seq<Violation>, found: seq<Violation>)
    ensures before <= before + found
  {
  }

  /** The lines of `content`: `content.split('\n')`. */
  function Lines(content: string): seq<string>
  {
    Split(content, '\n')
  }

  /** Text that starts with `#` or `//`. */
  predicate CommentStart(t: string)
  {
    (|t| > 0 && t[0] == '#') || (|t| > 1 && t[0] == '/' && t[1] == '/')
  }

  /** A line the length check looks at: not blank and not a `#` or `//` comment. */
  predicate CodeLine(line: string)
  {
    var t := Strip(line);
    t != [] && !CommentStart(t)
  }

  /** The violation for the long code line `i`. */
  function LongLineViolation(line: string, i: nat, setting: RuleValue): Violation
  {
    Violation("代码行过长", LineLength(|line|, setting), Some(i + 1), None)
  }

  /** The violations for the long code lines among the first `n`, in order. */
  function LongLines(lines: seq<string>, limit: real, setting: RuleValue, n: nat): seq<Violation>
    requires n <= |lines|
  {
    if n == 0 then []
    else
      LongLines(lines, limit, setting, n - 1) + LongLineAt(lines[n - 1], n - 1, limit, setting)
  }

  /** The violation line `i` adds to the length scan, if it is too long. */
  function LongLineAt(line: string, i: nat, limit: real, setting: RuleValue): seq<Violation>
  {
    if TooLong(line, limit) then [LongLineViolation(line, i, setting)] else []
  }

  /**
   * `_check_line_length`: one violation per long code line.  A limit that is
   * not a number raises at the first code line, so only content without
   * code lines survives it.
   */
  function LineLengthCheck(lines: seq<string>, maxLength: RuleValue): Option<seq<Violation>>
  {
    match AsReal(maxLength)
    case None => if exists i :: 0 <= i < |lines| && CodeLine(lines[i]) then None else Some([])
    case Some(limit) => Some(LongLines(lines, limit, maxLength, |lines|))
  }

  method CheckLineLength(content: string, maxLength: RuleValue) returns (r: Option<seq<Violation>>)
    ensures r == LineLengthCheck(Lines(content), maxLength)
  {
    r := ScanLineLength(Lines(content), maxLength);
  }

  /** The loop of `_check_line_length` over the lines of the content. */
  method ScanLineLength(lines: seq<string>, maxLength: RuleValue) returns (r: Option<seq<Violation>>)
    ensures r == LineLengthCheck(lines, maxLength)
  {
    var limit := AsReal(maxLength);
    var vs: seq<Violation> := [];
    for i := 0 to |lines|
      invariant limit.None? ==> forall j :: 0 <= j < i ==> !CodeLine(lines[j])
      invariant limit.Some? ==> vs == LongLines(lines, limit.value, maxLength, i)
    {
      var line := lines[i];
      if CodeLine(line) {
        if limit.None? {
          return None;
        }
        if |line| as real > limit.value {
          vs := vs + [LongLineViolation(line, i, maxLength)];
        }
      }
    }
    if limit.None? {
      assert !exists i :: 0 <= i < |lines| && CodeLine(lines[i]);
      return Some([]);
    }
    return Some(vs);
  }

  /** A line the length check reports: a code line longer than the limit. */
  predicate TooLong(line: string, limit: real)
  {
    CodeLine(line) && |line| as real > limit
  }

  /**
   * With a numeric limit, the length check reports every long code line, at
   * its 1-based number, exactly once, and nothing else; there is no cap.
   */
  lemma LineLengthExact(lines: seq<string>, maxLength: RuleValue)
    requires AsReal(maxLength).Some?
    ensures LineLengthCheck(lines, maxLength).Some?
    ensures forall v :: v in LineLengthCheck(lines, maxLength).value ==>
      v.kind == "代码行过长" && v.line.Some? && 1 <= v.line.value <= |lines|
      && TooLong(lines[v.line.value - 1], AsReal(maxLength).value)
    ensures forall i :: 0 <= i < |lines| && TooLong(lines[i], AsReal(maxLength).value) ==>
      LongLineViolation(lines[i], i, maxLength) in LineLengthCheck(lines, maxLength).value
    ensures OnAscendingLines(LineLengthCheck(lines, maxLength).value)
  {
    var limit := AsReal(maxLength).value;
    LongLinesSound(lines, limit, maxLength, |lines|);
    forall i | 0 <= i < |lines| && TooLong(lines[i], limit)
      ensures LongLineViolation(lines[i], i, maxLength) in LineLengthCheck(lines, maxLength).value
    {
      LongLineReported(lines, limit, maxLength, i, |lines|);
    }
    LongLinesOrdered(lines, limit, maxLength, |lines|);
    IncreaseIsAscending(LongLines(lines, limit, maxLength, |lines|));
  }

  lemma {:induction false} LongLinesSound(lines: seq<string>, limit: real, setting: RuleValue, n: nat)
    requires n <= |lines|
    ensures forall v :: v in LongLines(lines, limit, setting, n) ==>
      v.kind == "代码行过长" && v.line.Some? && 1 <= v.line.value <= n && TooLong(lines[v.line.value - 1], limit)
  {
    if n > 0 {
      LongLinesSound(lines, limit, setting, n - 1);
    }
  }

  /** Scanning more lines only appends violations. */
  lemma {:induction false} LongLinesPrefix(lines: seq<string>, limit: real, setting: RuleValue, m: nat, n: nat)
    requires m <= n <= |lines|
    ensures LongLines(lines, limit, setting, m) <= LongLines(lines, limit, setting, n)
  {
    if m < n {
      LongLinesPrefix(lines, limit, setting, m, n - 1);
      PrefixOfAppend(LongLines(lines, limit, setting, n - 1), LongLineAt(lines[n - 1], n - 1, limit, setting));
    }
  }

  /** A long line `i` is reported once the scan has passed it. */
  lemma LongLineReported(lines: seq<string>, limit: real, setting: RuleValue, i: nat, n: nat)
    requires i < n <= |lines| && TooLong(lines[i], limit)
    ensures LongLineViolation(lines[i], i, setting) in LongLines(lines, limit, setting, n)
  {
    LongLinesPrefix(lines, limit, setting, i + 1, n);
    InPrefix(LongLines(lines, limit, setting, i), LongLineAt(lines[i], i, limit, setting),
      LongLineViolation(lines[i], i, setting), LongLines(lines, limit, setting, n));
  }

  lemma {:induction false} LongLinesOrdered(lines: seq<string>, limit: real, setting: RuleValue, n: nat)
    requires n <= |lines|
    ensures LinesIncrease(LongLines(lines, limit, setting, n))
    ensures EndsBy(LongLines(lines, limit, setting, n), n)
  {
    if n > 0 {
      LongLinesOrdered(lines, limit, setting, n - 1);
      var found := LongLineAt(lines[n - 1], n - 1, limit, setting);
      assert OnLine(found, n);
      StepIncrease(LongLines(lines, limit, setting, n - 1), found, n - 1);
    }
  }

  // ---------------------------------------------------------------------
  // Indentation

  /** Whether `n` is a multiple of the numeric rule value `unit`, which is not zero. */
  predicate MultipleOf(n: nat, unit: RuleValue)
    requires AsReal(unit).Some? && AsReal(unit).value != 0.0
  {
    match unit
    case Int(k) => n % k == 0
    case Bool(_) => true
    case Real(r) => (n as real / r).Floor as real == n as real / r
  }

  /** A usable indent unit: a non-zero number. */
  predicate IndentUnit(unit: RuleValue)
  {
    AsReal(unit).Some? && AsReal(unit).value != 0.0
  }

  /** A non-blank line with a positive number of leading spaces: the only lines the indent test evaluates. */
  predicate Indented(line: string)
  {
    Strip(line) != [] && LeadingSpaces(line) > 0
  }

  /** A comment line: its stripped text starts with `#` or `//`. */
  predicate CommentLine(line: string)
  {
    CommentStart(Strip(line))
  }

  /** An indented line whose indent is not a multiple of the unit. */
  predicate BadIndent(line: string, unit: RuleValue)
    requires IndentUnit(unit)
  {
    Indented(line) && !MultipleOf(LeadingSpaces(line), unit)
  }

  /** The violation for a badly indented line `i`; a 1-space indent in lenient mode is of low severity. */
  function IndentViolation(line: string, i: nat, unit: RuleValue, lenient: bool): Violation
  {
    var n := LeadingSpaces(line);
    Violation("缩进不规范", IndentNotMultiple(n, unit, IndentWordingFor(lenient && n == 1, CommentLine(line))), Some(i + 1),
      if n == 1 && lenient then Some("low") else None)
  }

  /** The wording for an indent: the lenient hint, the comment-line wording, or the plain one. */
  function IndentWordingFor(lenientHint: bool, comment: bool): IndentWording
  {
    if lenientHint then LenientHint else if comment then CommentIndent else PlainIndent
  }

  /** The violations for the badly indented lines among the first `n`, in order. */
  function BadIndents(lines: seq<string>, unit: RuleValue, lenient: bool, n: nat): seq<Violation>
    requires IndentUnit(unit) && n <= |lines|
  {
    if n == 0 then []
    else
      BadIndents(lines, unit, lenient, n - 1) + IndentAt(lines[n - 1], n - 1, unit, lenient)
  }

  /** The violation line `i` adds to the indentation scan, if it is badly indented. */
  function IndentAt(line: string, i: nat, unit: RuleValue, lenient: bool): seq<Violation>
    requires IndentUnit(unit)
  {
    if BadIndent(line, unit) then [IndentViolation(line, i, unit, lenient)] else []
  }

  /**
   * The `indentation.strict_check` setting, or `None` when `indentation` is
   * present but not a dictionary (its `.get` raises).
   */
  function StrictCheck(rules: RuleMap): Option<bool>
  {
    if "indentation" !in rules then Some(false)
    else match rules["indentation"]
      case Map(m) => Some("strict_check" in m && Truthy(m["strict_check"]))
      case _ => None
  }

  /**
   * `_check_indentation`.  A 1-space indent in the JavaScript parser
   * (`javascript`) is lenient unless strict checking is on.  A unit that is
   * not a non-zero number raises at the first indented line.
   */
  function IndentationCheck(lines: seq<string>, unit: RuleValue, rules: RuleMap, javascript: bool): Option<seq<Violation>>
  {
    match StrictCheck(rules)
    case None => None
    case Some(strict) =>
      if !IndentUnit(unit) then
        if exists i :: 0 <= i < |lines| && Indented(lines[i]) then None else Some([])
      else Some(BadIndents(lines, unit, javascript && !strict, |lines|))
  }

  method CheckIndentation(content: string, unit: RuleValue, rules: RuleMap, javascript: bool) returns (r: Option<seq<Violation>>)
    ensures r == IndentationCheck(Lines(content), unit, rules, javascript)
  {
    r := ScanIndentation(Lines(content), unit, rules, javascript);
  }

  /** The loop of `_check_indentation` over the lines of the content. */
  method ScanIndentation(lines: seq<string>, unit: RuleValue, rules: RuleMap, javascript: bool) returns (r: Option<seq<Violation>>)
    ensures r == IndentationCheck(lines, unit, rules, javascript)
  {
    var strict := StrictCheck(rules);
    if strict.None? {
      return None;
    }
    var lenient := javascript && !strict.value;
    var usable := IndentUnit(unit);
    var vs: seq<Violation> := [];
    for i := 0 to |lines|
      invariant !usable ==> forall j :: 0 <= j < i ==> !Indented(lines[j])
      invariant usable ==> vs == BadIndents(lines, unit, lenient, i)
    {
      var line := lines[i];
      if Indented(line) {
        if !usable {
          return None;
        }
        if !MultipleOf(LeadingSpaces(line), unit) {
          vs := vs + [IndentViolation(line, i, unit, lenient)];
        }
      }
    }
    if !usable {
      assert !exists i :: 0 <= i < |lines| && Indented(lines[i]);
      return Some([]);
    }
    return Some(vs);
  }

  /**
   * With a usable unit, every badly indented line is reported exactly once
   * at its 1-based number and nothing else is; only the lenient 1-space case
   * carries a severity, and that severity is "low".
   */
  lemma IndentationExact(lines: seq<string>, unit: RuleValue, rules: RuleMap, javascript: bool)
    requires IndentUnit(unit) && StrictCheck(rules).Some?
    ensures IndentationCheck(lines, unit, rules, javascript).Some?
    ensures forall v :: v in IndentationCheck(lines, unit, rules, javascript).value ==>
      v.kind == "缩进不规范" && v.line.Some? && 1 <= v.line.value <= |lines| && BadIndent(lines[v.line.value - 1], unit)
      && (v.severity.Some? <==> javascript && !StrictCheck(rules).value && LeadingSpaces(lines[v.line.value - 1]) == 1)
      && (v.severity.Some? ==> v.severity.value == "low")
    ensures forall i :: 0 <= i < |lines| && BadIndent(lines[i], unit) ==>
      IndentViolation(lines[i], i, unit, javascript && !StrictCheck(rules).value) in IndentationCheck(lines, unit, rules, javascript).value
    ensures OnAscendingLines(IndentationCheck(lines, unit, rules, javascript).value)
  {
    var lenient := javascript && !StrictCheck(rules).value;
    BadIndentsSound(lines, unit, lenient, |lines|);
    forall i | 0 <= i < |lines| && BadIndent(lines[i], unit)
      ensures IndentViolation(lines[i], i, unit, lenient) in IndentationCheck(lines, unit, rules, javascript).value
    {
      BadIndentReported(lines, unit, lenient, i, |lines|);
    }
    BadIndentsOrdered(lines, unit, lenient, |lines|);
    IncreaseIsAscending(BadIndents(lines, unit, lenient, |lines|));
  }

  lemma {:induction false} BadIndentsSound(lines: seq<string>, unit: RuleValue, lenient: bool, n: nat)
    requires IndentUnit(unit) && n <= |lines|
    ensures forall v :: v in BadIndents(lines, unit, lenient, n) ==>
      v.kind == "缩进不规范" && v.line.Some? && 1 <= v.line.value <= n && BadIndent(lines[v.line.value - 1], unit)
      && (v.severity.Some? <==> lenient && LeadingSpaces(lines[v.line.value - 1]) == 1)
      && (v.severity.Some? ==> v.severity.value == "low")
  {
    if n > 0 {
      BadIndentsSound(lines, unit, lenient, n - 1);
    }
  }

  /** Scanning more lines only appends violations. */
  lemma {:induction false} BadIndentsPrefix(lines: seq<string>, unit: RuleValue, lenient: bool, m: nat, n: nat)
    requires IndentUnit(unit) && m <= n <= |lines|
    ensures BadIndents(lines, unit, lenient, m) <= BadIndents(lines, unit, lenient, n)
  {
    if m < n {
      BadIndentsPrefix(lines, unit, lenient, m, n - 1);
      PrefixOfAppend(BadIndents(lines, unit, lenient, n - 1), IndentAt(lines[n - 1], n - 1, unit, lenient));
    }
  }

  /** A badly indented line `i` is reported once the scan has passed it. */
  lemma BadIndentReported(lines: seq<string>, unit: RuleValue, lenient: bool, i: nat, n: nat)
    requires IndentUnit(unit) && i < n <= |lines| && BadIndent(lines[i], unit)
    ensures IndentViolation(lines[i], i, unit, lenient) in BadIndents(lines, unit, lenient, n)
  {
    BadIndentsPrefix(lines, unit, lenient, i + 1, n);
    InPrefix(BadIndents(lines, unit, lenient, i), IndentAt(lines[i], i, unit, lenient),
      IndentViolation(lines[i], i, unit, lenient), BadIndents(lines, unit, lenient, n));
  }

  lemma {:induction false} BadIndentsOrdered(lines: seq<string>, unit: RuleValue, lenient: bool, n: nat)
    requires IndentUnit(unit) && n <= |lines|
    ensures LinesIncrease(BadIndents(lines, unit, lenient, n))
    ensures EndsBy(BadIndents(lines, unit, lenient, n), n)
  {
    if n > 0 {
      BadIndentsOrdered(lines, unit, lenient, n - 1);
      var found := IndentAt(lines[n - 1], n - 1, unit, lenient);
      assert OnLine(found, n);
      StepIncrease(BadIndents(lines, unit, lenient, n - 1), found, n - 1);
    }
  }

  /** Blank lines, unindented lines and multiples of the unit are never reported. */
  lemma IndentationSkips(lines: seq<string>, unit: RuleValue, rules: RuleMap, javascript: bool, i: nat)
    requires IndentUnit(unit) && StrictCheck(rules).Some? && i < |lines|
    requires Strip(lines[i]) == [] || LeadingSpaces(lines[i]) == 0 || MultipleOf(LeadingSpaces(lines[i]), unit)
    ensures forall v :: v in IndentationCheck(lines, unit, rules, javascript).value ==> v.line != Some(i + 1)
  {
    BadIndentsSound(lines, unit, javascript && !StrictCheck(rules).value, |lines|);
  }

  // ---------------------------------------------------------------------
  // Comment coverage

  /**
   * Where the shortest `body` closing a quote opened with `d` ends in `t`:
   * the first `d` in `t`, which must not come after a newline unless `.`
   * also matches newlines.
   */
  function CloseAt(t: string, d: string, dotall: bool): (r: Option<nat>)
    ensures r.Some? ==> r.value + |d| <= |t|
  {
    match Find(t, d)
    case None => None
    case Some(i) => if dotall || '\n' !in t[..i] then Some(i) else None
  }

  /** `re.sub(d + "(.*?)" + d, "", s)`: every quoted stretch, left to right, removed. */
  function RemoveQuoted(s: string, d: string, dotall: bool): (r: string)
    requires |d| > 0
    ensures |r| <= |s|
    decreases |s|
  {
    if |s| == 0 then ""
    else if StartsWith(s, d) && CloseAt(s[|d|..], d, dotall).Some? then
      RemoveQuoted(s[|d| + CloseAt(s[|d|..], d, dotall).value + |d|..], d, dotall)
    else [s[0]] + RemoveQuoted(s[1..], d, dotall)
  }

  /** The content with triple-quoted strings, then double- and single-quoted ones, removed. */
  function WithoutStrings(content: string): string
  {
    var a := RemoveQuoted(content, "\"\"\"", true);
    var b := RemoveQuoted(a, "'''", true);
    var c := RemoveQuoted(b, "\"", false);
    RemoveQuoted(c, "'", false)
  }

  /** Text that opens no quote comes through the string removal unchanged. */
  lemma {:induction false} RemoveQuotedNoQuote(s: string, d: string, dotall: bool)
    requires |d| > 0 && !Contains(s, d)
    ensures RemoveQuoted(s, d, dotall) == s
    decreases |s|
  {
    if |s| > 0 {
      assert !StartsWith(s, d);
      assert !Contains(s[1..], d);
      RemoveQuotedNoQuote(s[1..], d, dotall);
    }
  }

  /** The comment-counting state after the first `n` lines: how many were comments, and whether a block is open. */
  function CommentScan(lines: seq<string>, n: nat): (r: (nat, bool))
    requires n <= |lines|
  {
    if n == 0 then (0, false)
    else
      var (count, open) := CommentScan(lines, n - 1);
      var t := Strip(lines[n - 1]);
      if t == [] then (count, open)
      else if open then (count + 1, !Contains(t, "*/"))
      else if CommentStart(t) then (count + 1, false)
      else if Contains(t, "/*") then (count + 1, !Contains(t, "*/"))
      else (count, false)
  }

  /** The number of non-blank lines among the first `n`. */
  function NonBlank(lines: seq<string>, n: nat): (r: nat)
    requires n <= |lines|
    ensures r <= n
  {
    if n == 0 then 0 else NonBlank(lines, n - 1) + (if Strip(lines[n - 1]) == [] then 0 else 1)
  }

  /** The number of lines among the first `n` that start, once stripped, with `#` or `//`. */
  function LineComments(lines: seq<string>, n: nat): nat
    requires n <= |lines|
  {
    if n == 0 then 0 else LineComments(lines, n - 1) + (if CommentLine(lines[n - 1]) then 1 else 0)
  }

  /** Only non-blank lines are counted as comments. */
  lemma {:induction false} CommentsAreNonBlank(lines: seq<string>, n: nat)
    requires n <= |lines|
    ensures CommentScan(lines, n).0 <= NonBlank(lines, n)
  {
    if n > 0 {
      CommentsAreNonBlank(lines, n - 1);
    }
  }

  /** Without any block-comment opener, the comment lines are exactly the `#` and `//` lines. */
  lemma {:induction false} LineCommentsOnly(lines: seq<string>, n: nat)
    requires n <= |lines|
    requires forall i :: 0 <= i < |lines| ==> !Contains(Strip(lines[i]), "/*")
    ensures CommentScan(lines, n) == (LineComments(lines, n), false)
  {
    if n > 0 {
      LineCommentsOnly(lines, n - 1);
      var t := Strip(lines[n - 1]);
      assert t == [] ==> !CommentLine(lines[n - 1]);
    }
  }

  /** `coverage < min_coverage` for `count / total`, with `total > 0`, compared exactly. */
  predicate BelowCoverage(count: nat, total: nat, minCoverage: real)
  {
    count as real < minCoverage * total as real
  }

  /**
   * `_check_comment_coverage`: `Some(None)` when the coverage is enough,
   * `Some(Some(v))` when it is below the minimum, `None` when the minimum is
   * not a number.  The denominator counts every line (`split` gives at least
   * one), blank ones included.
   */
  function CoverageCheck(content: string, minCoverage: RuleValue): Option<Option<Violation>>
  {
    CoverageVerdict(Lines(WithoutStrings(content)), minCoverage)
  }

  /** The coverage verdict on the lines left once strings are removed. */
  function CoverageVerdict(lines: seq<string>, minCoverage: RuleValue): Option<Option<Violation>>
  {
    var count := CommentScan(lines, |lines|).0;
    match AsReal(minCoverage)
    case None => None
    case Some(m) =>
      if BelowCoverage(count, |lines|, m) then
        Some(Some(CoverageViolation(count, |lines|, minCoverage)))
      else Some(None)
  }

  /** The coverage violation, reported with line -1. */
  function CoverageViolation(count: nat, total: nat, minCoverage: RuleValue): Violation
  {
    Violation("注释覆盖率不足", CoverageBelow(count, total, minCoverage), Some(-1), None)
  }

  method CheckCommentCoverage(content: string, minCoverage: RuleValue) returns (r: Option<Option<Violation>>)
    ensures r == CoverageCheck(content, minCoverage)
  {
    var lines := Lines(WithoutStrings(content));
    var count := CountComments(lines);
    match AsReal(minCoverage)
    case None =>
      return None;
    case Some(m) =>
      if BelowCoverage(count, |lines|, m) {
        return Some(Some(CoverageViolation(count, |lines|, minCoverage)));
      }
      return Some(None);
  }

  /** The counting loop of `_check_comment_coverage`. */
  method CountComments(lines: seq<string>) returns (count: nat)
    ensures count == CommentScan(lines, |lines|).0
  {
    count := 0;
    var open := false;
    for i := 0 to |lines|
      invariant (count, open) == CommentScan(lines, i)
    {
      var t := Strip(lines[i]);
      if t == [] {
        continue;
      }
      if open {
        count := count + 1;
        if Contains(t, "*/") {
          open := false;
        }
        continue;
      }
      if CommentStart(t) {
        count := count + 1;
      } else if Contains(t, "/*") {
        count := count + 1;
        if !Contains(t, "*/") {
          open := true;
        }
      }
    }
  }

  /**
   * The coverage ratio lies in [0, 1]; a violation is reported exactly when
   * it is below the minimum, and a minimum of 0 is never violated.
   */
  lemma CoverageMeaning(lines: seq<string>, minCoverage: RuleValue)
    requires AsReal(minCoverage).Some?
    ensures CommentScan(lines, |lines|).0 <= |lines|
    ensures CoverageVerdict(lines, minCoverage).Some?
    ensures CoverageVerdict(lines, minCoverage).value.Some?
      <==> BelowCoverage(CommentScan(lines, |lines|).0, |lines|, AsReal(minCoverage).value)
    ensures AsReal(minCoverage).value <= 0.0 ==> CoverageVerdict(lines, minCoverage) == Some(None)
  {
    CommentsAreNonBlank(lines, |lines|);
    var count := CommentScan(lines, |lines|).0;
    var m := AsReal(minCoverage).value;
    if m <= 0.0 {
      NotBelowNonPositive(count, |lines|, m);
      assert CoverageVerdict(lines, minCoverage) == Some(None);
    }
  }

  /** A minimum that is zero or negative is always met. */
  lemma NotBelowNonPositive(count: nat, total: nat, m: real)
    requires m <= 0.0
    ensures !BelowCoverage(count, total, m)
  {
    var t := total as real;
    assert m * t <= 0.0 * t;
  }

  // ---------------------------------------------------------------------
  // Basic checks

  /** The basic check's violation for the over-long line `i`. */
  function OverLimitViolation(i: nat, setting: RuleValue): Violation
  {
    Violation("行长度过长", OverLimit(setting), Some(i + 1), None)
  }

  /** The basic check's violations for the over-long lines among the first `n`, in order. */
  function OverLimits(lines: seq<string>, limit: real, setting: RuleValue, n: nat): (r: seq<Violation>)
    requires n <= |lines|
    ensures forall v :: v in r ==> v.kind == "行长度过长"
  {
    if n == 0 then []
    else
      var found := if |lines[n - 1]| as real > limit then [OverLimitViolation(n - 1, setting)] else [];
      OverLimits(lines, limit, setting, n - 1) + found
  }

  /** Looking at more lines only appends violations. */
  lemma {:induction false} OverLimitsPrefix(lines: seq<string>, limit: real, setting: RuleValue, i: nat, n: nat)
    requires i <= n <= |lines|
    ensures OverLimits(lines, limit, setting, i) <= OverLimits(lines, limit, setting, n)
    decreases n - i
  {
    if i < n {
      OverLimitsPrefix(lines, limit, setting, i, n - 1);
    }
  }

  /** Content with none of the comment markers `#`, `"""` and `'''`. */
  predicate Uncommented(content: string)
  {
    !Contains(content, "#") && !Contains(content, "\"\"\"") && !Contains(content, "'''")
  }

  const MissingComment := Violation("缺少注释", NoComment, Some(1), None)

  /**
   * `_perform_basic_checks`: the first ten over-long lines (any line, blank
   * or comment, counts), then the missing-comment violation.  A limit that
   * is not a number raises at the first line and the check returns nothing.
   */
  function BasicChecks(content: string, rules: RuleMap): seq<Violation>
  {
    var lines := Lines(content);
    var maxLength := Get(rules, "max_line_length", Int(120));
    match AsReal(maxLength)
    case None => []
    case Some(limit) =>
      FirstTen(OverLimits(lines, limit, maxLength, |lines|))
      + (if Uncommented(content) then [MissingComment] else [])
  }

  /** The first ten violations of `vs`, or all of them if there are fewer. */
  function FirstTen(vs: seq<Violation>): (r: seq<Violation>)
    ensures |r| <= 10 && r <= vs
    ensures |vs| <= 10 ==> r == vs
  {
    if |vs| <= 10 then vs else vs[..10]
  }

  method PerformBasicChecks(content: string, rules: RuleMap) returns (vs: seq<Violation>)
    ensures vs == BasicChecks(content, rules)
  {
    var maxLength := Get(rules, "max_line_length", Int(120));
    if AsReal(maxLength).None? {
      return [];
    }
    vs := ScanOverLimit(Lines(content), AsReal(maxLength).value, maxLength);
    if Uncommented(content) {
      vs := vs + [MissingComment];
    }
  }

  /** The line loop of `_perform_basic_checks`, which stops at the tenth over-long line. */
  method ScanOverLimit(lines: seq<string>, limit: real, setting: RuleValue) returns (vs: seq<Violation>)
    ensures vs == FirstTen(OverLimits(lines, limit, setting, |lines|))
  {
    ghost var long := OverLimits(lines, limit, setting, |lines|);
    vs := [];
    var i := 0;
    while i < |lines|
      invariant 0 <= i <= |lines|
      invariant vs == OverLimits(lines, limit, setting, i) && |vs| < 10
    {
      if |lines[i]| as real > limit {
        vs := vs + [OverLimitViolation(i, setting)];
        if |vs| >= 10 {
          OverLimitsPrefix(lines, limit, setting, i + 1, |lines|);
          assert vs == long[..10];
          return;
        }
      }
      i := i + 1;
    }
  }

  /**
   * The basic checks report at most ten line-length violations and at most
   * one missing-comment violation, which appears (with a numeric limit)
   * exactly when the content has no comment marker.
   */
  lemma BasicChecksBounds(content: string, rules: RuleMap)
    ensures |BasicChecks(content, rules)| <= 11
    ensures AsReal(Get(rules, "max_line_length", Int(120))).Some? ==>
      (MissingComment in BasicChecks(content, rules) <==> Uncommented(content))
    ensures forall v :: v in BasicChecks(content, rules) ==> v.kind == "行长度过长" || v == MissingComment
  {
    var lines := Lines(content);
    var maxLength := Get(rules, "max_line_length", Int(120));
    if AsReal(maxLength).Some? {
      var kept := FirstTen(OverLimits(lines, AsReal(maxLength).value, maxLength, |lines|));
      assert MissingComment !in kept;
    }
  }

  // ---------------------------------------------------------------------
  // Naming

  /**
   * How a parser words a naming violation: `BaseParser`'s own wording, or
   * the Python parser's, which puts an explanation of the convention first.
   */
  datatype NameWording = BaseWording | Explained(explanation: string)

  function NameMessage(wording: NameWording, name: string): Message
  {
    match wording
    case BaseWording => NameMismatch(name)
    case Explained(explanation) => ExplainedName(explanation, name)
  }

  /**
   * `_check_naming_convention`: `Some(Some(v))` with line -1 when the pattern
   * does not match the start of the name, `Some(None)` when it does, and
   * `None` when `re.match` raises (a pattern that is not a compilable string).
   */
  function NamingCheck(name: string, pattern: RuleValue, kind: string, matches: Matcher, wording: NameWording): (r: Option<Option<Violation>>)
    ensures r.Some? <==> pattern.Str? && matches(pattern.s, name).Some?
    ensures r.Some? && r.value.Some? <==> pattern.Str? && matches(pattern.s, name) == Some(false)
    ensures r.Some? && r.value.Some? ==> r.value.value == Violation(kind, NameMessage(wording, name), Some(-1), None)
  {
    if !pattern.Str? then None
    else match matches(pattern.s, name)
      case None => None
      case Some(ok) => if ok then Some(None) else Some(Some(Violation(kind, NameMessage(wording, name), Some(-1), None)))
  }

  /** `allow_error_naming`, read from the current rules when the checks run (default off). */
  predicate Exempt(rules: RuleMap)
  {
    Truthy(Get(rules, "allow_error_naming", Bool(false)))
  }

  /** A name the `allow_error_naming` exemption covers. */
  predicate ErrorName(name: string)
  {
    Contains(name, "Error") || Contains(name, "ERROR")
  }

  /**
   * One `check_rules` naming loop over the first `n` entities: the failing
   * ones, each reported at its own line, in order; `None` if `re.match`
   * raised for an entity that was checked.  With `exempt`, names containing
   * "Error" or "ERROR" are skipped.
   */
  function NamingViolations(es: seq<Entity>, n: nat, pattern: RuleValue, kind: string, exempt: bool, matches: Matcher, wording: NameWording): Option<seq<Violation>>
    requires n <= |es|
  {
    if n == 0 then Some([])
    else match NamingViolations(es, n - 1, pattern, kind, exempt, matches, wording)
      case None => None
      case Some(vs) =>
        var e := es[n - 1];
        if exempt && ErrorName(e.name) then Some(vs)
        else match NamingCheck(e.name, pattern, kind, matches, wording)
          case None => None
          case Some(None) => Some(vs)
          case Some(Some(v)) => Some(vs + [v.(line := Some(e.line))])
  }

  /** Once `re.match` has raised, the loop's result stays a failure. */
  lemma {:induction false} NamingFailureSticks(es: seq<Entity>, i: nat, n: nat, pattern: RuleValue, kind: string, exempt: bool, matches: Matcher, wording: NameWording)
    requires i <= n <= |es|
    requires NamingViolations(es, i, pattern, kind, exempt, matches, wording).None?
    ensures NamingViolations(es, n, pattern, kind, exempt, matches, wording).None?
    decreases n - i
  {
    if i < n {
      NamingFailureSticks(es, i, n - 1, pattern, kind, exempt, matches, wording);
    }
  }

  method CheckNames(es: seq<Entity>, pattern: RuleValue, kind: string, exempt: bool, matches: Matcher, wording: NameWording) returns (r: Option<seq<Violation>>)
    ensures r == NamingViolations(es, |es|, pattern, kind, exempt, matches, wording)
  {
    var vs: seq<Violation> := [];
    for i := 0 to |es|
      invariant NamingViolations(es, i, pattern, kind, exempt, matches, wording) == Some(vs)
    {
      var e := es[i];
      if exempt && ErrorName(e.name) {
        continue;
      }
      var check := NamingCheck(e.name, pattern, kind, matches, wording);
      match check
      case None =>
        NamingFailureSticks(es, i + 1, |es|, pattern, kind, exempt, matches, wording);
        return None;
      case Some(None) =>
      case Some(Some(v)) =>
        vs := vs + [v.(line := Some(e.line))];
    }
    return Some(vs);
  }

  /** An entity the naming loop reports: checked, and its name fails the pattern. */
  predicate Failing(e: Entity, pattern: RuleValue, exempt: bool, matches: Matcher)
  {
    !(exempt && ErrorName(e.name)) && pattern.Str? && matches(pattern.s, e.name) == Some(false)
  }

  /** The entities the naming loop checks. */
  predicate Checked(e: Entity, exempt: bool)
  {
    !(exempt && ErrorName(e.name))
  }

  /**
   * When `re.match` answers for every checked entity, the naming loop
   * reports exactly the failing entities, one violation each, in order, at
   * the entity's line and with the entity's message.
   */
  lemma {:induction false} NamingExact(es: seq<Entity>, n: nat, pattern: RuleValue, kind: string, exempt: bool, matches: Matcher, wording: NameWording)
    requires n <= |es| && pattern.Str?
    requires forall i :: 0 <= i < n && Checked(es[i], exempt) ==> matches(pattern.s, es[i].name).Some?
    ensures NamingViolations(es, n, pattern, kind, exempt, matches, wording) == Some(Reported(es, n, pattern, kind, exempt, matches, wording))
  {
    if n > 0 {
      NamingExact(es, n - 1, pattern, kind, exempt, matches, wording);
      var e := es[n - 1];
      var before := Reported(es, n - 1, pattern, kind, exempt, matches, wording);
      if Checked(e, exempt) {
        assert matches(pattern.s, e.name).Some?;
        var check := NamingCheck(e.name, pattern, kind, matches, wording);
        if Failing(e, pattern, exempt, matches) {
          assert check == Some(Some(Violation(kind, NameMessage(wording, e.name), Some(-1), None)));
          assert NamingViolations(es, n, pattern, kind, exempt, matches, wording)
            == Some(before + [Violation(kind, NameMessage(wording, e.name), Some(e.line), None)]);
        } else {
          assert check == Some(None);
          assert NamingViolations(es, n, pattern, kind, exempt, matches, wording) == Some(before);
          assert Reported(es, n, pattern, kind, exempt, matches, wording) == before + [] == before;
        }
      } else {
        assert Reported(es, n, pattern, kind, exempt, matches, wording) == before + [] == before;
      }
    }
  }

  /** The reference list: the failing entities among the first `n`, as violations at their lines. */
  function Reported(es: seq<Entity>, n: nat, pattern: RuleValue, kind: string, exempt: bool, matches: Matcher, wording: NameWording): (r: seq<Violation>)
    requires n <= |es|
    ensures |r| <= n
    ensures forall v :: v in r ==> v.kind == kind && v.severity.None?
  {
    if n == 0 then []
    else
      var e := es[n - 1];
      Reported(es, n - 1, pattern, kind, exempt, matches, wording)
      + (if Failing(e, pattern, exempt, matches) then [Violation(kind, NameMessage(wording, e.name), Some(e.line), None)] else [])
  }

  /** Every failing entity is reported at its line, and every report comes from a failing entity. */
  lemma {:induction false} ReportedMembers(es: seq<Entity>, n: nat, pattern: RuleValue, kind: string, exempt: bool, matches: Matcher, wording: NameWording)
    requires n <= |es|
    ensures forall i :: 0 <= i < n && Failing(es[i], pattern, exempt, matches) ==>
      Violation(kind, NameMessage(wording, es[i].name), Some(es[i].line), None) in Reported(es, n, pattern, kind, exempt, matches, wording)
    ensures forall v :: v in Reported(es, n, pattern, kind, exempt, matches, wording) ==>
      exists i :: 0 <= i < n && Failing(es[i], pattern, exempt, matches) && v == Violation(kind, NameMessage(wording, es[i].name), Some(es[i].line), None)
  {
    if n > 0 {
      ReportedMembers(es, n - 1, pattern, kind, exempt, matches, wording);
    }
  }

  /** With the exemption on, no name containing "Error" or "ERROR" is ever reported. */
  lemma ExemptNamesPass(es: seq<Entity>, pattern: RuleValue, kind: string, matches: Matcher, wording: NameWording)
    requires pattern.Str?
    requires forall i :: 0 <= i < |es| && !ErrorName(es[i].name) ==> matches(pattern.s, es[i].name).Some?
    ensures NamingViolations(es, |es|, pattern, kind, true, matches, wording).Some?
    ensures forall v :: v in NamingViolations(es, |es|, pattern, kind, true, matches, wording).value ==>
      exists i :: 0 <= i < |es| && !ErrorName(es[i].name) && v.line == Some(es[i].line)
  {
    NamingExact(es, |es|, pattern, kind, true, matches, wording);
    ReportedMembers(es, |es|, pattern, kind, true, matches, wording);
  }

  // ---------------------------------------------------------------------
  // Ordering checks

  /**
   * The first place `i + 1` where two adjacent items both have a category
   * and the category falls, or `None`.
   */
  function FirstDescent(cats: seq<Option<nat>>, from: nat): (r: Option<nat>)
    requires from <= |cats|
    ensures r.Some? ==> from < r.value < |cats| && Descends(cats, r.value - 1)
    ensures r.Some? ==> forall j :: from <= j < r.value - 1 ==> !Descends(cats, j)
    ensures r.None? ==> forall j :: from <= j < |cats| - 1 ==> !Descends(cats, j)
    decreases |cats| - from
  {
    if from + 1 >= |cats| then None
    else if Descends(cats, from) then Some(from + 1)
    else FirstDescent(cats, from + 1)
  }

  /** The first descent, once it is known where it is. */
  lemma {:induction false} FirstDescentIs(cats: seq<Option<nat>>, from: nat, i: nat)
    requires from < i < |cats| && Descends(cats, i - 1)
    requires forall j :: from <= j < i - 1 ==> !Descends(cats, j)
    ensures FirstDescent(cats, from) == Some(i)
    decreases i - from
  {
    if from < i - 1 {
      FirstDescentIs(cats, from + 1, i);
    }
  }

  /** Items `j` and `j + 1` both have a category, and the second is lower. */
  predicate Descends(cats: seq<Option<nat>>, j: nat)
  {
    j + 1 < |cats| && cats[j].Some? && cats[j + 1].Some? && cats[j].value > cats[j + 1].value
  }

  /**
   * The index loop of an ordering check: the first descent, as the position
   * of the later item.
   */
  method FindDescent(cats: seq<Option<nat>>) returns (r: Option<nat>)
    ensures r == FirstDescent(cats, 0)
  {
    var i := 0;
    while i + 1 < |cats|
      invariant 0 <= i <= |cats|
      invariant FirstDescent(cats, 0) == FirstDescent(cats, i)
      decreases |cats| - i
    {
      if cats[i].Some? && cats[i + 1].Some? && cats[i].value > cats[i + 1].value {
        return Some(i + 1);
      }
      i := i + 1;
    }
    return None;
  }

  // ---------------------------------------------------------------------
  // Brace placement

  /**
   * How a parser's brace check works: whether the header pattern is tried on
   * the stripped line, whether the next line must be exactly `{` (rather than
   * only start with it), how many lines below the header the violation is
   * reported, and its message.
   */
  datatype BraceStyle = BraceStyle(rule: string, stripped: bool, lone: bool, offset: nat, message: Message)

  /** The violation for a header on line `i` followed by an opening brace. */
  function BraceViolation(style: BraceStyle, i: nat): Violation
  {
    Violation(style.rule, style.message, Some(i + style.offset), None)
  }

  /** Line `i` has a next line, and that line stripped is `{` (or, unless `lone`, starts with it). */
  predicate BraceBelow(style: BraceStyle, lines: seq<string>, i: nat)
  {
    i + 1 < |lines| && OpensBrace(style, Strip(lines[i + 1]))
  }

  /** A stripped line that opens a block in the sense of `style`. */
  predicate OpensBrace(style: BraceStyle, t: string)
  {
    if style.lone then t == "{" else |t| > 0 && t[0] == '{'
  }

  /** One copy of `v` for each pattern among `ps` that `search` finds in `text`. */
  function Hits<P>(text: string, ps: seq<P>, search: Searcher<P>, v: Violation): seq<Violation>
  {
    if |ps| == 0 then []
    else Hits(text, ps[..|ps| - 1], search, v) + (if search(ps[|ps| - 1], text) then [v] else [])
  }

  /** How many patterns among `ps` `search` finds in `text`. */
  function MatchCount<P>(text: string, ps: seq<P>, search: Searcher<P>): (r: nat)
    ensures r <= |ps|
  {
    if |ps| == 0 then 0
    else MatchCount(text, ps[..|ps| - 1], search) + (if search(ps[|ps| - 1], text) then 1 else 0)
  }

  /** The text a header pattern is tried on: the line, or the line stripped. */
  function HeaderText(style: BraceStyle, line: string): string
  {
    if style.stripped then Strip(line) else line
  }

  /** Line `i`'s brace violations: one per header pattern it matches, when an opening brace follows. */
  function BracesAt<P>(style: BraceStyle, lines: seq<string>, i: nat, ps: seq<P>, search: Searcher<P>): seq<Violation>
    requires i < |lines|
  {
    if BraceBelow(style, lines, i) then Hits(HeaderText(style, lines[i]), ps, search, BraceViolation(style, i)) else []
  }

  /** The brace violations of the first `n` lines, in order. */
  function Braces<P>(style: BraceStyle, lines: seq<string>, n: nat, ps: seq<P>, search: Searcher<P>): seq<Violation>
    requires n <= |lines|
  {
    if n == 0 then [] else Braces(style, lines, n - 1, ps, search) + BracesAt(style, lines, n - 1, ps, search)
  }

  lemma {:induction false} HitsCount<P>(text: string, ps: seq<P>, search: Searcher<P>, v: Violation)
    ensures |Hits(text, ps, search, v)| == MatchCount(text, ps, search)
  {
    if |ps| > 0 {
      HitsCount(text, ps[..|ps| - 1], search, v);
    }
  }

  /** Every element of `Hits(text, ps, search, v)` is `v`. */
  lemma {:induction false} HitsSame<P>(text: string, ps: seq<P>, search: Searcher<P>, v: Violation)
    ensures forall k :: 0 <= k < |Hits(text, ps, search, v)| ==> Hits(text, ps, search, v)[k] == v
  {
    if |ps| > 0 {
      HitsSame(text, ps[..|ps| - 1], search, v);
    }
  }

  /** Every element of line `i`'s brace violations is `BraceViolation(style, i)`. */
  lemma BracesAtSame<P>(style: BraceStyle, lines: seq<string>, i: nat, ps: seq<P>, search: Searcher<P>)
    requires i < |lines|
    ensures forall k :: 0 <= k < |BracesAt(style, lines, i, ps, search)| ==> BracesAt(style, lines, i, ps, search)[k] == BraceViolation(style, i)
  {
    HitsSame(HeaderText(style, lines[i]), ps, search, BraceViolation(style, i));
  }

  /** How often `v` occurs in `s`. */
  function Occurrences(s: seq<Violation>, v: Violation): nat
  {
    multiset(s)[v]
  }

  /** A sequence whose elements all equal `v` holds `v` as often as it is long, and nothing else. */
  lemma {:induction false} AllSame(s: seq<Violation>, v: Violation, w: Violation)
    requires forall k :: 0 <= k < |s| ==> s[k] == v
    ensures Occurrences(s, w) == if w == v then |s| else 0
  {
    if |s| > 0 {
      AllSame(s[..|s| - 1], v, w);
      assert s == s[..|s| - 1] + [s[|s| - 1]];
    }
  }

  /** All of line `j`'s violations are the same one, once per pattern matched. */
  lemma BracesAtCount<P>(style: BraceStyle, lines: seq<string>, j: nat, ps: seq<P>, search: Searcher<P>)
    requires j < |lines|
    ensures Occurrences(BracesAt(style, lines, j, ps, search), BraceViolation(style, j)) ==
      if BraceBelow(style, lines, j) then MatchCount(HeaderText(style, lines[j]), ps, search) else 0
  {
    HitsCount(HeaderText(style, lines[j]), ps, search, BraceViolation(style, j));
    BracesAtSame(style, lines, j, ps, search);
    AllSame(BracesAt(style, lines, j, ps, search), BraceViolation(style, j), BraceViolation(style, j));
  }

  /** Another line's violations are different ones. */
  lemma BracesAtOther<P>(style: BraceStyle, lines: seq<string>, i: nat, j: nat, ps: seq<P>, search: Searcher<P>)
    requires i < |lines| && i != j
    ensures Occurrences(BracesAt(style, lines, i, ps, search), BraceViolation(style, j)) == 0
  {
    BracesAtSame(style, lines, i, ps, search);
    AllSame(BracesAt(style, lines, i, ps, search), BraceViolation(style, i), BraceViolation(style, j));
    assert BraceViolation(style, i).line != BraceViolation(style, j).line;
  }

  /** The pieces `part(0)`, ..., `part(n - 1)`, in order. */
  function Concat(part: nat -> seq<Violation>, n: nat): seq<Violation>
  {
    if n == 0 then [] else Concat(part, n - 1) + part(n - 1)
  }

  /** When no piece but `part(j)` holds `v`, the whole holds `v` exactly as often as `part(j)` does. */
  lemma {:induction false} ConcatIsolate(part: nat -> seq<Violation>, n: nat, j: nat, v: Violation)
    requires forall k :: k != j ==> v !in multiset(part(k))
    ensures Occurrences(Concat(part, n), v) == if j < n then Occurrences(part(j), v) else 0
  {
    if n > 0 {
      ConcatIsolate(part, n - 1, j, v);
    }
  }

  /** Line `i`'s brace violations, and none past the last line. */
  function BracePart<P>(style: BraceStyle, lines: seq<string>, ps: seq<P>, search: Searcher<P>): nat -> seq<Violation>
  {
    (i: nat) => if i < |lines| then BracesAt(style, lines, i, ps, search) else []
  }

  lemma {:induction false} BracesConcat<P>(style: BraceStyle, lines: seq<string>, n: nat, ps: seq<P>, search: Searcher<P>)
    requires n <= |lines|
    ensures Braces(style, lines, n, ps, search) == Concat(BracePart(style, lines, ps, search), n)
  {
    if n > 0 {
      var part, last := BracePart(style, lines, ps, search), BracesAt(style, lines, n - 1, ps, search);
      BracesConcat(style, lines, n - 1, ps, search);
      assert part(n - 1) == last;
      assert Concat(part, n) == Concat(part, n - 1) + last;
      assert Braces(style, lines, n, ps, search) == Braces(style, lines, n - 1, ps, search) + last;
    }
  }

  /** Only line `j` contributes occurrences of its own violation. */
  lemma BracesIsolate<P>(style: BraceStyle, lines: seq<string>, n: nat, j: nat, ps: seq<P>, search: Searcher<P>)
    requires n <= |lines|
    ensures Occurrences(Braces(style, lines, n, ps, search), BraceViolation(style, j)) ==
      if j < n then Occurrences(BracesAt(style, lines, j, ps, search), BraceViolation(style, j)) else 0
  {
    var part := BracePart(style, lines, ps, search);
    forall k: nat | k != j
      ensures BraceViolation(style, j) !in multiset(part(k))
    {
      if k < |lines| {
        BracesAtOther(style, lines, k, j, ps, search);
      }
    }
    BracesConcat(style, lines, n, ps, search);
    ConcatIsolate(part, n, j, BraceViolation(style, j));
  }

  /**
   * A header line followed by an opening brace is reported once for every
   * pattern it matches, and no other line is reported.
   */
  lemma BraceMultiplicity<P>(style: BraceStyle, lines: seq<string>, n: nat, j: nat, ps: seq<P>, search: Searcher<P>)
    requires n <= |lines|
    ensures Occurrences(Braces(style, lines, n, ps, search), BraceViolation(style, j)) ==
      if j < n && BraceBelow(style, lines, j) then MatchCount(HeaderText(style, lines[j]), ps, search) else 0
  {
    BracesIsolate(style, lines, n, j, ps, search);
    if j < n {
      BracesAtCount(style, lines, j, ps, search);
    }
  }

  /** Every brace violation is a `BraceViolation` of some header line with an opening brace below it. */
  lemma {:induction false} BracesShape<P>(style: BraceStyle, lines: seq<string>, n: nat, ps: seq<P>, search: Searcher<P>)
    requires n <= |lines|
    ensures forall v :: v in Braces(style, lines, n, ps, search) ==>
      exists j :: 0 <= j < n && BraceBelow(style, lines, j) && v == BraceViolation(style, j)
  {
    if n > 0 {
      BracesShape(style, lines, n - 1, ps, search);
      BracesAtSame(style, lines, n - 1, ps, search);
    }
  }

  // ---------------------------------------------------------------------
  // Checks that report each line at most once

  /** A check that looks at one line at a time: what line `i` adds, if anything. */
  type LineRule = nat -> Option<Violation>

  /** The violations `f` adds for the first `n` lines, in order. */
  function Flagged(f: LineRule, n: nat): seq<Violation>
  {
    if n == 0 then [] else Flagged(f, n - 1) + AsList(f(n - 1))
  }

  /** One more line appends what `f` adds for it. */
  lemma FlaggedStep(f: LineRule, i: nat, found: seq<Violation>)
    requires found == AsList(f(i))
    ensures Flagged(f, i + 1) == Flagged(f, i) + found
  {
  }

  /**
   * When line `i`'s violation is always reported at line `i + d`, the scan
   * holds exactly the violations of the lines that have one, each once, on
   * strictly increasing lines.
   */
  lemma {:induction false} FlaggedExact(f: LineRule, n: nat, d: nat)
    requires 1 <= d
    requires forall i: nat :: f(i).Some? ==> f(i).value.line == Some(i + d)
    ensures forall i :: 0 <= i < n && f(i).Some? ==> f(i).value in Flagged(f, n)
    ensures forall v :: v in Flagged(f, n) ==> exists i :: 0 <= i < n && f(i) == Some(v)
    ensures LinesIncrease(Flagged(f, n)) && EndsBy(Flagged(f, n), n - 1 + d)
  {
    if n > 0 {
      FlaggedExact(f, n - 1, d);
      var before := Flagged(f, n - 1);
      var found := AsList(f(n - 1));
      assert Flagged(f, n) == before + found;
      assert OnLine(found, n - 1 + d);
      StepIncrease(before, found, n - 2 + d);
    }
  }

  // ---------------------------------------------------------------------
  // Running the checks one after another

  /** The parse-error result: one violation, without a line. */
  function ParseErrorViolation(message: string): Violation
  {
    Violation("代码解析错误", Raw(message), None, None)
  }

  /** The results of checks run one after another; `None` once one raises. */
  function Chain(parts: seq<Option<seq<Violation>>>): (r: Option<seq<Violation>>)
  {
    if |parts| == 0 then Some([])
    else match Chain(parts[..|parts| - 1])
      case None => None
      case Some(vs) => match parts[|parts| - 1]
        case None => None
        case Some(more) => Some(vs + more)
  }

  /** An optional single violation as a list. */
  function AsList(v: Option<Violation>): seq<Violation>
  {
    match v
    case None => []
    case Some(x) => [x]
  }

  /** The coverage check as a list, keeping its failure. */
  function CoverageList(content: string, minCoverage: RuleValue): Option<seq<Violation>>
  {
    match CoverageCheck(content, minCoverage)
    case None => None
    case Some(v) => Some(AsList(v))
  }

  /** A chain that answered starts with the first check's result. */
  lemma {:induction false} ChainFirst(parts: seq<Option<seq<Violation>>>)
    requires |parts| > 0 && Chain(parts).Some?
    ensures parts[0].Some? && parts[0].value <= Chain(parts).value
  {
    var init := parts[..|parts| - 1];
    if |parts| == 1 {
      assert Chain(init) == Some([]);
    } else {
      ChainFirst(init);
      assert init[0] == parts[0];
    }
  }

  /** A chain that answered ends with the last check's result. */
  lemma ChainLast(parts: seq<Option<seq<Violation>>>)
    requires |parts| > 0 && Chain(parts).Some?
    ensures Chain(parts[..|parts| - 1]).Some? && parts[|parts| - 1].Some?
    ensures Chain(parts).value == Chain(parts[..|parts| - 1]).value + parts[|parts| - 1].value
  {
  }

  /** A chain that answered starts with its first result and ends with its last two. */
  lemma ChainEnds(parts: seq<Option<seq<Violation>>>)
    requires |parts| >= 2 && Chain(parts).Some?
    ensures parts[0].Some? && parts[0].value <= Chain(parts).value
    ensures parts[|parts| - 2].Some? && parts[|parts| - 1].Some?
    ensures var tail := parts[|parts| - 2].value + parts[|parts| - 1].value;
      |tail| <= |Chain(parts).value| && Chain(parts).value[|Chain(parts).value| - |tail|..] == tail
  {
    var n := |parts|;
    ChainFirst(parts);
    ChainLast(parts);
    ChainLast(parts[..n - 1]);
    assert parts[..n - 1][..n - 2] == parts[..n - 2];
    var a, t, i := Chain(parts[..n - 2]).value, parts[n - 2].value, parts[n - 1].value;
    assert Chain(parts).value == a + t + i;
    assert (a + t + i)[|a|..] == t + i;
  }

  /** A chain that answered starts with its first result and ends with its last three. */
  lemma ChainEnds3(parts: seq<Option<seq<Violation>>>)
    requires |parts| >= 3 && Chain(parts).Some?
    ensures parts[0].Some? && parts[0].value <= Chain(parts).value
    ensures parts[|parts| - 3].Some? && parts[|parts| - 2].Some? && parts[|parts| - 1].Some?
    ensures var tail := parts[|parts| - 3].value + parts[|parts| - 2].value + parts[|parts| - 1].value;
      |tail| <= |Chain(parts).value| && Chain(parts).value[|Chain(parts).value| - |tail|..] == tail
  {
    var n := |parts|;
    ChainFirst(parts);
    ChainLast(parts);
    ChainLast(parts[..n - 1]);
    assert parts[..n - 1][..n - 2] == parts[..n - 2];
    ChainLast(parts[..n - 2]);
    assert parts[..n - 2][..n - 3] == parts[..n - 3];
    var a, x, y, z := Chain(parts[..n - 3]).value, parts[n - 3].value, parts[n - 2].value, parts[n - 1].value;
    assert Chain(parts).value == a + x + y + z;
    assert (a + x + y + z)[|a|..] == x + y + z;
  }

  /** A chain that answered is the chain of its first `k` checks followed by the chain of the rest. */
  lemma {:induction false} ChainSplit(parts: seq<Option<seq<Violation>>>, k: nat)
    requires k <= |parts| && Chain(parts).Some?
    ensures Chain(parts[..k]).Some? && Chain(parts[k..]).Some?
    ensures Chain(parts).value == Chain(parts[..k]).value + Chain(parts[k..]).value
    decreases |parts|
  {
    var n := |parts|;
    if k == n {
      assert parts[..k] == parts && parts[k..] == [];
    } else {
      ChainSplit(parts[..n - 1], k);
      assert parts[..n - 1][..k] == parts[..k];
      assert parts[..n - 1][k..] == parts[k..n - 1];
      assert parts[k..][..|parts[k..]| - 1] == parts[k..n - 1];
      assert parts[k..][|parts[k..]| - 1] == parts[n - 1];
    }
  }

  /** Three checks that all answered chain to their results one after another. */
  lemma Chain3(parts: seq<Option<seq<Violation>>>)
    requires |parts| == 3 && parts[0].Some? && parts[1].Some? && parts[2].Some?
    ensures Chain(parts) == Some(parts[0].value + parts[1].value + parts[2].value)
  {
    var one, two := parts[..1], parts[..2];
    assert one[..0] == [] && two[..1] == one && parts[..2] == two;
    assert Chain(one[..0]) == Some([]);
    assert [] + parts[0].value == parts[0].value;
    assert Chain(one) == Some(parts[0].value);
    assert Chain(two) == Some(parts[0].value + parts[1].value);
  }

  // ---------------------------------------------------------------------
  // Linter output

  /** A finished linter process: its exit status and what it wrote. */
  datatype ToolRun = ToolRun(returncode: int, stdout: string, stderr: string)

  /** Which lines of a linter's output become violations. */
  datatype OutputFilter =
    | NonBlankLines
    | NonBlankWith(marker: string)
    | WithEither(first: string, second: string)

  predicate Keeps(f: OutputFilter, line: string)
  {
    match f
    case NonBlankLines => !IsBlank(line)
    case NonBlankWith(marker) => !IsBlank(line) && Contains(line, marker)
    case WithEither(first, second) => Contains(line, first) || Contains(line, second)
  }

  /** The violation for one kept output line: its stripped text, without a line number. */
  function ToolViolation(kind: string, line: string): Violation
  {
    Violation(kind, Raw(Strip(line)), None, None)
  }

  /** The violations for the kept lines among the first `n`, in output order. */
  function ToolLines(lines: seq<string>, n: nat, kind: string, f: OutputFilter): seq<Violation>
    requires n <= |lines|
  {
    if n == 0 then []
    else ToolLines(lines, n - 1, kind, f) + (if Keeps(f, lines[n - 1]) then [ToolViolation(kind, lines[n - 1])] else [])
  }

  /** The loop over `output.split('\n')` that parses a linter's output. */
  method ParseToolOutput(output: string, kind: string, f: OutputFilter) returns (vs: seq<Violation>)
    ensures vs == ToolLines(Lines(output), |Lines(output)|, kind, f)
  {
    var lines := Lines(output);
    vs := [];
    for i := 0 to |lines|
      invariant vs == ToolLines(lines, i, kind, f)
    {
      if Keeps(f, lines[i]) {
        vs := vs + [ToolViolation(kind, lines[i])];
      }
    }
  }

  /** Every kept line gives one violation with its stripped text, and every violation comes from a kept line. */
  lemma {:induction false} ToolLinesExact(lines: seq<string>, n: nat, kind: string, f: OutputFilter)
    requires n <= |lines|
    ensures forall i :: 0 <= i < n && Keeps(f, lines[i]) ==> ToolViolation(kind, lines[i]) in ToolLines(lines, n, kind, f)
    ensures forall v :: v in ToolLines(lines, n, kind, f) ==> exists i :: 0 <= i < n && Keeps(f, lines[i]) && v == ToolViolation(kind, lines[i])
    ensures |ToolLines(lines, n, kind, f)| <= n
  {
    if n > 0 {
      ToolLinesExact(lines, n - 1, kind, f);
    }
  }

  /** A non-blank kept line never gives an empty message. */
  lemma ToolMessageNonEmpty(kind: string, line: string)
    requires !IsBlank(line)
    ensures Render(ToolViolation(kind, line).message) != ""
  {
    StripEmptyIffBlank(line);
  }

  // ---------------------------------------------------------------------
  // Construction and scan

  /** `_get_default_rules`. */
  const DefaultRules: RuleMap := map[
    "variable_naming" := Str(SnakeCase), "function_naming" := Str(SnakeCase),
    "class_naming" := Str(PascalCase), "constant_naming" := Str(UpperSnake),
    "max_line_length" := Int(120), "expected_indent" := Int(4),
    "min_comment_coverage" := Real(0.1)
  ]

  /** The language names `_load_ruleset` also tries. */
  function LanguageAlias(lang: string): Option<string>
  {
    if lang == "c" || lang == "c++" then Some("cpp")
    else if lang == "typescript" || lang == "js" then Some("javascript")
    else None
  }

  /**
   * `_load_ruleset`: the rule manager's rules for the ruleset and language,
   * then the repaired ruleset's entry for the language or its alias.
   */
  function LoadRuleset(table: Table, name: string, lang: string): RuleValue
  {
    var direct := GetRulesForLanguage(table, name, lang);
    if direct != map[] then Map(direct)
    else
      var rules := RulesForRuleset(table, name);
      if rules == map[] then Map(map[])
      else
        var found := Get(rules, lang, Map(map[]));
        if Truthy(found) then found
        else match LanguageAlias(lang)
          case Some(alias) => if alias in rules then rules[alias] else found
          case None => found
  }

  /**
   * The rules `BaseParser.__init__` settles on.  The language name is still
   * "Unknown" at that point, so the lookup is for "unknown"; empty rules give
   * way to the defaults.
   */
  function BaseRules(table: Table, name: string): RuleMap
  {
    match LoadRuleset(table, name, "unknown")
    case Map(m) => if m != map[] then m else DefaultRules
    case _ => DefaultRules
  }

  /**
   * A parser's rules are the ruleset's own rules for "unknown" (its global
   * layer, plus the entry "unknown" if that holds a dictionary), or the
   * defaults when there are none; no language section is ever consulted.
   */
  lemma BaseRulesMeaning(table: Table, name: string)
    ensures GetRulesForLanguage(table, name, "unknown") != map[] ==> BaseRules(table, name) == GetRulesForLanguage(table, name, "unknown")
    ensures GetRulesForLanguage(table, name, "unknown") == map[] ==> BaseRules(table, name) == DefaultRules
  {
    if GetRulesForLanguage(table, name, "unknown") == map[] {
      UnknownNotRepaired(table, name);
      assert LoadRuleset(table, name, "unknown") == Map(map[]);
    }
  }

  /** With no global rules, the repaired ruleset has no "unknown" entry either. */
  lemma UnknownNotRepaired(table: Table, name: string)
    requires GetRulesForLanguage(table, name, "unknown") == map[]
    ensures "unknown" !in RulesForRuleset(table, name)
  {
    if name !in table {
      assert "unknown" !in UnknownRulesetDefaults;
    } else if table[name] != map[] {
      RepairedShape(table[name]);
      assert "unknown" !in LanguageKeys;
      assert "unknown" !in table[name];
    }
  }

  /** Built-in rulesets hand every parser the global layer: 120 columns, 4-space indent, 10% coverage. */
  lemma BuiltinParsersSeeGlobalLayer(name: string)
    requires name in AllRulesets
    ensures BaseRules(AllRulesets, name) == GlobalRules
  {
    BuiltinRulesForLanguage(name, "unknown");
    UnknownIsNoSection(name);
    UnionEmpty(GlobalRules);
    GlobalRulesNonEmpty();
    NonEmptyRulesKept(AllRulesets, name, GlobalRules);
  }

  lemma UnknownIsNoSection(name: string)
    ensures "unknown" !in LanguageSections(name)
  {
    SectionsAreLanguages(name);
  }

  lemma UnionEmpty<K, V>(m: map<K, V>)
    ensures m + map[] == m
  {
  }

  lemma GlobalRulesNonEmpty()
    ensures GlobalRules != map[]
  {
    assert "function_naming" in GlobalRules;
  }

  lemma NonEmptyRulesKept(table: Table, name: string, g: RuleMap)
    requires GetRulesForLanguage(table, name, "unknown") == g && g != map[]
    ensures BaseRules(table, name) == g
  {
  }

  /** An unknown ruleset name leaves a parser with the defaults. */
  lemma UnknownRulesetDefaultsParser(table: Table, name: string)
    requires name !in table
    ensures BaseRules(table, name) == DefaultRules
  {
    BaseRulesMeaning(table, name);
  }

  /** A file that could not be read, or a check that raised. */
  function ScanError(): Violation
  {
    Violation("扫描错误", ScanFailed, Some(1), None)
  }

  /**
   * The post-processing of `scan` for content that is not blank: a check
   * that raised gives one scan-error violation at line 1, an empty result
   * is replaced by the basic checks, anything else is returned as it is.
   */
  function Finish(content: string, checked: Option<seq<Violation>>, rules: RuleMap): seq<Violation>
  {
    match checked
    case None => [ScanError()]
    case Some(vs) => if vs == [] then BasicChecks(content, rules) else vs
  }

  /**
   * `scan` once the file has been read (`None`: it could not be): blank
   * content gives nothing; otherwise the checks' result goes through `Finish`.
   */
  function ScanOutcome(file: Option<string>, checked: Option<seq<Violation>>, rules: RuleMap): seq<Violation>
  {
    match file
    case None => [ScanError()]
    case Some(content) => if IsBlank(content) then [] else Finish(content, checked, rules)
  }

  method FinishScan(content: string, checked: Option<seq<Violation>>, rules: RuleMap) returns (vs: seq<Violation>)
    ensures vs == Finish(content, checked, rules)
  {
    match checked
    case None =>
      vs := [ScanError()];
    case Some(found) =>
      if found == [] {
        vs := PerformBasicChecks(content, rules);
      } else {
        vs := found;
      }
  }

  /**
   * Blank content yields nothing, a failure yields exactly one scan-error
   * violation at line 1, and a non-empty check result is passed through.
   */
  lemma ScanOutcomeCases(file: Option<string>, checked: Option<seq<Violation>>, rules: RuleMap)
    ensures file.Some? && Strip(file.value) == [] ==> ScanOutcome(file, checked, rules) == []
    ensures file.None? || (!IsBlank(file.value) && checked.None?) ==>
      ScanOutcome(file, checked, rules) == [Violation("扫描错误", ScanFailed, Some(1), None)]
    ensures file.Some? && !IsBlank(file.value) && checked.Some? && checked.value != [] ==>
      ScanOutcome(file, checked, rules) == checked.value
    ensures file.Some? && !IsBlank(file.value) && checked == Some([]) ==>
      ScanOutcome(file, checked, rules) == BasicChecks(file.value, rules)
  {
    if file.Some? {
      StripEmptyIffBlank(file.value);
    }
  }

  /**
   * `BaseParser` itself: its `parse` returns an empty dictionary (replaced by
   * `{'content': content}`) and its `check_rules` finds nothing, so a scan
   * is the basic checks.
   */
  class Parser {
    var rules: RuleMap
    const ruleset: string

    constructor (table: Table, ruleset: string)
      ensures rules == BaseRules(table, ruleset) && this.ruleset == ruleset
    {
      this.ruleset := ruleset;
      rules := BaseRules(table, ruleset);
    }

    /** `set_rules`: replaces the rules and nothing else. */
    method SetRules(rules: RuleMap)
      modifies this
      ensures this.rules == rules
    {
      this.rules := rules;
    }

    method Scan(file: Option<string>) returns (vs: seq<Violation>)
      ensures vs == ScanOutcome(file, Some([]), rules)
    {
      if file.None? {
        return [ScanError()];
      }
      var content := file.value;
      if Strip(content) == [] {
        StripEmptyIffBlank(content);
        return [];
      }
      StripEmptyIffBlank(content);
      vs := FinishScan(content, Some([]), rules);
    }
  }
}
