/**
 * The project scanner: it walks a project tree, picks a language and a set
 * of rules for every supported file, runs the file's parser, normalises and
 * grades what the parser reports, drops the tools' summary lines and folds
 * the rest into the scan results.
 *
 * The parsers' checks, the number of lines a file has, and the moments at
 * which the user stops, pauses or resumes the scan are parameters (`Env`);
 * the parser cache is the `Registry` of module ParserRegistry.
 */
module Scanner {
  import opened Text
  import opened Rulesets
  import opened Rules
  import opened BaseParser
  import opened ParserRegistry
  import opened Files

  // ---------------------------------------------------------------------
  // Project files

  const IgnoredDirs: set<string> :=
    {".git", "__pycache__", "node_modules", "venv", "env", ".idea", ".vscode", "build", "dist"}
  const IgnoredFiles: set<string> := {".DS_Store"}

  /** The files of one directory that are not ignored, joined to the directory's path. */
  function Listed(root: string, files: seq<string>): (r: seq<string>)
    ensures |r| <= |files|
  {
    if |files| == 0 then []
    else (if files[0] in IgnoredFiles then [] else [JoinPath(root, files[0])]) + Listed(root, files[1..])
  }

  /**
   * `_get_all_files`: a top-down walk, the files of a directory before those
   * of its sub-directories, where ignored directories are pruned unvisited.
   */
  function Walk(root: string, d: Dir): seq<string>
    decreases d
  {
    Listed(root, d.files) + WalkSubs(root, d.subdirs)
  }

  function WalkSubs(root: string, subs: seq<Sub>): seq<string>
    decreases subs
  {
    if |subs| == 0 then [] else Visit(root, subs[0]) + WalkSubs(root, subs[1..])
  }

  /** The files under one sub-directory: none when it is ignored. */
  function Visit(root: string, sub: Sub): seq<string>
    decreases sub
  {
    if sub.name in IgnoredDirs then [] else Walk(JoinPath(root, sub.name), sub.dir)
  }

  /** A directory's listed files are exactly its files other than `.DS_Store`, joined to its path. */
  lemma {:induction false} ListedExact(root: string, files: seq<string>, p: string)
    ensures p in Listed(root, files) <==> exists f :: f in files && f !in IgnoredFiles && p == JoinPath(root, f)
    decreases |files|
  {
    if |files| > 0 {
      ListedExact(root, files[1..], p);
      if p in Listed(root, files[1..]) {
        var f :| f in files[1..] && f !in IgnoredFiles && p == JoinPath(root, f);
        assert f in files;
      }
      if exists f :: f in files && f !in IgnoredFiles && p == JoinPath(root, f) {
        var f :| f in files && f !in IgnoredFiles && p == JoinPath(root, f);
        if f != files[0] {
          assert f in files[1..];
        }
      }
    }
  }

  lemma {:induction false} WalkSubsAppend(root: string, a: seq<Sub>, b: seq<Sub>)
    ensures WalkSubs(root, a + b) == WalkSubs(root, a) + WalkSubs(root, b)
    decreases |a|
  {
    if |a| > 0 {
      assert (a + b)[0] == a[0];
      assert (a + b)[1..] == a[1..] + b;
      WalkSubsAppend(root, a[1..], b);
    } else {
      assert a + b == b;
    }
  }

  /** Whatever an ignored directory holds, the walk lists what it would list without it. */
  lemma PrunedDirectory(root: string, d: Dir, j: int)
    requires 0 <= j < |d.subdirs| && d.subdirs[j].name in IgnoredDirs
    ensures Walk(root, d) == Walk(root, Dir(d.files, d.subdirs[..j] + d.subdirs[j + 1..]))
  {
    var subs := d.subdirs;
    assert subs == subs[..j] + ([subs[j]] + subs[j + 1..]);
    WalkSubsAppend(root, subs[..j], [subs[j]] + subs[j + 1..]);
    WalkSubsAppend(root, subs[..j], subs[j + 1..]);
    assert WalkSubs(root, [subs[j]] + subs[j + 1..]) == WalkSubs(root, subs[j + 1..]) by {
      assert ([subs[j]] + subs[j + 1..])[1..] == subs[j + 1..];
    }
  }

  /** Every path listed for a directory that is not ignored is listed for its parent too. */
  lemma VisitedDirectory(root: string, d: Dir, j: int, p: string)
    requires 0 <= j < |d.subdirs| && d.subdirs[j].name !in IgnoredDirs
    requires p in Walk(JoinPath(root, d.subdirs[j].name), d.subdirs[j].dir)
    ensures p in Walk(root, d)
  {
    var subs := d.subdirs;
    assert subs == subs[..j] + ([subs[j]] + subs[j + 1..]);
    WalkSubsAppend(root, subs[..j], [subs[j]] + subs[j + 1..]);
    assert ([subs[j]] + subs[j + 1..])[1..] == subs[j + 1..];
  }

  /** Every file of the project directory except `.DS_Store` is scanned. */
  lemma TopFilesListed(root: string, d: Dir, f: string)
    requires f in d.files && f !in IgnoredFiles
    ensures JoinPath(root, f) in Walk(root, d)
  {
    ListedExact(root, d.files, JoinPath(root, f));
  }

  // ---------------------------------------------------------------------
  // Languages and rules

  /** `self.file_extensions`: the supported extensions and their language names. */
  const FileExtensions: map<string, string> := map[
    ".c" := "C", ".cpp" := "C++", ".cc" := "C++", ".h" := "C", ".hpp" := "C++",
    ".php" := "PHP", ".py" := "Python", ".js" := "JavaScript", ".jsx" := "JavaScript",
    ".ts" := "TypeScript", ".tsx" := "TypeScript", ".go" := "Go", ".java" := "Java"
  ]

  /** The language of a file, by its lower-cased extension; none for an unsupported one. */
  function LanguageOf(path: string): Option<string>
  {
    var ext := Lower(Extension(path));
    if ext in FileExtensions then Some(FileExtensions[ext]) else None
  }

  /** Every file that has a parser has a language, and the only languages without one are TypeScript's. */
  lemma ParsersAndLanguages(path: string)
    ensures ParserNameForFile(path).Some? ==> LanguageOf(path).Some?
    ensures LanguageOf(path).Some? && ParserNameForFile(path).None? ==> LanguageOf(path) == Some("TypeScript")
  {
    var ext := Lower(Extension(path));
    DispatchIsTable(ext);
    assert FileExtensions.Keys == ExtensionTable.Keys + {".ts", ".tsx"};
  }

  /** `get_rules_for_language(ruleset, key) or self.rules.get(key, {})`. */
  function RulesFor(table: Table, ruleset: string, rules: RuleMap, key: string): RuleMap
  {
    var managed := GetRulesForLanguage(table, ruleset, key);
    if managed != map[] then managed else LanguageRules(rules, key)
  }

  /** The languages tried, in order, for a language with no rules of its own. */
  const FallbackMapping: map<string, seq<string>> :=
    map["php" := ["php", "javascript"], "go" := ["go", "cpp"], "java" := ["java", "cpp"]]

  /** The first non-empty rules among `langs`, or none. */
  function FirstRules(table: Table, ruleset: string, rules: RuleMap, langs: seq<string>): RuleMap
  {
    if |langs| == 0 then map[]
    else
      var found := RulesFor(table, ruleset, rules, langs[0]);
      if found != map[] then found else FirstRules(table, ruleset, rules, langs[1..])
  }

  /** The rules made up when nothing else is found: line length by ruleset, indent by ruleset and language. */
  function DefaultLanguageRules(ruleset: string, key: string): RuleMap
  {
    var (indent, length) :=
      if ruleset == "PEP8" then (4, 79)
      else if ruleset == "Airbnb" || ruleset == "Standard" then (2, 100)
      else if ruleset == "Google" then (4, 80)
      else (4, 100);
    var indent' := if key == "javascript" || key == "typescript" then 2 else indent;
    map["max_line_length" := Int(length), "expected_indent" := Int(indent')]
  }

  /** The language rules `_scan_file` works out for a lower-cased language name. */
  function LanguageRulesFor(table: Table, ruleset: string, rules: RuleMap, key: string): RuleMap
  {
    var direct := RulesFor(table, ruleset, rules, key);
    if direct != map[] then direct
    else if key == "c" then RulesFor(table, ruleset, rules, "cpp")
    else if key == "typescript" then RulesFor(table, ruleset, rules, "javascript")
    else
      var found := if key in FallbackMapping then FirstRules(table, ruleset, rules, FallbackMapping[key]) else map[];
      if found != map[] then found else DefaultLanguageRules(ruleset, key)
  }

  /** The fallback loop picks the first language that has rules, and finds none only when none has any. */
  lemma {:induction false} FirstRulesExact(table: Table, ruleset: string, rules: RuleMap, langs: seq<string>)
    ensures FirstRules(table, ruleset, rules, langs) == map[] <==>
      forall i :: 0 <= i < |langs| ==> RulesFor(table, ruleset, rules, langs[i]) == map[]
    ensures FirstRules(table, ruleset, rules, langs) != map[] ==>
      exists j :: 0 <= j < |langs| && FirstRules(table, ruleset, rules, langs) == RulesFor(table, ruleset, rules, langs[j])
        && forall i :: 0 <= i < j ==> RulesFor(table, ruleset, rules, langs[i]) == map[]
    decreases |langs|
  {
    if |langs| > 0 {
      FirstRulesExact(table, ruleset, rules, langs[1..]);
      var r := FirstRules(table, ruleset, rules, langs);
      if RulesFor(table, ruleset, rules, langs[0]) == map[] {
        if r != map[] {
          var j :| 0 <= j < |langs[1..]| && r == RulesFor(table, ruleset, rules, langs[1..][j])
            && forall i :: 0 <= i < j ==> RulesFor(table, ruleset, rules, langs[1..][i]) == map[];
          assert r == RulesFor(table, ruleset, rules, langs[j + 1]);
          assert forall i :: 0 <= i < j + 1 ==> RulesFor(table, ruleset, rules, langs[i]) == map[] by {
            forall i | 0 <= i < j + 1
              ensures RulesFor(table, ruleset, rules, langs[i]) == map[]
            {
              if i > 0 {
                assert langs[i] == langs[1..][i - 1];
              }
            }
          }
        } else {
          forall i | 0 <= i < |langs|
            ensures RulesFor(table, ruleset, rules, langs[i]) == map[]
          {
            if i > 0 {
              assert langs[i] == langs[1..][i - 1];
            }
          }
        }
      } else {
        assert r == RulesFor(table, ruleset, rules, langs[0]);
      }
    }
  }

  /** Apart from C and TypeScript files, a file always receives some rules. */
  lemma AlwaysSomeRules(table: Table, ruleset: string, rules: RuleMap, key: string)
    requires key != "c" && key != "typescript"
    ensures LanguageRulesFor(table, ruleset, rules, key) != map[]
  {
    assert "max_line_length" in DefaultLanguageRules(ruleset, key);
  }

  /** Under a built-in ruleset the manager always answers, so no fallback is ever taken. */
  lemma BuiltinNeedsNoFallback(name: string, rules: RuleMap, key: string)
    requires name in AllRulesets
    ensures LanguageRulesFor(AllRulesets, name, rules, key) == GetRulesForLanguage(AllRulesets, name, key)
  {
    BuiltinHasLengthAndIndent(name, key);
  }

  /** The language keys of C and C++ files are "c" and "c++", neither of them a ruleset section. */
  lemma CLanguageKeys()
    ensures Lower("C") == "c" && Lower("C++") == "c++"
    ensures "c" !in LanguageKeys && "c++" !in LanguageKeys
  {
  }

  /**
   * A file whose language key names no section gets the global rules only
   * under a built-in ruleset: by `CLanguageKeys`, every C and C++ file, which
   * never sees the "cpp" section.
   */
  lemma NoSectionGetsGlobalRules(name: string, rules: RuleMap, key: string)
    requires name in AllRulesets
    requires key !in LanguageKeys
    ensures LanguageRulesFor(AllRulesets, name, rules, key) == GlobalRules
  {
    var g := GetRulesForLanguage(AllRulesets, name, key);
    assert g == GlobalRules by {
      BuiltinNoSection(name, key);
    }
    assert LanguageRulesFor(AllRulesets, name, rules, key) == g by {
      BuiltinNeedsNoFallback(name, rules, key);
    }
  }

  lemma BuiltinNoSection(name: string, key: string)
    requires name in AllRulesets && key !in LanguageKeys
    ensures GetRulesForLanguage(AllRulesets, name, key) == GlobalRules
  {
    BuiltinRulesForLanguage(name, key);
    SectionsAreLanguages(name);
    UnionEmpty(GlobalRules);
  }

  lemma UnionEmpty(m: RuleMap)
    ensures m + map[] == m
  {
  }

  lemma UnknownDefaultsKeys()
    ensures UnknownRulesetDefaults.Keys == {"python", "javascript"}
    ensures UnknownRulesetDefaults["javascript"].Map? && UnknownRulesetDefaults["javascript"].m != map[]
  {
    assert "max_line_length" in UnknownRulesetDefaults["javascript"].m;
  }

  /** Under a ruleset the manager does not know, both lookups fall through to the default sections. */
  lemma UnknownRulesFor(table: Table, name: string, key: string)
    requires name !in table
    ensures RulesFor(table, name, RulesForRuleset(table, name), key) == LanguageRules(UnknownRulesetDefaults, key)
  {
  }

  /**
   * Under a ruleset the manager does not know, the scanner falls back on the
   * default Python and JavaScript sections: PHP and TypeScript files get the
   * JavaScript rules, and C files get none, so their parser keeps its own
   * settings.
   */
  lemma UnknownRulesetBorrows(table: Table, name: string)
    requires name !in table
    ensures var rules := RulesForRuleset(table, name);
      && LanguageRulesFor(table, name, rules, "php") == LanguageRules(UnknownRulesetDefaults, "javascript")
      && LanguageRulesFor(table, name, rules, "typescript") == LanguageRules(UnknownRulesetDefaults, "javascript")
      && LanguageRulesFor(table, name, rules, "c") == map[]
  {
    var rules := RulesForRuleset(table, name);
    UnknownDefaultsKeys();
    UnknownRulesFor(table, name, "php");
    UnknownRulesFor(table, name, "javascript");
    UnknownRulesFor(table, name, "typescript");
    UnknownRulesFor(table, name, "c");
    UnknownRulesFor(table, name, "cpp");
    FirstRulesPair(table, name, rules, "php", "javascript");
  }

  lemma FirstRulesPair(table: Table, ruleset: string, rules: RuleMap, a: string, b: string)
    ensures FirstRules(table, ruleset, rules, [a, b])
      == if RulesFor(table, ruleset, rules, a) != map[] then RulesFor(table, ruleset, rules, a) else RulesFor(table, ruleset, rules, b)
  {
    assert [a, b][1..] == [b];
    assert FirstRules(table, ruleset, rules, [b]) == RulesFor(table, ruleset, rules, b) by {
      assert [b][1..] == [];
    }
  }

  /** Under a ruleset the manager does not know, C++, Go and Java files get the made-up defaults. */
  lemma UnknownRulesetDefaultsUsed(table: Table, name: string, key: string)
    requires name !in table
    requires key == "c++" || key == "go" || key == "java"
    ensures LanguageRulesFor(table, name, RulesForRuleset(table, name), key) == DefaultLanguageRules(name, key)
  {
    UnknownDefaultsKeys();
    UnknownRulesFor(table, name, key);
    UnknownRulesFor(table, name, "cpp");
    if key != "c++" {
      assert FallbackMapping[key] == [key, "cpp"];
      FirstRulesPair(table, name, RulesForRuleset(table, name), key, "cpp");
    }
  }

  // ---------------------------------------------------------------------
  // Severity

  const HighKeywords: seq<string> :=
    ["安全", "漏洞", "SQL注入", "XSS", "未授权", "未加密", "崩溃", "死循环", "内存泄漏", "Fatal", "Error"]
  /** Listed by the scanner but never consulted: "medium" is what is left over. */
  const MediumKeywords: seq<string> :=
    ["规范", "风格", "命名", "缩进", "行长度", "格式", "PEP8", "warning", "Warning"]
  const LowKeywords: seq<string> :=
    ["注释", "空白", "空行", "导入顺序", "可读性", "建议", "info", "Info"]

  /** Some keyword of `ks`, lower-cased, occurs in `text`. */
  predicate Mentions(text: string, ks: seq<string>)
  {
    exists k :: 0 <= k < |ks| && Contains(text, Lower(ks[k]))
  }

  /** The text the keywords are looked for in: rule name and description, lower-cased. */
  function FullText(ruleName: string, description: string): string
  {
    Lower(ruleName + " " + description)
  }

  /** A severity given by the parser is kept; otherwise high, low or medium by keyword. */
  function SeverityOf(ruleName: string, description: string, given: Option<string>): string
  {
    match given
    case Some(s) => s
    case None =>
      var text := FullText(ruleName, description);
      if Mentions(text, HighKeywords) then "high"
      else if Mentions(text, LowKeywords) then "low"
      else "medium"
  }

  /** The grading ladder: a high keyword wins, then a low one, and "medium" means neither occurs. */
  lemma SeverityLadder(ruleName: string, description: string)
    ensures var text := FullText(ruleName, description);
      && (SeverityOf(ruleName, description, None) == "high" <==> Mentions(text, HighKeywords))
      && (SeverityOf(ruleName, description, None) == "low" <==> !Mentions(text, HighKeywords) && Mentions(text, LowKeywords))
      && (SeverityOf(ruleName, description, None) == "medium" <==> !Mentions(text, HighKeywords) && !Mentions(text, LowKeywords))
  {
  }

  lemma ContainsInside(a: string, b: string, c: string, p: string)
    requires Contains(b, p)
    ensures Contains(a + b + c, p)
  {
    ContainsWitness(b, p);
    var i: nat :| OccursAt(b, p, i);
    assert (a + b + c)[|a| + i..|a| + i + |p|] == b[i..i + |p|];
    ContainsAt(a + b + c, p, |a| + i);
  }

  lemma LowerConcat(a: string, b: string)
    ensures Lower(a + b) == Lower(a) + Lower(b)
  {
    var whole, parts := Lower(a + b), Lower(a) + Lower(b);
    forall i | 0 <= i < |a + b|
      ensures whole[i] == parts[i]
    {
      if i < |a| {
        assert (a + b)[i] == a[i];
      } else {
        assert (a + b)[i] == b[i - |a|];
      }
    }
    assert whole == parts;
  }

  lemma LowerKeepsContains(s: string, p: string)
    requires Contains(s, p)
    ensures Contains(Lower(s), Lower(p))
  {
    ContainsWitness(s, p);
    var i: nat :| OccursAt(s, p, i);
    forall k | 0 <= k < |p|
      ensures Lower(s)[i..i + |p|][k] == Lower(p)[k]
    {
      assert s[i + k] == p[k];
    }
    assert OccursAt(Lower(s), Lower(p), i);
    ContainsAt(Lower(s), Lower(p), i);
  }

  /** A description that mentions "Error" (as an `ErrorHandler` name in a naming message does) is graded high. */
  lemma ErrorIsHigh(ruleName: string, description: string)
    requires Contains(description, "Error")
    ensures SeverityOf(ruleName, description, None) == "high"
  {
    LowerConcat(ruleName + " ", description);
    LowerKeepsContains(description, "Error");
    ContainsInside(Lower(ruleName + " "), Lower(description), "", Lower("Error"));
    assert Lower(ruleName + " ") + Lower(description) + "" == FullText(ruleName, description);
    assert HighKeywords[10] == "Error";
  }

  // ---------------------------------------------------------------------
  // Normalising a parser's output

  /** A violation as a parser hands it over; `None` is a missing key. */
  datatype RawViolation = RawViolation(kind: Option<string>, message: Option<string>, line: Option<int>, severity: Option<string>)

  /** The dictionary the parsers of this model build, as the scanner receives it. */
  function FromViolation(v: Violation): RawViolation
  {
    RawViolation(Some(v.kind), Some(Render(v.message)), v.line, v.severity)
  }

  datatype LineNumber = Known(n: int) | Unknown
  /** A violation as the results store it. */
  datatype Formatted = Formatted(ruleName: string, description: string, lineNumber: LineNumber, severity: string)

  /** The conversion to the stored form: defaults for a missing type, message or line, then the grade. */
  function Format(v: RawViolation): Formatted
  {
    var ruleName := if v.kind.Some? then v.kind.value else "unknown";
    var description := if v.message.Some? && v.message.value != "" then v.message.value else "违反了" + ruleName + "规则";
    var lineNumber := if v.line.None? || v.line.value == -1 then Unknown else Known(v.line.value);
    Formatted(ruleName, description, lineNumber, SeverityOf(ruleName, description, v.severity))
  }

  function FormatAll(vs: seq<RawViolation>): (fs: seq<Formatted>)
    ensures |fs| == |vs|
  {
    if |vs| == 0 then [] else FormatAll(vs[..|vs| - 1]) + [Format(vs[|vs| - 1])]
  }

  lemma {:induction false} FormatAllAt(vs: seq<RawViolation>, k: int)
    requires 0 <= k < |vs|
    ensures FormatAll(vs)[k] == Format(vs[k])
    decreases |vs|
  {
    if k < |vs| - 1 {
      FormatAllAt(vs[..|vs| - 1], k);
    }
  }

  /**
   * What the stored form keeps: the parser's type, message, line and
   * severity when it gave them; "unknown" for a missing type, a message
   * naming the rule for a missing or empty one, and an unknown line for a
   * missing line or -1.  A stored description is never empty.
   */
  lemma FormatExact(v: RawViolation)
    ensures var f := Format(v);
      && (v.kind.Some? ==> f.ruleName == v.kind.value)
      && (v.kind.None? ==> f.ruleName == "unknown")
      && (v.message.Some? && v.message.value != "" ==> f.description == v.message.value)
      && (v.message.None? || v.message.value == "" ==> f.description == "违反了" + f.ruleName + "规则")
      && f.description != ""
      && (f.lineNumber == Unknown <==> v.line.None? || v.line.value == -1)
      && (f.lineNumber.Known? ==> f.lineNumber.n == v.line.value && f.lineNumber.n != -1)
      && (v.severity.Some? ==> f.severity == v.severity.value)
      && (v.severity.None? ==> f.severity in {"high", "medium", "low"})
  {
  }

  // ---------------------------------------------------------------------
  // Dropping summary lines

  /** The summary lines some tools print, which are not violations. */
  predicate Special(f: Formatted)
  {
    var d := Lower(f.description);
    var n := Lower(f.ruleName);
    Contains(d, "done processing") || Contains(d, "total errors found")
    || Contains(n, "done processing") || Contains(n, "total errors found")
  }

  function Unspecial(fs: seq<Formatted>): seq<Formatted>
  {
    if |fs| == 0 then []
    else Unspecial(fs[..|fs| - 1]) + (if Special(fs[|fs| - 1]) then [] else [fs[|fs| - 1]])
  }

  /** Filtering keeps exactly the violations that are not summary lines. */
  lemma {:induction false} UnspecialExact(fs: seq<Formatted>)
    ensures forall f :: f in Unspecial(fs) <==> f in fs && !Special(f)
    ensures |Unspecial(fs)| <= |fs|
    decreases |fs|
  {
    if |fs| > 0 {
      var init, last := fs[..|fs| - 1], fs[|fs| - 1];
      UnspecialExact(init);
      assert fs == init + [last];
      forall f
        ensures f in Unspecial(fs) <==> f in fs && !Special(f)
      {
        assert f in fs <==> f in init || f == last;
      }
    }
  }

  /** Filtering changes nothing when there is no summary line, so the order is kept. */
  lemma {:induction false} UnspecialUnchanged(fs: seq<Formatted>)
    requires forall k :: 0 <= k < |fs| ==> !Special(fs[k])
    ensures Unspecial(fs) == fs
    decreases |fs|
  {
    if |fs| > 0 {
      var init := fs[..|fs| - 1];
      assert forall k :: 0 <= k < |init| ==> init[k] == fs[k];
      UnspecialUnchanged(init);
      assert fs == init + [fs[|fs| - 1]];
    }
  }

  // ---------------------------------------------------------------------
  // Results

  /**
   * The `results` dictionary.  A count dictionary becomes a multiset: a key
   * is present exactly when its count is positive.  The scan time is left out.
   */
  datatype Results = Results(
    totalFiles: nat, scannedFiles: nat, skippedFiles: nat,
    languages: multiset<string>, violations: multiset<string>,
    byFile: map<string, nat>, bySeverity: multiset<string>,
    details: map<string, seq<Formatted>>,
    totalLines: nat, linesByFile: map<string, nat>)

  const NoResults: Results := Results(0, 0, 0, multiset{}, multiset{}, map[], multiset{}, map[], 0, map[])

  function RuleNames(fs: seq<Formatted>): (m: multiset<string>)
    ensures |m| == |fs|
    ensures forall k :: 0 <= k < |fs| ==> fs[k].ruleName in m
  {
    if |fs| == 0 then multiset{} else RuleNames(fs[..|fs| - 1]) + multiset{fs[|fs| - 1].ruleName}
  }

  function Severities(fs: seq<Formatted>): (m: multiset<string>)
    ensures |m| == |fs|
    ensures forall k :: 0 <= k < |fs| ==> fs[k].severity in m
  {
    if |fs| == 0 then multiset{} else Severities(fs[..|fs| - 1]) + multiset{fs[|fs| - 1].severity}
  }

  /** Folding one file's violations into the results. */
  function Aggregate(r: Results, path: string, fs: seq<Formatted>): Results
  {
    r.(violations := r.violations + RuleNames(fs),
       byFile := r.byFile[path := |fs|],
       bySeverity := r.bySeverity + Severities(fs),
       details := if |fs| > 0 then r.details[path := fs] else r.details)
  }

  /** Recording a file's line count; a file that cannot be read counts as 0 lines. */
  function Counted(r: Results, path: string, lines: Option<nat>): Results
  {
    match lines
    case Some(n) => r.(linesByFile := r.linesByFile[path := n], totalLines := r.totalLines + n)
    case None => r.(linesByFile := r.linesByFile[path := 0])
  }

  /**
   * What the results promise their readers: as many graded as counted
   * violations, and detail lists only for files that have a count, none of
   * them empty.
   */
  ghost predicate Coherent(r: Results)
  {
    && |r.violations| == |r.bySeverity|
    && (forall p :: p in r.details ==> p in r.byFile && |r.details[p]| > 0)
  }

  /** Aggregating a file grows both histograms by the file's count and keeps the results coherent. */
  lemma AggregateCoherent(r: Results, path: string, fs: seq<Formatted>)
    requires Coherent(r)
    ensures var t := Aggregate(r, path, fs);
      && Coherent(t)
      && |t.violations| == |r.violations| + t.byFile[path]
      && |t.bySeverity| == |r.bySeverity| + t.byFile[path]
      && (path in t.details <==> path in r.details || |fs| > 0)
  {
  }

  // ---------------------------------------------------------------------
  // The scan state and the user's controls

  /** What the user asks for from the window while a scan runs. */
  datatype UiCall = StopCall | PauseCall | ResumeCall
  /** How the wait at the top of `_scan_file` ends for a paused scan. */
  datatype WaitEnd = Resumed | Stopped

  /** One call of a parser's `scan`: its class, the ruleset it was built for, the rules set on it, the file. */
  datatype ScanRequest = ScanRequest(cls: ParserClass, ruleset: string, rules: Option<RuleMap>, path: string)
  /** What `scan` hands back: a list, something that is not a list, or an exception. */
  datatype ScanResult = Reported(vs: seq<RawViolation>) | NotAList | ScanRaised

  /**
   * Everything outside the scanner: the parsers' checks, the readable line
   * count of a file, the calls the user makes before file `j` is taken up,
   * and how a pause at file `j` ends.
   */
  datatype Env = Env(
    scan: ScanRequest -> ScanResult,
    lineCount: string -> Option<nat>,
    calls: nat -> seq<UiCall>,
    waitEnd: nat -> WaitEnd)

  /** The scalar counters of the results. */
  datatype Counters = Counters(totalFiles: nat, scannedFiles: nat, skippedFiles: nat, totalLines: nat)

  /**
   * `last_scan_info`.  Its results are a shallow copy, whose nested
   * dictionaries are the live ones; only the counters are a snapshot.
   */
  datatype LastScan = LastScan(currentFile: Option<string>, progress: int, scannedFiles: nat, snapshot: Option<Counters>)

  /** The scanner's changing fields, and the progress values it has sent, in order. */
  datatype State = State(scanning: bool, paused: bool, results: Results, last: LastScan, progress: seq<int>)

  /** What a scanner is built with: its ruleset, the rule manager's table, the loaded rules, the importer. */
  datatype Config = Config(ruleset: string, table: Table, rules: RuleMap, load: Loader)

  const InitialLastScan: LastScan := LastScan(None, 0, 0, None)

  /** `stop`, `pause_scan` and `resume_scan`. */
  function ApplyCall(s: State, c: UiCall): State
  {
    match c
    case StopCall => s.(scanning := false)
    case PauseCall => if s.scanning && !s.paused then s.(paused := true) else s
    case ResumeCall => if s.scanning && s.paused then s.(paused := false) else s
  }

  function ApplyCalls(s: State, cs: seq<UiCall>): State
  {
    if |cs| == 0 then s else ApplyCall(ApplyCalls(s, cs[..|cs| - 1]), cs[|cs| - 1])
  }

  /** Pausing a running scan and resuming it gives the same scanner back; pausing twice is pausing once. */
  lemma PauseResume(s: State)
    ensures s.scanning && !s.paused ==> ApplyCall(ApplyCall(s, PauseCall), ResumeCall) == s
    ensures ApplyCall(ApplyCall(s, PauseCall), PauseCall) == ApplyCall(s, PauseCall)
    ensures !s.scanning ==> ApplyCall(s, PauseCall) == s && ApplyCall(s, ResumeCall) == s
  {
  }

  /** The controls touch only the two flags, and only a stop ends a scan. */
  lemma {:induction false} CallsKeep(s: State, cs: seq<UiCall>)
    ensures var t := ApplyCalls(s, cs);
      && t.results == s.results && t.last == s.last && t.progress == s.progress
      && (t.scanning ==> s.scanning)
      && (StopCall !in cs ==> t.scanning == s.scanning)
    decreases |cs|
  {
    if |cs| > 0 {
      CallsKeep(s, cs[..|cs| - 1]);
      assert StopCall !in cs ==> StopCall !in cs[..|cs| - 1];
    }
  }

  // ---------------------------------------------------------------------
  // One file

  /** The violation added to a clean file, so that a scan shows some result. */
  const TestViolation: RawViolation := RawViolation(Some(TestRule), Some(TestMessage), Some(1), None)
  const TestRule: string := "测试验证"
  const TestMessage: string := "此为测试违规，" + "用于验证扫描" + "功能正常工作"

  /** A clean file gets the test violation while nothing has been recorded for Python, or every tenth file. */
  function WithTestViolation(vs: seq<RawViolation>, language: string, r: Results): seq<RawViolation>
  {
    if |vs| == 0 && ((language == "Python" && |r.violations| == 0) || r.scannedFiles % 10 == 0)
    then [TestViolation] else vs
  }

  function RequestFor(c: Config, cls: ParserClass, languageRules: RuleMap, path: string): ScanRequest
  {
    ScanRequest(cls, c.ruleset, if languageRules != map[] then Some(languageRules) else None, path)
  }

  /** The end of a file that did not raise: the current file and a copy of the counters. */
  function Recorded(s: State, path: string, r: Results): State
  {
    s.(results := r,
       last := LastScan(Some(path), s.last.progress, r.scannedFiles,
                        Some(Counters(r.totalFiles, r.scannedFiles, r.skippedFiles, r.totalLines))))
  }

  /** The part of `_scan_file` that runs a parser, as `req` says, on a file of `language`. */
  function Parsed(env: Env, s: State, path: string, language: string, req: ScanRequest, r: Results): (State, bool)
  {
    var r1 := Counted(r, path, env.lineCount(path));
    if env.scan(req).ScanRaised? then (s.(results := r1), true)
    else
      var vs := if env.scan(req).Reported? then env.scan(req).vs else [];
      var fs := Unspecial(FormatAll(WithTestViolation(vs, language, r1)));
      (Recorded(s, path, Aggregate(r1, path, fs)), false)
  }

  /** `_scan_file` after the pause: the new state, and whether it raised. */
  function Examined(c: Config, env: Env, s: State, path: string): (State, bool)
  {
    match LanguageOf(path)
    case None => (s, false)
    case Some(language) =>
      Dispatched(c, env, s.(results := s.results.(languages := s.results.languages + multiset{language})),
                 path, language, ParserFor(path, c.load))
  }

  /** `_scan_file` from the parser lookup on, for a file of `language` already counted in `s`. */
  function Dispatched(c: Config, env: Env, s: State, path: string, language: string, lookup: ParserLookup): (State, bool)
  {
    match lookup
    case LoadRaises => (s, true)
    case NoParser => (Recorded(s, path, s.results), false)
    case Loaded(cls) =>
      var req := RequestFor(c, cls, LanguageRulesFor(c.table, c.ruleset, c.rules, Lower(language)), path);
      Parsed(env, s, path, language, req, s.results)
  }

  /** `_scan_file(path)` taken up as file `j`: a paused scan first waits to be resumed or stopped. */
  function FileScan(c: Config, env: Env, s: State, j: nat, path: string): (State, bool)
  {
    if s.paused && s.scanning then
      if env.waitEnd(j) == Stopped then (s.(scanning := false), false)
      else Examined(c, env, s.(paused := false), path)
    else Examined(c, env, s, path)
  }

  /** The file counters, the progress values, the saved progress and the scanning flag of a scanner. */
  predicate SameBookkeeping(s: State, t: State)
  {
    && t.results.totalFiles == s.results.totalFiles
    && t.results.scannedFiles == s.results.scannedFiles
    && t.results.skippedFiles == s.results.skippedFiles
    && t.progress == s.progress && t.last.progress == s.last.progress && t.scanning == s.scanning
  }

  /** Running a parser changes the results only, and keeps them coherent. */
  lemma ParsedKeeps(env: Env, s: State, path: string, language: string, req: ScanRequest, r: Results)
    requires r.totalFiles == s.results.totalFiles && r.scannedFiles == s.results.scannedFiles
    requires r.skippedFiles == s.results.skippedFiles
    ensures SameBookkeeping(s, Parsed(env, s, path, language, req, r).0)
    ensures Coherent(r) ==> Coherent(Parsed(env, s, path, language, req, r).0.results)
  {
    var r1 := Counted(r, path, env.lineCount(path));
    assert SameCounters(r, r1) && (Coherent(r) ==> Coherent(r1));
    if !env.scan(req).ScanRaised? {
      var vs := if env.scan(req).Reported? then env.scan(req).vs else [];
      var fs := Unspecial(FormatAll(WithTestViolation(vs, language, r1)));
      RecordedKeeps(s, path, r1, fs);
    }
  }

  predicate SameCounters(r: Results, t: Results)
  {
    t.totalFiles == r.totalFiles && t.scannedFiles == r.scannedFiles && t.skippedFiles == r.skippedFiles
  }

  lemma RecordedKeeps(s: State, path: string, r: Results, fs: seq<Formatted>)
    requires SameCounters(s.results, r)
    ensures SameBookkeeping(s, Recorded(s, path, Aggregate(r, path, fs)))
    ensures Coherent(r) ==> Coherent(Aggregate(r, path, fs))
  {
    if Coherent(r) {
      AggregateCoherent(r, path, fs);
    }
  }

  lemma ExaminedKeeps(c: Config, env: Env, s: State, path: string)
    ensures SameBookkeeping(s, Examined(c, env, s, path).0)
    ensures Coherent(s.results) ==> Coherent(Examined(c, env, s, path).0.results)
  {
    match LanguageOf(path)
    case None =>
    case Some(language) =>
      var r := s.results.(languages := s.results.languages + multiset{language});
      match ParserFor(path, c.load)
      case LoadRaises =>
      case NoParser =>
      case Loaded(cls) =>
        var req := RequestFor(c, cls, LanguageRulesFor(c.table, c.ruleset, c.rules, Lower(language)), path);
        ParsedKeeps(env, s.(results := r), path, language, req, r);
  }

  /**
   * One file leaves the file counters, the progress values and the saved
   * progress alone, keeps the results coherent, and ends the scan only when
   * the user stops it during a pause.
   */
  lemma FileScanKeeps(c: Config, env: Env, s: State, j: nat, path: string)
    ensures var t := FileScan(c, env, s, j, path).0;
      && t.results.totalFiles == s.results.totalFiles
      && t.results.scannedFiles == s.results.scannedFiles
      && t.results.skippedFiles == s.results.skippedFiles
      && t.progress == s.progress && t.last.progress == s.last.progress
      && t.scanning == (s.scanning && !(s.paused && env.waitEnd(j) == Stopped))
      && (Coherent(s.results) ==> Coherent(t.results))
  {
    if s.paused && s.scanning {
      ExaminedKeeps(c, env, s.(paused := false), path);
    } else {
      ExaminedKeeps(c, env, s, path);
    }
  }

  /** An unsupported file is passed over without a trace. */
  lemma UnsupportedFileIgnored(c: Config, env: Env, s: State, j: nat, path: string)
    requires LanguageOf(path).None? && !s.paused
    ensures FileScan(c, env, s, j, path) == (s, false)
  {
  }

  /** A TypeScript file is counted as a TypeScript file and nothing else: it has no parser. */
  lemma TypeScriptCountedOnly(c: Config, env: Env, s: State, j: nat, path: string)
    requires LanguageOf(path) == Some("TypeScript") && !s.paused
    ensures var (t, raised) := FileScan(c, env, s, j, path);
      && !raised && t.last.currentFile == Some(path)
      && t.results == s.results.(languages := s.results.languages + multiset{"TypeScript"})
  {
    TypeScriptHasNoParser(path, c.load);
  }

  lemma TypeScriptHasNoParser(path: string, load: Loader)
    requires LanguageOf(path) == Some("TypeScript")
    ensures ParserFor(path, load) == NoParser
  {
    var ext := Lower(Extension(path));
    TypeScriptExtensions(ext);
  }

  lemma TypeScriptExtensions(ext: string)
    requires ext in FileExtensions && FileExtensions[ext] == "TypeScript"
    ensures ParserNameForExtension(ext).None?
  {
    if ext == ".c" {} else if ext == ".cpp" {} else if ext == ".cc" {} else if ext == ".h" {}
    else if ext == ".hpp" {} else if ext == ".php" {} else if ext == ".py" {} else if ext == ".js" {}
    else if ext == ".jsx" {} else if ext == ".go" {} else if ext == ".java" {}
    else {
      assert ext == ".ts" || ext == ".tsx";
    }
  }

  lemma LowerUnchanged(s: string)
    requires forall k :: 0 <= k < |s| ==> !('A' <= s[k] <= 'Z')
    ensures Lower(s) == s
  {
  }

  lemma AbsentFirst(s: string, p: string)
    requires |p| > 0 && forall k :: 0 <= k < |s| ==> s[k] != p[0]
    ensures !Contains(s, p)
  {
    forall j: nat
      ensures !OccursAt(s, p, j)
    {
      if j + |p| <= |s| {
        assert s[j..j + |p|][0] == s[j];
      }
    }
    NotContained(s, p);
  }

  /** Text with no capital letter, no `d` and no `t`. */
  predicate Plain(s: string)
  {
    |s| == 0 || (!('A' <= s[0] <= 'Z') && s[0] != 'd' && s[0] != 't' && Plain(s[1..]))
  }

  lemma {:induction false} PlainAt(s: string, k: nat)
    requires Plain(s) && k < |s|
    ensures !('A' <= s[k] <= 'Z') && s[k] != 'd' && s[k] != 't'
  {
    if k > 0 {
      PlainAt(s[1..], k - 1);
    }
  }

  /** A violation whose rule and description are plain holds neither summary phrase, in any case. */
  lemma PlainNotSpecial(f: Formatted)
    requires Plain(f.description) && Plain(f.ruleName)
    ensures !Special(f)
  {
    forall k | 0 <= k < |f.description| ensures !('A' <= f.description[k] <= 'Z') && f.description[k] != 'd' && f.description[k] != 't' {
      PlainAt(f.description, k);
    }
    forall k | 0 <= k < |f.ruleName| ensures !('A' <= f.ruleName[k] <= 'Z') && f.ruleName[k] != 'd' && f.ruleName[k] != 't' {
      PlainAt(f.ruleName, k);
    }
    LowerUnchanged(f.description);
    LowerUnchanged(f.ruleName);
    AbsentFirst(f.description, "done processing");
    AbsentFirst(f.description, "total errors found");
    AbsentFirst(f.ruleName, "done processing");
    AbsentFirst(f.ruleName, "total errors found");
  }

  /** The test violation is no summary line, so it is never filtered out. */
  lemma TestViolationKept()
    ensures !Special(Format(TestViolation))
  {
    var f := Format(TestViolation);
    assert f.description == TestMessage && f.ruleName == TestRule;
    PlainTestRule();
    PlainTestMessage();
    PlainNotSpecial(f);
  }

  lemma PlainTestRule()
    ensures Plain(TestRule)
  {
  }

  lemma PlainTestMessage()
    ensures Plain(TestMessage)
  {
    assert Plain("此为测试违规，") && Plain("用于验证扫描") && Plain("功能正常工作");
    PlainConcat("此为测试违规，", "用于验证扫描");
    PlainConcat("此为测试违规，" + "用于验证扫描", "功能正常工作");
  }

  lemma {:induction false} PlainConcat(a: string, b: string)
    requires Plain(a) && Plain(b)
    ensures Plain(a + b)
  {
    if |a| > 0 {
      PlainConcat(a[1..], b);
      assert (a + b)[1..] == a[1..] + b;
    } else {
      assert a + b == b;
    }
  }

  /**
   * A file whose parser finds nothing gets the test violation while no
   * violation has been counted yet and the file is a Python file, or when the
   * files scanned so far are a multiple of ten: its details are that one
   * violation.
   */
  lemma CleanFileGetsTestViolation(c: Config, env: Env, s: State, j: nat, path: string, language: string, cls: ParserClass)
    requires !s.paused && LanguageOf(path) == Some(language) && ParserFor(path, c.load) == Loaded(cls)
    requires var req := RequestFor(c, cls, LanguageRulesFor(c.table, c.ruleset, c.rules, Lower(language)), path);
      env.scan(req) == Reported([]) || env.scan(req) == NotAList
    requires (language == "Python" && |s.results.violations| == 0) || s.results.scannedFiles % 10 == 0
    ensures var t := FileScan(c, env, s, j, path).0;
      && path in t.results.details && t.results.details[path] == [Format(TestViolation)]
      && t.results.byFile[path] == 1
      && TestRule in t.results.violations
  {
    var r := s.results.(languages := s.results.languages + multiset{language});
    var req := RequestFor(c, cls, LanguageRulesFor(c.table, c.ruleset, c.rules, Lower(language)), path);
    assert FileScan(c, env, s, j, path) == Parsed(env, s.(results := r), path, language, req, r);
    CleanParse(env, s.(results := r), path, language, req, r);
  }

  lemma CleanParse(env: Env, s: State, path: string, language: string, req: ScanRequest, r: Results)
    requires env.scan(req) == Reported([]) || env.scan(req) == NotAList
    requires (language == "Python" && |r.violations| == 0) || r.scannedFiles % 10 == 0
    ensures var t := Parsed(env, s, path, language, req, r).0;
      && path in t.results.details && t.results.details[path] == [Format(TestViolation)]
      && t.results.byFile[path] == 1
      && TestRule in t.results.violations
  {
    var r1 := Counted(r, path, env.lineCount(path));
    ParsedNothing(env, s, path, language, req, r);
    assert Unspecial(FormatAll(WithTestViolation([], language, r1))) == [Format(TestViolation)] by {
      assert r1.violations == r.violations && r1.scannedFiles == r.scannedFiles;
      assert WithTestViolation([], language, r1) == [TestViolation];
      TestViolationRecorded();
    }
    TestViolationRecorded();
    AggregateOne(r1, path, Format(TestViolation));
  }

  /** A parser that reports nothing, or no list, leaves the file's record to the test-violation rule. */
  lemma ParsedNothing(env: Env, s: State, path: string, language: string, req: ScanRequest, r: Results)
    requires env.scan(req) == Reported([]) || env.scan(req) == NotAList
    ensures var r1 := Counted(r, path, env.lineCount(path));
      Parsed(env, s, path, language, req, r).0.results == Aggregate(r1, path, Unspecial(FormatAll(WithTestViolation([], language, r1))))
  {
  }

  lemma AggregateOne(r: Results, path: string, f: Formatted)
    ensures var t := Aggregate(r, path, [f]);
      path in t.details && t.details[path] == [f] && t.byFile[path] == 1 && f.ruleName in t.violations
  {
    assert RuleNames([f]) == multiset{f.ruleName} by {
      assert [f][..0] == [];
    }
  }

  /** The test violation comes through formatting and filtering as it is. */
  lemma TestViolationRecorded()
    ensures Unspecial(FormatAll([TestViolation])) == [Format(TestViolation)]
    ensures Format(TestViolation).ruleName == TestRule
  {
    TestViolationKept();
    assert FormatAll([TestViolation]) == [Format(TestViolation)];
    assert Unspecial([Format(TestViolation)]) == [Format(TestViolation)] by {
      assert [Format(TestViolation)][..0] == [];
    }
  }

  /**
   * When the parser reports violations no test violation is added: the file's
   * count is what survives the summary-line filter, and all of them when none
   * is a summary line.
   */
  lemma ReportedViolationsRecorded(c: Config, env: Env, s: State, j: nat, path: string, language: string, cls: ParserClass, vs: seq<RawViolation>)
    requires !s.paused && LanguageOf(path) == Some(language) && ParserFor(path, c.load) == Loaded(cls)
    requires env.scan(RequestFor(c, cls, LanguageRulesFor(c.table, c.ruleset, c.rules, Lower(language)), path)) == Reported(vs)
    requires |vs| > 0
    ensures var t := FileScan(c, env, s, j, path).0;
      && t.results.byFile[path] == |Unspecial(FormatAll(vs))|
      && ((forall k :: 0 <= k < |vs| ==> !Special(Format(vs[k]))) ==>
            t.results.byFile[path] == |vs| && t.results.details[path] == FormatAll(vs))
  {
    if forall k :: 0 <= k < |vs| ==> !Special(Format(vs[k])) {
      forall k | 0 <= k < |vs|
        ensures !Special(FormatAll(vs)[k])
      {
        FormatAllAt(vs, k);
      }
      UnspecialUnchanged(FormatAll(vs));
    }
  }

  // ---------------------------------------------------------------------
  // The whole scan

  /** `int((i + 1) / len(all_files) * 100)`, computed exactly. */
  function Progress(j: nat, n: nat): int
    requires j < n
  {
    (j + 1) * 100 / n
  }

  lemma DivMonotone(a: nat, b: nat, n: nat)
    requires a <= b && n > 0
    ensures a / n <= b / n
  {
    var q, r := a / n, b / n;
    assert q * n <= a;
    assert b < (r + 1) * n;
    MulCancel(q, r + 1, n);
  }

  /** A product with a positive factor keeps the order of the other factors. */
  lemma MulCancel(x: int, y: int, n: nat)
    requires n > 0 && x * n < y * n
    ensures x < y
  {
    assert (y - x) * n == y * n - x * n;
  }

  /** Progress values stay within 0 to 100, never go down, and the last file reaches 100. */
  lemma ProgressBounds(j: nat, k: nat, n: nat)
    requires j <= k < n
    ensures 0 <= Progress(j, n) <= Progress(k, n) <= 100
    ensures Progress(n - 1, n) == 100
  {
    DivMonotone((j + 1) * 100, (k + 1) * 100, n);
    DivMonotone((k + 1) * 100, 100 * n, n);
    Hundred(n);
    assert (n - 1 + 1) * 100 == 100 * n;
  }

  lemma Hundred(n: nat)
    requires n > 0
    ensures 100 * n / n == 100
  {
    var q, m := 100 * n / n, 100 * n % n;
    assert q * n + m == 100 * n && 0 <= m < n;
    assert (q - 100) * n == -m;
  }

  /** `start`'s bookkeeping for file `j`: skipped when it raised, else scanned, with a progress value. */
  function AfterFile(t: State, raised: bool, j: nat, n: nat): State
    requires j < n
  {
    if raised then t.(results := t.results.(skippedFiles := t.results.skippedFiles + 1))
    else t.(results := t.results.(scannedFiles := t.results.scannedFiles + 1), progress := t.progress + [Progress(j, n)])
  }

  /** What `_scan_file` does to one file, as a value the loop of `start` can call. */
  type Step = (State, nat, string) -> (State, bool)

  function ScanStep(c: Config, env: Env): Step
  {
    (st: State, i: nat, p: string) => FileScan(c, env, st, i, p)
  }

  /** A step that leaves the bookkeeping of `start` to `start`, and ends a scan only on a stop during a pause. */
  ghost predicate Keeps(step: Step, waitEnd: nat -> WaitEnd)
  {
    forall st: State, i: nat, p: string ::
      var t := step(st, i, p).0;
      && t.results.totalFiles == st.results.totalFiles
      && t.results.scannedFiles == st.results.scannedFiles
      && t.results.skippedFiles == st.results.skippedFiles
      && t.progress == st.progress && t.last.progress == st.last.progress
      && t.scanning == (st.scanning && !(st.paused && waitEnd(i) == Stopped))
      && (Coherent(st.results) ==> Coherent(t.results))
  }

  lemma ScanStepKeeps(c: Config, env: Env)
    ensures Keeps(ScanStep(c, env), env.waitEnd)
  {
    forall st: State, i: nat, p: string {
      FileScanKeeps(c, env, st, i, p);
    }
  }

  /** The loop of `start` from file `j` on: the final state, and how many files it took up. */
  function Loop(step: Step, calls: nat -> seq<UiCall>, s: State, files: seq<string>, j: nat): (State, nat)
    requires j <= |files|
    decreases |files| - j
  {
    if j == |files| then (s, 0)
    else
      var s1 := ApplyCalls(s, calls(j));
      if !s1.scanning then (s1, 0)
      else
        var (t, raised) := step(s1, j, files[j]);
        var (u, k) := Loop(step, calls, AfterFile(t, raised, j, |files|), files, j + 1);
        (u, k + 1)
  }

  /** One turn of the loop of `start`: the user's calls, then file `j` unless the scan was stopped. */
  lemma LoopStep(step: Step, calls: nat -> seq<UiCall>, s: State, files: seq<string>, j: nat)
    requires j < |files|
    ensures var s1 := ApplyCalls(s, calls(j));
      Loop(step, calls, s, files, j).0 ==
        if !s1.scanning then s1
        else Loop(step, calls, AfterFile(step(s1, j, files[j]).0, step(s1, j, files[j]).1, j, |files|), files, j + 1).0
  {
  }

  /** `start` before its loop: scanning, with the number of files found. */
  function Begin(s: State, n: nat): State
  {
    s.(scanning := true, results := s.results.(totalFiles := n))
  }

  /** `start` on the files of a walk. */
  function Run(c: Config, env: Env, s: State, files: seq<string>): State
  {
    Loop(ScanStep(c, env), env.calls, Begin(s, |files|), files, 0).0
  }

  /**
   * Every file taken up is counted once, as scanned or as skipped; each
   * scanned one sends one progress value; the loop stops short only when the
   * scan was stopped; the results stay coherent.
   */
  lemma {:induction false} LoopCounts(step: Step, env: Env, s: State, files: seq<string>, j: nat)
    requires j <= |files| && Keeps(step, env.waitEnd)
    ensures var (t, n) := Loop(step, env.calls, s, files, j);
      && n <= |files| - j
      && t.results.scannedFiles + t.results.skippedFiles == s.results.scannedFiles + s.results.skippedFiles + n
      && |t.progress| + s.results.scannedFiles == |s.progress| + t.results.scannedFiles
      && t.results.totalFiles == s.results.totalFiles
      && t.last.progress == s.last.progress
      && (Coherent(s.results) ==> Coherent(t.results))
      && (n < |files| - j ==> !t.scanning)
    decreases |files| - j
  {
    if j < |files| {
      var s1 := ApplyCalls(s, env.calls(j));
      CallsKeep(s, env.calls(j));
      if s1.scanning {
        var (t, raised) := step(s1, j, files[j]);
        LoopCounts(step, env, AfterFile(t, raised, j, |files|), files, j + 1);
      }
    }
  }

  /** The progress values sent from file `j` on lie between file `j`'s value and 100, in order. */
  lemma {:induction false} LoopProgress(step: Step, env: Env, s: State, files: seq<string>, j: nat)
    requires j <= |files| && Keeps(step, env.waitEnd)
    ensures var t := Loop(step, env.calls, s, files, j).0;
      && |s.progress| <= |t.progress| && t.progress[..|s.progress|] == s.progress
      && (forall a :: |s.progress| <= a < |t.progress| ==> j < |files| && Progress(j, |files|) <= t.progress[a] <= 100)
      && (forall a, b :: |s.progress| <= a < b < |t.progress| ==> t.progress[a] <= t.progress[b])
    decreases |files| - j
  {
    if j < |files| {
      var n := |files|;
      var s1 := ApplyCalls(s, env.calls(j));
      CallsKeep(s, env.calls(j));
      if s1.scanning {
        var (t, raised) := step(s1, j, files[j]);
        var s2 := AfterFile(t, raised, j, n);
        LoopProgress(step, env, s2, files, j + 1);
        var u := Loop(step, env.calls, s2, files, j + 1).0;
        assert u == Loop(step, env.calls, s, files, j).0;
        ProgressBounds(j, j, n);
        if j + 1 < n {
          ProgressBounds(j, j + 1, n);
        }
        assert forall a :: |s2.progress| <= a < |u.progress| ==> Progress(j, n) <= u.progress[a] <= 100;
        assert forall a :: |s.progress| <= a < |s2.progress| ==> u.progress[a] == Progress(j, n) by {
          assert u.progress[..|s2.progress|] == s2.progress;
          forall a | |s.progress| <= a < |s2.progress|
            ensures u.progress[a] == Progress(j, n)
          {
            assert u.progress[a] == u.progress[..|s2.progress|][a];
          }
        }
        assert u.progress[..|s.progress|] == s.progress by {
          assert u.progress[..|s.progress|] == u.progress[..|s2.progress|][..|s.progress|];
        }
      }
    }
  }

  /** With no stop from the user the loop takes up every remaining file. */
  ghost predicate Uninterrupted(env: Env, from: nat, n: nat)
  {
    forall j :: from <= j < n ==> StopCall !in env.calls(j) && env.waitEnd(j) == Resumed
  }

  lemma {:induction false} UninterruptedTakesAll(step: Step, env: Env, s: State, files: seq<string>, j: nat)
    requires j <= |files| && s.scanning && Uninterrupted(env, j, |files|) && Keeps(step, env.waitEnd)
    ensures Loop(step, env.calls, s, files, j).1 == |files| - j
    decreases |files| - j
  {
    if j < |files| {
      var s1 := ApplyCalls(s, env.calls(j));
      CallsKeep(s, env.calls(j));
      var (t, raised) := step(s1, j, files[j]);
      UninterruptedTakesAll(step, env, AfterFile(t, raised, j, |files|), files, j + 1);
    }
  }

  /**
   * A stop during a pause abandons the file, yet `start` counts it as
   * scanned and sends its progress value before it leaves the loop.
   */
  lemma StopDuringPause(c: Config, env: Env, s: State, files: seq<string>, j: nat)
    requires j < |files|
    requires ApplyCalls(s, env.calls(j)).scanning && ApplyCalls(s, env.calls(j)).paused
    requires env.waitEnd(j) == Stopped
    ensures var (t, n) := Loop(ScanStep(c, env), env.calls, s, files, j);
      && n == 1 && !t.scanning
      && t.results == s.results.(scannedFiles := s.results.scannedFiles + 1)
      && t.progress == s.progress + [Progress(j, |files|)]
  {
    var s1 := ApplyCalls(s, env.calls(j));
    CallsKeep(s, env.calls(j));
    var s2 := AfterFile(s1.(scanning := false), false, j, |files|);
    if j + 1 < |files| {
      CallsKeep(s2, env.calls(j + 1));
    }
  }

  /**
   * `start` records how many files the walk found, counts each file it takes
   * up once, takes up all of them unless the user stops it, sends progress
   * values in order between 0 and 100, and keeps the results coherent.
   */
  lemma RunExact(c: Config, env: Env, s: State, files: seq<string>)
    ensures var t := Run(c, env, s, files);
      && t.results.totalFiles == |files|
      && s.results.scannedFiles + s.results.skippedFiles <= t.results.scannedFiles + t.results.skippedFiles
      && t.results.scannedFiles + t.results.skippedFiles <= s.results.scannedFiles + s.results.skippedFiles + |files|
      && (Uninterrupted(env, 0, |files|) ==>
            t.results.scannedFiles + t.results.skippedFiles == s.results.scannedFiles + s.results.skippedFiles + |files|)
      && |t.progress| + s.results.scannedFiles == |s.progress| + t.results.scannedFiles
      && |s.progress| <= |t.progress| && t.progress[..|s.progress|] == s.progress
      && (forall a :: |s.progress| <= a < |t.progress| ==> 0 <= t.progress[a] <= 100)
      && (forall a, b :: |s.progress| <= a < b < |t.progress| ==> t.progress[a] <= t.progress[b])
      && (Coherent(s.results) ==> Coherent(t.results))
  {
    var b := Begin(s, |files|);
    var step := ScanStep(c, env);
    ScanStepKeeps(c, env);
    LoopCounts(step, env, b, files, 0);
    LoopProgress(step, env, b, files, 0);
    if |files| > 0 {
      ProgressBounds(0, 0, |files|);
    }
    if Uninterrupted(env, 0, |files|) {
      UninterruptedTakesAll(step, env, b, files, 0);
    }
  }

  // ---------------------------------------------------------------------
  // The steps of `_scan_file`, as the scanner runs them

  /** One keyword loop of the grading: whether some keyword of `ks`, lower-cased, occurs in `text`. */
  method FindKeyword(text: string, ks: seq<string>) returns (found: bool)
    ensures found == Mentions(text, ks)
  {
    found := false;
    for i := 0 to |ks|
      invariant forall k :: 0 <= k < i ==> !Contains(text, Lower(ks[k]))
    {
      if Contains(text, Lower(ks[i])) {
        found := true;
        break;
      }
    }
  }

  /** The grading of one violation: its own severity, else high or low by keyword, else medium. */
  method Classify(ruleName: string, description: string, given: Option<string>) returns (severity: string)
    ensures severity == SeverityOf(ruleName, description, given)
  {
    if given.Some? {
      return given.value;
    }
    severity := "medium";
    var text := Lower(ruleName + " " + description);
    var high := FindKeyword(text, HighKeywords);
    if high {
      severity := "high";
    }
    if severity == "medium" {
      var low := FindKeyword(text, LowKeywords);
      if low {
        severity := "low";
      }
    }
  }

  /** The conversion loop: every raw violation in order, with its defaults filled in and graded. */
  method FormatViolations(vs: seq<RawViolation>) returns (fs: seq<Formatted>)
    ensures fs == FormatAll(vs)
  {
    fs := [];
    for i := 0 to |vs|
      invariant fs == FormatAll(vs[..i])
    {
      var v := vs[i];
      var ruleName := if v.kind.Some? then v.kind.value else "unknown";
      var message := if v.message.Some? then v.message.value else "";
      if message == "" {
        message := "违反了" + ruleName + "规则";
      }
      var lineNumber := if v.line.None? || v.line.value == -1 then Unknown else Known(v.line.value);
      var severity := Classify(ruleName, message, v.severity);
      fs := fs + [Formatted(ruleName, message, lineNumber, severity)];
      assert vs[..i + 1][..i] == vs[..i];
    }
    assert vs[..|vs|] == vs;
  }

  /** The filter loop: the violations that name neither summary phrase, in order. */
  method FilterSpecial(fs: seq<Formatted>) returns (kept: seq<Formatted>)
    ensures kept == Unspecial(fs)
  {
    kept := [];
    for i := 0 to |fs|
      invariant kept == Unspecial(fs[..i])
    {
      var description := Lower(fs[i].description);
      var ruleName := Lower(fs[i].ruleName);
      if !Contains(description, "done processing") && !Contains(description, "total errors found")
        && !Contains(ruleName, "done processing") && !Contains(ruleName, "total errors found")
      {
        kept := kept + [fs[i]];
      }
      assert fs[..i + 1][..i] == fs[..i];
    }
    assert fs[..|fs|] == fs;
  }

  /** The rules lookup of `_scan_file` with its fallbacks, for a lower-cased language name. */
  method ResolveLanguageRules(table: Table, ruleset: string, rules: RuleMap, key: string) returns (r: RuleMap)
    ensures r == LanguageRulesFor(table, ruleset, rules, key)
  {
    r := GetRulesForLanguage(table, ruleset, key);
    if r == map[] {
      r := LanguageRules(rules, key);
    }
    if r != map[] {
      return;
    }
    if key == "c" {
      r := RulesFor(table, ruleset, rules, "cpp");
    } else if key == "typescript" {
      r := RulesFor(table, ruleset, rules, "javascript");
    } else {
      if key in FallbackMapping {
        var langs := FallbackMapping[key];
        for i := 0 to |langs|
          invariant r == map[]
          invariant FirstRules(table, ruleset, rules, langs) == FirstRules(table, ruleset, rules, langs[i..])
        {
          assert langs[i..][1..] == langs[i + 1..];
          r := RulesFor(table, ruleset, rules, langs[i]);
          if r != map[] {
            break;
          }
        }
      }
      if r == map[] {
        var indent, length := 4, 100;
        if ruleset == "PEP8" {
          indent, length := 4, 79;
        } else if ruleset == "Airbnb" || ruleset == "Standard" {
          indent, length := 2, 100;
        } else if ruleset == "Google" {
          indent, length := 4, 80;
        }
        if key == "javascript" || key == "typescript" {
          indent := 2;
        }
        r := map["max_line_length" := Int(length), "expected_indent" := Int(indent)];
      }
    }
  }

  /** The count-by-rule-name loop: one more count for each violation's rule name. */
  method CountRuleNames(counts: multiset<string>, fs: seq<Formatted>) returns (m: multiset<string>)
    ensures m == counts + RuleNames(fs)
  {
    m := counts;
    for i := 0 to |fs|
      invariant m == counts + RuleNames(fs[..i])
    {
      assert fs[..i + 1][..i] == fs[..i];
      m := m + multiset{fs[i].ruleName};
    }
    assert fs[..|fs|] == fs;
  }

  /** The count-by-severity loop: one more count for each violation's severity. */
  method CountSeverities(counts: multiset<string>, fs: seq<Formatted>) returns (m: multiset<string>)
    ensures m == counts + Severities(fs)
  {
    m := counts;
    for i := 0 to |fs|
      invariant m == counts + Severities(fs[..i])
    {
      assert fs[..i + 1][..i] == fs[..i];
      m := m + multiset{fs[i].severity};
    }
    assert fs[..|fs|] == fs;
  }

  /** What `_scan_file` records of a parser's violations: the test violation added, formatted, filtered. */
  method Prepare(vs: seq<RawViolation>, language: string, r: Results) returns (kept: seq<Formatted>)
    ensures kept == Unspecial(FormatAll(WithTestViolation(vs, language, r)))
  {
    var all := vs;
    if |all| == 0 && ((language == "Python" && |r.violations| == 0) || r.scannedFiles % 10 == 0) {
      all := [TestViolation];
    }
    var fs := FormatViolations(all);
    kept := FilterSpecial(fs);
  }

  // ---------------------------------------------------------------------
  // The scanner object

  /**
   * `CodeScanner`: a project, a ruleset and the rules loaded for it, the
   * parser registry it asks for parsers, and the fields a scan updates.
   */
  class CodeScanner {
    const projectPath: string
    const ruleset: string
    const table: Table
    const rules: RuleMap
    const load: Loader
    const registry: Registry
    var scanning: bool
    var paused: bool
    var results: Results
    var lastScan: LastScan
    var progress: seq<int>

    function Cfg(): Config
    {
      Config(ruleset, table, rules, load)
    }

    function Snapshot(): State
      reads this
    {
      State(scanning, paused, results, lastScan, progress)
    }

    ghost predicate Valid()
      reads this, registry
    {
      registry.Valid() && registry.Consistent(load)
    }

    /** A scanner that is not scanning, with empty results and the rules of its ruleset. */
    constructor (projectPath: string, ruleset: string, table: Table, registry: Registry, load: Loader)
      requires registry.Valid() && registry.Consistent(load)
      ensures Valid()
      ensures this.projectPath == projectPath && this.ruleset == ruleset && this.table == table
      ensures this.registry == registry && this.load == load
      ensures rules == RulesForRuleset(table, ruleset)
      ensures Snapshot() == State(false, false, NoResults, InitialLastScan, [])
    {
      var loaded := GetRulesForRuleset(table, ruleset);
      this.projectPath := projectPath;
      this.ruleset := ruleset;
      this.table := table;
      this.rules := loaded;
      this.registry := registry;
      this.load := load;
      scanning := false;
      paused := false;
      results := NoResults;
      lastScan := InitialLastScan;
      progress := [];
    }

    /** `stop`. */
    method Stop()
      modifies this
      ensures Snapshot() == ApplyCall(old(Snapshot()), StopCall)
    {
      scanning := false;
    }

    /** `pause_scan`: pauses a running scan, and says whether it did. */
    method PauseScan() returns (ok: bool)
      modifies this
      ensures Snapshot() == ApplyCall(old(Snapshot()), PauseCall)
      ensures ok == (old(scanning) && !old(paused))
    {
      ok := false;
      if scanning && !paused {
        paused := true;
        ok := true;
      }
    }

    /** `resume_scan`: resumes a paused scan, and says whether it did. */
    method ResumeScan() returns (ok: bool)
      modifies this
      ensures Snapshot() == ApplyCall(old(Snapshot()), ResumeCall)
      ensures ok == (old(scanning) && old(paused))
    {
      ok := false;
      if scanning && paused {
        paused := false;
        ok := true;
      }
    }

    /** The window's calls that arrive before the next file is taken up, in order. */
    method Receive(cs: seq<UiCall>)
      modifies this
      ensures Snapshot() == ApplyCalls(old(Snapshot()), cs)
    {
      for i := 0 to |cs|
        invariant Snapshot() == ApplyCalls(old(Snapshot()), cs[..i])
      {
        assert cs[..i + 1][..i] == cs[..i];
        match cs[i]
        case StopCall => Stop();
        case PauseCall => var _ := PauseScan();
        case ResumeCall => var _ := ResumeScan();
      }
      assert cs[..|cs|] == cs;
    }

    /** The statistics of `_scan_file`: by rule name, by file, by severity, and the details. */
    method Tally(path: string, fs: seq<Formatted>)
      modifies this
      ensures results == Aggregate(old(results), path, fs)
      ensures scanning == old(scanning) && paused == old(paused)
      ensures lastScan == old(lastScan) && progress == old(progress)
    {
      var violations := CountRuleNames(results.violations, fs);
      var bySeverity := CountSeverities(results.bySeverity, fs);
      var r := results.(violations := violations, byFile := results.byFile[path := |fs|], bySeverity := bySeverity);
      if |fs| > 0 {
        r := r.(details := r.details[path := fs]);
      }
      results := r;
    }

    /** The end of `_scan_file` for a file that did not raise: the current file and a copy of the counters. */
    method Record(path: string)
      modifies this
      ensures Snapshot() == Recorded(old(Snapshot()), path, old(results))
    {
      lastScan := LastScan(Some(path), lastScan.progress, results.scannedFiles,
                           Some(Counters(results.totalFiles, results.scannedFiles, results.skippedFiles, results.totalLines)));
    }

    /** `_scan_file(path)` taken up as file `j`; `raised` when it ends in an exception. */
    method ScanFile(path: string, env: Env, j: nat) returns (raised: bool)
      requires Valid()
      modifies this, registry
      ensures Valid()
      ensures (Snapshot(), raised) == FileScan(Cfg(), env, old(Snapshot()), j, path)
    {
      raised := false;
      if paused && scanning {
        if env.waitEnd(j) == Stopped {
          scanning := false;
          return;
        }
        paused := false;
      }
      raised := CheckFile(path, env);
    }

    /** `_scan_file` after the pause: the language, its rules and its parser. */
    method CheckFile(path: string, env: Env) returns (raised: bool)
      requires Valid()
      modifies this, registry
      ensures Valid()
      ensures (Snapshot(), raised) == Examined(Cfg(), env, old(Snapshot()), path)
    {
      raised := false;
      var ext := Lower(Extension(path));
      if ext !in FileExtensions {
        return;
      }
      var language := FileExtensions[ext];
      assert LanguageOf(path) == Some(language);
      results := results.(languages := results.languages + multiset{language});
      var languageRules := ResolveLanguageRules(table, ruleset, rules, Lower(language));
      ghost var counted := Snapshot();
      var parser, loadRaised := registry.GetParserForFile(path, ruleset, load);
      ghost var lookup := ParserFor(path, load);
      assert Examined(Cfg(), env, old(Snapshot()), path) == Dispatched(Cfg(), env, counted, path, language, lookup);
      if loadRaised {
        return true;
      }
      if parser == null {
        Record(path);
      } else {
        var req := ScanRequest(parser.cls, parser.ruleset, if languageRules != map[] then Some(languageRules) else None, path);
        assert req == RequestFor(Cfg(), parser.cls, languageRules, path);
        raised := RunParser(path, env, language, req);
      }
    }

    /** `_scan_file` once it has a parser: the line count, the parser's check, and the statistics. */
    method RunParser(path: string, env: Env, language: string, req: ScanRequest) returns (raised: bool)
      modifies this
      ensures (Snapshot(), raised) == Parsed(env, old(Snapshot()), path, language, req, old(results))
    {
      raised := false;
      var lines := env.lineCount(path);
      if lines.Some? {
        results := results.(linesByFile := results.linesByFile[path := lines.value], totalLines := results.totalLines + lines.value);
      } else {
        results := results.(linesByFile := results.linesByFile[path := 0]);
      }
      ghost var counted := results;
      assert counted == Counted(old(results), path, env.lineCount(path));
      var outcome := env.scan(req);
      if outcome.ScanRaised? {
        assert Snapshot() == old(Snapshot()).(results := counted);
        return true;
      }
      var kept := Prepare(if outcome.Reported? then outcome.vs else [], language, results);
      Tally(path, kept);
      assert Snapshot() == old(Snapshot()).(results := Aggregate(counted, path, kept));
      Record(path);
    }

    /** One turn of the loop of `start`: the user's calls, then file `i` unless the scan was stopped. */
    method Turn(files: seq<string>, i: nat, env: Env) returns (stopped: bool)
      requires i < |files| && Valid()
      modifies this, registry
      ensures Valid()
      ensures Loop(ScanStep(Cfg(), env), env.calls, old(Snapshot()), files, i).0 ==
              if stopped then Snapshot() else Loop(ScanStep(Cfg(), env), env.calls, Snapshot(), files, i + 1).0
    {
      LoopStep(ScanStep(Cfg(), env), env.calls, Snapshot(), files, i);
      Receive(env.calls(i));
      if !scanning {
        return true;
      }
      ghost var s1 := Snapshot();
      var raised := ScanFile(files[i], env, i);
      assert (Snapshot(), raised) == ScanStep(Cfg(), env)(s1, i, files[i]);
      Account(raised, i, |files|);
      stopped := false;
    }

    /** The bookkeeping of `start` after file `i` of `n`: skipped when it raised, else scanned with a progress value. */
    method Account(raised: bool, i: nat, n: nat)
      requires i < n
      modifies this
      ensures Snapshot() == AfterFile(old(Snapshot()), raised, i, n)
    {
      if raised {
        results := results.(skippedFiles := results.skippedFiles + 1);
      } else {
        results := results.(scannedFiles := results.scannedFiles + 1);
        progress := progress + [Progress(i, n)];
      }
    }

    /** `start`: walks the project, then takes up its files one by one until they run out or the user stops. */
    method Start(tree: Dir, env: Env)
      requires Valid()
      modifies this, registry
      ensures Valid()
      ensures Snapshot() == Run(Cfg(), env, old(Snapshot()), Walk(projectPath, tree))
    {
      scanning := true;
      var files := Walk(projectPath, tree);
      results := results.(totalFiles := |files|);
      assert Snapshot() == Begin(old(Snapshot()), |files|);
      var i := 0;
      while i < |files|
        invariant i <= |files| && Valid()
        invariant Loop(ScanStep(Cfg(), env), env.calls, Snapshot(), files, i).0 == Run(Cfg(), env, old(Snapshot()), files)
        decreases |files| - i
      {
        var stopped := Turn(files, i, env);
        if stopped {
          break;
        }
        i := i + 1;
      }
    }
  }
}
