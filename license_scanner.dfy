/**
 * The open-source licence scanner: it looks for licence texts near the head of
 * every text file under a directory and sums up what it found by licence and
 * by risk level.
 */
module LicenseScanner {
  import opened Text
  import opened Files

  /** A byte as a file read in binary mode yields it. */
  type Byte = b: int | 0 <= b < 256

  /** `re.compile(pattern, re.IGNORECASE).search(text)`: does the pattern match somewhere in the text? */
  type Search = (string, string) -> bool

  /** `re.compile(pattern, re.IGNORECASE)` succeeds. */
  type Compiles = string -> bool

  /** One entry of the `license_patterns` list of a rules file. */
  datatype LicenseInfo = LicenseInfo(name: string, patterns: seq<string>, riskLevel: string)

  /** The rules used when there is no rules file. */
  const DefaultLicenses: seq<LicenseInfo> := [
    LicenseInfo("MIT", [@"MIT\s+License", @"Permission\s+is\s+hereby\s+granted,\s+free\s+of\s+charge"], "low"),
    LicenseInfo("Apache-2.0", [@"Apache\s+License\s+v?2(\.0)?", @"Apache-2\.0"], "low"),
    LicenseInfo("GPL-3.0", [@"GNU\s+General\s+Public\s+License\s+v?3(\.0)?", @"GPL\s+v?3(\.0)?"], "high")
  ]

  /**
   * `LICENSE_PATTERNS`: licence names with their patterns, in the insertion
   * order of the dictionary.
   */
  type Table = seq<(string, seq<string>)>

  /** `RISK_LEVELS`: the licence names of each level, in the order they were added. */
  datatype Risks = Risks(high: seq<string>, medium: seq<string>, low: seq<string>)

  const NoRisks := Risks([], [], [])

  /** The rules used when the rules cannot be loaded. */
  const FallbackTable: Table := [
    ("GPL-2.0", [@"GNU\s+General\s+Public\s+License\s+v?2(\.0)?"]),
    ("MIT", [@"MIT\s+License"]),
    ("Apache-2.0", [@"Apache\s+License\s+v?2(\.0)?"])
  ]
  const FallbackRisks := Risks(["GPL-2.0"], [], ["MIT", "Apache-2.0"])

  predicate HasName(t: Table, n: string)
  {
    exists i :: 0 <= i < |t| && t[i].0 == n
  }

  ghost predicate DistinctNames(t: Table)
  {
    forall i, j :: 0 <= i < j < |t| ==> t[i].0 != t[j].0
  }

  ghost predicate Distinct(s: seq<string>)
  {
    forall i, j :: 0 <= i < j < |s| ==> s[i] != s[j]
  }

  /** `LICENSE_PATTERNS.get(n)`. */
  function Lookup(t: Table, n: string): Option<seq<string>>
  {
    if |t| == 0 then None else if t[0].0 == n then Some(t[0].1) else Lookup(t[1..], n)
  }

  /**
   * `LICENSE_PATTERNS[name] = ps`: a name already present keeps its place and
   * gets the new patterns; a new name goes at the end.
   */
  function Put(t: Table, name: string, ps: seq<string>): Table
  {
    if |t| == 0 then [(name, ps)]
    else if t[0].0 == name then [(name, ps)] + t[1..]
    else [t[0]] + Put(t[1..], name, ps)
  }

  /** A name is present in a table exactly when it is the first entry's or the rest's. */
  lemma HasNameCons(t: Table, n: string)
    requires |t| > 0
    ensures HasName(t, n) <==> t[0].0 == n || HasName(t[1..], n)
  {
    if HasName(t, n) && t[0].0 != n {
      var i :| 0 <= i < |t| && t[i].0 == n;
      assert t[1..][i - 1].0 == n;
    }
    if HasName(t[1..], n) {
      var i :| 0 <= i < |t[1..]| && t[1..][i].0 == n;
      assert t[i + 1].0 == n;
    }
  }

  /**
   * `Put` is a dictionary assignment: the names keep their places, the name is
   * then present, and it goes at the end when it is new.
   */
  lemma {:induction false} PutNames(t: Table, name: string, ps: seq<string>)
    ensures forall n :: HasName(Put(t, name, ps), n) <==> HasName(t, n) || n == name
    ensures |Put(t, name, ps)| == if HasName(t, name) then |t| else |t| + 1
    ensures forall i :: 0 <= i < |t| ==> Put(t, name, ps)[i].0 == t[i].0
  {
    var r := Put(t, name, ps);
    if |t| == 0 {
      assert r[0].0 == name;
    } else if t[0].0 == name {
      assert r[1..] == t[1..];
      forall n ensures HasName(r, n) <==> HasName(t, n) || n == name {
        HasNameCons(t, n);
        HasNameCons(r, n);
      }
      assert HasName(t, name) by { assert t[0].0 == name; }
    } else {
      var rest := Put(t[1..], name, ps);
      PutNames(t[1..], name, ps);
      assert r[1..] == rest;
      forall n ensures HasName(r, n) <==> HasName(t, n) || n == name {
        HasNameCons(t, n);
        HasNameCons(r, n);
      }
      HasNameCons(t, name);
      forall i | 0 <= i < |t| ensures r[i].0 == t[i].0 {
        if i > 0 {
          assert r[i] == rest[i - 1] && t[i] == t[1..][i - 1];
        }
      }
    }
  }

  /** After `Put` the name has the new patterns and every other name keeps its own. */
  lemma {:induction false} PutLookup(t: Table, name: string, ps: seq<string>)
    ensures Lookup(Put(t, name, ps), name) == Some(ps)
    ensures forall n :: n != name ==> Lookup(Put(t, name, ps), n) == Lookup(t, n)
  {
    if |t| > 0 && t[0].0 != name {
      PutLookup(t[1..], name, ps);
      assert Put(t, name, ps)[1..] == Put(t[1..], name, ps);
    }
  }

  /** `Put` never lists a name twice. */
  lemma {:induction false} PutDistinct(t: Table, name: string, ps: seq<string>)
    requires DistinctNames(t)
    ensures DistinctNames(Put(t, name, ps))
  {
    var r := Put(t, name, ps);
    if |t| > 0 && t[0].0 == name {
      forall i, j | 0 <= i < j < |r| ensures r[i].0 != r[j].0 {
        assert t[i].0 != t[j].0;
      }
    } else if |t| > 0 {
      var rest := Put(t[1..], name, ps);
      assert DistinctNames(t[1..]);
      PutNames(t[1..], name, ps);
      HasNameCons(t, t[0].0);
      assert !HasName(t[1..], t[0].0);
      assert !HasName(rest, t[0].0);
      forall i, j | 0 <= i < j < |r|
        ensures r[i].0 != r[j].0
      {
        if i == 0 {
          assert HasName(rest, r[j].0) by { assert rest[j - 1].0 == r[j].0; }
        } else {
          assert r[i] == rest[i - 1] && r[j] == rest[j - 1];
        }
      }
    }
  }

  /** Adds a licence name to its level; a level other than high, medium and low is ignored. */
  function AddRisk(r: Risks, level: string, name: string): Risks
  {
    if level == "high" then r.(high := r.high + [name])
    else if level == "medium" then r.(medium := r.medium + [name])
    else if level == "low" then r.(low := r.low + [name])
    else r
  }

  /** The names listed under one of the three levels. */
  function Bucket(r: Risks, level: string): seq<string>
  {
    if level == "high" then r.high else if level == "medium" then r.medium else if level == "low" then r.low else []
  }

  /** The table and the levels built from a list of licence entries, in order. */
  function Built(infos: seq<LicenseInfo>): (Table, Risks)
  {
    if |infos| == 0 then ([], NoRisks)
    else
      var prev := Built(infos[..|infos| - 1]);
      var info := infos[|infos| - 1];
      (Put(prev.0, info.name, info.patterns), AddRisk(prev.1, info.riskLevel, info.name))
  }

  /** Every pattern of every entry compiles. */
  predicate AllCompile(infos: seq<LicenseInfo>, compiles: Compiles)
  {
    forall i, k :: 0 <= i < |infos| && 0 <= k < |infos[i].patterns| ==> compiles(infos[i].patterns[k])
  }

  /**
   * The rules file as it is found: absent, a readable list of entries, or
   * something that raises while it is read (unreadable, not JSON, an entry
   * without `name`, `patterns` or `risk_level`).
   */
  datatype RulesFile = Absent | Entries(infos: seq<LicenseInfo>) | Broken

  /** `load_license_rules`: any exception falls back to the hard-coded rules. */
  function LoadedRules(file: RulesFile, compiles: Compiles): (Table, Risks)
  {
    var infos := if file.Entries? then file.infos else DefaultLicenses;
    if file.Broken? || !AllCompile(infos, compiles) then (FallbackTable, FallbackRisks) else Built(infos)
  }

  /** The table never lists a name twice. */
  lemma {:induction false} BuiltDistinct(infos: seq<LicenseInfo>)
    ensures DistinctNames(Built(infos).0)
  {
    if |infos| > 0 {
      var init := infos[..|infos| - 1];
      var last := infos[|infos| - 1];
      BuiltDistinct(init);
      PutDistinct(Built(init).0, last.name, last.patterns);
    }
  }

  /** The table lists a name exactly when some entry has it. */
  lemma {:induction false} BuiltNames(infos: seq<LicenseInfo>, n: string)
    ensures HasName(Built(infos).0, n) <==> exists i :: 0 <= i < |infos| && infos[i].name == n
  {
    if |infos| > 0 {
      var init := infos[..|infos| - 1];
      var last := infos[|infos| - 1];
      BuiltNames(init, n);
      PutNames(Built(init).0, last.name, last.patterns);
      if HasName(Built(init).0, n) {
        var i :| 0 <= i < |init| && init[i].name == n;
        assert infos[i].name == n;
      }
      if exists i :: 0 <= i < |infos| && infos[i].name == n {
        var i :| 0 <= i < |infos| && infos[i].name == n;
        if i < |init| {
          assert init[i].name == n;
        }
      }
    }
  }

  /** A name's patterns are those of its last entry. */
  lemma {:induction false} BuiltLookup(infos: seq<LicenseInfo>, i: nat)
    requires i < |infos| && forall j :: i < j < |infos| ==> infos[j].name != infos[i].name
    ensures Lookup(Built(infos).0, infos[i].name) == Some(infos[i].patterns)
  {
    var init := infos[..|infos| - 1];
    var last := infos[|infos| - 1];
    PutLookup(Built(init).0, last.name, last.patterns);
    if i < |init| {
      assert init[i] == infos[i];
      forall j | i < j < |init| ensures init[j].name != init[i].name {
        assert init[j] == infos[j];
      }
      BuiltLookup(init, i);
    }
  }

  /**
   * The table lists each name of the entries exactly once, and a name's
   * patterns are those of its last entry.
   */
  lemma BuiltTable(infos: seq<LicenseInfo>)
    ensures DistinctNames(Built(infos).0)
    ensures forall n :: HasName(Built(infos).0, n) <==> exists i :: 0 <= i < |infos| && infos[i].name == n
    ensures forall i :: 0 <= i < |infos| && (forall j :: i < j < |infos| ==> infos[j].name != infos[i].name) ==>
              Lookup(Built(infos).0, infos[i].name) == Some(infos[i].patterns)
  {
    BuiltDistinct(infos);
    forall n
      ensures HasName(Built(infos).0, n) <==> exists i :: 0 <= i < |infos| && infos[i].name == n
    {
      BuiltNames(infos, n);
    }
    forall i | 0 <= i < |infos| && (forall j :: i < j < |infos| ==> infos[j].name != infos[i].name)
      ensures Lookup(Built(infos).0, infos[i].name) == Some(infos[i].patterns)
    {
      BuiltLookup(infos, i);
    }
  }

  /** A name is listed under a level exactly when one of its entries has that level. */
  lemma {:induction false} BuiltRisks(infos: seq<LicenseInfo>, level: string, n: string)
    requires level == "high" || level == "medium" || level == "low"
    ensures n in Bucket(Built(infos).1, level) <==> exists i :: 0 <= i < |infos| && infos[i].name == n && infos[i].riskLevel == level
  {
    if |infos| > 0 {
      var init := infos[..|infos| - 1];
      BuiltRisks(init, level, n);
      if exists i :: 0 <= i < |init| && init[i].name == n && init[i].riskLevel == level {
        var i :| 0 <= i < |init| && init[i].name == n && init[i].riskLevel == level;
        assert infos[i] == init[i];
      }
      if exists i :: 0 <= i < |infos| && infos[i].name == n && infos[i].riskLevel == level {
        var i :| 0 <= i < |infos| && infos[i].name == n && infos[i].riskLevel == level;
        if i < |init| {
          assert init[i] == infos[i];
        }
      }
    }
  }

  /** Whatever the rules file holds, the table lists each licence name once. */
  lemma LoadedDistinct(file: RulesFile, compiles: Compiles)
    ensures DistinctNames(LoadedRules(file, compiles).0)
  {
    var infos := if file.Entries? then file.infos else DefaultLicenses;
    BuiltTable(infos);
    assert "GPL-2.0" != "MIT" && "GPL-2.0" != "Apache-2.0" && "MIT" != "Apache-2.0" by {
      assert "GPL-2.0"[0] != "MIT"[0] && "GPL-2.0"[0] != "Apache-2.0"[0] && "MIT"[0] != "Apache-2.0"[0];
    }
  }

  /**
   * `_get_license_risk`: the first of high, medium and low that lists the
   * name, and low for a name no level lists.
   */
  function RiskOf(r: Risks, n: string): string
  {
    if n in r.high then "high" else if n in r.medium then "medium" else "low"
  }

  /**
   * The level the scanner reports for a licence is the level of its entry, and
   * low when that level is not one of high, medium and low.
   */
  lemma RiskOfEntry(infos: seq<LicenseInfo>, i: nat)
    requires i < |infos|
    requires forall j :: 0 <= j < |infos| && j != i ==> infos[j].name != infos[i].name
    ensures RiskOf(Built(infos).1, infos[i].name) ==
            if infos[i].riskLevel == "high" || infos[i].riskLevel == "medium" then infos[i].riskLevel else "low"
  {
    var n := infos[i].name;
    BuiltRisks(infos, "high", n);
    BuiltRisks(infos, "medium", n);
  }

  /** The first 1000 characters of a file, where licence texts are looked for. */
  function Preview(content: string): string
  {
    if |content| <= 1000 then content else content[..1000]
  }

  predicate AnyMatch(ps: seq<string>, search: Search, text: string)
  {
    exists k :: 0 <= k < |ps| && search(ps[k], text)
  }

  /** The names of the licences one of whose patterns matches the text, in table order. */
  function Matching(t: Table, search: Search, text: string): seq<string>
  {
    if |t| == 0 then []
    else Matching(t[..|t| - 1], search, text) + (if AnyMatch(t[|t| - 1].1, search, text) then [t[|t| - 1].0] else [])
  }

  /** `scan_file`: a file that cannot be read has no licences. */
  function Detected(t: Table, search: Search, content: Option<string>): seq<string>
  {
    match content
    case None => []
    case Some(c) => Matching(t, search, Preview(c))
  }

  /**
   * A licence is detected exactly when one of its patterns matches the
   * preview, and no licence is detected twice.
   */
  lemma {:induction false} MatchingExact(t: Table, search: Search, text: string)
    ensures forall n :: n in Matching(t, search, text) <==> exists i :: 0 <= i < |t| && t[i].0 == n && AnyMatch(t[i].1, search, text)
    ensures DistinctNames(t) ==> Distinct(Matching(t, search, text))
  {
    if |t| > 0 {
      var init := t[..|t| - 1];
      MatchingExact(init, search, text);
      var m := Matching(init, search, text);
      var r := Matching(t, search, text);
      forall n
        ensures n in r <==> exists i :: 0 <= i < |t| && t[i].0 == n && AnyMatch(t[i].1, search, text)
      {
        if n in m {
          var i :| 0 <= i < |init| && init[i].0 == n && AnyMatch(init[i].1, search, text);
          assert t[i] == init[i];
        }
        if exists i :: 0 <= i < |t| && t[i].0 == n && AnyMatch(t[i].1, search, text) {
          var i :| 0 <= i < |t| && t[i].0 == n && AnyMatch(t[i].1, search, text);
          if i < |init| {
            assert init[i] == t[i];
          }
        }
      }
      if DistinctNames(t) {
        assert DistinctNames(init);
        forall a, b | 0 <= a < b < |r|
          ensures r[a] != r[b]
        {
          if b == |m| {
            assert r[a] in m;
            var i :| 0 <= i < |init| && init[i].0 == r[a] && AnyMatch(init[i].1, search, text);
            assert t[i] == init[i];
          }
        }
      }
    }
  }

  /** A licence is found in a file exactly when one of its patterns matches the file's first 1000 characters. */
  lemma DetectedExact(t: Table, search: Search, c: string, n: string)
    ensures n in Detected(t, search, Some(c)) <==>
            exists i :: 0 <= i < |t| && t[i].0 == n && AnyMatch(t[i].1, search, if |c| <= 1000 then c else c[..1000])
  {
    MatchingExact(t, search, Preview(c));
  }

  /** The head of a file that `_is_text_file` looks at: its first 2048 bytes. */
  function Chunk(data: seq<Byte>): seq<Byte>
  {
    if |data| <= 2048 then data else data[..2048]
  }

  /** The bytes of `text_chars`: BEL, BS, TAB, LF, FF, CR, ESC and 0x20 to 0xFF other than DEL. */
  predicate TextByte(b: Byte)
  {
    b == 7 || b == 8 || b == 9 || b == 10 || b == 12 || b == 13 || b == 27 || (0x20 <= b && b != 0x7f)
  }

  /** The number of bytes of a chunk that are not text bytes. */
  function NonText(chunk: seq<Byte>): (n: nat)
    ensures n <= |chunk|
    ensures n == 0 <==> forall i :: 0 <= i < |chunk| ==> TextByte(chunk[i])
  {
    if |chunk| == 0 then 0
    else
      var init := chunk[..|chunk| - 1];
      assert forall i :: 0 <= i < |init| ==> init[i] == chunk[i];
      NonText(init) + (if TextByte(chunk[|chunk| - 1]) then 0 else 1)
  }

  /**
   * `_is_text_file`: a file that cannot be opened, whose head holds a NUL
   * byte, or that is empty (the division by zero is caught) is not text;
   * otherwise it is text when fewer than 30% of the head's bytes are not text
   * bytes.
   */
  predicate IsText(data: Option<seq<Byte>>)
  {
    data.Some? && 0 !in Chunk(data.value) && |Chunk(data.value)| > 0 &&
    10 * NonText(Chunk(data.value)) < 3 * |Chunk(data.value)|
  }

  /** A head made of text bytes only is text; a head with a NUL byte is not; only the head counts. */
  lemma TextHeads(data: seq<Byte>)
    ensures 0 in Chunk(data) ==> !IsText(Some(data))
    ensures |data| > 0 && (forall i :: 0 <= i < |Chunk(data)| ==> TextByte(Chunk(data)[i])) ==> IsText(Some(data))
    ensures |data| > 2048 ==> IsText(Some(data)) == IsText(Some(data[..2048]))
  {
  }

  /** `_is_text_file`, counting the non-text bytes of the head. */
  method IsTextFile(data: Option<seq<Byte>>) returns (text: bool)
    ensures text == IsText(data)
  {
    if data.None? {
      return false;
    }
    var chunk := if |data.value| <= 2048 then data.value else data.value[..2048];
    if 0 in chunk {
      return false;
    }
    var nonText := 0;
    for i := 0 to |chunk|
      invariant nonText == NonText(chunk[..i])
    {
      assert chunk[..i + 1][..i] == chunk[..i];
      if !TextByte(chunk[i]) {
        nonText := nonText + 1;
      }
    }
    assert chunk[..|chunk|] == chunk;
    if |chunk| == 0 {
      return false;
    }
    text := 10 * nonText < 3 * |chunk|;
  }

  /**
   * Builds the table and the levels from the entries, entry by entry; `ok` is
   * false when a pattern does not compile.
   */
  method CompileRules(infos: seq<LicenseInfo>, compiles: Compiles) returns (ok: bool, t: Table, r: Risks)
    ensures ok == AllCompile(infos, compiles)
    ensures ok ==> (t, r) == Built(infos)
  {
    t, r := [], NoRisks;
    for i := 0 to |infos|
      invariant AllCompile(infos[..i], compiles)
      invariant (t, r) == Built(infos[..i])
    {
      var info := infos[i];
      if exists k :: 0 <= k < |info.patterns| && !compiles(info.patterns[k]) {
        return false, t, r;
      }
      assert infos[..i + 1][..i] == infos[..i];
      t := Put(t, info.name, info.patterns);
      r := AddRisk(r, info.riskLevel, info.name);
    }
    assert infos[..|infos|] == infos;
    ok := true;
  }

  /** `results['risk_summary']`. */
  datatype RiskCounts = RiskCounts(high: nat, medium: nat, low: nat)

  /** `results`: the licences of each file, the files per licence, the licences per level, the high-risk files. */
  datatype Survey = Survey(byFile: map<string, seq<string>>, summary: map<string, nat>, risk: RiskCounts,
                           highRiskFiles: seq<(string, seq<string>)>)

  const NoSurvey := Survey(map[], map[], RiskCounts(0, 0, 0), [])

  /** `summary.get(n, 0)`. */
  function Count(m: map<string, nat>, n: string): nat
  {
    if n in m then m[n] else 0
  }

  /** The summary after one more file with these licences. */
  function Tallied(m: map<string, nat>, licenses: seq<string>): map<string, nat>
  {
    if |licenses| == 0 then m
    else
      var prev := Tallied(m, licenses[..|licenses| - 1]);
      var n := licenses[|licenses| - 1];
      prev[n := Count(prev, n) + 1]
  }

  function Bumped(rc: RiskCounts, level: string): RiskCounts
  {
    if level == "high" then rc.(high := rc.high + 1)
    else if level == "medium" then rc.(medium := rc.medium + 1)
    else rc.(low := rc.low + 1)
  }

  /** The level counts after one more file with these licences. */
  function RiskTallied(rc: RiskCounts, r: Risks, licenses: seq<string>): RiskCounts
  {
    if |licenses| == 0 then rc
    else Bumped(RiskTallied(rc, r, licenses[..|licenses| - 1]), RiskOf(r, licenses[|licenses| - 1]))
  }

  /** One of the licences is listed as high risk. */
  predicate HasHigh(r: Risks, licenses: seq<string>)
  {
    exists i :: 0 <= i < |licenses| && licenses[i] in r.high
  }

  /** The survey after a file with these licences; a file without licences changes nothing. */
  function Noted(sv: Survey, r: Risks, path: string, licenses: seq<string>): Survey
  {
    if |licenses| == 0 then sv
    else Survey(sv.byFile[path := licenses], Tallied(sv.summary, licenses), RiskTallied(sv.risk, r, licenses),
                if HasHigh(r, licenses) then sv.highRiskFiles + [(path, licenses)] else sv.highRiskFiles)
  }

  /** The files under a directory as `os.walk` visits them, each as its name and its path. */
  function Walk(root: string, d: Dir): seq<(string, string)>
    decreases d
  {
    seq(|d.files|, i requires 0 <= i < |d.files| => (d.files[i], JoinPath(root, d.files[i]))) + WalkSubs(root, d.subdirs)
  }

  function WalkSubs(root: string, subs: seq<Sub>): seq<(string, string)>
    decreases subs
  {
    if |subs| == 0 then [] else Visit(root, subs[0]) + WalkSubs(root, subs[1..])
  }

  function Visit(root: string, sub: Sub): seq<(string, string)>
    decreases sub
  {
    Walk(JoinPath(root, sub.name), sub.dir)
  }

  /** What the scanner can read of a file: its bytes and its text, `None` when it cannot be opened. */
  datatype Disk = Disk(bytes: string -> Option<seq<Byte>>, text: string -> Option<string>)

  /** What is found in a file, given its name and its path. */
  type Finder = (string, string) -> seq<string>

  /** The licences found in a file: none for a hidden file or one that is not text. */
  function Found(t: Table, search: Search, disk: Disk, name: string, path: string): seq<string>
  {
    if StartsWith(name, ".") || !IsText(disk.bytes(path)) then [] else Detected(t, search, disk.text(path))
  }

  function Finds(t: Table, search: Search, disk: Disk): Finder
  {
    (name: string, path: string) => Found(t, search, disk, name, path)
  }

  /** `scan_directory` over a list of files, starting from the reset results. */
  function Surveyed(r: Risks, find: Finder, es: seq<(string, string)>): Survey
  {
    if |es| == 0 then NoSurvey
    else
      var e := es[|es| - 1];
      Noted(Surveyed(r, find, es[..|es| - 1]), r, e.1, find(e.0, e.1))
  }

  ghost predicate FindsDistinct(find: Finder)
  {
    forall name, path :: Distinct(find(name, path))
  }

  /** With a table that lists each licence once, no file lists a licence twice. */
  lemma FoundDistinct(t: Table, search: Search, disk: Disk)
    requires DistinctNames(t)
    ensures FindsDistinct(Finds(t, search, disk))
  {
    forall name, path
      ensures Distinct(Finds(t, search, disk)(name, path))
    {
      if disk.text(path).Some? {
        MatchingExact(t, search, Preview(disk.text(path).value));
      }
    }
  }

  /** The number of files among the list in which the licence was found. */
  ghost function FilesWith(find: Finder, es: seq<(string, string)>, n: string): nat
  {
    |set e | e in es && n in find(e.0, e.1)|
  }

  /** No file is listed twice, as in a walk of a directory tree. */
  ghost predicate Once(es: seq<(string, string)>)
  {
    forall i, j :: 0 <= i < j < |es| ==> es[i] != es[j]
  }

  /** The total number of licence findings over the list. */
  function Findings(find: Finder, es: seq<(string, string)>): nat
  {
    if |es| == 0 then 0 else Findings(find, es[..|es| - 1]) + |find(es[|es| - 1].0, es[|es| - 1].1)|
  }

  /** A licence's summary grows by one for a file that lists it once. */
  lemma {:induction false} TalliedCount(m: map<string, nat>, licenses: seq<string>, n: string)
    requires Distinct(licenses)
    ensures Count(Tallied(m, licenses), n) == Count(m, n) + (if n in licenses then 1 else 0)
  {
    if |licenses| > 0 {
      var init := licenses[..|licenses| - 1];
      assert Distinct(init);
      TalliedCount(m, init, n);
      assert licenses == init + [licenses[|licenses| - 1]];
      assert licenses[|licenses| - 1] !in init;
    }
  }

  /** The level counts grow by one per licence. */
  lemma {:induction false} RiskTalliedTotal(rc: RiskCounts, r: Risks, licenses: seq<string>)
    ensures var rc' := RiskTallied(rc, r, licenses); rc'.high + rc'.medium + rc'.low == rc.high + rc.medium + rc.low + |licenses|
  {
    if |licenses| > 0 {
      RiskTalliedTotal(rc, r, licenses[..|licenses| - 1]);
    }
  }

  /** The files in the survey are exactly the listed files in which some licence was found. */
  lemma {:induction false} SurveyedFiles(r: Risks, find: Finder, es: seq<(string, string)>, p: string)
    ensures p in Surveyed(r, find, es).byFile <==> exists i :: 0 <= i < |es| && es[i].1 == p && |find(es[i].0, es[i].1)| > 0
  {
    if |es| > 0 {
      var init := es[..|es| - 1];
      SurveyedFiles(r, find, init, p);
      if exists i :: 0 <= i < |init| && init[i].1 == p && |find(init[i].0, init[i].1)| > 0 {
        var i :| 0 <= i < |init| && init[i].1 == p && |find(init[i].0, init[i].1)| > 0;
        assert es[i] == init[i];
      }
      if exists i :: 0 <= i < |es| && es[i].1 == p && |find(es[i].0, es[i].1)| > 0 {
        var i :| 0 <= i < |es| && es[i].1 == p && |find(es[i].0, es[i].1)| > 0;
        if i < |init| {
          assert init[i] == es[i];
        }
      }
    }
  }

  /** The high-risk files are exactly the listed files with a high-risk licence, with their licences. */
  lemma {:induction false} SurveyedHighRisk(r: Risks, find: Finder, es: seq<(string, string)>, p: string, ls: seq<string>)
    ensures (p, ls) in Surveyed(r, find, es).highRiskFiles <==>
            exists i :: 0 <= i < |es| && es[i].1 == p && ls == find(es[i].0, es[i].1) && HasHigh(r, ls)
  {
    if |es| > 0 {
      var init := es[..|es| - 1];
      SurveyedHighRisk(r, find, init, p, ls);
      if exists i :: 0 <= i < |init| && init[i].1 == p && ls == find(init[i].0, init[i].1) && HasHigh(r, ls) {
        var i :| 0 <= i < |init| && init[i].1 == p && ls == find(init[i].0, init[i].1) && HasHigh(r, ls);
        assert es[i] == init[i];
      }
      if exists i :: 0 <= i < |es| && es[i].1 == p && ls == find(es[i].0, es[i].1) && HasHigh(r, ls) {
        var i :| 0 <= i < |es| && es[i].1 == p && ls == find(es[i].0, es[i].1) && HasHigh(r, ls);
        if i < |init| {
          assert init[i] == es[i];
        }
      }
    }
  }

  /** The level counts add up to the number of licence findings. */
  lemma {:induction false} SurveyedRisk(r: Risks, find: Finder, es: seq<(string, string)>)
    ensures var rc := Surveyed(r, find, es).risk; rc.high + rc.medium + rc.low == Findings(find, es)
  {
    if |es| > 0 {
      var init := es[..|es| - 1];
      var e := es[|es| - 1];
      SurveyedRisk(r, find, init);
      RiskTalliedTotal(Surveyed(r, find, init).risk, r, find(e.0, e.1));
    }
  }

  /**
   * When no file lists a licence twice, a licence's summary is the number of
   * files in which it was found.
   */
  lemma {:induction false} SurveyedSummary(r: Risks, find: Finder, es: seq<(string, string)>, n: string)
    requires FindsDistinct(find)
    requires Once(es)
    ensures Count(Surveyed(r, find, es).summary, n) == FilesWith(find, es, n)
  {
    if |es| > 0 {
      var init := es[..|es| - 1];
      var e := es[|es| - 1];
      assert Once(init);
      assert es == init + [e];
      SurveyedSummary(r, find, init, n);
      SummaryStep(r, find, es);
      TalliedCount(Surveyed(r, find, init).summary, find(e.0, e.1), n);
      FilesWithStep(find, init, e, n);
    }
  }

  lemma SummaryStep(r: Risks, find: Finder, es: seq<(string, string)>)
    requires |es| > 0
    ensures Surveyed(r, find, es).summary ==
            Tallied(Surveyed(r, find, es[..|es| - 1]).summary, find(es[|es| - 1].0, es[|es| - 1].1))
  {
  }

  lemma FilesWithStep(find: Finder, es: seq<(string, string)>, e: (string, string), n: string)
    requires e !in es
    ensures FilesWith(find, es + [e], n) == FilesWith(find, es, n) + (if n in find(e.0, e.1) then 1 else 0)
  {
    var before := set x | x in es && n in find(x.0, x.1);
    var after := set x | x in es + [e] && n in find(x.0, x.1);
    assert after == before + (if n in find(e.0, e.1) then {e} else {});
  }

  /**
   * Whatever the rules file holds, a licence's summary after a directory scan
   * is the number of files in which it was found.
   */
  lemma ScanSummary(file: RulesFile, compiles: Compiles, search: Search, disk: Disk, es: seq<(string, string)>, n: string)
    requires Once(es)
    ensures var (t, r) := LoadedRules(file, compiles);
            Count(Surveyed(r, Finds(t, search, disk), es).summary, n) == FilesWith(Finds(t, search, disk), es, n)
  {
    var (t, r) := LoadedRules(file, compiles);
    LoadedDistinct(file, compiles);
    FoundDistinct(t, search, disk);
    SurveyedSummary(r, Finds(t, search, disk), es, n);
  }

  /**
   * Without a rules file the scanner looks for MIT, Apache-2.0 and GPL-3.0, in
   * that order, and only GPL-3.0 is high risk.
   */
  lemma DefaultRules(compiles: Compiles)
    requires AllCompile(DefaultLicenses, compiles)
    ensures var (t, r) := LoadedRules(Absent, compiles);
            |t| == 3 && t[0].0 == "MIT" && t[1].0 == "Apache-2.0" && t[2].0 == "GPL-3.0" &&
            r == Risks(["GPL-3.0"], [], ["MIT", "Apache-2.0"])
  {
    var d := DefaultLicenses;
    assert d[..0] == [] && d[..1] == [d[0]] && d[..2] == [d[0], d[1]] && d[..3] == d;
    assert "MIT"[0] == 'M' && "Apache-2.0"[0] == 'A' && "GPL-3.0"[0] == 'G';
    var e0, e1, e2 := (d[0].name, d[0].patterns), (d[1].name, d[1].patterns), (d[2].name, d[2].patterns);
    assert Built(d[..1]).0 == [e0];
    assert Put([e0], e1.0, e1.1) == [e0] + Put([], e1.0, e1.1) == [e0, e1];
    assert Built(d[..2]).0 == [e0, e1];
    assert Put([e1], e2.0, e2.1) == [e1] + Put([], e2.0, e2.1) == [e1, e2];
    assert Put([e0, e1], e2.0, e2.1) == [e0] + Put([e1], e2.0, e2.1) by { assert [e0, e1][1..] == [e1]; }
    assert Built(d).0 == [e0, e1, e2];
    assert Built(d[..1]).1 == Risks([], [], ["MIT"]);
    assert Built(d[..2]).1 == Risks([], [], ["MIT", "Apache-2.0"]);
  }

  /** The scanner: its compiled rules and the results of the last directory scan. */
  class LicenseScanner {
    var patterns: Table
    var riskLevels: Risks
    var results: Survey

    /** `__init__`: loads the rules, then starts with empty results. */
    constructor(file: RulesFile, compiles: Compiles)
      ensures (patterns, riskLevels) == LoadedRules(file, compiles)
      ensures results == NoSurvey
    {
      patterns, riskLevels, results := [], NoRisks, NoSurvey;
      new;
      LoadLicenseRules(file, compiles);
    }

    /** `load_license_rules`. */
    method LoadLicenseRules(file: RulesFile, compiles: Compiles)
      modifies this
      ensures (patterns, riskLevels) == LoadedRules(file, compiles)
      ensures results == old(results)
    {
      if file.Broken? {
        patterns, riskLevels := FallbackTable, FallbackRisks;
        return;
      }
      var infos := if file.Entries? then file.infos else DefaultLicenses;
      var ok, t, r := CompileRules(infos, compiles);
      if ok {
        patterns, riskLevels := t, r;
      } else {
        patterns, riskLevels := FallbackTable, FallbackRisks;
      }
    }

    /** `_get_license_risk`: tries high, medium and low in turn. */
    method GetLicenseRisk(name: string) returns (risk: string)
      ensures risk == RiskOf(riskLevels, name)
    {
      var levels := [("high", riskLevels.high), ("medium", riskLevels.medium), ("low", riskLevels.low)];
      for i := 0 to |levels|
        invariant i > 0 ==> name !in riskLevels.high
        invariant i > 1 ==> name !in riskLevels.medium
      {
        if name in levels[i].1 {
          return levels[i].0;
        }
      }
      return "low";
    }

    /** `scan_file`: the licences one of whose patterns matches the file's first 1000 characters. */
    method ScanFile(content: Option<string>, search: Search) returns (found: seq<string>)
      ensures found == Detected(patterns, search, content)
    {
      found := [];
      if content.None? {
        return;
      }
      var preview := if |content.value| <= 1000 then content.value else content.value[..1000];
      for i := 0 to |patterns|
        invariant found == Matching(patterns[..i], search, preview)
      {
        var ps := patterns[i].1;
        assert patterns[..i + 1][..i] == patterns[..i];
        for k := 0 to |ps|
          invariant forall j :: 0 <= j < k ==> !search(ps[j], preview)
        {
          if search(ps[k], preview) {
            found := found + [patterns[i].0];
            break;
          }
        }
      }
      assert patterns[..|patterns|] == patterns;
    }

    /** Adds one level count per licence. */
    method CountRisks(rc: RiskCounts, licenses: seq<string>) returns (counts: RiskCounts)
      ensures counts == RiskTallied(rc, riskLevels, licenses)
    {
      counts := rc;
      for i := 0 to |licenses|
        invariant counts == RiskTallied(rc, riskLevels, licenses[..i])
      {
        assert licenses[..i + 1][..i] == licenses[..i];
        var level := GetLicenseRisk(licenses[i]);
        counts := Bumped(counts, level);
      }
      assert licenses[..|licenses|] == licenses;
    }

    /** Records a file in which licences were found. */
    method Note(path: string, licenses: seq<string>)
      requires |licenses| > 0
      modifies this
      ensures results == Noted(old(results), riskLevels, path, licenses)
      ensures patterns == old(patterns) && riskLevels == old(riskLevels)
    {
      var summary := CountLicenses(results.summary, licenses);
      var risk := CountRisks(results.risk, licenses);
      var high := results.highRiskFiles;
      if exists i :: 0 <= i < |licenses| && licenses[i] in riskLevels.high {
        high := high + [(path, licenses)];
      }
      results := Survey(results.byFile[path := licenses], summary, risk, high);
    }

    /** One file of the walk: skipped when hidden or not text, noted when licences are found in it. */
    method Examine(entry: (string, string), disk: Disk, search: Search)
      modifies this
      ensures results == Noted(old(results), riskLevels, entry.1, Found(patterns, search, disk, entry.0, entry.1))
      ensures patterns == old(patterns) && riskLevels == old(riskLevels)
    {
      if StartsWith(entry.0, ".") {
        return;
      }
      var text := IsTextFile(disk.bytes(entry.1));
      if text {
        var licenses := ScanFile(disk.text(entry.1), search);
        if |licenses| > 0 {
          Note(entry.1, licenses);
        }
      }
    }

    /** `scan_directory`: resets the results, then examines every file `os.walk` yields. */
    method ScanDirectory(root: string, tree: Dir, disk: Disk, search: Search) returns (survey: Survey)
      modifies this
      ensures survey == results == Surveyed(riskLevels, Finds(patterns, search, disk), Walk(root, tree))
      ensures patterns == old(patterns) && riskLevels == old(riskLevels)
    {
      results := NoSurvey;
      var es := Walk(root, tree);
      for i := 0 to |es|
        invariant results == Surveyed(riskLevels, Finds(patterns, search, disk), es[..i])
        invariant patterns == old(patterns) && riskLevels == old(riskLevels)
      {
        assert es[..i + 1][..i] == es[..i];
        Examine(es[i], disk, search);
      }
      assert es[..|es|] == es;
      survey := results;
    }
  }

  /** Adds one to the summary of each licence. */
  method CountLicenses(m: map<string, nat>, licenses: seq<string>) returns (counts: map<string, nat>)
    ensures counts == Tallied(m, licenses)
  {
    counts := m;
    for i := 0 to |licenses|
      invariant counts == Tallied(m, licenses[..i])
    {
      assert licenses[..i + 1][..i] == licenses[..i];
      var n := licenses[i];
      counts := counts[n := (if n in counts then counts[n] else 0) + 1];
    }
    assert licenses[..|licenses|] == licenses;
  }
}
