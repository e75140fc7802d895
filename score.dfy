/**
 * The pure parts of the main window: the style score computed from the
 * scanner's results, the parsing of the excluded-directory field, the
 * mapping from the standard shown in the drop-down list to a ruleset name,
 * and the high-risk marking of licences in the licence table.
 */
module Score {
  import opened Text
  import opened TierCounts
  import opened Rulesets
  import opened Scanner
  import LicenseScanner

  // ---------------------------------------------------------------------
  // Severity tiers

  /** The tier a recounted violation joins: "high", "medium", and "low" for any other severity. */
  function Tier(f: Formatted): Tiers
  {
    var s := Lower(f.severity);
    if s == "high" then Tiers(1, 0, 0) else if s == "medium" then Tiers(0, 1, 0) else Tiers(0, 0, 1)
  }

  /** The first `n` of one file's violations, summary lines skipped. */
  function Tally(vs: seq<Formatted>, n: nat): Tiers
    requires n <= |vs|
  {
    if n == 0 then NoTiers
    else
      var before := Tally(vs, n - 1);
      if Special(vs[n - 1]) then before else Plus(before, Tier(vs[n - 1]))
  }

  /** All of one file's violations, summary lines skipped. */
  function FileTiers(vs: seq<Formatted>): Tiers
  {
    Tally(vs, |vs|)
  }

  lemma TierOne(f: Formatted)
    ensures Total(Tier(f)) == 1
  {
  }

  lemma {:induction false} TallyTotal(vs: seq<Formatted>, n: nat)
    requires n <= |vs|
    ensures Total(Tally(vs, n)) == |Unspecial(vs[..n])|
  {
    if n > 0 {
      TallyTotal(vs, n - 1);
      TierOne(vs[n - 1]);
      assert vs[..n][..n - 1] == vs[..n - 1];
      assert |Unspecial(vs[..n])| == |Unspecial(vs[..n - 1])| + if Special(vs[n - 1]) then 0 else 1;
    }
  }

  /** Every violation that is not a summary line is counted in exactly one tier. */
  lemma FileTiersTotal(vs: seq<Formatted>)
    ensures Total(FileTiers(vs)) == |Unspecial(vs)|
  {
    TallyTotal(vs, |vs|);
    assert vs[..|vs|] == vs;
  }

  /** A file's count is zero exactly when each of its first `n` violations is a summary line. */
  lemma {:induction false} TallyZero(vs: seq<Formatted>, n: nat)
    requires n <= |vs|
    ensures Tally(vs, n) == NoTiers <==> forall i :: 0 <= i < n ==> Special(vs[i])
  {
    if n > 0 {
      TallyZero(vs, n - 1);
      TierOne(vs[n - 1]);
    }
  }

  /** Every violation of the file is a summary line. */
  predicate OnlySummaries(vs: seq<Formatted>)
  {
    forall i :: 0 <= i < |vs| ==> Special(vs[i])
  }

  /** A file's count is zero exactly when each of its violations is a summary line. */
  lemma FileTiersZero(vs: seq<Formatted>)
    ensures FileTiers(vs) == NoTiers <==> OnlySummaries(vs)
  {
    TallyZero(vs, |vs|);
  }

  /** Each file's count. */
  function PerFile(d: map<string, seq<Formatted>>): (m: map<string, Tiers>)
    ensures m.Keys == d.Keys
    ensures forall k :: k in d ==> m[k] == FileTiers(d[k])
  {
    map k | k in d :: FileTiers(d[k])
  }

  /** All files' violations, summary lines skipped. */
  ghost function DetailTiers(d: map<string, seq<Formatted>>): Tiers
  {
    Sum(PerFile(d), d.Keys)
  }

  /** The recount is zero exactly when every violation in the details is a summary line. */
  lemma DetailTiersZero(d: map<string, seq<Formatted>>)
    ensures DetailTiers(d) == NoTiers <==> forall k :: k in d ==> OnlySummaries(d[k])
  {
    var m := PerFile(d);
    forall k | k in d
      ensures m[k] == NoTiers <==> OnlySummaries(d[k])
    {
      FileTiersZero(d[k]);
    }
    SumZero(m, d.Keys);
  }

  /** Counting one file's violations; summary lines are skipped. */
  method CountFile(vs: seq<Formatted>) returns (t: Tiers)
    ensures t == FileTiers(vs)
  {
    t := NoTiers;
    for i := 0 to |vs|
      invariant t == Tally(vs, i)
    {
      if Special(vs[i]) {
        continue;
      }
      var severity := Lower(vs[i].severity);
      if severity == "high" {
        t := t.(high := t.high + 1);
      } else if severity == "medium" {
        t := t.(medium := t.medium + 1);
      } else {
        t := t.(low := t.low + 1);
      }
    }
  }

  /** Counting the violations of every file in `details`. */
  method Recount(details: map<string, seq<Formatted>>) returns (t: Tiers)
    ensures t == DetailTiers(details)
  {
    ghost var m := PerFile(details);
    t := NoTiers;
    var pending := details.Keys;
    while pending != {}
      invariant pending <= details.Keys
      invariant t.high + SumOf(m, pending, High) == SumOf(m, details.Keys, High)
      invariant t.medium + SumOf(m, pending, Medium) == SumOf(m, details.Keys, Medium)
      invariant t.low + SumOf(m, pending, Low) == SumOf(m, details.Keys, Low)
      decreases |pending|
    {
      var path :| path in pending;
      var file := CountFile(details[path]);
      SumOfAny(m, pending, path, High);
      SumOfAny(m, pending, path, Medium);
      SumOfAny(m, pending, path, Low);
      t := Plus(t, file);
      pending := pending - {path};
    }
  }

  // ---------------------------------------------------------------------
  // The score

  /** The line count the score divides by: the scanned lines, else 200 per scanned file. */
  function Lines(r: Results): nat
  {
    if r.totalLines == 0 then r.scannedFiles * 200 else r.totalLines
  }

  /** The counts kept per severity by the scanner. */
  function Recorded(r: Results): Tiers
  {
    Tiers(r.bySeverity["high"], r.bySeverity["medium"], r.bySeverity["low"])
  }

  /** The counts the score uses: the scanner's, or a recount of the details when those are all zero. */
  ghost function Counts(r: Results): Tiers
  {
    if Recorded(r) == NoTiers then DetailTiers(r.details) else Recorded(r)
  }

  /** The score of a scan: 100 when there are no lines to divide by. */
  ghost function StyleScore(r: Results): real
  {
    if Lines(r) == 0 then 100.0 else Formula(Counts(r), Lines(r))
  }

  /** Computing the score of a scan, recounting the details when the severity counts are all zero. */
  method CalculateScore(r: Results) returns (score: real)
    ensures score == StyleScore(r)
  {
    var totalLines := r.totalLines;
    if totalLines == 0 {
      totalLines := r.scannedFiles * 200;
      if totalLines == 0 {
        return 100.0;
      }
    }
    var high, medium, low := r.bySeverity["high"], r.bySeverity["medium"], r.bySeverity["low"];
    if high == 0 && medium == 0 && low == 0 {
      var t := Recount(r.details);
      high, medium, low := t.high, t.medium, t.low;
    }
    var n := totalLines as real;
    var highPercent := high as real / n * 100.0;
    var mediumPercent := medium as real / n * 100.0;
    var lowPercent := low as real / n * 100.0;
    score := 100.0 - lowPercent * 0.1 - mediumPercent * 1.0 - highPercent * 10.0;
    if score < 0.0 {
      score := 0.0;
    }
    SourceArithmetic(Tiers(high, medium, low), totalLines);
  }

  /** A scan's score lies between 0 and 100, and is 100 exactly when there are no lines or no counted violations. */
  lemma ScoreBounds(r: Results)
    ensures 0.0 <= StyleScore(r) <= 100.0
    ensures StyleScore(r) == 100.0 <==> Lines(r) == 0 || Counts(r) == NoTiers
  {
    if Lines(r) > 0 {
      FormulaRange(Counts(r), Lines(r));
      FormulaPerfect(Counts(r), Lines(r));
    }
  }

  /** With no severity counts, the score is 100 exactly when every violation in the details is a summary line. */
  lemma ScoreFromDetails(r: Results)
    requires Recorded(r) == NoTiers && Lines(r) > 0
    ensures StyleScore(r) == 100.0 <==> forall k :: k in r.details ==> OnlySummaries(r.details[k])
  {
    FormulaPerfect(DetailTiers(r.details), Lines(r));
    DetailTiersZero(r.details);
  }

  /** Without a line count, a scan scores as if each scanned file had 200 lines. */
  lemma LinesFallback(r: Results)
    requires r.totalLines == 0
    ensures StyleScore(r) == StyleScore(r.(totalLines := 200 * r.scannedFiles))
  {
  }

  // ---------------------------------------------------------------------
  // Excluded directories

  /** The non-empty stripped items of a comma-separated field. */
  function Items(parts: seq<string>): (r: seq<string>)
  {
    if |parts| == 0 then []
    else
      var before := Items(parts[..|parts| - 1]);
      var item := Strip(parts[|parts| - 1]);
      if item == "" then before else before + [item]
  }

  /** The excluded-directory field: split at ',', each item stripped, empty items dropped. */
  function ExcludeDirs(text: string): seq<string>
  {
    Items(Split(text, ','))
  }

  /** An item is kept exactly when it is the non-empty strip of some part. */
  lemma {:induction false} ItemsExact(parts: seq<string>)
    ensures forall x :: x in Items(parts) <==> x != "" && exists p :: p in parts && Strip(p) == x
    decreases |parts|
  {
    if |parts| > 0 {
      var init := parts[..|parts| - 1];
      ItemsExact(init);
      assert parts == init + [parts[|parts| - 1]];
      forall x
        ensures x in Items(parts) <==> x != "" && exists p :: p in parts && Strip(p) == x
      {
        if x != "" && (exists p :: p in parts && Strip(p) == x) {
          var p :| p in parts && Strip(p) == x;
          if p != parts[|parts| - 1] {
            assert p in init;
          }
        }
      }
    }
  }

  /** Items already stripped, non-empty and in order survive unchanged. */
  lemma {:induction false} ItemsKeep(ds: seq<string>)
    requires forall k :: 0 <= k < |ds| ==> ds[k] != "" && !IsSpace(ds[k][0]) && !IsSpace(ds[k][|ds[k]| - 1])
    ensures Items(ds) == ds
    decreases |ds|
  {
    if |ds| > 0 {
      var init := ds[..|ds| - 1];
      assert forall k :: 0 <= k < |init| ==> init[k] == ds[k];
      ItemsKeep(init);
      StripUnchanged(ds[|ds| - 1]);
      assert ds == init + [ds[|ds| - 1]];
    }
  }

  /** Joining parts without the separator and splitting again gives the parts. */
  lemma {:induction false} SplitJoin(ds: seq<string>, c: char)
    requires |ds| > 0
    requires forall k :: 0 <= k < |ds| ==> c !in ds[k]
    ensures Split(Join(ds, c), c) == ds
    decreases |ds|
  {
    if |ds| == 1 {
      SplitNone(ds[0], c);
    } else {
      SplitJoin(ds[1..], c);
      SplitFirst(ds[0], c, Join(ds[1..], c));
      assert ds == [ds[0]] + ds[1..];
    }
  }

  /**
   * The field saved as the comma-joined list of directories reads back as
   * that list, when each directory is non-empty, has no comma and no
   * surrounding whitespace. A cleared field, saved as "", reads back as no
   * directories.
   */
  lemma ExcludeDirsRoundTrip(ds: seq<string>)
    requires forall k :: 0 <= k < |ds| ==> ds[k] != "" && ',' !in ds[k]
    requires forall k :: 0 <= k < |ds| ==> !IsSpace(ds[k][0]) && !IsSpace(ds[k][|ds[k]| - 1])
    ensures ExcludeDirs(Join(ds, ',')) == ds
  {
    if |ds| == 0 {
      assert Split("", ',') == [""];
      assert Strip("") == "";
    } else {
      SplitJoin(ds, ',');
      ItemsKeep(ds);
    }
  }

  /** Every excluded directory is non-empty, and is the strip of a comma-separated part of the field. */
  lemma ExcludeDirsExact(text: string)
    ensures forall x :: x in ExcludeDirs(text) <==> x != "" && exists p :: p in Split(text, ',') && Strip(p) == x
  {
    ItemsExact(Split(text, ','));
  }

  // ---------------------------------------------------------------------
  // Standards

  /** The standards of the drop-down list and the rulesets they select. */
  const StandardMapping: map<string, string> := map[
    "PEP 8" := "PEP8",
    "Google" := "Google",
    "Airbnb" := "Airbnb",
    "Standard" := "Standard",
    "自定义" := "Google"
  ]

  /** The ruleset for a displayed standard; a name not in the list stands for itself. */
  function StandardFor(display: string): (name: string)
    ensures display in StandardMapping ==> name in BuiltinNames
    ensures display !in StandardMapping ==> name == display
  {
    if display in StandardMapping then StandardMapping[display] else display
  }

  /** Every built-in ruleset name selects itself. */
  lemma BuiltinFixed(n: string)
    requires n in BuiltinNames
    ensures StandardFor(n) == n
  {
    if n == "PEP8" {
      assert |n| == 4;
      assert n !in StandardMapping;
    }
  }

  /** Mapping twice is mapping once. */
  lemma StandardIdempotent(display: string)
    ensures StandardFor(StandardFor(display)) == StandardFor(display)
  {
    if display in StandardMapping {
      BuiltinFixed(StandardFor(display));
    }
  }

  /** The built-in rulesets are exactly the targets of the list. */
  lemma StandardTargets()
    ensures forall n :: n in BuiltinNames <==> exists d :: d in StandardMapping && StandardMapping[d] == n
  {
    assert StandardMapping["PEP 8"] == "PEP8";
    assert StandardMapping["Google"] == "Google";
    assert StandardMapping["Airbnb"] == "Airbnb";
    assert StandardMapping["Standard"] == "Standard";
    forall d | d in StandardMapping
      ensures StandardMapping[d] in BuiltinNames
    {
      assert StandardFor(d) == StandardMapping[d];
    }
  }

  // ---------------------------------------------------------------------
  // High-risk licences

  const HighRiskMarkers: seq<string> := ["GPL-2.0", "GPL-3.0", "LGPL", "AGPL"]

  /** The upper-cased name contains one of the markers. */
  predicate Marked(name: string, markers: seq<string>)
  {
    exists k :: 0 <= k < |markers| && Contains(Upper(name), markers[k])
  }

  /** A licence is shown as high risk when its upper-cased name contains GPL-2.0, GPL-3.0, LGPL or AGPL. */
  predicate HighRisk(license: string)
  {
    Marked(license, HighRiskMarkers)
  }

  /** Upper-casing forgets an earlier lower-casing. */
  lemma UpperLower(s: string)
    ensures Upper(Lower(s)) == Upper(s)
  {
    var a, b := Upper(Lower(s)), Upper(s);
    forall i | 0 <= i < |s|
      ensures a[i] == b[i]
    {
      assert Lower(s)[i] == LowerChar(s[i]);
    }
  }

  /** Case does not matter to the marking. */
  lemma HighRiskIgnoresCase(license: string)
    ensures HighRisk(Lower(license)) <==> HighRisk(license)
  {
    UpperLower(license);
  }

  /** Upper-casing a longer text keeps an occurrence found in the upper-cased middle part. */
  lemma UpperWithin(a: string, license: string, b: string, m: string, j: nat)
    requires OccursAt(Upper(license), m, j)
    ensures OccursAt(Upper(a + license + b), m, |a| + j)
  {
    var w, u := Upper(a + license + b), Upper(license);
    forall i | 0 <= i < |m|
      ensures w[|a| + j + i] == m[i]
    {
      assert (a + license + b)[|a| + j + i] == license[j + i];
      assert u[j..j + |m|][i] == u[j + i];
    }
    assert w[|a| + j..|a| + j + |m|] == m;
  }

  /** A name that contains a high-risk name is itself high risk. */
  lemma HighRiskWithin(a: string, license: string, b: string)
    requires HighRisk(license)
    ensures HighRisk(a + license + b)
  {
    var k :| 0 <= k < |HighRiskMarkers| && Contains(Upper(license), HighRiskMarkers[k]);
    var m := HighRiskMarkers[k];
    ContainsWitness(Upper(license), m);
    var j: nat :| OccursAt(Upper(license), m, j);
    UpperWithin(a, license, b, m, j);
    ContainsAt(Upper(a + license + b), m, |a| + j);
  }

  /** A text lacking a character contains no text that has it. */
  lemma Lacking(s: string, p: string, c: char)
    requires c !in s && c in p
    ensures !Contains(s, p)
  {
    forall j: nat
      ensures !OccursAt(s, p, j)
    {
      var i :| 0 <= i < |p| && p[i] == c;
      if j + |p| <= |s| {
        assert s[j..j + |p|][i] == s[j + i];
      }
    }
    NotContained(s, p);
  }

  /** Every marker has a 'G', so a name without one is not high risk. */
  lemma WithoutG(license: string)
    requires 'G' !in license && 'g' !in license
    ensures !HighRisk(license)
  {
    var u := Upper(license);
    assert 'G' !in u by {
      forall i | 0 <= i < |u| ensures u[i] != 'G' {
        assert license[i] != 'G' && license[i] != 'g';
      }
    }
    forall k | 0 <= k < |HighRiskMarkers|
      ensures !Contains(u, HighRiskMarkers[k])
    {
      assert HighRiskMarkers[k][|HighRiskMarkers[k]| - 4..][1] == 'G' || HighRiskMarkers[k][0] == 'G';
      Lacking(u, HighRiskMarkers[k], 'G');
    }
  }

  /** A marker written in capitals is high risk. */
  lemma MarkerIsHighRisk(k: nat)
    requires k < |HighRiskMarkers|
    ensures HighRisk(HighRiskMarkers[k])
  {
    var m := HighRiskMarkers[k];
    UpperFixed(m);
    ContainsAt(m, m, 0);
  }

  /** A text without lower-case letters is its own upper-casing. */
  lemma UpperFixed(s: string)
    requires forall i :: 0 <= i < |s| ==> !('a' <= s[i] <= 'z')
    ensures Upper(s) == s
  {
    var u := Upper(s);
    forall i | 0 <= i < |s|
      ensures u[i] == s[i]
    {
    }
  }

  /** The marking agrees with the licence scanner's fallback risk levels. */
  lemma FallbackAgrees()
    ensures forall n :: n in LicenseScanner.FallbackRisks.high ==> HighRisk(n)
    ensures forall n :: n in LicenseScanner.FallbackRisks.low ==> !HighRisk(n)
  {
    forall n | n in LicenseScanner.FallbackRisks.high
      ensures HighRisk(n)
    {
      MarkerIsHighRisk(0);
    }
    forall n | n in LicenseScanner.FallbackRisks.low
      ensures !HighRisk(n)
    {
      assert n == "MIT" || n == "Apache-2.0";
      WithoutG(n);
    }
  }

  /** The marking agrees with the risk levels of the licence scanner's built-in rules. */
  lemma DefaultsAgree()
    ensures forall i :: 0 <= i < |LicenseScanner.DefaultLicenses| ==>
              (HighRisk(LicenseScanner.DefaultLicenses[i].name) <==> LicenseScanner.DefaultLicenses[i].riskLevel == "high")
  {
    var d := LicenseScanner.DefaultLicenses;
    forall i | 0 <= i < |d|
      ensures HighRisk(d[i].name) <==> d[i].riskLevel == "high"
    {
      if i == 2 {
        assert d[i].name == HighRiskMarkers[1];
        MarkerIsHighRisk(1);
      } else {
        assert d[i].name == "MIT" || d[i].name == "Apache-2.0";
        WithoutG(d[i].name);
      }
    }
  }
}
