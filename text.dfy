/**
 * Character and string helpers with Python's semantics for the handful of
 * `str` methods the style checker relies on: `isspace`, `strip`, `split`,
 * `startswith`, `endswith`, `in`, `find`, ASCII case mapping and the
 * decimal rendering `str(n)`.
 */
module Text {

  datatype Option<T> = None | Some(value: T)

  /** Python's `str.isspace()` for one character (also the `\s` class of `re`). */
  predicate IsSpace(c: char)
  {
    var n := c as int;
    (9 <= n <= 13) || (0x1c <= n <= 0x20) || n == 0x85 || n == 0xa0 || n == 0x1680
    || (0x2000 <= n <= 0x200a) || n == 0x2028 || n == 0x2029 || n == 0x202f
    || n == 0x205f || n == 0x3000
  }

  predicate IsBlank(s: string)
  {
    forall i :: 0 <= i < |s| ==> IsSpace(s[i])
  }

  /** Python's `s.lstrip()`. */
  function StripLeft(s: string): string
  {
    if |s| > 0 && IsSpace(s[0]) then StripLeft(s[1..]) else s
  }

  /** Python's `s.rstrip()`. */
  function StripRight(s: string): string
  {
    if |s| > 0 && IsSpace(s[|s| - 1]) then StripRight(s[..|s| - 1]) else s
  }

  /** Python's `s.strip()`: both ends lose their whitespace, nothing else changes. */
  function Strip(s: string): string
  {
    StripRight(StripLeft(s))
  }

  /** `s.lstrip()` is empty exactly for blank `s`, and otherwise starts with a non-space. */
  lemma {:induction false} StripLeftShape(s: string)
    ensures StripLeft(s) == [] <==> IsBlank(s)
    ensures StripLeft(s) == [] || !IsSpace(StripLeft(s)[0])
  {
    if |s| > 0 && IsSpace(s[0]) {
      StripLeftShape(s[1..]);
      assert IsBlank(s) <==> IsBlank(s[1..]) by {
        if IsBlank(s[1..]) {
          forall i | 0 <= i < |s| ensures IsSpace(s[i]) {
            if i > 0 { assert s[i] == s[1..][i - 1]; }
          }
        }
      }
    }
  }

  /** `s.rstrip()` is empty exactly for blank `s`. */
  lemma {:induction false} StripRightEmpty(s: string)
    ensures StripRight(s) == [] <==> IsBlank(s)
  {
    if |s| > 0 && IsSpace(s[|s| - 1]) {
      StripRightEmpty(s[..|s| - 1]);
      assert IsBlank(s) <==> IsBlank(s[..|s| - 1]) by {
        if IsBlank(s[..|s| - 1]) {
          forall i | 0 <= i < |s| ensures IsSpace(s[i]) {
            if i < |s| - 1 { assert s[i] == s[..|s| - 1][i]; }
          }
        }
      }
    }
  }

  /** `s.strip()` is empty exactly when every character of `s` is whitespace. */
  lemma StripEmptyIffBlank(s: string)
    ensures Strip(s) == [] <==> IsBlank(s)
  {
    StripLeftShape(s);
    var l := StripLeft(s);
    StripRightEmpty(l);
    if l != [] {
      assert !IsBlank(l) by { assert !IsSpace(l[0]); }
    }
  }

  /** Stripping text that neither starts nor ends with whitespace changes nothing. */
  lemma StripUnchanged(s: string)
    requires s == [] || (!IsSpace(s[0]) && !IsSpace(s[|s| - 1]))
    ensures Strip(s) == s
  {
  }

  /** Number of leading ' ' characters: `len(s) - len(s.lstrip(' '))`. */
  function LeadingSpaces(s: string): (n: nat)
    ensures n <= |s|
    ensures forall i :: 0 <= i < n ==> s[i] == ' '
    ensures n == |s| || s[n] != ' '
  {
    if |s| > 0 && s[0] == ' ' then 1 + LeadingSpaces(s[1..]) else 0
  }

  /** Number of leading `c` characters of `s`. */
  function LeadingRun(s: string, c: char): (n: nat)
    ensures n <= |s|
    ensures forall i :: 0 <= i < n ==> s[i] == c
    ensures n == |s| || s[n] != c
  {
    if |s| > 0 && s[0] == c then 1 + LeadingRun(s[1..], c) else 0
  }

  /** Python's `s.rfind(c)` for one character, with `None` for -1. */
  function LastIndex(s: string, c: char): (r: Option<nat>)
    ensures r.Some? ==> r.value < |s| && s[r.value] == c
    ensures r.Some? ==> forall j :: r.value < j < |s| ==> s[j] != c
    ensures r.None? ==> c !in s
  {
    if |s| == 0 then None
    else if s[|s| - 1] == c then Some(|s| - 1)
    else LastIndex(s[..|s| - 1], c)
  }

  /** The last path component: everything after the last '/'. */
  function BaseName(path: string): (r: string)
    ensures '/' !in r && EndsWith(path, r)
  {
    match LastIndex(path, '/')
    case None => path
    case Some(i) => path[i + 1..]
  }

  /**
   * `os.path.splitext(path)[1]`: the base name's text from its last '.',
   * provided some character other than '.' comes before that dot; otherwise "".
   */
  function Extension(path: string): string
  {
    var name := BaseName(path);
    match LastIndex(name, '.')
    case None => ""
    case Some(d) => if LeadingRun(name, '.') < d then name[d..] else ""
  }

  /** An extension is empty, or a dot followed by no other dot, taken from the end of the path's base name. */
  lemma ExtensionShape(path: string)
    ensures var ext := Extension(path);
      ext == [] || (ext[0] == '.' && '.' !in ext[1..] && '/' !in ext && EndsWith(path, ext))
  {
    var name := BaseName(path);
    match LastIndex(name, '.')
    case None =>
    case Some(d) =>
      if LeadingRun(name, '.') < d {
        var ext := name[d..];
        forall j | 0 <= j < |ext| - 1 ensures ext[1..][j] != '.' {
          assert ext[1..][j] == name[d + 1 + j];
        }
        forall j | 0 <= j < |ext| ensures ext[j] != '/' {
          assert ext[j] == name[d + j];
        }
        EndsWithSuffix(path, name, d);
      }
  }

  /** If `s` ends with `t`, it ends with every suffix of `t`. */
  lemma EndsWithSuffix(s: string, t: string, d: nat)
    requires EndsWith(s, t) && d <= |t|
    ensures EndsWith(s, t[d..])
  {
    assert s[|s| - |t[d..]|..] == s[|s| - |t|..][d..];
  }

  /** A file name `stem.ext` whose stem starts with something other than a dot has extension ".ext". */
  lemma ExtensionOf(stem: string, ext: string)
    requires |stem| > 0 && stem[0] != '.' && '/' !in stem
    requires '.' !in ext && '/' !in ext
    ensures Extension(stem + "." + ext) == "." + ext
  {
    var s := stem + "." + ext;
    assert '/' !in s by {
      forall i | 0 <= i < |s| ensures s[i] != '/' {
        if i < |stem| { assert s[i] == stem[i]; }
        else if i > |stem| { assert s[i] == ext[i - |stem| - 1]; }
      }
    }
    assert BaseName(s) == s;
    assert s[|stem|] == '.';
    forall j | |stem| < j < |s| ensures s[j] != '.' {
      assert s[j] == ext[j - |stem| - 1];
    }
    assert LastIndex(s, '.') == Some(|stem|);
    assert LeadingRun(s, '.') == 0;
    assert s[|stem|..] == "." + ext;
  }

  predicate StartsWith(s: string, p: string)
  {
    |p| <= |s| && s[..|p|] == p
  }

  predicate EndsWith(s: string, p: string)
  {
    |p| <= |s| && s[|s| - |p|..] == p
  }

  /** Python's `sub in s`. */
  predicate Contains(s: string, sub: string)
    decreases |s|
  {
    StartsWith(s, sub) || (|s| > 0 && Contains(s[1..], sub))
  }

  /** Python's `s.find(p)`, with `None` for -1. */
  function Find(s: string, p: string): (r: Option<nat>)
    ensures r.Some? ==> r.value + |p| <= |s| && s[r.value..r.value + |p|] == p
    ensures r.Some? <==> Contains(s, p)
    decreases |s|
  {
    if StartsWith(s, p) then Some(0)
    else if |s| == 0 then None
    else match Find(s[1..], p)
      case None => None
      case Some(i) => Some(i + 1)
  }

  /** Text `p` occurs in `s` at index `j`. */
  predicate OccursAt(s: string, p: string, j: nat)
  {
    j + |p| <= |s| && s[j..j + |p|] == p
  }

  /** `Contains` holds wherever the text occurs. */
  lemma {:induction false} ContainsAt(s: string, p: string, k: nat)
    requires OccursAt(s, p, k)
    ensures Contains(s, p)
    decreases k
  {
    if k > 0 && !StartsWith(s, p) {
      assert s[1..][k - 1..k - 1 + |p|] == s[k..k + |p|];
      ContainsAt(s[1..], p, k - 1);
    }
  }

  /** `Find` gives the first place the text occurs. */
  lemma {:induction false} FindFirst(s: string, p: string, k: nat)
    requires OccursAt(s, p, k)
    requires forall j: nat :: j < k ==> !OccursAt(s, p, j)
    ensures Find(s, p) == Some(k)
    decreases k
  {
    if k > 0 {
      assert !OccursAt(s, p, 0);
      forall j: nat | j < k - 1
        ensures !OccursAt(s[1..], p, j)
      {
        assert !OccursAt(s, p, j + 1);
        if j + |p| <= |s| - 1 {
          assert s[1..][j..j + |p|] == s[j + 1..j + 1 + |p|];
        }
      }
      assert s[1..][k - 1..k - 1 + |p|] == s[k..k + |p|];
      FindFirst(s[1..], p, k - 1);
    }
  }

  /** A text that occurs nowhere is not contained. */
  lemma {:induction false} NotContained(s: string, p: string)
    requires forall j: nat :: !OccursAt(s, p, j)
    ensures !Contains(s, p)
    decreases |s|
  {
    assert !OccursAt(s, p, 0);
    if |s| > 0 {
      forall j: nat
        ensures !OccursAt(s[1..], p, j)
      {
        assert !OccursAt(s, p, j + 1);
        if j + |p| <= |s| - 1 {
          assert s[1..][j..j + |p|] == s[j + 1..j + 1 + |p|];
        }
      }
      NotContained(s[1..], p);
    }
  }

  /** Where `Contains` holds, the text occurs at some index. */
  lemma ContainsWitness(s: string, p: string)
    requires Contains(s, p)
    ensures exists j: nat :: OccursAt(s, p, j)
  {
    assert OccursAt(s, p, Find(s, p).value);
  }

  /** `s.split(p)[0]`: the text before the first occurrence of `p`, or all of `s`. */
  function BeforeFirst(s: string, p: string): (r: string)
    ensures StartsWith(s, r)
  {
    match Find(s, p)
    case None => s
    case Some(i) => s[..i]
  }

  /** `s.split(p)[1]` when `p` occurs in `s`: the text after the first occurrence, cut at the next one. */
  function BetweenFirstTwo(s: string, p: string): string
    requires |p| > 0
  {
    match Find(s, p)
    case None => ""
    case Some(i) => BeforeFirst(s[i + |p|..], p)
  }

  function LowerChar(c: char): char
  {
    if 'A' <= c <= 'Z' then (c as int + 32) as char else c
  }

  function UpperChar(c: char): char
  {
    if 'a' <= c <= 'z' then (c as int - 32) as char else c
  }

  /** `s.lower()` restricted to ASCII letters. */
  function Lower(s: string): (r: string)
    ensures |r| == |s|
    ensures forall i :: 0 <= i < |s| ==> r[i] == LowerChar(s[i])
  {
    if |s| == 0 then "" else [LowerChar(s[0])] + Lower(s[1..])
  }

  /** `s.upper()` restricted to ASCII letters. */
  function Upper(s: string): (r: string)
    ensures |r| == |s|
    ensures forall i :: 0 <= i < |s| ==> r[i] == UpperChar(s[i])
  {
    if |s| == 0 then "" else [UpperChar(s[0])] + Upper(s[1..])
  }

  /** `s.isupper()` restricted to ASCII letters: some upper-case letter and no lower-case one. */
  predicate IsUpper(s: string)
  {
    (exists i :: 0 <= i < |s| && 'A' <= s[i] <= 'Z') && (forall i :: 0 <= i < |s| ==> !('a' <= s[i] <= 'z'))
  }

  /** Python's `s.split(c)` for a one-character separator. */
  function Split(s: string, c: char): (r: seq<string>)
    ensures |r| >= 1
    decreases |s|
  {
    if |s| == 0 then [""]
    else
      var rest := Split(s[1..], c);
      if s[0] == c then [""] + rest else [[s[0]] + rest[0]] + rest[1..]
  }

  /** A text without the separator splits into itself. */
  lemma {:induction false} SplitNone(s: string, c: char)
    requires c !in s
    ensures Split(s, c) == [s]
    decreases |s|
  {
    if |s| > 0 {
      SplitNone(s[1..], c);
      assert [s[0]] + s[1..] == s;
    }
  }

  /** Splitting at a first separator gives the part before it, then the split of the rest. */
  lemma {:induction false} SplitFirst(a: string, c: char, b: string)
    requires c !in a
    ensures Split(a + [c] + b, c) == [a] + Split(b, c)
    decreases |a|
  {
    if |a| == 0 {
      assert a + [c] + b == [c] + b;
      assert ([c] + b)[1..] == b;
    } else {
      SplitFirst(a[1..], c, b);
      assert (a + [c] + b)[1..] == a[1..] + [c] + b;
      assert [a[0]] + a[1..] == a;
    }
  }

  /** Python's `c.join(parts)`. */
  function Join(parts: seq<string>, c: char): string
  {
    if |parts| == 0 then ""
    else if |parts| == 1 then parts[0]
    else parts[0] + [c] + Join(parts[1..], c)
  }

  /** Splitting and joining on the same separator gives the original text back. */
  lemma {:induction false} JoinSplit(s: string, c: char)
    ensures Join(Split(s, c), c) == s
    decreases |s|
  {
    if |s| > 0 {
      var rest := Split(s[1..], c);
      JoinSplit(s[1..], c);
      if s[0] == c {
        assert Split(s, c) == [""] + rest;
        assert s == [c] + s[1..];
      } else {
        var parts := [[s[0]] + rest[0]] + rest[1..];
        assert Split(s, c) == parts;
        if |rest| == 1 {
          assert Join(rest, c) == rest[0];
        } else {
          assert Join(rest, c) == rest[0] + [c] + Join(rest[1..], c);
          assert parts[1..] == rest[1..];
        }
        assert s == [s[0]] + s[1..];
      }
    }
  }

  function DigitChar(d: nat): char
    requires d < 10
  {
    ('0' as int + d) as char
  }

  /** `str(n)` for a non-negative integer. */
  function NatToString(n: nat): (r: string)
    ensures |r| >= 1
    ensures forall i :: 0 <= i < |r| ==> '0' <= r[i] <= '9'
  {
    if n < 10 then [DigitChar(n)] else NatToString(n / 10) + [DigitChar(n % 10)]
  }

  /** `str(i)` for any integer. */
  function IntToString(i: int): string
  {
    if i < 0 then "-" + NatToString(-i) else NatToString(i)
  }
}
