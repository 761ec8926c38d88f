/**
 * The string operations of Python that the modelled code relies on:
 * `str.split` with a one-character separator, `sep.join`, `str.replace`,
 * `str(n)` for a natural number and `int(s)` for a run of decimal digits.
 */
module Text {
  import opened Common

  /** Number of occurrences of `c` in `s`. */
  function Count(s: string, c: char): nat
  {
    if s == [] then 0 else (if s[0] == c then 1 else 0) + Count(s[1..], c)
  }

  /** Python's `s.split(sep)`: one part more than there are separators, none holding a separator. */
  function Split(s: string, sep: char): (parts: seq<string>)
    ensures |parts| == Count(s, sep) + 1
    ensures forall i :: 0 <= i < |parts| ==> sep !in parts[i]
  {
    if s == [] then [""]
    else
      var rest := Split(s[1..], sep);
      if s[0] == sep then [""] + rest
      else [[s[0]] + rest[0]] + rest[1..]
  }

  /** Python's `sep.join(parts)`. */
  function Join(parts: seq<string>, sep: char): string
  {
    if parts == [] then ""
    else if |parts| == 1 then parts[0]
    else parts[0] + [sep] + Join(parts[1..], sep)
  }

  /** Joining the parts of a split gives back the original text. */
  lemma {:induction false} JoinSplit(s: string, sep: char)
    ensures Join(Split(s, sep), sep) == s
  {
    if s != [] {
      var rest := Split(s[1..], sep);
      JoinSplit(s[1..], sep);
      var parts := Split(s, sep);
      if s[0] == sep {
        assert parts == [""] + rest;
        assert parts[1..] == rest;
      } else {
        assert parts == [[s[0]] + rest[0]] + rest[1..];
        if |rest| > 1 {
          assert parts[1..] == rest[1..];
        }
      }
      assert s == [s[0]] + s[1..];
    }
  }

  lemma {:induction false} SplitWithoutSeparator(x: string, sep: char)
    requires sep !in x
    ensures Split(x, sep) == [x]
  {
    if x != [] {
      SplitWithoutSeparator(x[1..], sep);
      assert x == [x[0]] + x[1..];
    }
  }

  /** The last `/`-separated segment of a path (`parts[-1]`, `os.path.basename`): a file's name. */
  function BaseName(p: string): string {
    var parts := Split(p, '/');
    parts[|parts| - 1]
  }

  /** The last part of `Split(x + [sep] + y)` is `y` when `y` holds no separator. */
  lemma {:induction false} SplitLastSegment(x: string, y: string, sep: char)
    requires sep !in y
    ensures var parts := Split(x + [sep] + y, sep); |parts| >= 2 && parts[|parts| - 1] == y
    decreases |x|
  {
    var s := x + [sep] + y;
    if x == [] {
      assert s == [sep] + y;
      assert s[1..] == y;
      SplitWithoutSeparator(y, sep);
    } else {
      assert s[1..] == x[1..] + [sep] + y;
      SplitLastSegment(x[1..], y, sep);
    }
  }

  lemma {:induction false} SplitAtFirstSeparator(x: string, y: string, sep: char)
    requires sep !in x
    ensures Split(x + [sep] + y, sep) == [x] + Split(y, sep)
  {
    var s := x + [sep] + y;
    if x == [] {
      assert s[1..] == y;
    } else {
      assert s[1..] == x[1..] + [sep] + y;
      SplitAtFirstSeparator(x[1..], y, sep);
      assert x == [x[0]] + x[1..];
    }
  }

  /** Splitting a join of separator-free parts gives back the parts. */
  lemma {:induction false} SplitJoin(parts: seq<string>, sep: char)
    requires |parts| > 0
    requires forall i :: 0 <= i < |parts| ==> sep !in parts[i]
    ensures Split(Join(parts, sep), sep) == parts
  {
    if |parts| == 1 {
      SplitWithoutSeparator(parts[0], sep);
    } else {
      SplitJoin(parts[1..], sep);
      SplitAtFirstSeparator(parts[0], Join(parts[1..], sep), sep);
      assert parts == [parts[0]] + parts[1..];
    }
  }

  /** Offset at which part `k` starts in `Join(parts, sep)`: the earlier parts and their separators. */
  function Offset(parts: seq<string>, k: nat): nat
    requires k <= |parts|
  {
    if k == 0 then 0 else Offset(parts, k - 1) + |parts[k - 1]| + 1
  }

  lemma {:induction false} JoinFrom(parts: seq<string>, sep: char, k: nat)
    requires k < |parts|
    ensures Offset(parts, k) <= |Join(parts, sep)|
    ensures Join(parts, sep)[Offset(parts, k)..] == Join(parts[k..], sep)
  {
    if k > 0 {
      JoinFrom(parts, sep, k - 1);
      var j := Join(parts, sep);
      var o := Offset(parts, k - 1);
      var m := |parts[k - 1]| + 1;
      assert parts[k - 1..][1..] == parts[k..];
      assert Join(parts[k - 1..], sep) == parts[k - 1] + [sep] + Join(parts[k..], sep);
      assert j[o..][m..] == j[o + m..];
    } else {
      assert parts[0..] == parts;
    }
  }

  /** Part `k` of a join starts at `Offset` and is followed by the separator, or by the end of the text. */
  lemma JoinLocated(parts: seq<string>, sep: char, k: nat)
    requires k < |parts|
    ensures Offset(parts, k) + |parts[k]| <= |Join(parts, sep)|
    ensures Join(parts, sep)[Offset(parts, k)..Offset(parts, k) + |parts[k]|] == parts[k]
    ensures k + 1 < |parts| ==> Offset(parts, k) + |parts[k]| < |Join(parts, sep)|
                                && Join(parts, sep)[Offset(parts, k) + |parts[k]|] == sep
    ensures k + 1 == |parts| ==> Offset(parts, k) + |parts[k]| == |Join(parts, sep)|
  {
    var j := Join(parts, sep);
    var o := Offset(parts, k);
    JoinFrom(parts, sep, k);
    var tail := j[o..];
    assert tail == Join(parts[k..], sep);
    if k + 1 < |parts| {
      assert parts[k..][1..] == parts[k + 1..];
      assert tail == parts[k] + [sep] + Join(parts[k + 1..], sep);
      assert tail[..|parts[k]|] == parts[k];
      assert tail[|parts[k]|] == sep;
    } else {
      assert parts[k..] == [parts[k]];
      assert tail == parts[k];
    }
  }

  predicate IsDigit(c: char) {
    '0' <= c <= '9'
  }

  predicate AllDigits(s: string) {
    forall i :: 0 <= i < |s| ==> IsDigit(s[i])
  }

  function DigitChar(d: nat): char
    requires d < 10
  {
    ('0' as int + d) as char
  }

  function DigitValue(c: char): nat
    requires IsDigit(c)
  {
    c as int - '0' as int
  }

  /** Python's `str(n)` for a natural number: its decimal digits, most significant first. */
  function NatToString(n: nat): (s: string)
    ensures |s| > 0 && AllDigits(s)
  {
    if n < 10 then [DigitChar(n)] else NatToString(n / 10) + [DigitChar(n % 10)]
  }

  function DigitsValue(s: string): nat
    requires AllDigits(s)
  {
    if s == [] then 0 else DigitsValue(s[..|s| - 1]) * 10 + DigitValue(s[|s| - 1])
  }

  /** Python's `int(s)`, narrowed to a non-empty run of ASCII digits. */
  function ParseNat(s: string): Option<nat>
  {
    if s != [] && AllDigits(s) then Some(DigitsValue(s)) else None
  }

  lemma {:induction false} DigitsValueOfNatToString(n: nat)
    ensures DigitsValue(NatToString(n)) == n
  {
    if n >= 10 {
      DigitsValueOfNatToString(n / 10);
      var s := NatToString(n);
      assert s[..|s| - 1] == NatToString(n / 10);
    }
  }

  /** Reading back the decimal form of a number gives the number. */
  lemma ParseNatToString(n: nat)
    ensures ParseNat(NatToString(n)) == Some(n)
  {
    DigitsValueOfNatToString(n);
  }

  /** Different numbers have different decimal forms. */
  lemma NatToStringInjective(m: nat, n: nat)
    requires m != n
    ensures NatToString(m) != NatToString(n)
  {
    ParseNatToString(m);
    ParseNatToString(n);
  }

  /**
   * Python's `s.replace(pat, rep)`: the occurrences of `pat` found scanning
   * left to right, each search resuming after the previous match, are replaced.
   */
  function ReplaceAll(s: string, pat: string, rep: string): string
    requires pat != []
    decreases |s|
  {
    if |s| < |pat| then s
    else if s[..|pat|] == pat then rep + ReplaceAll(s[|pat|..], pat, rep)
    else [s[0]] + ReplaceAll(s[1..], pat, rep)
  }

  /** Text in which the first character of the pattern never occurs is left as it is. */
  lemma {:induction false} ReplaceAllWithoutPatternStart(s: string, pat: string, rep: string)
    requires pat != [] && pat[0] !in s
    ensures ReplaceAll(s, pat, rep) == s
    decreases |s|
  {
    if |s| >= |pat| {
      assert s[..|pat|][0] == s[0];
      ReplaceAllWithoutPatternStart(s[1..], pat, rep);
      assert s == [s[0]] + s[1..];
    }
  }

  /** Replacing by something no longer than the pattern never lengthens the text. */
  lemma {:induction false} ReplaceAllNotLonger(s: string, pat: string, rep: string)
    requires pat != [] && |rep| <= |pat|
    ensures |ReplaceAll(s, pat, rep)| <= |s|
    decreases |s|
  {
    if |s| >= |pat| {
      if s[..|pat|] == pat {
        ReplaceAllNotLonger(s[|pat|..], pat, rep);
      } else {
        ReplaceAllNotLonger(s[1..], pat, rep);
      }
    }
  }

  lemma ReplaceAllHead(t: string, pat: string, rep: string)
    requires pat != [] && rep != [] && t != []
    ensures ReplaceAll(t, pat, rep) != []
    ensures ReplaceAll(t, pat, rep)[0] == rep[0] || ReplaceAll(t, pat, rep)[0] == t[0]
  {
  }

  /** No `a` in `s` is immediately followed by `b`. */
  predicate NoPair(s: string, a: char, b: char) {
    forall i :: 0 <= i < |s| - 1 ==> !(s[i] == a && s[i + 1] == b)
  }

  lemma NoPairConcat(x: string, y: string, a: char, b: char)
    ensures NoPair(x + y, a, b) <==>
            NoPair(x, a, b) && NoPair(y, a, b) && !(x != [] && y != [] && x[|x| - 1] == a && y[0] == b)
  {
    var z := x + y;
    if NoPair(x, a, b) && NoPair(y, a, b) && !(x != [] && y != [] && x[|x| - 1] == a && y[0] == b) {
      forall i | 0 <= i < |z| - 1
        ensures !(z[i] == a && z[i + 1] == b)
      {
        if i + 1 < |x| {
          assert z[i] == x[i] && z[i + 1] == x[i + 1];
        } else if i >= |x| {
          assert z[i] == y[i - |x|] && z[i + 1] == y[i + 1 - |x|];
        } else {
          assert z[i] == x[|x| - 1] && z[i + 1] == y[0];
        }
      }
    }
    if NoPair(z, a, b) {
      forall i | 0 <= i < |x| - 1
        ensures !(x[i] == a && x[i + 1] == b)
      {
        assert z[i] == x[i] && z[i + 1] == x[i + 1];
      }
      forall i | 0 <= i < |y| - 1
        ensures !(y[i] == a && y[i + 1] == b)
      {
        assert z[|x| + i] == y[i] && z[|x| + i + 1] == y[i + 1];
      }
      if x != [] && y != [] {
        assert z[|x| - 1] == x[|x| - 1] && z[|x|] == y[0];
      }
    }
  }

  lemma NoPairWithout(s: string, a: char, b: char)
    requires a !in s
    ensures NoPair(s, a, b)
  {
  }

  /**
   * After replacing every `a` `b` pair by a replacement that holds no `a`
   * and does not start with `b`, no `a` `b` pair is left.
   */
  lemma {:induction false} ReplacePairLeavesNone(s: string, a: char, b: char, rep: string)
    requires rep != [] && a !in rep && rep[0] != b
    ensures NoPair(ReplaceAll(s, [a, b], rep), a, b)
    decreases |s|
  {
    var pat := [a, b];
    if |s| >= 2 {
      NoPairWithout(rep, a, b);
      if s[..2] == pat {
        var rest := ReplaceAll(s[2..], pat, rep);
        ReplacePairLeavesNone(s[2..], a, b, rep);
        NoPairConcat(rep, rest, a, b);
      } else {
        var rest := ReplaceAll(s[1..], pat, rep);
        ReplacePairLeavesNone(s[1..], a, b, rep);
        ReplaceAllHead(s[1..], pat, rep);
        NoPairConcat([s[0]], rest, a, b);
      }
    }
  }

  /**
   * A replacement that holds no `a` and does not start with `b` creates no
   * `a` `b` pair where there was none.
   */
  lemma {:induction false} ReplaceKeepsNoPair(s: string, pat: string, rep: string, a: char, b: char)
    requires pat != [] && rep != [] && a !in rep && rep[0] != b
    requires NoPair(s, a, b)
    ensures NoPair(ReplaceAll(s, pat, rep), a, b)
    decreases |s|
  {
    if |s| >= |pat| {
      NoPairWithout(rep, a, b);
      if s[..|pat|] == pat {
        var k := |pat|;
        assert s == s[..k] + s[k..];
        NoPairConcat(s[..k], s[k..], a, b);
        ReplaceKeepsNoPair(s[k..], pat, rep, a, b);
        NoPairConcat(rep, ReplaceAll(s[k..], pat, rep), a, b);
      } else {
        assert s == [s[0]] + s[1..];
        NoPairConcat([s[0]], s[1..], a, b);
        ReplaceKeepsNoPair(s[1..], pat, rep, a, b);
        if s[1..] != [] {
          ReplaceAllHead(s[1..], pat, rep);
        }
        NoPairConcat([s[0]], ReplaceAll(s[1..], pat, rep), a, b);
      }
    }
  }
}
