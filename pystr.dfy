/**
 * The handful of Python `str` operations the scaffolder relies on:
 * `str.replace` and `str.count` (both scan left to right and never
 * overlap two matches), `"\n".join`, and the ASCII part of
 * `str.capitalize` and `str.title`.
 */
module PyStr {

  /** `s.replace(k, v)`: every non-overlapping occurrence of `k`, found left to right, becomes `v`. */
  function ReplaceAll(s: string, k: string, v: string): string
    decreases |s|
  {
    if k == [] then ReplaceEmpty(s, v)
    else if |s| < |k| then s
    else if s[..|k|] == k then v + ReplaceAll(s[|k|..], k, v)
    else [s[0]] + ReplaceAll(s[1..], k, v)
  }

  /** `s.replace("", v)`: Python puts `v` before every character and once more at the end. */
  function ReplaceEmpty(s: string, v: string): string
  {
    if s == [] then v else v + [s[0]] + ReplaceEmpty(s[1..], v)
  }

  /** `s.count(k)`: the number of matches `ReplaceAll` rewrites. */
  function Count(s: string, k: string): nat
    decreases |s|
  {
    if k == [] then |s| + 1
    else if |s| < |k| then 0
    else if s[..|k|] == k then 1 + Count(s[|k|..], k)
    else Count(s[1..], k)
  }

  /** Lines joined by a single newline and no trailing one, as `"\n".join(lines)`. */
  function Unlines(lines: seq<string>): string
  {
    Join(lines, '\n')
  }

  /** `sep.join(parts)` for a one-character separator. */
  function Join(parts: seq<string>, sep: char): string
  {
    if |parts| == 0 then ""
    else if |parts| == 1 then parts[0]
    else parts[0] + [sep] + Join(parts[1..], sep)
  }

  /** Splits at every `sep`; the inverse of `Join` (`s.split(sep)`). */
  function Split(s: string, sep: char): (parts: seq<string>)
    ensures |parts| >= 1
    decreases |s|
  {
    if s == [] then [""]
    else if s[0] == sep then [""] + Split(s[1..], sep)
    else var rest := Split(s[1..], sep); [[s[0]] + rest[0]] + rest[1..]
  }

  predicate IsLower(c: char) { 'a' <= c <= 'z' }
  predicate IsUpper(c: char) { 'A' <= c <= 'Z' }
  predicate IsLetter(c: char) { IsLower(c) || IsUpper(c) }

  function ToUpper(c: char): char { if IsLower(c) then (c as int - 32) as char else c }
  function ToLower(c: char): char { if IsUpper(c) then (c as int + 32) as char else c }

  function LowerAll(s: string): (r: string)
    ensures |r| == |s|
    ensures forall i :: 0 <= i < |s| ==> r[i] == ToLower(s[i])
  {
    if s == [] then [] else [ToLower(s[0])] + LowerAll(s[1..])
  }

  /** `s.capitalize()` on ASCII: first character upper case, the rest lower case. */
  function Capitalize(s: string): string
  {
    if s == [] then [] else [ToUpper(s[0])] + LowerAll(s[1..])
  }

  /**
   * `s.title()` on ASCII: a letter is upper-cased when the character before
   * it is not a letter, lower-cased otherwise; other characters are kept.
   */
  function Title(s: string): string
  {
    TitleAfter(s, false)
  }

  function TitleAfter(s: string, prevCased: bool): (r: string)
    ensures |r| == |s|
  {
    if s == [] then []
    else if IsLetter(s[0]) then
      [if prevCased then ToLower(s[0]) else ToUpper(s[0])] + TitleAfter(s[1..], true)
    else [s[0]] + TitleAfter(s[1..], false)
  }

  // ---------------------------------------------------------------------
  // Properties of replace and count
  // ---------------------------------------------------------------------

  /** A key containing a character the text lacks never matches: the text is unchanged. */
  lemma {:induction false} ReplaceAbsent(s: string, k: string, v: string, c: char)
    requires c in k && c !in s
    ensures ReplaceAll(s, k, v) == s && Count(s, k) == 0
    decreases |s|
  {
    if |s| >= |k| {
      assert c !in s[..|k|] by {
        assert forall x :: x in s[..|k|] ==> x in s;
      }
      ReplaceAbsent(s[1..], k, v, c);
      assert [s[0]] + s[1..] == s;
    }
  }

  /** A key that does not occur leaves the text unchanged: `replace` does nothing when `count` is zero. */
  lemma {:induction false} ReplaceNoMatch(s: string, k: string, v: string)
    requires Count(s, k) == 0
    ensures ReplaceAll(s, k, v) == s
    decreases |s|
  {
    if k != [] && |s| >= |k| {
      ReplaceNoMatch(s[1..], k, v);
      assert [s[0]] + s[1..] == s;
    }
  }

  /** Text before the first character of the key is copied through untouched. */
  lemma {:induction false} ReplaceSkip(p: string, m: string, k: string, v: string)
    requires k != [] && k[0] !in p
    ensures ReplaceAll(p + m, k, v) == p + ReplaceAll(m, k, v)
    ensures Count(p + m, k) == Count(m, k)
    decreases |p|
  {
    if p != [] {
      var s := p + m;
      assert s[0] == p[0] && p[0] != k[0];
      if |s| >= |k| {
        assert s[..|k|][0] == s[0];
        assert s[..|k|] != k;
      }
      assert s[1..] == p[1..] + m;
      ReplaceSkip(p[1..], m, k, v);
      if |s| >= |k| {
        assert ReplaceAll(s, k, v) == [p[0]] + (p[1..] + ReplaceAll(m, k, v));
      } else {
        assert ReplaceAll(m, k, v) == m;
      }
      assert [p[0]] + (p[1..] + ReplaceAll(m, k, v)) == ([p[0]] + p[1..]) + ReplaceAll(m, k, v);
      assert [p[0]] + p[1..] == p;
    } else {
      assert p + m == m;
    }
  }

  /** The key alone is one match, replaced once. */
  lemma ReplaceWhole(k: string, v: string)
    requires k != []
    ensures ReplaceAll(k, k, v) == v && Count(k, k) == 1
  {
    assert k[..|k|] == k;
    assert k[|k|..] == [];
  }

  /**
   * A text whose first character starts the key, that has no further copy
   * of that character and does not begin with the key, has no match.
   */
  lemma ReplaceOther(m: string, k: string, v: string)
    requires k != [] && m != [] && k[0] !in m[1..]
    requires !(|k| <= |m| && m[..|k|] == k)
    ensures ReplaceAll(m, k, v) == m && Count(m, k) == 0
  {
    ReplaceAbsent(m[1..], k, v, k[0]);
    assert [m[0]] + m[1..] == m;
  }

  /**
   * Python's `str.replace` and `str.count` work line by line when the key
   * has no newline: no match can straddle a line break.
   */
  lemma ReplaceAcross(a: string, b: string, k: string, v: string, c: char)
    requires k != [] && c !in k
    ensures ReplaceAll(a + [c] + b, k, v) == ReplaceAll(a, k, v) + [c] + ReplaceAll(b, k, v)
    ensures Count(a + [c] + b, k) == Count(a, k) + Count(b, k)
  {
    ReplaceAcrossText(a, b, k, v, c);
    CountAcross(a, b, k, c);
  }

  /** No match straddles a character the key does not contain. */
  lemma StartNoMatch(a: string, b: string, k: string, c: char)
    requires k != [] && c !in k && a != []
    requires !(|a| >= |k| && a[..|k|] == k)
    ensures var s := a + [c] + b; |s| >= |k| ==> s[..|k|] != k
  {
    var s := a + [c] + b;
    if |s| >= |k| {
      if |a| >= |k| {
        assert a[..|k|] == s[..|k|];
      } else {
        assert s[..|k|][|a|] == c;
      }
    }
  }

  /** One step of `ReplaceAll` at a match. */
  lemma ReplaceAtMatch(s: string, k: string, v: string)
    requires k != [] && |s| >= |k| && s[..|k|] == k
    ensures ReplaceAll(s, k, v) == v + ReplaceAll(s[|k|..], k, v)
  {
  }

  /** One step of `ReplaceAll` where no match starts. */
  lemma ReplaceAtOther(s: string, k: string, v: string)
    requires k != [] && s != [] && !(|s| >= |k| && s[..|k|] == k)
    ensures ReplaceAll(s, k, v) == [s[0]] + ReplaceAll(s[1..], k, v)
  {
    if |s| < |k| {
      assert [s[0]] + s[1..] == s;
    }
  }

  lemma {:induction false} ReplaceAcrossText(a: string, b: string, k: string, v: string, c: char)
    requires k != [] && c !in k
    ensures ReplaceAll(a + [c] + b, k, v) == ReplaceAll(a, k, v) + [c] + ReplaceAll(b, k, v)
    decreases |a|, 1
  {
    if |a| >= |k| && a[..|k|] == k {
      ReplaceAcrossMatch(a, b, k, v, c);
    } else if a == [] {
      var s := a + [c] + b;
      assert s == [c] + b;
      if |s| >= |k| {
        assert s[..|k|][0] == c;
      }
      ReplaceAtOther(s, k, v);
      assert s[1..] == b;
    } else {
      ReplaceAcrossOther(a, b, k, v, c);
    }
  }

  lemma {:induction false} ReplaceAcrossMatch(a: string, b: string, k: string, v: string, c: char)
    requires k != [] && c !in k && |a| >= |k| && a[..|k|] == k
    ensures ReplaceAll(a + [c] + b, k, v) == ReplaceAll(a, k, v) + [c] + ReplaceAll(b, k, v)
    decreases |a|, 0
  {
    var s := a + [c] + b;
    var rb := ReplaceAll(b, k, v);
    assert s[..|k|] == k;
    assert s[|k|..] == a[|k|..] + [c] + b;
    ReplaceAcrossText(a[|k|..], b, k, v, c);
    ReplaceAtMatch(s, k, v);
    ReplaceAtMatch(a, k, v);
    var ra := ReplaceAll(a[|k|..], k, v);
    assert v + (ra + [c] + rb) == (v + ra) + [c] + rb;
  }

  lemma {:induction false} ReplaceAcrossOther(a: string, b: string, k: string, v: string, c: char)
    requires k != [] && c !in k && a != [] && !(|a| >= |k| && a[..|k|] == k)
    ensures ReplaceAll(a + [c] + b, k, v) == ReplaceAll(a, k, v) + [c] + ReplaceAll(b, k, v)
    decreases |a|, 0
  {
    var s := a + [c] + b;
    StartNoMatch(a, b, k, c);
    JoinTail(a, b, c);
    ReplaceAcrossText(a[1..], b, k, v, c);
    ReplaceAtOther(s, k, v);
    ReplaceAtOther(a, k, v);
    JoinCons(a[0], ReplaceAll(a[1..], k, v), ReplaceAll(b, k, v), c);
  }

  lemma JoinTail(a: string, b: string, c: char)
    requires a != []
    ensures (a + [c] + b)[0] == a[0] && (a + [c] + b)[1..] == a[1..] + [c] + b
  {
  }

  lemma JoinCons(x: char, ra: string, rb: string, c: char)
    ensures [x] + (ra + [c] + rb) == ([x] + ra) + [c] + rb
  {
  }

  lemma {:induction false} CountAcross(a: string, b: string, k: string, c: char)
    requires k != [] && c !in k
    ensures Count(a + [c] + b, k) == Count(a, k) + Count(b, k)
    decreases |a|
  {
    var s := a + [c] + b;
    if |a| >= |k| && a[..|k|] == k {
      assert s[..|k|] == k;
      assert s[|k|..] == a[|k|..] + [c] + b;
      CountAcross(a[|k|..], b, k, c);
    } else if a == [] {
      assert s == [c] + b;
      if |s| >= |k| {
        assert s[..|k|][0] == c;
      }
      assert s[1..] == b;
    } else {
      StartNoMatch(a, b, k, c);
      assert s[1..] == a[1..] + [c] + b;
      CountAcross(a[1..], b, k, c);
    }
  }

  /** Replacing a key by itself changes nothing. */
  lemma {:induction false} ReplaceSelf(s: string, k: string)
    ensures ReplaceAll(s, k, k) == s
    decreases |s|
  {
    if k == [] {
      ReplaceEmptyNothing(s);
    } else if |s| >= |k| {
      if s[..|k|] == k {
        ReplaceSelf(s[|k|..], k);
        assert s[..|k|] + s[|k|..] == s;
      } else {
        ReplaceSelf(s[1..], k);
        assert [s[0]] + s[1..] == s;
      }
    }
  }

  lemma {:induction false} ReplaceEmptyNothing(s: string)
    ensures ReplaceEmpty(s, "") == s
  {
    if s != [] {
      ReplaceEmptyNothing(s[1..]);
      assert [s[0]] + s[1..] == s;
    }
  }

  /** Each match of `k` trades `|k|` characters for `|v|`. */
  lemma {:induction false} ReplaceLength(s: string, k: string, v: string)
    ensures |ReplaceAll(s, k, v)| == |s| + Count(s, k) * (|v| - |k|)
    decreases |s|
  {
    if k == [] {
      ReplaceEmptyLength(s, v);
    } else if |s| >= |k| {
      var d := |v| - |k|;
      if s[..|k|] == k {
        var rest := s[|k|..];
        ReplaceLength(rest, k, v);
        MulSucc(Count(rest, k), d);
      } else {
        ReplaceLength(s[1..], k, v);
      }
    }
  }

  lemma MulSucc(n: nat, d: int)
    ensures (n + 1) * d == n * d + d
  {
  }

  lemma {:induction false} ReplaceEmptyLength(s: string, v: string)
    ensures |ReplaceEmpty(s, v)| == |s| + (|s| + 1) * |v|
  {
    if s != [] {
      ReplaceEmptyLength(s[1..], v);
    }
  }

  /** Line-wise replacement: replacing in the joined text is joining the replaced lines. */
  lemma {:induction false} ReplaceLines(ps: seq<string>, qs: seq<string>, k: string, v: string)
    requires k != [] && '\n' !in k && |ps| == |qs|
    requires forall i :: 0 <= i < |ps| ==> ReplaceAll(ps[i], k, v) == qs[i]
    ensures ReplaceAll(Unlines(ps), k, v) == Unlines(qs)
    decreases |ps|
  {
    if |ps| == 0 {
    } else if |ps| == 1 {
    } else {
      ReplaceAcross(ps[0], Unlines(ps[1..]), k, v, '\n');
      ReplaceLines(ps[1..], qs[1..], k, v);
    }
  }

  /** Joining two non-empty groups of lines puts one newline between them. */
  lemma {:induction false} UnlinesAppend(xs: seq<string>, ys: seq<string>)
    requires |xs| >= 1 && |ys| >= 1
    ensures Unlines(xs + ys) == Unlines(xs) + "\n" + Unlines(ys)
    decreases |xs|
  {
    if |xs| == 1 {
      assert (xs + ys)[1..] == ys;
    } else {
      assert (xs + ys)[1..] == xs[1..] + ys;
      UnlinesAppend(xs[1..], ys);
    }
  }

  /** Joined lines, seen around one inner line. */
  lemma UnlinesAt(ps: seq<string>, i: nat)
    requires 0 < i < |ps| - 1
    ensures Unlines(ps) == Unlines(ps[..i]) + "\n" + (ps[i] + "\n" + Unlines(ps[i + 1..]))
  {
    var xs, ys, zs := ps[..i], [ps[i]], ps[i + 1..];
    assert ps[i..] == ys + zs;
    assert ps == xs + (ys + zs);
    UnlinesAppend(ys, zs);
    UnlinesAppend(xs, ys + zs);
  }

  /** Moves the cut in `a\n(b c d)\ne` to just before `c`. */
  lemma Regroup(a: string, b: string, c: string, d: string, e: string)
    ensures a + "\n" + ((b + c + d) + "\n" + e) == (a + "\n" + b) + (c + (d + "\n" + e))
  {
  }

  /** A character other than the newline occurs in joined lines only if it occurs in one of them. */
  lemma {:induction false} NotInUnlines(ps: seq<string>, c: char)
    requires c != '\n'
    requires forall i :: 0 <= i < |ps| ==> c !in ps[i]
    ensures c !in Unlines(ps)
    decreases |ps|
  {
    if |ps| >= 2 {
      NotInUnlines(ps[1..], c);
    }
  }

  function Sum(ns: seq<nat>): nat
  {
    if ns == [] then 0 else ns[0] + Sum(ns[1..])
  }

  /** Line-wise counting: the count in the joined text is the sum of the counts per line. */
  lemma {:induction false} CountLines(ps: seq<string>, k: string, ns: seq<nat>)
    requires k != [] && '\n' !in k && |ps| == |ns|
    requires forall i :: 0 <= i < |ps| ==> Count(ps[i], k) == ns[i]
    ensures Count(Unlines(ps), k) == Sum(ns)
    decreases |ps|
  {
    if |ps| == 0 {
    } else if |ps| == 1 {
    } else {
      ReplaceAcross(ps[0], Unlines(ps[1..]), k, "", '\n');
      CountLines(ps[1..], k, ns[1..]);
    }
  }

  /** `sep.join(s.split(sep)) == s`. */
  lemma {:induction false} JoinSplit(s: string, sep: char)
    ensures Join(Split(s, sep), sep) == s
    decreases |s|
  {
    if s != [] {
      JoinSplit(s[1..], sep);
      var rest := Split(s[1..], sep);
      if s[0] == sep {
        assert Split(s, sep) == [""] + rest;
        assert ([""] + rest)[1..] == rest;
      } else {
        var parts := Split(s, sep);
        assert parts[1..] == rest[1..];
        if |rest| == 1 {
          assert Join(parts, sep) == [s[0]] + rest[0];
        } else {
          assert Join(rest, sep) == rest[0] + [sep] + Join(rest[1..], sep);
        }
        assert [s[0]] + s[1..] == s;
      }
    }
  }

  /** `s.split(sep)` recovers the parts of `sep.join(parts)` when no part contains `sep`. */
  lemma {:induction false} SplitJoin(parts: seq<string>, sep: char)
    requires |parts| >= 1
    requires forall i :: 0 <= i < |parts| ==> sep !in parts[i]
    ensures Split(Join(parts, sep), sep) == parts
    decreases |parts|, |parts[0]|
  {
    if |parts| == 1 {
      SplitPlain(parts[0], sep);
    } else if parts[0] == [] {
      assert Join(parts, sep) == [sep] + Join(parts[1..], sep);
      SplitJoin(parts[1..], sep);
      assert ([sep] + Join(parts[1..], sep))[1..] == Join(parts[1..], sep);
      assert [""] + parts[1..] == parts;
    } else {
      var s := Join(parts, sep);
      var tail := [parts[0][1..]] + parts[1..];
      assert s == [parts[0][0]] + Join(tail, sep) by {
        assert parts[0] == [parts[0][0]] + parts[0][1..];
        assert tail[1..] == parts[1..];
      }
      assert forall i :: 0 <= i < |tail| ==> sep !in tail[i] by {
        forall i | 0 <= i < |tail| ensures sep !in tail[i] {
          if i == 0 {
            assert forall c :: c in parts[0][1..] ==> c in parts[0];
          } else {
            assert tail[i] == parts[i];
          }
        }
      }
      SplitJoin(tail, sep);
      assert s[0] == parts[0][0] && s[1..] == Join(tail, sep);
      assert parts[0][0] != sep;
      assert [parts[0][0]] + parts[0][1..] == parts[0];
      assert [[parts[0][0]] + tail[0]] + tail[1..] == parts;
    }
  }

  lemma {:induction false} SplitPlain(s: string, sep: char)
    requires sep !in s
    ensures Split(s, sep) == [s]
    decreases |s|
  {
    if s != [] {
      SplitPlain(s[1..], sep);
      assert [s[0]] + s[1..] == s;
    }
  }

  // ---------------------------------------------------------------------
  // Properties of capitalize and title
  // ---------------------------------------------------------------------

  /** `capitalize` keeps the length, upper-cases the first character and lower-cases the rest. */
  lemma CapitalizeShape(s: string)
    ensures |Capitalize(s)| == |s|
    ensures s != [] ==> Capitalize(s)[0] == ToUpper(s[0])
    ensures forall i :: 1 <= i < |s| ==> Capitalize(s)[i] == ToLower(s[i])
  {
    if s != [] {
      var rest := LowerAll(s[1..]);
      assert Capitalize(s) == [ToUpper(s[0])] + rest;
      forall i | 1 <= i < |s|
        ensures Capitalize(s)[i] == ToLower(s[i])
      {
        assert Capitalize(s)[i] == rest[i - 1];
        assert s[1..][i - 1] == s[i];
      }
    }
  }

  /** On a word made only of letters, `title` and `capitalize` agree. */
  lemma {:induction false} TitleOfWord(s: string)
    requires forall i :: 0 <= i < |s| ==> IsLetter(s[i])
    ensures Title(s) == Capitalize(s)
  {
    if s != [] {
      TitleAfterWord(s[1..]);
    }
  }

  lemma {:induction false} TitleAfterWord(s: string)
    requires forall i :: 0 <= i < |s| ==> IsLetter(s[i])
    ensures TitleAfter(s, true) == LowerAll(s)
  {
    if s != [] {
      TitleAfterWord(s[1..]);
    }
  }
}
