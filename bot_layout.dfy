/**
 * The shape of every `bot.py` the generator writes. The shipped template
 * and each file derived from it by `make_handler` and `make_command` are
 * fifteen pieces joined by newlines: eleven pieces of fixed text (the
 * `Skeleton`), the five "extension point" marker comments, and the places
 * that vary between bot files: the parse mode, the imports line, the body
 * of the command list and the handler-registration line.
 *
 * The proofs here use only what `Sound` says about the fixed text: it holds
 * no marker and no brace. The module `BotTemplate` holds the actual text
 * and proves that it is sound.
 */
module BotLayout {
  import opened Wrappers
  import opened PyStr
  import opened PyFormat

  /** A marker comment: `# extended <word>`. */
  function Marker(word: string): string { "# extended " + word }

  // The five marker comments; `make_handler` and `make_command` rewrite three of them.
  const ImportsMarker := Marker("imports")
  const CommandsMarker := Marker("commands")
  const MiddlewaresMarker := Marker("middlewares")
  const FiltersMarker := Marker("filters")
  const HandlersMarker := Marker("handlers")

  predicate IsMarker(k: string)
  {
    k == ImportsMarker || k == CommandsMarker || k == MiddlewaresMarker || k == FiltersMarker || k == HandlersMarker
  }

  /** The indented marker lines that are never rewritten. */
  const MiddlewaresLine := "    " + MiddlewaresMarker
  const FiltersLine := "    " + FiltersMarker

  /**
   * The fixed text of a bot file, between the places that vary. The
   * parse mode sits inside one line, between `bodyBefore` and `bodyAfter`.
   */
  datatype Skeleton = Skeleton(
    head: string, block1: string, block2: string, block3: string, block4: string,
    mainHead: string, logFormat: string, bodyBefore: string, bodyAfter: string,
    startComment: string, mainTail: string)

  /** Piece indices of the parts that vary between bot files. */
  const ImportsAt := 1
  const CommandsAt := 3
  const HandlersAt := 9
  const ModeAt := 12

  /** The fifteen pieces of a bot file, in file order. */
  function Layout(sk: Skeleton, parseMode: string, imports: string, commands: string, handlers: string): (ps: seq<string>)
    ensures |ps| == 15
    ensures ps[ImportsAt] == imports && ps[CommandsAt] == commands && ps[HandlersAt] == handlers
    ensures ps[ModeAt] == sk.bodyBefore + parseMode + sk.bodyAfter
  {
    [sk.head, imports, sk.block1, commands, sk.block2, MiddlewaresLine, sk.block3, FiltersLine, sk.block4,
     handlers, sk.mainHead, sk.logFormat, sk.bodyBefore + parseMode + sk.bodyAfter, sk.startComment, sk.mainTail]
  }

  /** A piece the marker rewriting never touches: it misses `#` or `x`, and every marker holds both. */
  predicate Inert(p: string) { '#' !in p || 'x' !in p }

  /** A piece `str.format` copies verbatim. */
  predicate Braceless(p: string) { '{' !in p && '}' !in p }

  /** Fixed text that neither rewriting nor formatting changes. */
  predicate Plain(p: string) { Inert(p) && Braceless(p) }

  /** The nine pieces of fixed text that are whole lines. */
  function FixedTexts(sk: Skeleton): (ts: seq<string>)
    ensures |ts| == 9
  {
    [sk.head, sk.block1, sk.block2, sk.block3, sk.block4, sk.mainHead, sk.logFormat, sk.startComment, sk.mainTail]
  }

  /** What the proofs need of the fixed text: no marker and no brace anywhere in it. */
  predicate Sound(sk: Skeleton)
  {
    && (forall i :: 0 <= i < 9 ==> Plain(FixedTexts(sk)[i]))
    && '#' !in sk.bodyBefore + sk.bodyAfter && Braceless(sk.bodyBefore + sk.bodyAfter)
  }

  // ---------------------------------------------------------------------
  // The markers
  // ---------------------------------------------------------------------

  /** What the proofs use about a marker: one leading `#`, an `x`, no newline and no brace. */
  predicate MarkerShaped(k: string)
  {
    k != [] && k[0] == '#' && '#' !in k[1..] && 'x' in k && '\n' !in k && Braceless(k)
  }

  /** `k` occurs at the start of `m`. */
  predicate StartsWith(m: string, k: string) { |k| <= |m| && m[..|k|] == k }

  lemma MarkerOfWord(word: string)
    requires '#' !in word && '\n' !in word && Braceless(word)
    ensures MarkerShaped(Marker(word))
  {
    var k := Marker(word);
    assert k[1..] == " extended " + word;
    assert k[3] == 'x';
  }

  lemma MarkerShape(k: string)
    requires IsMarker(k)
    ensures MarkerShaped(k)
  {
    if k == ImportsMarker { MarkerOfWord("imports"); }
    else if k == CommandsMarker { MarkerOfWord("commands"); }
    else if k == MiddlewaresMarker { MarkerOfWord("middlewares"); }
    else if k == FiltersMarker { MarkerOfWord("filters"); }
    else { MarkerOfWord("handlers"); }
  }

  /** No marker is a prefix of another: they already differ at the first letter of the word. */
  lemma MarkersDiffer(k: string, m: string)
    requires IsMarker(k) && IsMarker(m) && k != m
    ensures !StartsWith(m, k)
  {
    assert |k| > 11 && |m| > 11 && k[11] != m[11];
    if |k| <= |m| {
      assert m[..|k|][11] != k[11];
    }
  }

  /** Replacing or counting a marker in text that cannot hold it. */
  lemma InertUnchanged(p: string, k: string, v: string)
    requires Inert(p) && IsMarker(k)
    ensures ReplaceAll(p, k, v) == p && Count(p, k) == 0
  {
    MarkerShape(k);
    if '#' !in p {
      ReplaceAbsent(p, k, v, '#');
    } else {
      ReplaceAbsent(p, k, v, 'x');
    }
  }

  // ---------------------------------------------------------------------
  // Text that cannot hold a marker
  // ---------------------------------------------------------------------

  /** What every marker starts with. */
  const Stem := "# extended "

  /** `t` agrees with `Stem` as far as both go: followed by the right text, `t` starts a marker. */
  predicate StemStart(t: string)
  {
    if |t| < |Stem| then t == Stem[..|t|] else t[..|Stem|] == Stem
  }

  /**
   * Text in which no `#` starts a marker, nor could start one once more
   * text follows: `Fix item #5` is clean, `see # extended` is not.
   */
  predicate Clean(s: string)
  {
    forall i :: 0 <= i < |s| && s[i] == '#' ==> !StemStart(s[i..])
  }

  lemma MarkerStem(k: string)
    requires IsMarker(k)
    ensures |Stem| < |k| && k[..|Stem|] == Stem
  {
  }

  lemma PlainClean(s: string)
    requires '#' !in s
    ensures Clean(s)
  {
  }

  /** A text that could start a marker has a start that could too. */
  lemma StemStartPrefix(t: string, u: string)
    requires StemStart(t + u)
    ensures StemStart(t)
  {
    if |t| < |Stem| {
      assert t == (t + u)[..|t|];
      if |t + u| < |Stem| {
        assert Stem[..|t + u|][..|t|] == Stem[..|t|];
      } else {
        assert Stem[..|t|] == (t + u)[..|Stem|][..|t|];
      }
    } else {
      assert (t + u)[..|Stem|] == t[..|Stem|];
    }
  }

  lemma CleanConcat(a: string, b: string)
    requires Clean(a) && Clean(b)
    ensures Clean(a + b)
  {
    var s := a + b;
    forall i | 0 <= i < |s| && s[i] == '#' ensures !StemStart(s[i..]) {
      if i < |a| {
        assert s[i..] == a[i..] + b;
        if StemStart(s[i..]) {
          StemStartPrefix(a[i..], b);
        }
      } else {
        assert s[i..] == b[i - |a|..];
      }
    }
  }

  /** Clean text between two pieces of text without `#` is clean. */
  lemma CleanWrap(a: string, x: string, b: string)
    requires '#' !in a && Clean(x) && '#' !in b
    ensures Clean(a + x + b)
  {
    PlainClean(a);
    PlainClean(b);
    CleanConcat(a, x);
    CleanConcat(a + x, b);
  }

  lemma CleanTail(s: string)
    requires Clean(s) && s != []
    ensures Clean(s[1..])
  {
    forall i | 0 <= i < |s[1..]| && s[1..][i] == '#' ensures !StemStart(s[1..][i..]) {
      assert s[1..][i..] == s[i + 1..];
    }
  }

  /** Lines that are clean join into clean text. */
  lemma {:induction false} CleanUnlines(ls: seq<string>)
    requires forall i :: 0 <= i < |ls| ==> Clean(ls[i])
    ensures Clean(Unlines(ls))
    decreases |ls|
  {
    if |ls| > 1 {
      CleanUnlines(ls[1..]);
      PlainClean("\n");
      CleanConcat(ls[0], "\n");
      CleanConcat(ls[0] + "\n", Unlines(ls[1..]));
      assert Unlines(ls) == ls[0] + "\n" + Unlines(ls[1..]);
    } else if |ls| == 0 {
      PlainClean("");
    }
  }

  /** A text that begins with a marker could start one at its first character. */
  lemma MarkerStartsStem(s: string, k: string)
    requires IsMarker(k)
    ensures |s| >= |k| && s[..|k|] == k ==> s != [] && s[0] == '#' && StemStart(s)
  {
    MarkerStem(k);
    if |s| >= |k| && s[..|k|] == k {
      assert s[..|Stem|] == k[..|Stem|];
    }
  }

  lemma StemStartOfPrefix(t: string, u: string)
    ensures StemStart(t + u) ==> StemStart(t)
  {
    if StemStart(t + u) {
      StemStartPrefix(t, u);
    }
  }

  /** A marker cannot start at the first character of clean text. */
  lemma NoMarkerAtClean(p: string, m: string, k: string)
    requires Clean(p) && p != [] && IsMarker(k)
    ensures !(|p + m| >= |k| && (p + m)[..|k|] == k)
  {
    MarkerStartsStem(p + m, k);
    StemStartOfPrefix(p, m);
    assert p[0..] == p;
  }

  /** No match of a marker starts inside clean text, whatever follows it. */
  lemma CleanSkip(p: string, m: string, k: string, v: string)
    requires Clean(p) && IsMarker(k)
    ensures ReplaceAll(p + m, k, v) == p + ReplaceAll(m, k, v)
    ensures Count(p + m, k) == Count(m, k)
  {
    CleanSkipReplace(p, m, k, v);
    CleanSkipCount(p, m, k);
  }

  lemma {:induction false} CleanSkipReplace(p: string, m: string, k: string, v: string)
    requires Clean(p) && IsMarker(k)
    ensures ReplaceAll(p + m, k, v) == p + ReplaceAll(m, k, v)
    decreases |p|
  {
    if p == [] {
      assert p + m == m;
    } else {
      var s := p + m;
      MarkerStem(k);
      NoMarkerAtClean(p, m, k);
      assert s[1..] == p[1..] + m;
      CleanTail(p);
      CleanSkipReplace(p[1..], m, k, v);
      if |s| >= |k| {
        assert ReplaceAll(s, k, v) == [p[0]] + (p[1..] + ReplaceAll(m, k, v));
      } else {
        assert ReplaceAll(m, k, v) == m;
      }
      assert [p[0]] + (p[1..] + ReplaceAll(m, k, v)) == ([p[0]] + p[1..]) + ReplaceAll(m, k, v);
      assert [p[0]] + p[1..] == p;
    }
  }

  lemma {:induction false} CleanSkipCount(p: string, m: string, k: string)
    requires Clean(p) && IsMarker(k)
    ensures Count(p + m, k) == Count(m, k)
    decreases |p|
  {
    if p == [] {
      assert p + m == m;
    } else {
      MarkerStem(k);
      NoMarkerAtClean(p, m, k);
      if |p + m| < |k| {
        assert Count(m, k) == 0;
      } else {
        assert Count(p + m, k) == Count((p + m)[1..], k);
        assert (p + m)[1..] == p[1..] + m;
        CleanTail(p);
        CleanSkipCount(p[1..], m, k);
      }
    }
  }

  /** Replacing or counting a marker in clean text. */
  lemma CleanUnchanged(p: string, k: string, v: string)
    requires Clean(p) && IsMarker(k)
    ensures ReplaceAll(p, k, v) == p && Count(p, k) == 0
  {
    CleanSkip(p, "", k, v);
    assert p + "" == p;
    MarkerStem(k);
  }

  /** The parse-mode line of a sound skeleton is clean when the parse mode is. */
  lemma ModeLineClean(sk: Skeleton, pm: string)
    requires Sound(sk) && Clean(pm)
    ensures Clean(sk.bodyBefore + pm + sk.bodyAfter)
  {
    BodySound(sk);
    PlainClean(sk.bodyBefore);
    PlainClean(sk.bodyAfter);
    CleanConcat(sk.bodyBefore, pm);
    CleanConcat(sk.bodyBefore + pm, sk.bodyAfter);
  }

  /** An indented marker line: its own marker is replaced once, any other marker is absent. */
  lemma MarkerLine(indent: string, m: string, k: string, v: string)
    requires Clean(indent) && IsMarker(m) && IsMarker(k)
    ensures m == k ==> ReplaceAll(indent + m, k, v) == indent + v && Count(indent + m, k) == 1
    ensures m != k ==> ReplaceAll(indent + m, k, v) == indent + m && Count(indent + m, k) == 0
  {
    MarkerShape(k);
    MarkerShape(m);
    CleanSkip(indent, m, k, v);
    if m == k {
      ReplaceWhole(k, v);
    } else {
      MarkersDiffer(k, m);
      ReplaceOther(m, k, v);
    }
  }

  lemma MarkerLineCount(indent: string, m: string, k: string)
    requires Clean(indent) && IsMarker(m) && IsMarker(k)
    ensures Count(indent + m, k) == if k == m then 1 else 0
  {
    MarkerLine(indent, m, k, "");
  }

  lemma MarkerLineBraceless(indent: string, m: string)
    requires Braceless(indent) && IsMarker(m)
    ensures Braceless(indent + m)
  {
    MarkerShape(m);
  }

  // ---------------------------------------------------------------------
  // Rewriting a marker
  // ---------------------------------------------------------------------

  /** The indices of the nine pieces of fixed text. */
  predicate FixedAt(i: int)
  {
    i == 0 || i == 2 || i == 4 || i == 6 || i == 8 || i == 10 || i == 11 || i == 13 || i == 14
  }

  lemma FixedPiece(sk: Skeleton, pm: string, im: string, cm: string, hm: string, i: int)
    requires Sound(sk) && FixedAt(i)
    ensures Plain(Layout(sk, pm, im, cm, hm)[i])
  {
    var ts := FixedTexts(sk);
    if i == 0 { assert Plain(ts[0]); }
    else if i == 2 { assert Plain(ts[1]); }
    else if i == 4 { assert Plain(ts[2]); }
    else if i == 6 { assert Plain(ts[3]); }
    else if i == 8 { assert Plain(ts[4]); }
    else if i == 10 { assert Plain(ts[5]); }
    else if i == 11 { assert Plain(ts[6]); }
    else if i == 13 { assert Plain(ts[7]); }
    else { assert Plain(ts[8]); }
  }

  /** The text around the parse mode holds no `#` and no brace. */
  lemma BodySound(sk: Skeleton)
    requires Sound(sk)
    ensures '#' !in sk.bodyBefore && Braceless(sk.bodyBefore)
    ensures '#' !in sk.bodyAfter && Braceless(sk.bodyAfter)
  {
    var t := sk.bodyBefore + sk.bodyAfter;
    forall c | c in sk.bodyBefore ensures c in t {
      var j :| 0 <= j < |sk.bodyBefore| && sk.bodyBefore[j] == c;
      assert t[j] == c;
    }
    forall c | c in sk.bodyAfter ensures c in t {
      var j :| 0 <= j < |sk.bodyAfter| && sk.bodyAfter[j] == c;
      assert t[|sk.bodyBefore| + j] == c;
    }
  }

  /** Replacing a rewritten marker in one piece: only the variable pieces can change. */
  lemma PieceReplace(sk: Skeleton, pm: string, im: string, cm: string, hm: string, k: string, v: string, i: nat)
    requires Sound(sk) && IsMarker(k) && k != MiddlewaresMarker && k != FiltersMarker
    requires Clean(pm) && i < 15
    ensures ReplaceAll(Layout(sk, pm, im, cm, hm)[i], k, v)
         == Layout(sk, pm, ReplaceAll(im, k, v), ReplaceAll(cm, k, v), ReplaceAll(hm, k, v))[i]
  {
    var ps := Layout(sk, pm, im, cm, hm);
    if FixedAt(i) {
      FixedPiece(sk, pm, im, cm, hm, i);
      InertUnchanged(ps[i], k, v);
    } else if i == 5 {
      MarkerLine("    ", MiddlewaresMarker, k, v);
    } else if i == 7 {
      MarkerLine("    ", FiltersMarker, k, v);
    } else if i == ModeAt {
      ModeLineClean(sk, pm);
      CleanUnchanged(ps[i], k, v);
    }
  }

  /**
   * Replacing one of the three rewritten markers in a bot file touches only
   * the imports, commands and handlers pieces: the fixed text, the parse
   * mode and the middlewares and filters marker lines stay as they are.
   */
  lemma LayoutReplace(sk: Skeleton, pm: string, im: string, cm: string, hm: string, k: string, v: string)
    requires Sound(sk) && IsMarker(k) && k != MiddlewaresMarker && k != FiltersMarker
    requires Clean(pm)
    ensures ReplaceAll(Unlines(Layout(sk, pm, im, cm, hm)), k, v)
         == Unlines(Layout(sk, pm, ReplaceAll(im, k, v), ReplaceAll(cm, k, v), ReplaceAll(hm, k, v)))
  {
    var ps := Layout(sk, pm, im, cm, hm);
    var qs := Layout(sk, pm, ReplaceAll(im, k, v), ReplaceAll(cm, k, v), ReplaceAll(hm, k, v));
    forall i | 0 <= i < |ps| ensures ReplaceAll(ps[i], k, v) == qs[i] {
      PieceReplace(sk, pm, im, cm, hm, k, v, i);
    }
    MarkerShape(k);
    ReplaceLines(ps, qs, k, v);
  }

  // ---------------------------------------------------------------------
  // Counting a marker
  // ---------------------------------------------------------------------

  /** How often the marker `k` occurs in each of the fifteen pieces. */
  function LayoutCounts(im: string, cm: string, hm: string, k: string): (ns: seq<nat>)
    ensures |ns| == 15
  {
    PieceCounts(Count(im, k), Count(cm, k), Count(hm, k),
                if k == MiddlewaresMarker then 1 else 0, if k == FiltersMarker then 1 else 0)
  }

  /** Counts for the five pieces that can hold a marker; the rest hold none. */
  function PieceCounts(i: nat, c: nat, h: nat, m: nat, f: nat): (ns: seq<nat>)
    ensures |ns| == 15
  {
    [0, i, 0, c, 0, m, 0, f, 0, h, 0, 0, 0, 0, 0]
  }

  lemma PieceCount(sk: Skeleton, pm: string, im: string, cm: string, hm: string, k: string, i: nat)
    requires Sound(sk) && IsMarker(k) && Clean(pm) && i < 15
    ensures Count(Layout(sk, pm, im, cm, hm)[i], k) == LayoutCounts(im, cm, hm, k)[i]
  {
    var ps := Layout(sk, pm, im, cm, hm);
    if FixedAt(i) {
      FixedPiece(sk, pm, im, cm, hm, i);
      InertUnchanged(ps[i], k, "");
    } else if i == 5 || i == 7 {
      MarkerPieceCount(sk, pm, im, cm, hm, k, i);
    } else if i == ModeAt {
      ModeLineClean(sk, pm);
      CleanUnchanged(ps[i], k, "");
    }
  }

  lemma MarkerPieceCount(sk: Skeleton, pm: string, im: string, cm: string, hm: string, k: string, i: nat)
    requires IsMarker(k) && (i == 5 || i == 7)
    ensures Count(Layout(sk, pm, im, cm, hm)[i], k) == LayoutCounts(im, cm, hm, k)[i]
  {
    if i == 5 {
      MarkerLineCount("    ", MiddlewaresMarker, k);
    } else {
      MarkerLineCount("    ", FiltersMarker, k);
    }
  }

  lemma SumCounts(i: nat, c: nat, h: nat, m: nat, f: nat)
    ensures Sum(PieceCounts(i, c, h, m, f)) == i + c + h + m + f
  {
    var ns := PieceCounts(i, c, h, m, f);
    SumZeros(ns[10..]);
    SumFrom(ns, 9); SumFrom(ns, 8); SumFrom(ns, 7); SumFrom(ns, 6); SumFrom(ns, 5);
    SumFrom(ns, 4); SumFrom(ns, 3); SumFrom(ns, 2); SumFrom(ns, 1); SumFrom(ns, 0);
    assert ns[0..] == ns;
  }

  lemma SumFrom(ns: seq<nat>, i: nat)
    requires i < |ns|
    ensures Sum(ns[i..]) == ns[i] + Sum(ns[i + 1..])
  {
    assert ns[i..][1..] == ns[i + 1..];
  }

  lemma {:induction false} SumZeros(ns: seq<nat>)
    requires forall i :: 0 <= i < |ns| ==> ns[i] == 0
    ensures Sum(ns) == 0
    decreases |ns|
  {
    if ns != [] {
      SumZeros(ns[1..]);
    }
  }

  /**
   * A marker occurs in a bot file as often as in its imports, commands and
   * handlers pieces, plus once for the middlewares and filters markers,
   * whose lines are never rewritten.
   */
  lemma LayoutCount(sk: Skeleton, pm: string, im: string, cm: string, hm: string, k: string)
    requires Sound(sk) && IsMarker(k) && Clean(pm)
    ensures Count(Unlines(Layout(sk, pm, im, cm, hm)), k)
         == Count(im, k) + Count(cm, k) + Count(hm, k) + (if k == MiddlewaresMarker || k == FiltersMarker then 1 else 0)
  {
    var ps := Layout(sk, pm, im, cm, hm);
    var ns := LayoutCounts(im, cm, hm, k);
    forall i | 0 <= i < |ps| ensures Count(ps[i], k) == ns[i] {
      PieceCount(sk, pm, im, cm, hm, k, i);
    }
    MarkerShape(k);
    CountLines(ps, k, ns);
    SumCounts(Count(im, k), Count(cm, k), Count(hm, k),
              if k == MiddlewaresMarker then 1 else 0, if k == FiltersMarker then 1 else 0);
  }

  /** The markers are told apart by the first letter of their word. */
  lemma MarkerLetters()
    ensures |ImportsMarker| > 11 && ImportsMarker[11] == 'i'
    ensures |CommandsMarker| > 11 && CommandsMarker[11] == 'c'
    ensures |MiddlewaresMarker| > 11 && MiddlewaresMarker[11] == 'm'
    ensures |FiltersMarker| > 11 && FiltersMarker[11] == 'f'
    ensures |HandlersMarker| > 11 && HandlersMarker[11] == 'h'
  {
  }

  /** The three rewritten pieces of the pristine template: the bare, indented marker lines. */
  const PristineImports := ImportsMarker
  const PristineCommands := "        " + CommandsMarker
  const PristineHandlers := "    " + HandlersMarker

  /** In a pristine bot file each of the five markers occurs exactly once. */
  lemma PristineCount(sk: Skeleton, pm: string, k: string)
    requires Sound(sk) && IsMarker(k) && Clean(pm)
    ensures Count(Unlines(Layout(sk, pm, PristineImports, PristineCommands, PristineHandlers)), k) == 1
  {
    LayoutCount(sk, pm, PristineImports, PristineCommands, PristineHandlers, k);
    assert PristineImports == "" + ImportsMarker;
    MarkerLineCount("", ImportsMarker, k);
    MarkerLineCount("        ", CommandsMarker, k);
    MarkerLineCount("    ", HandlersMarker, k);
    MarkerLetters();
  }

  // ---------------------------------------------------------------------
  // Formatting the parse mode in
  // ---------------------------------------------------------------------

  /** A field name `str.format` looks up by keyword. */
  predicate FieldName(name: string)
  {
    name != [] && !AllDigits(name) && forall i :: 0 <= i < |name| ==> !IsFieldStop(name[i])
  }

  /** A bot file split at its parse mode: the text before it and the text after it. */
  lemma SplitAtMode(sk: Skeleton, pm: string, im: string, cm: string, hm: string)
    ensures Unlines(Layout(sk, pm, im, cm, hm))
         == (Unlines(Layout(sk, pm, im, cm, hm)[..ModeAt]) + "\n" + sk.bodyBefore)
            + (pm + (sk.bodyAfter + "\n" + Unlines(Layout(sk, pm, im, cm, hm)[ModeAt + 1..])))
  {
    var ps := Layout(sk, pm, im, cm, hm);
    UnlinesAt(ps, ModeAt);
    Regroup(Unlines(ps[..ModeAt]), sk.bodyBefore, pm, sk.bodyAfter, Unlines(ps[ModeAt + 1..]));
  }

  lemma BracelessBefore(sk: Skeleton, pm: string, im: string, cm: string, hm: string)
    requires Sound(sk) && Braceless(im) && Braceless(cm) && Braceless(hm)
    ensures Braceless(Unlines(Layout(sk, pm, im, cm, hm)[..ModeAt]) + "\n" + sk.bodyBefore)
  {
    var ps := Layout(sk, pm, im, cm, hm)[..ModeAt];
    MarkerLineBraceless("    ", MiddlewaresMarker);
    MarkerLineBraceless("    ", FiltersMarker);
    forall i | 0 <= i < |ps| ensures Braceless(ps[i]) {
      if FixedAt(i) {
        FixedPiece(sk, pm, im, cm, hm, i);
      }
    }
    BodySound(sk);
    NotInUnlines(ps, '{');
    NotInUnlines(ps, '}');
  }

  lemma BracelessAfter(sk: Skeleton, pm: string, im: string, cm: string, hm: string)
    requires Sound(sk)
    ensures Braceless(sk.bodyAfter + "\n" + Unlines(Layout(sk, pm, im, cm, hm)[ModeAt + 1..]))
  {
    var ps := Layout(sk, pm, im, cm, hm)[ModeAt + 1..];
    FixedPiece(sk, pm, im, cm, hm, 13);
    FixedPiece(sk, pm, im, cm, hm, 14);
    assert forall i :: 0 <= i < |ps| ==> Braceless(ps[i]);
    BodySound(sk);
    NotInUnlines(ps, '{');
    NotInUnlines(ps, '}');
  }

  /**
   * Formatting a bot file whose parse mode is the field `{name}`, with the
   * other pieces free of braces, puts `str` of the bound value in its place
   * and changes nothing else.
   */
  lemma LayoutRender(sk: Skeleton, name: string, im: string, cm: string, hm: string, b: Bindings)
    requires Sound(sk) && Braceless(im) && Braceless(cm) && Braceless(hm)
    requires FieldName(name) && name in b
    ensures Render(Unlines(Layout(sk, "{" + name + "}", im, cm, hm)), b)
         == Success(Unlines(Layout(sk, ToStr(b[name]), im, cm, hm)))
  {
    var field := "{" + name + "}";
    var val := ToStr(b[name]);
    var ps := Layout(sk, field, im, cm, hm);
    var qs := Layout(sk, val, im, cm, hm);
    var before := Unlines(ps[..ModeAt]) + "\n" + sk.bodyBefore;
    var after := sk.bodyAfter + "\n" + Unlines(ps[ModeAt + 1..]);
    SplitAtMode(sk, field, im, cm, hm);
    SplitAtMode(sk, val, im, cm, hm);
    assert ps[..ModeAt] == qs[..ModeAt] && ps[ModeAt + 1..] == qs[ModeAt + 1..];
    BracelessBefore(sk, field, im, cm, hm);
    BracelessAfter(sk, field, im, cm, hm);
    RenderPlain(before, b);
    RenderPlain(after, b);
    RenderConcat(before, field + after, b);
    RenderField(name, after, b);
  }

  /** Formatting a bot file whose parse-mode field is unbound raises KeyError. */
  lemma LayoutRenderMissing(sk: Skeleton, name: string, im: string, cm: string, hm: string, b: Bindings)
    requires Sound(sk) && Braceless(im) && Braceless(cm) && Braceless(hm)
    requires FieldName(name) && name !in b
    ensures Render(Unlines(Layout(sk, "{" + name + "}", im, cm, hm)), b) == Failure(MissingKey(name))
  {
    var field := "{" + name + "}";
    var ps := Layout(sk, field, im, cm, hm);
    var before := Unlines(ps[..ModeAt]) + "\n" + sk.bodyBefore;
    var after := sk.bodyAfter + "\n" + Unlines(ps[ModeAt + 1..]);
    SplitAtMode(sk, field, im, cm, hm);
    BracelessBefore(sk, field, im, cm, hm);
    RenderPlain(before, b);
    RenderConcat(before, field + after, b);
    RenderMissing(name, after, b);
  }
}
