/**
 * Software-Tools commands in the style of Kernighan and Plauger:
 * wordcount (src/main/javascript/cmds/software_tools/wordcount.js),
 * linecount (src/main/javascript/cmds/software_tools/linecount.js) and
 * detab (src/main/javascript/cmds/software_tools/detab.js).
 *
 * Each command reads character codes with getc until ENDFILE. The constants
 * ENDFILE, TAB, BLANK and NEWLINE and the output primitive putdec are not
 * defined in the console's API, so the constants are a parameter and the
 * commands return what they hand to putc and putdec, in order. getc gives
 * -1 at the end of the input, so a command only stops when ENDFILE is -1.
 */
module SoftwareTools {
  import opened ConsoleInput
  import opened CommandInterpreter

  /** The Software-Tools character constants the commands compare against. */
  datatype Codes = Codes(endfile: int, tab: int, blank: int, newline: int)

  /** One output call: putdec(value, width) or putc(code). */
  datatype Emitted = Dec(value: int, width: int) | Put(code: int)

  /** The codes getc delivers for a string, one per character. */
  function CodesOf(s: string): seq<int>
  {
    seq(|s|, i requires 0 <= i < |s| => s[i] as int)
  }

  // ---------------------------------------------------------------------
  // wordcount
  // ---------------------------------------------------------------------

  /** Only BLANK, NEWLINE and TAB separate words. */
  predicate IsSeparator(c: int, k: Codes)
  {
    c == k.blank || c == k.newline || c == k.tab
  }

  /** A word starts at i: a non-separator that opens the input or follows a separator. */
  predicate StartsWord(cs: seq<int>, i: int, k: Codes)
    requires 0 <= i < |cs|
  {
    !IsSeparator(cs[i], k) && (i == 0 || IsSeparator(cs[i - 1], k))
  }

  /** The number of words: maximal runs of non-separators, counted where they start. */
  function Words(cs: seq<int>, k: Codes): nat
    decreases |cs|
  {
    if cs == [] then 0
    else Words(cs[..|cs| - 1], k) + (if StartsWord(cs, |cs| - 1, k) then 1 else 0)
  }

  /** A prefix's word starts are those of the whole that lie in it. */
  lemma WordStartInPrefix(cs: seq<int>, i: nat, j: nat, k: Codes)
    requires j < i <= |cs|
    ensures StartsWord(cs[..i], j, k) == StartsWord(cs, j, k)
  {
  }

  /** Reading one more code adds one word exactly when a word starts there. */
  lemma WordsStep(cs: seq<int>, i: nat, k: Codes)
    requires i < |cs|
    ensures Words(cs[..i + 1], k) == Words(cs[..i], k) + (if StartsWord(cs, i, k) then 1 else 0)
  {
    assert cs[..i + 1][..i] == cs[..i];
  }

  /** There are no more words than non-separators, hence than codes. */
  lemma {:induction false} WordsBounded(cs: seq<int>, k: Codes)
    ensures Words(cs, k) <= |cs|
    ensures (forall i :: 0 <= i < |cs| ==> IsSeparator(cs[i], k)) ==> Words(cs, k) == 0
    decreases |cs|
  {
    if cs != [] {
      var init := cs[..|cs| - 1];
      WordsBounded(init, k);
      if forall i :: 0 <= i < |cs| ==> IsSeparator(cs[i], k) {
        assert forall i :: 0 <= i < |init| ==> IsSeparator(init[i], k) by {
          forall i | 0 <= i < |init| ensures IsSeparator(init[i], k) {
            assert init[i] == cs[i];
          }
        }
      }
    }
  }

  /**
   * Words on both sides of a separator add up: the separator ends the left
   * word and the right side starts afresh.
   */
  lemma {:induction false} WordsSplitAtSeparator(a: seq<int>, sep: int, b: seq<int>, k: Codes)
    requires IsSeparator(sep, k)
    ensures Words(a + [sep] + b, k) == Words(a, k) + Words(b, k)
    decreases |b|
  {
    var whole := a + [sep] + b;
    if b == [] {
      assert whole[..|whole| - 1] == a;
    } else {
      var init := b[..|b| - 1];
      assert whole[..|whole| - 1] == a + [sep] + init;
      WordsSplitAtSeparator(a, sep, init, k);
      assert StartsWord(whole, |whole| - 1, k) == StartsWord(b, |b| - 1, k) by {
        if |b| > 1 {
          assert whole[|whole| - 2] == b[|b| - 2];
        }
      }
    }
  }

  /** Words after a separator alone: a separator ahead of the input changes nothing. */
  lemma {:induction false} WordsAfterSeparator(sep: int, b: seq<int>, k: Codes)
    requires IsSeparator(sep, k)
    ensures Words([sep] + b, k) == Words(b, k)
  {
    WordsSplitAtSeparator([], sep, b, k);
    assert [] + [sep] + b == [sep] + b;
  }

  /** A separator after the input changes nothing either. */
  lemma WordsBeforeSeparator(a: seq<int>, sep: int, k: Codes)
    requires IsSeparator(sep, k)
    ensures Words(a + [sep], k) == Words(a, k)
  {
    assert (a + [sep])[..|a|] == a;
  }

  /** "to be  or\n" holds three words. */
  lemma WordsExample()
    ensures Words(CodesOf("to be  or\n"), Codes(-1, 9, 32, 10)) == 3
  {
    var k := Codes(-1, 9, 32, 10);
    assert Words([116, 111, 32, 98, 101, 32], k) == 2 by {
      WordsSplitAtSeparator([116, 111], 32, [98, 101, 32], k);
      assert [116, 111] + [32] + [98, 101, 32] == [116, 111, 32, 98, 101, 32];
      WordsBeforeSeparator([98, 101], 32, k);
      assert [98, 101] + [32] == [98, 101, 32];
    }
    assert Words([116, 111, 32, 98, 101, 32, 32, 111, 114], k) == 3 by {
      WordsSplitAtSeparator([116, 111, 32, 98, 101, 32], 32, [111, 114], k);
      assert [116, 111, 32, 98, 101, 32] + [32] + [111, 114] == [116, 111, 32, 98, 101, 32, 32, 111, 114];
    }
    WordsBeforeSeparator([116, 111, 32, 98, 101, 32, 32, 111, 114], 10, k);
    assert CodesOf("to be  or\n") == [116, 111, 32, 98, 101, 32, 32, 111, 114] + [10];
  }

  /**
   * wordcount: counts the words of the rest of the input with the in-word
   * flag, then emits putdec(nw, 1) and a NEWLINE.
   */
  method WordCount(api: CommandApi, k: Codes) returns (out: seq<Emitted>)
    requires api.input.Valid() && k.endfile == EofCode
    modifies api.input
    ensures out == [Dec(Words(CodesOf(old(api.input.ToString())), k), 1), Put(k.newline)]
    ensures api.input.ToString() == "" && api.input.str == old(api.input.str) && api.input.Valid()
  {
    ghost var rest := api.input.ToString();
    ghost var cs := CodesOf(rest);
    ghost var i := 0;
    var nw := 0;
    var inword := false;
    var c := api.Getc();
    while c != k.endfile
      invariant api.input.Valid() && api.input.str == old(api.input.str)
      invariant 0 <= i <= |cs|
      invariant c != EofCode ==> i < |cs| && c == cs[i] && api.input.ToString() == rest[i + 1..]
      invariant c == EofCode ==> i == |cs| && api.input.ToString() == ""
      invariant nw == Words(cs[..i], k)
      invariant inword <==> i > 0 && !IsSeparator(cs[i - 1], k)
      decreases |cs| - i
    {
      WordsStep(cs, i, k);
      if c == k.blank || c == k.newline || c == k.tab {
        inword := false;
      } else if !inword {
        inword := true;
        nw := nw + 1;
      }
      i := i + 1;
      c := api.Getc();
    }
    assert cs[..i] == cs;
    out := [Dec(nw, 1), Put(k.newline)];
  }

  // ---------------------------------------------------------------------
  // linecount
  // ---------------------------------------------------------------------

  /** The number of lines: how many NEWLINE codes the input holds. */
  function Lines(cs: seq<int>, k: Codes): nat
  {
    multiset(cs)[k.newline]
  }

  /**
   * Every NEWLINE ends one line and a last line without one is not counted;
   * there are never more lines than codes.
   */
  lemma LinesCounted(cs: seq<int>, tail: seq<int>, k: Codes)
    requires k.newline !in tail
    ensures Lines(cs + [k.newline], k) == Lines(cs, k) + 1
    ensures Lines(cs + tail, k) == Lines(cs, k)
    ensures Lines(cs, k) <= |cs|
  {
    assert multiset(tail)[k.newline] == 0;
  }

  /** Reading one more code adds one line exactly when it is a NEWLINE. */
  lemma LinesStep(cs: seq<int>, i: nat, k: Codes)
    requires i < |cs|
    ensures Lines(cs[..i + 1], k) == Lines(cs[..i], k) + (if cs[i] == k.newline then 1 else 0)
  {
    assert cs[..i + 1] == cs[..i] + [cs[i]];
  }

  /** linecount: counts the NEWLINE codes of the rest of the input, then emits putdec(nl, 1) and a NEWLINE. */
  method LineCount(api: CommandApi, k: Codes) returns (out: seq<Emitted>)
    requires api.input.Valid() && k.endfile == EofCode
    modifies api.input
    ensures out == [Dec(Lines(CodesOf(old(api.input.ToString())), k), 1), Put(k.newline)]
    ensures api.input.ToString() == "" && api.input.str == old(api.input.str) && api.input.Valid()
  {
    ghost var rest := api.input.ToString();
    ghost var cs := CodesOf(rest);
    ghost var i := 0;
    var nl := 0;
    var c := api.Getc();
    while c != k.endfile
      invariant api.input.Valid() && api.input.str == old(api.input.str)
      invariant 0 <= i <= |cs|
      invariant c != EofCode ==> i < |cs| && c == cs[i] && api.input.ToString() == rest[i + 1..]
      invariant c == EofCode ==> i == |cs| && api.input.ToString() == ""
      invariant nl == Lines(cs[..i], k)
      decreases |cs| - i
    {
      LinesStep(cs, i, k);
      if c == k.newline {
        nl := nl + 1;
      }
      i := i + 1;
      c := api.Getc();
    }
    assert cs[..i] == cs;
    out := [Dec(nl, 1), Put(k.newline)];
  }

  // ---------------------------------------------------------------------
  // detab
  // ---------------------------------------------------------------------

  /** MAXLINE: the last column the tab-stop table covers. */
  const MaxLine := 1000

  /** The tab stops settabs sets, 4 columns apart from column 1, and every column past MAXLINE. */
  predicate IsTabStop(col: int)
  {
    col > MaxLine || (1 <= col < MaxLine && col % 4 == 1)
  }

  /** How many blanks a TAB at column col emits: up to the next tab stop. */
  function BlanksFrom(col: int): (n: nat)
    ensures 1 <= n <= 4
  {
    if col > MaxLine then 1 else 4 - (col - 1) % 4
  }

  /** n BLANK codes. */
  function Blanks(n: nat, k: Codes): seq<Emitted>
  {
    seq(n, _ => Put(k.blank))
  }

  /** What detab emits for one code c with the cursor at column col. */
  function Emit(c: int, col: int, k: Codes): seq<Emitted>
  {
    if c == k.tab then Blanks(BlanksFrom(col), k) else [Put(c)]
  }

  /**
   * The column after code c: a TAB moves to the next tab stop, a NEWLINE
   * back to column 1, anything else one column on.
   */
  function NextColumn(c: int, col: int, k: Codes): int
  {
    if c == k.tab then col + BlanksFrom(col) else if c == k.newline then 1 else col + 1
  }

  /**
   * What detab emits for codes cs with the cursor at column col: a TAB
   * becomes blanks up to the next tab stop, a NEWLINE is copied and goes
   * back to column 1, anything else is copied and advances one column.
   */
  function Detabbed(cs: seq<int>, col: int, k: Codes): seq<Emitted>
    decreases |cs|
  {
    if cs == [] then [] else Emit(cs[0], col, k) + Detabbed(cs[1..], NextColumn(cs[0], col, k), k)
  }

  /** The loop of detab keeps its invariant: what is emitted plus what the rest gives is the whole. */
  lemma DetabbedAdvance(out: seq<Emitted>, cs: seq<int>, i: nat, col: int, k: Codes)
    requires i < |cs| && out + Detabbed(cs[i..], col, k) == Detabbed(cs, 1, k)
    ensures (out + Emit(cs[i], col, k)) + Detabbed(cs[i + 1..], NextColumn(cs[i], col, k), k) == Detabbed(cs, 1, k)
  {
    assert cs[i..][1..] == cs[i + 1..];
  }

  /** One blank further: the count goes down by one, or the next column is a stop. */
  lemma BlanksStep(col: int)
    requires col >= 1
    ensures BlanksFrom(col) == 1 + (if IsTabStop(col + 1) then 0 else BlanksFrom(col + 1))
  {
  }

  /**
   * A TAB at column col moves the cursor to the next tab stop after col: the
   * columns it skips are not stops. At columns up to MAXLINE that is
   * 4 - (col - 1) mod 4 columns on; past MAXLINE it is one.
   */
  lemma {:induction false} TabReachesNextStop(col: int)
    requires col >= 1
    ensures IsTabStop(col + BlanksFrom(col))
    ensures forall j :: col < j < col + BlanksFrom(col) ==> !IsTabStop(j)
    decreases BlanksFrom(col)
  {
    BlanksStep(col);
    if !IsTabStop(col + 1) {
      TabReachesNextStop(col + 1);
    }
  }

  /** With TAB distinct from BLANK and NEWLINE, detab never emits a TAB. */
  lemma {:induction false} DetabbedHasNoTab(cs: seq<int>, col: int, k: Codes)
    requires k.tab != k.blank && k.tab != k.newline
    ensures Put(k.tab) !in Detabbed(cs, col, k)
    decreases |cs|
  {
    if cs != [] {
      if cs[0] == k.tab {
        DetabbedHasNoTab(cs[1..], col + BlanksFrom(col), k);
      } else if cs[0] == k.newline {
        DetabbedHasNoTab(cs[1..], 1, k);
      } else {
        DetabbedHasNoTab(cs[1..], col + 1, k);
      }
    }
  }

  /** Without TABs detab copies its input. */
  lemma {:induction false} DetabbedWithoutTabs(cs: seq<int>, col: int, k: Codes)
    requires k.tab !in cs
    ensures Detabbed(cs, col, k) == seq(|cs|, i requires 0 <= i < |cs| => Put(cs[i]))
    decreases |cs|
  {
    if cs != [] {
      assert k.tab !in cs[1..] by {
        assert forall x :: x in cs[1..] ==> x in cs;
      }
      if cs[0] == k.newline {
        DetabbedWithoutTabs(cs[1..], 1, k);
      } else {
        DetabbedWithoutTabs(cs[1..], col + 1, k);
      }
    }
  }

  /** "a\tb" with TAB 9: the tab at column 2 becomes three blanks, so b lands at column 5. */
  lemma DetabExample()
    ensures Detabbed([97, 9, 98], 1, Codes(-1, 9, 32, 10)) ==
              [Put(97), Put(32), Put(32), Put(32), Put(98)]
  {
    var k := Codes(-1, 9, 32, 10);
    assert Blanks(3, k) == [Put(32), Put(32), Put(32)];
    assert [97, 9, 98][1..] == [9, 98];
    assert [9, 98][1..] == [98];
  }

  /** tabpos: past MAXLINE every column is a stop; otherwise the table decides. */
  function TabPos(col: int, tabstops: array<bool>): bool
    requires tabstops.Length == MaxLine + 1
    reads tabstops
  {
    if col > MaxLine then true else if col < 0 then false else tabstops[col]
  }

  /** The table holds exactly the stops: true iff the column is a tab stop. */
  predicate TabStopsSet(tabstops: array<bool>)
    reads tabstops
  {
    tabstops.Length == MaxLine + 1 &&
    forall j :: 0 <= j <= MaxLine ==> tabstops[j] == IsTabStop(j)
  }

  /** settabs: marks column i as a stop iff i mod 4 = 1, for 1 <= i < MAXLINE. */
  method SetTabs(tabstops: array<bool>)
    requires tabstops.Length == MaxLine + 1
    modifies tabstops
    ensures forall i :: 1 <= i < MaxLine ==> tabstops[i] == (i % 4 == 1)
    ensures tabstops[0] == old(tabstops[0]) && tabstops[MaxLine] == old(tabstops[MaxLine])
  {
    var tabSpace := 4;
    for i := 1 to MaxLine
      invariant forall j :: 1 <= j < i ==> tabstops[j] == (j % tabSpace == 1)
      invariant tabstops[0] == old(tabstops[0]) && tabstops[MaxLine] == old(tabstops[MaxLine])
    {
      tabstops[i] := i % tabSpace == 1;
    }
  }

  /**
   * The do-while of detab: one blank, then more until the column is a tab
   * stop; the blanks emitted and the column reached.
   */
  method ExpandTab(col: int, tabstops: array<bool>, k: Codes) returns (blanks: seq<Emitted>, next: int)
    requires col >= 1 && TabStopsSet(tabstops)
    ensures blanks == Blanks(BlanksFrom(col), k) && next == col + BlanksFrom(col)
  {
    blanks := [Put(k.blank)];
    next := col + 1;
    BlanksStep(col);
    while !TabPos(next, tabstops)
      invariant col < next
      invariant BlanksFrom(col) == (next - col) + (if IsTabStop(next) then 0 else BlanksFrom(next))
      invariant blanks == Blanks(next - col, k)
      decreases col + BlanksFrom(col) - next
    {
      BlanksStep(next);
      assert Blanks(next - col, k) + [Put(k.blank)] == Blanks(next + 1 - col, k);
      blanks := blanks + [Put(k.blank)];
      next := next + 1;
    }
  }

  /**
   * detab: replaces each TAB of the rest of the input by blanks up to the
   * next tab stop, copying everything else; a TAB always emits at least one
   * blank. The table entries settabs leaves unwritten (0 and MAXLINE) read
   * as undefined, which counts as "no stop".
   */
  method Detab(api: CommandApi, k: Codes) returns (out: seq<Emitted>)
    requires api.input.Valid() && k.endfile == EofCode
    modifies api.input
    ensures out == Detabbed(CodesOf(old(api.input.ToString())), 1, k)
    ensures api.input.ToString() == "" && api.input.str == old(api.input.str) && api.input.Valid()
  {
    var tabstops := new bool[MaxLine + 1](_ => false);
    SetTabs(tabstops);
    out := DetabWith(api, k, tabstops);
  }

  /** The main loop of detab, with the tab stop table settabs has filled. */
  method DetabWith(api: CommandApi, k: Codes, tabstops: array<bool>) returns (out: seq<Emitted>)
    requires api.input.Valid() && k.endfile == EofCode && TabStopsSet(tabstops)
    modifies api.input
    ensures out == Detabbed(CodesOf(old(api.input.ToString())), 1, k)
    ensures api.input.ToString() == "" && api.input.str == old(api.input.str) && api.input.Valid()
  {
    ghost var rest := api.input.ToString();
    ghost var cs := CodesOf(rest);
    ghost var i := 0;
    out := [];
    var col := 1;
    var c := api.Getc();
    while c != k.endfile
      invariant api.input.Valid() && api.input.str == old(api.input.str)
      invariant 0 <= i <= |cs| && col >= 1
      invariant c != EofCode ==> i < |cs| && c == cs[i] && api.input.ToString() == rest[i + 1..]
      invariant c == EofCode ==> i == |cs| && api.input.ToString() == ""
      invariant out + Detabbed(cs[i..], col, k) == Detabbed(cs, 1, k)
      decreases |cs| - i
    {
      ghost var out0, col0 := out, col;
      if c == k.tab {
        var blanks;
        blanks, col := ExpandTab(col, tabstops, k);
        out := out + blanks;
      } else if c == k.newline {
        out := out + [Put(k.newline)];
        col := 1;
      } else {
        out := out + [Put(c)];
        col := col + 1;
      }
      assert out == out0 + Emit(c, col0, k) && col == NextColumn(c, col0, k);
      DetabbedAdvance(out0, cs, i, col0, k);
      i := i + 1;
      c := api.Getc();
    }
  }
}
