/**
 * The tokenizer toolkit (dependencies/h_parsetk.js): scans over an immutable
 * string that return an index, with -1 as the "not found" sentinel, and the
 * token readers built on them.
 *
 * JavaScript reads `str[i]` outside the string as `undefined`, which is not a
 * space and equals no character; `CharAt` models that read. The scans accept
 * any integer start, including the -1 sentinel and other negative values,
 * because the source never rejects them.
 */
module ParseToolkit {
  import opened Outcomes

  /** `str[i]`: the character at i, or `undefined` (None) outside the string. */
  function CharAt(str: string, i: int): Option<char>
  {
    if 0 <= i < |str| then Some(str[i]) else None
  }

  /** `str[i] === " "`: an undefined read is not a space. */
  predicate IsSpaceAt(str: string, i: int)
  {
    CharAt(str, i) == Some(' ')
  }

  /** What `token += str[i]` appends: the character, or the text "undefined". */
  function Appended(c: Option<char>): string
  {
    if c.Some? then [c.value] else "undefined"
  }

  /** The text of `n` undefined reads concatenated onto a string. */
  function Undefineds(n: nat): (s: string)
    ensures |s| == 9 * n
    ensures ' ' !in s
  {
    if n == 0 then "" else Undefineds(n - 1) + "undefined"
  }

  /** The first position at or after i that holds no space, or |str|. */
  function NextNonSpace(str: string, i: nat): (r: nat)
    requires i <= |str|
    ensures i <= r <= |str|
    ensures forall k :: i <= k < r ==> str[k] == ' '
    ensures r == |str| || str[r] != ' '
    decreases |str| - i
  {
    if i < |str| && str[i] == ' ' then NextNonSpace(str, i + 1) else i
  }

  /** The first position at or after i that holds a space, or |str|. */
  function NextSpace(str: string, i: nat): (r: nat)
    requires i <= |str|
    ensures i <= r <= |str|
    ensures forall k :: i <= k < r ==> str[k] != ' '
    ensures r == |str| || str[r] == ' '
    decreases |str| - i
  {
    if i < |str| && str[i] != ' ' then NextSpace(str, i + 1) else i
  }

  /**
   * The index skipSpaces returns. A start past the end gives -1; a negative
   * start is returned as it is, since `str[start]` is undefined and the loop
   * never runs (so the sentinel -1 stays -1).
   */
  function SkipSpacesIndex(str: string, start: int): (r: int)
    ensures r == -1 <==> start > |str| - 1 || start == -1
    ensures start < 0 && start <= |str| - 1 ==> r == start
    ensures 0 <= start <= |str| - 1 ==>
              start <= r <= |str| &&
              (forall k :: start <= k < r ==> str[k] == ' ') &&
              (r == |str| || str[r] != ' ')
  {
    if start > |str| - 1 then -1
    else if start < 0 then start
    else NextNonSpace(str, start)
  }

  /**
   * The index skipNonSpaces returns: -1 past the end, otherwise the first
   * space at or after start, or |str|. A negative start walks through the
   * undefined reads up to 0, so the scan restarts from the beginning.
   */
  function SkipNonSpacesIndex(str: string, start: int): (r: int)
    ensures r == -1 <==> start > |str| - 1
    ensures start <= |str| - 1 ==>
              var from := if start < 0 then 0 else start;
              from <= r <= |str| &&
              (forall k :: from <= k < r ==> str[k] != ' ') &&
              (r == |str| || str[r] == ' ')
  {
    if start > |str| - 1 then -1
    else NextSpace(str, if start < 0 then 0 else start)
  }

  /** skipSpaces (h_parsetk.js:19-28). */
  method SkipSpaces(str: string, start: int) returns (index: int)
    ensures index == SkipSpacesIndex(str, start)
  {
    if start > |str| - 1 {
      return -1;
    }
    index := start;
    while IsSpaceAt(str, index) && index < |str|
      invariant start <= index <= |str|
      invariant start < 0 ==> index == start
      invariant 0 <= start ==> forall k :: start <= k < index ==> str[k] == ' '
      decreases |str| - index
    {
      index := index + 1;
    }
    if 0 <= start {
      NextNonSpaceUnique(str, start, index);
    }
  }

  /** skipNonSpaces (h_parsetk.js:40-49). */
  method SkipNonSpaces(str: string, start: int) returns (index: int)
    ensures index == SkipNonSpacesIndex(str, start)
  {
    if start > |str| - 1 {
      return -1;
    }
    index := start;
    while !IsSpaceAt(str, index) && index < |str|
      invariant start <= index <= |str|
      invariant forall k :: 0 <= k < index && start <= k ==> str[k] != ' '
      decreases |str| - index
    {
      index := index + 1;
    }
    NextSpaceUnique(str, if start < 0 then 0 else start, index);
  }

  /** Any position with the characterisation of NextNonSpace is NextNonSpace. */
  lemma NextNonSpaceUnique(str: string, i: nat, j: int)
    requires i <= j <= |str|
    requires forall k :: i <= k < j ==> str[k] == ' '
    requires j == |str| || str[j] != ' '
    ensures j == NextNonSpace(str, i)
  {
  }

  /** Any position with the characterisation of NextSpace is NextSpace. */
  lemma NextSpaceUnique(str: string, i: nat, j: int)
    requires i <= j <= |str|
    requires forall k :: i <= k < j ==> str[k] != ' '
    requires j == |str| || str[j] == ' '
    ensures j == NextSpace(str, i)
  {
  }

  /**
   * The token peekToken returns: the maximal space-free run that begins
   * exactly at start (the discarded skipSpaces call skips nothing). A start
   * at or past the end gives "", and a negative start first appends one
   * "undefined" per undefined read before the run that begins at 0.
   */
  function PeekedToken(str: string, start: int): (t: string)
    ensures ' ' !in t
    ensures start >= |str| ==> t == ""
    ensures 0 <= start < |str| ==>
              start + |t| <= |str| && t == str[start..start + |t|] &&
              (start + |t| == |str| || str[start + |t|] == ' ')
    ensures 0 <= start < |str| && str[start] == ' ' ==> t == ""
  {
    if start >= |str| then ""
    else if start < 0 then Undefineds(-start) + str[..NextSpace(str, 0)]
    else str[start..NextSpace(str, start)]
  }

  /** peekToken (h_parsetk.js:59-71). */
  method PeekToken(str: string, start: int) returns (token: string)
    ensures token == PeekedToken(str, start)
  {
    // Lines 60-62 evaluate "" without returning it, so control always reaches the loop.
    var index := start;
    var skipped := SkipSpaces(str, index); // the result is not used (line 64)
    token := "";
    while !IsSpaceAt(str, index) && index < |str|
      invariant start <= index
      invariant start < |str| ==> index <= |str|
      invariant start >= |str| ==> index == start && token == ""
      invariant index < 0 ==> token == Undefineds(index - start)
      invariant 0 <= index && start < |str| ==>
                  token == Undefineds(if start < 0 then -start else 0) + str[(if start < 0 then 0 else start)..index]
      invariant 0 <= index && start < |str| ==>
                  forall k :: (if start < 0 then 0 else start) <= k < index ==> str[k] != ' '
      decreases |str| - index
    {
      if index == -1 {
        assert str[0..0] == "";
      }
      token := token + Appended(CharAt(str, index));
      index := index + 1;
    }
    if start < |str| {
      NextSpaceUnique(str, if start < 0 then 0 else start, index);
    }
  }

  /** The result of `steps` more turns of findTokenIndex's loop from (nonSpace, space). */
  function TokenWalk(str: string, steps: nat, nonSpace: int, space: int): (r: int)
    ensures (nonSpace == -1 || 0 <= nonSpace <= |str|) && (space == -1 || 0 <= space <= |str|) ==>
              r == -1 || 0 <= r <= |str|
    decreases steps
  {
    if steps == 0 then nonSpace
    else
      var next := SkipSpacesIndex(str, space);
      TokenWalk(str, steps - 1, next, SkipNonSpacesIndex(str, next))
  }

  /**
   * The index findTokenIndex returns: -1 past the end, otherwise the value
   * of nonSpace after `n` turns that alternate skipSpaces and skipNonSpaces.
   */
  function TokenIndex(str: string, n: int, start: int): (r: int)
    ensures start > |str| - 1 ==> r == -1
    ensures 0 <= start ==> r == -1 || 0 <= r <= |str|
  {
    if start > |str| - 1 then -1 else TokenWalk(str, if n < 0 then 0 else n, start, start)
  }

  /** findTokenIndex (h_parsetk.js:85-98). */
  method FindTokenIndex(str: string, n: int, start: int) returns (index: int)
    ensures index == TokenIndex(str, n, start)
  {
    if start > |str| - 1 {
      return -1;
    }
    var nonSpace := start;
    var space := start;
    ghost var steps: nat := if n < 0 then 0 else n;
    var i := 0;
    while i < n
      invariant 0 <= i <= steps
      invariant TokenWalk(str, steps - i, nonSpace, space) == TokenWalk(str, steps, start, start)
    {
      nonSpace := SkipSpaces(str, space);
      space := SkipNonSpaces(str, nonSpace);
      i := i + 1;
    }
    index := nonSpace;
  }

  /** The token findToken returns. */
  function FoundToken(str: string, n: int, start: int): (t: string)
    ensures ' ' !in t
    ensures start > |str| - 1 ==> t == ""
    ensures TokenIndex(str, n, start) == -1 ==> t == ""
  {
    if start > |str| - 1 then ""
    else
      var first := TokenIndex(str, n, start);
      if first == -1 then "" else PeekedToken(str, first)
  }

  /** findToken (h_parsetk.js:121-131). */
  method FindToken(str: string, n: int, start: int) returns (token: string)
    ensures token == FoundToken(str, n, start)
  {
    if start > |str| - 1 {
      return "";
    }
    var first := FindTokenIndex(str, n, start);
    if first == -1 {
      return "";
    }
    token := PeekToken(str, first);
  }

  /** The string peekAfterToken returns: always a suffix of str. */
  function AfterToken(str: string, n: int): (r: string)
    ensures |r| <= |str| && r == str[|str| - |r|..]
    ensures str == "" ==> r == ""
  {
    if str == "" then ""
    else
      var first := TokenIndex(str, n + 1, 0);
      if first == -1 then "" else str[first..]
  }

  /** peekAfterToken (h_parsetk.js:149-158). */
  method PeekAfterToken(str: string, n: int) returns (rest: string)
    ensures rest == AfterToken(str, n)
  {
    if str == "" {
      return "";
    }
    var first := FindTokenIndex(str, n + 1, 0);
    if first == -1 {
      return "";
    }
    rest := str[first..];
  }

  // ---------------------------------------------------------------------
  // What the scans find, stated without them: tokens are maximal runs of
  // non-space characters, counted by where they begin.
  // ---------------------------------------------------------------------

  /** A token begins at i: i holds no space and is the first position or follows a space. */
  predicate BeginsToken(str: string, i: int)
  {
    0 <= i < |str| && str[i] != ' ' && (i == 0 || str[i - 1] == ' ')
  }

  /** The number of tokens that begin before position hi. */
  function TokensBefore(str: string, hi: nat): (c: nat)
    requires hi <= |str|
    ensures c <= hi
  {
    if hi == 0 then 0 else TokensBefore(str, hi - 1) + (if BeginsToken(str, hi - 1) then 1 else 0)
  }

  /** The number of tokens in str. */
  function TokenCount(str: string): nat
  {
    TokensBefore(str, |str|)
  }

  /**
   * The pair (nonSpace, space) of findTokenIndex's loop once it has passed k
   * tokens: nonSpace is where the k-th token begins, space where it ends.
   */
  predicate AtToken(str: string, k: nat, nonSpace: int, space: int)
  {
    if k == 0 then nonSpace == 0 && space == 0
    else BeginsToken(str, nonSpace) && TokensBefore(str, nonSpace) == k - 1 && space == NextSpace(str, nonSpace)
  }

  lemma {:induction false} TokensBeforeMonotone(str: string, a: nat, b: nat)
    requires a <= b <= |str|
    ensures TokensBefore(str, a) <= TokensBefore(str, b)
    decreases b - a
  {
    if a < b {
      TokensBeforeMonotone(str, a, b - 1);
    }
  }

  /** No token begins on a space. */
  lemma {:induction false} SpacesBeginNoToken(str: string, a: nat, b: nat)
    requires a <= b <= |str|
    requires forall k :: a <= k < b ==> str[k] == ' '
    ensures TokensBefore(str, b) == TokensBefore(str, a)
    decreases b - a
  {
    if a < b {
      SpacesBeginNoToken(str, a, b - 1);
    }
  }

  /** A space-free run that begins a token holds exactly one token beginning. */
  lemma {:induction false} RunBeginsOneToken(str: string, a: nat, b: nat)
    requires a < b <= |str|
    requires BeginsToken(str, a)
    requires forall k :: a <= k < b ==> str[k] != ' '
    ensures TokensBefore(str, b) == TokensBefore(str, a) + 1
    decreases b - a
  {
    if a + 1 < b {
      RunBeginsOneToken(str, a, b - 1);
      assert !BeginsToken(str, b - 1);
    }
  }

  /** Where the scan for the next token lands after the k-th token ends at e. */
  lemma NextTokenStart(str: string, k: nat, e: nat)
    requires k <= TokenCount(str) && e <= |str|
    requires TokensBefore(str, e) == k
    requires k == 0 ==> e == 0
    requires k > 0 ==> e == |str| || str[e] == ' '
    ensures var q := NextNonSpace(str, e);
            TokensBefore(str, q) == k &&
            (q < |str| ==> BeginsToken(str, q)) &&
            (q < |str| <==> k < TokenCount(str))
  {
    var q := NextNonSpace(str, e);
    SpacesBeginNoToken(str, e, q);
    if q < |str| {
      assert BeginsToken(str, q);
      assert TokensBefore(str, q + 1) == k + 1;
      TokensBeforeMonotone(str, q + 1, |str|);
    }
  }

  /** k tokens begin before the place where the loop's space index stands after k tokens. */
  lemma EndOfTokenCount(str: string, k: nat, nonSpace: int, space: int)
    requires AtToken(str, k, nonSpace, space)
    ensures 0 <= space <= |str| && TokensBefore(str, space) == k
    ensures k > 0 ==> space == |str| || str[space] == ' '
  {
    if k > 0 {
      RunBeginsOneToken(str, nonSpace, space);
    }
  }

  /** Each turn of findTokenIndex's loop moves on to the start of the next token. */
  lemma {:induction false} WalkFindsTokens(str: string, k: nat, steps: nat, nonSpace: int, space: int)
    requires k + steps <= TokenCount(str)
    requires AtToken(str, k, nonSpace, space)
    ensures var r := TokenWalk(str, steps, nonSpace, space);
            if k + steps == 0 then r == 0
            else BeginsToken(str, r) && TokensBefore(str, r) == k + steps - 1
    decreases steps
  {
    if steps > 0 {
      EndOfTokenCount(str, k, nonSpace, space);
      NextTokenStart(str, k, space);
      var q := NextNonSpace(str, space);
      assert SkipSpacesIndex(str, space) == q;
      assert SkipNonSpacesIndex(str, q) == NextSpace(str, q);
      WalkFindsTokens(str, k + 1, steps - 1, q, NextSpace(str, q));
    }
  }

  /** One turn more than there are tokens lands on -1 or on the end of the string. */
  lemma {:induction false} WalkPastLastToken(str: string, k: nat, steps: nat, nonSpace: int, space: int)
    requires k + steps == TokenCount(str) + 1 && 0 < steps
    requires AtToken(str, k, nonSpace, space)
    ensures var r := TokenWalk(str, steps, nonSpace, space); r == -1 || r == |str|
    decreases steps
  {
    EndOfTokenCount(str, k, nonSpace, space);
    NextTokenStart(str, k, space);
    var q := NextNonSpace(str, space);
    if steps == 1 {
      assert SkipSpacesIndex(str, space) == -1 || SkipSpacesIndex(str, space) == q == |str|;
    } else {
      assert SkipSpacesIndex(str, space) == q;
      assert SkipNonSpacesIndex(str, q) == NextSpace(str, q);
      WalkPastLastToken(str, k + 1, steps - 1, q, NextSpace(str, q));
    }
  }

  /**
   * findTokenIndex(str, n, 0) for 1 <= n <= the number of tokens: the index
   * where a token begins with n - 1 tokens before it.
   */
  lemma FindTokenIndexFromStart(str: string, n: int)
    requires 1 <= n <= TokenCount(str)
    ensures var i := TokenIndex(str, n, 0);
            BeginsToken(str, i) && TokensBefore(str, i) == n - 1
  {
    WalkFindsTokens(str, 0, n, 0, 0);
  }

  /** findToken(str, n, 0) is the n-th token: the maximal space-free run that begins there. */
  lemma FindTokenFromStart(str: string, n: int)
    requires 1 <= n <= TokenCount(str)
    ensures var i := TokenIndex(str, n, 0);
            var t := FoundToken(str, n, 0);
            BeginsToken(str, i) && TokensBefore(str, i) == n - 1 &&
            t != "" && i + |t| <= |str| && t == str[i..i + |t|] &&
            (i + |t| == |str| || str[i + |t|] == ' ')
  {
    FindTokenIndexFromStart(str, n);
  }

  /** peekAfterToken(str, n) for n below the number of tokens starts where token n + 1 begins. */
  lemma AfterTokenStartsAtNextToken(str: string, n: int)
    requires 0 <= n < TokenCount(str)
    ensures var r := AfterToken(str, n);
            r != "" && BeginsToken(str, |str| - |r|) && TokensBefore(str, |str| - |r|) == n
  {
    var i := TokenIndex(str, n + 1, 0);
    assert BeginsToken(str, i) && TokensBefore(str, i) == n by {
      FindTokenIndexFromStart(str, n + 1);
    }
    assert AfterToken(str, n) == str[i..];
  }

  /** After the last token nothing is left. */
  lemma AfterLastToken(str: string)
    ensures AfterToken(str, TokenCount(str)) == ""
  {
    var n := TokenCount(str);
    if str != "" {
      WalkPastLastToken(str, 0, n + 1, 0, 0);
    }
  }

  // ---------------------------------------------------------------------
  // The documented examples (h_parsetk.js:109-117, 141-147) and the wrap.
  // ---------------------------------------------------------------------

  lemma FindTokenExamples()
    ensures FoundToken("Lorem ipsum dolor sit amet", 1, 7) == "psum"
    ensures FoundToken("Lorem ipsum dolor sit amet", 2, 7) == "dolor"
  {
    var s := "Lorem ipsum dolor sit amet";
    LoremScans();
    assert TokenWalk(s, 1, 7, 7) == TokenWalk(s, 0, 7, 11) == 7;
    assert TokenWalk(s, 2, 7, 7) == TokenWalk(s, 1, 7, 11) == TokenWalk(s, 0, 12, 17) == 12;
    assert PeekedToken(s, 7) == s[7..11];
    assert PeekedToken(s, 12) == s[12..17];
  }

  /** Where skipSpaces stops in the documented example string. */
  lemma LoremSpaceScans()
    ensures SkipSpacesIndex("Lorem ipsum dolor sit amet", 0) == 0
    ensures SkipSpacesIndex("Lorem ipsum dolor sit amet", 5) == 6
    ensures SkipSpacesIndex("Lorem ipsum dolor sit amet", 7) == 7
    ensures SkipSpacesIndex("Lorem ipsum dolor sit amet", 11) == 12
  {
    var s := "Lorem ipsum dolor sit amet";
    NextNonSpaceUnique(s, 5, 6);
    NextNonSpaceUnique(s, 11, 12);
  }

  /** Where skipNonSpaces stops in the first token of the documented example string. */
  lemma LoremFirstTokenScans()
    ensures SkipNonSpacesIndex("Lorem ipsum dolor sit amet", 0) == 5
  {
    NextSpaceUnique("Lorem ipsum dolor sit amet", 0, 5);
  }

  /** Where skipNonSpaces stops in the second and third tokens of the documented example string. */
  lemma LoremLaterTokenScans()
    ensures SkipNonSpacesIndex("Lorem ipsum dolor sit amet", 6) == 11
    ensures SkipNonSpacesIndex("Lorem ipsum dolor sit amet", 7) == 11
    ensures SkipNonSpacesIndex("Lorem ipsum dolor sit amet", 12) == 17
  {
    var s := "Lorem ipsum dolor sit amet";
    NextSpaceUnique(s, 6, 11);
    NextSpaceUnique(s, 7, 11);
    NextSpaceUnique(s, 12, 17);
  }

  /** Where the scans stop in the documented example string. */
  lemma LoremScans()
    ensures SkipSpacesIndex("Lorem ipsum dolor sit amet", 0) == 0
    ensures SkipNonSpacesIndex("Lorem ipsum dolor sit amet", 0) == 5
    ensures SkipSpacesIndex("Lorem ipsum dolor sit amet", 5) == 6
    ensures SkipNonSpacesIndex("Lorem ipsum dolor sit amet", 6) == 11
    ensures SkipSpacesIndex("Lorem ipsum dolor sit amet", 11) == 12
    ensures SkipSpacesIndex("Lorem ipsum dolor sit amet", 7) == 7
    ensures SkipNonSpacesIndex("Lorem ipsum dolor sit amet", 7) == 11
    ensures SkipNonSpacesIndex("Lorem ipsum dolor sit amet", 12) == 17
  {
    LoremSpaceScans();
    LoremFirstTokenScans();
    LoremLaterTokenScans();
  }

  /**
   * peekAfterToken on the documented example string: after token 0 comes
   * the whole string, after token 1 "ipsum dolor sit amet" (from index 6),
   * after token 2 "dolor sit amet" (from index 12).
   */
  lemma PeekAfterTokenExamples()
    ensures AfterToken("Lorem ipsum dolor sit amet", 0) == "Lorem ipsum dolor sit amet"
    ensures AfterToken("Lorem ipsum dolor sit amet", 1) == "Lorem ipsum dolor sit amet"[6..]
    ensures AfterToken("Lorem ipsum dolor sit amet", 2) == "Lorem ipsum dolor sit amet"[12..]
  {
    var s := "Lorem ipsum dolor sit amet";
    LoremScans();
    assert TokenWalk(s, 1, 0, 0) == TokenWalk(s, 0, 0, 5) == 0;
    assert TokenWalk(s, 2, 0, 0) == TokenWalk(s, 1, 0, 5) == TokenWalk(s, 0, 6, 11) == 6;
    assert TokenWalk(s, 3, 0, 0) == TokenWalk(s, 2, 0, 5) == TokenWalk(s, 1, 6, 11) == 12;
  }

  /**
   * Asking for more tokens than exist does not give "": past the end the
   * sentinel -1 sends skipNonSpaces back to the start, so the walk wraps
   * around. "a b" has two tokens, yet its fourth token is "b" and what
   * follows its third token is "b".
   */
  lemma TokenWalkWraps()
    ensures TokenCount("a b") == 2
    ensures FoundToken("a b", 3, 0) == ""
    ensures FoundToken("a b", 4, 0) == "b"
    ensures AfterToken("a b", 3) == "b"
  {
    var s := "a b";
    assert BeginsToken(s, 0) && !BeginsToken(s, 1) && BeginsToken(s, 2);
    assert NextSpace(s, 0) == 1;
    assert NextNonSpace(s, 1) == 2;
    assert NextSpace(s, 2) == 3;
  }
}
