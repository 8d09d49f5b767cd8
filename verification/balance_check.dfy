/**
 * The two balance checkers: `chkbal` (src/main/javascript/cmds/chkbal.js),
 * whose first token chooses the pair of characters to count, and the inline
 * `chkbal` (src/main/javascript/cmds/inline/chkbal.js), which counts
 * parentheses over the whole input.
 *
 * Both compare one-character strings with `===`, so the model keeps the
 * opening and closing "characters" as strings: an unknown opener leaves
 * them "", which no character read from the input ever equals. Both count
 * only the net number of openers minus closers; the order in which they
 * occur is never looked at. The line a checker prints is its result.
 */
module BalanceCheck {
  import opened Outcomes
  import opened ConsoleInput

  /** How many characters x of s read as `unit` (`x === unit`); counted from the end. */
  function Count(s: string, unit: string): nat
    decreases |s|
  {
    if s == [] then 0 else Count(s[..|s| - 1], unit) + (if [s[|s| - 1]] == unit then 1 else 0)
  }

  /** A single-character unit counts its occurrences; any other string is never matched. */
  lemma {:induction false} CountIsOccurrences(s: string, unit: string)
    ensures |unit| == 1 ==> Count(s, unit) == multiset(s)[unit[0]]
    ensures |unit| != 1 ==> Count(s, unit) == 0
    decreases |s|
  {
    if s != [] {
      var init := s[..|s| - 1];
      CountIsOccurrences(init, unit);
      assert s == init + [s[|s| - 1]];
      assert multiset(s) == multiset(init) + multiset{s[|s| - 1]};
    }
  }

  /** Reading one more character: the count grows by one exactly when it matches. */
  lemma CountStep(s: string, i: nat, unit: string)
    requires i < |s|
    ensures Count(s[..i + 1], unit) == Count(s[..i], unit) + (if [s[i]] == unit then 1 else 0)
  {
    assert s[..i + 1][..i] == s[..i];
  }

  /**
   * The opening and closing characters the first token selects: one of the
   * pairs (), [], {}, <>, opened by the token itself; any other token gives
   * two empty strings.
   */
  function PairOf(token: string): (r: (string, string))
    ensures r.0 == "" <==> r.1 == ""
    ensures r.0 != "" ==> r.0 == token && |r.1| == 1 && r.0 != r.1
    ensures r.0 != "" <==> token in {"(", "[", "{", "<"}
  {
    if token == "(" then ("(", ")")
    else if token == "[" then ("[", "]")
    else if token == "{" then ("{", "}")
    else if token == "<" then ("<", ">")
    else ("", "")
  }

  /**
   * The line chkbal prints for the selected pair and the characters read
   * after the token: OK when the counts of opening and closing characters
   * cancel and at least one of them was seen.
   */
  function ChkBalVerdict(token: string, rest: string): string
  {
    var (opening, closing) := PairOf(token);
    var charCount := Count(rest, opening) - Count(rest, closing);
    var charCountChanged := Count(rest, opening) + Count(rest, closing) > 0;
    if charCount == 0 && charCountChanged then "OK" else "NOT OK"
  }

  /**
   * chkbal prints OK exactly when the token opens a known pair and the rest
   * holds as many closing as opening characters, at least one of each.
   */
  lemma ChkBalOkIff(token: string, rest: string)
    ensures ChkBalVerdict(token, rest) == "OK" <==>
              token in {"(", "[", "{", "<"} &&
              multiset(rest)[PairOf(token).0[0]] == multiset(rest)[PairOf(token).1[0]] &&
              multiset(rest)[PairOf(token).0[0]] > 0
    ensures ChkBalVerdict(token, rest) != "OK" ==> ChkBalVerdict(token, rest) == "NOT OK"
  {
    var (opening, closing) := PairOf(token);
    CountIsOccurrences(rest, opening);
    CountIsOccurrences(rest, closing);
  }

  /** An unknown opener can never balance: nothing read equals "". */
  lemma UnknownOpenerNotOk(token: string, rest: string)
    requires token !in {"(", "[", "{", "<"}
    ensures ChkBalVerdict(token, rest) == "NOT OK"
  {
    CountIsOccurrences(rest, "");
  }

  /** Only the net count matters: a closer before its opener still prints OK. */
  lemma ChkBalIgnoresOrder()
    ensures ChkBalVerdict("(", ")(") == "OK"
    ensures ChkBalVerdict("(", "(a") == "NOT OK"
    ensures ChkBalVerdict("[", "()") == "NOT OK"
  {
    assert ")("[..1] == ")" && "(a"[..1] == "(" && "()"[..1] == "(";
    ChkBalOkIff("(", ")(");
    ChkBalOkIff("(", "(a");
    ChkBalOkIff("[", "()");
  }

  /**
   * chkbal: reads the token that chooses the pair, then every remaining
   * character, counting openers up and closers down, and gives the line it
   * prints. The input is left empty.
   */
  method ChkBal(input: Input, skipToken: (string, int) -> int) returns (line: string)
    requires input.Valid()
    modifies input
    ensures input.str == old(input.str) && input.Valid() && input.IsEmpty()
    ensures line == ChkBalVerdict(TokenRead(old(input.str), old(input.index)),
                                  Rest(old(input.str), IndexAfterToken(old(input.str), old(input.index), skipToken)))
  {
    var c := input.ReadToken(skipToken);
    var (openingChar, closingChar) := PairOf(c);

    ghost var rest := input.ToString();
    ghost var i := 0;
    var charCount := 0;
    var charCountChanged := false;
    while !input.IsEmpty()
      invariant input.Valid() && input.str == old(input.str)
      invariant 0 <= i <= |rest| && input.ToString() == rest[i..]
      invariant charCount == Count(rest[..i], openingChar) - Count(rest[..i], closingChar)
      invariant charCountChanged <==> Count(rest[..i], openingChar) + Count(rest[..i], closingChar) > 0
      decreases |rest| - i
    {
      EmptyIffNothingLeft(input.str, input.index);
      var r := input.ReadChar();
      var character := [r.value];
      assert character == [rest[i]];
      CountStep(rest, i, openingChar);
      CountStep(rest, i, closingChar);
      if character == openingChar {
        charCount := charCount + 1;
        charCountChanged := true;
      }
      if character == closingChar {
        charCount := charCount - 1;
        charCountChanged := true;
      }
      assert charCount == Count(rest[..i + 1], openingChar) - Count(rest[..i + 1], closingChar);
      assert charCountChanged <==> Count(rest[..i + 1], openingChar) + Count(rest[..i + 1], closingChar) > 0;
      i := i + 1;
    }
    EmptyIffNothingLeft(input.str, input.index);
    assert rest[..i] == rest;
    var isBalanced := charCount == 0 && charCountChanged;
    line := if isBalanced then "OK" else "NOT OK";
  }

  /** The line the inline chkbal prints: OK when the parentheses of s cancel out. */
  function InlineVerdict(s: string): string
  {
    var parentcnt := Count(s, "(") - Count(s, ")");
    if parentcnt == 0 then "OK" else "NOT OK"
  }

  /**
   * The inline chkbal prints OK exactly when s holds as many ")" as "(";
   * every other character is ignored.
   */
  lemma InlineOkIff(s: string)
    ensures InlineVerdict(s) == "OK" <==> multiset(s)['('] == multiset(s)[')']
    ensures InlineVerdict(s) != "OK" ==> InlineVerdict(s) == "NOT OK"
  {
    CountIsOccurrences(s, "(");
    CountIsOccurrences(s, ")");
  }

  /** Empty input and misordered parentheses both print OK; a lone "(" does not. */
  lemma InlineExamples()
    ensures InlineVerdict("") == "OK"
    ensures InlineVerdict(")(") == "OK"
    ensures InlineVerdict("(a") == "NOT OK"
  {
    assert ")("[..1] == ")" && "(a"[..1] == "(";
  }

  /**
   * The inline chkbal: reads every remaining character, counting "(" up and
   * ")" down, and gives the line it prints. The input is left empty.
   */
  method InlineChkBal(input: Input) returns (line: string)
    requires input.Valid()
    modifies input
    ensures input.str == old(input.str) && input.Valid() && input.IsEmpty()
    ensures line == InlineVerdict(old(input.ToString()))
  {
    ghost var rest := input.ToString();
    ghost var i := 0;
    var parentcnt := 0;
    while !input.IsEmpty()
      invariant input.Valid() && input.str == old(input.str)
      invariant 0 <= i <= |rest| && input.ToString() == rest[i..]
      invariant parentcnt == Count(rest[..i], "(") - Count(rest[..i], ")")
      decreases |rest| - i
    {
      EmptyIffNothingLeft(input.str, input.index);
      var r := input.ReadChar();
      var c := [r.value];
      assert c == [rest[i]];
      CountStep(rest, i, "(");
      CountStep(rest, i, ")");
      if c == "(" {
        parentcnt := parentcnt + 1;
      }
      if c == ")" {
        parentcnt := parentcnt - 1;
      }
      assert parentcnt == Count(rest[..i + 1], "(") - Count(rest[..i + 1], ")");
      i := i + 1;
    }
    EmptyIffNothingLeft(input.str, input.index);
    assert rest[..i] == rest;
    line := if parentcnt == 0 then "OK" else "NOT OK";
  }
}
