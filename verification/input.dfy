/**
 * The parse cursor `Input` (dependencies/h_wcons.js:346-442): the string the
 * user typed and an index into it, with -1 meaning "exhausted".
 *
 * The value-level functions say what a cursor at `index` in `str` has left
 * and where reading a token or skipping spaces moves it; the class performs
 * the same moves in place. The toolkit's `skipToken` is not part of this
 * model: readToken receives it as a function parameter and the model states
 * only what readToken does with its result.
 */
module ConsoleInput {
  import opened Outcomes
  import ParseToolkit

  /** The code readCharCode (and oefCode) gives at the end of the input. */
  const EofCode := -1

  /** isEmpty: an empty string, the -1 sentinel, or an index past the end. */
  predicate Exhausted(str: string, index: int)
  {
    str == "" || index < 0 || index >= |str|
  }

  /** toString: what is left to read, `str.slice(index)`, or "" once exhausted. */
  function Rest(str: string, index: int): (r: string)
    ensures 0 <= index <= |str| ==> r == str[index..]
    ensures index < 0 || index >= |str| ==> r == ""
  {
    if index >= 0 && index <= |str| then str[index..] else ""
  }

  /** Where a move to `to` leaves the cursor: -1 unless `to` lies inside the string. */
  function Clamped(str: string, to: int): (r: int)
    ensures r == -1 || 0 <= r < |str|
    ensures 0 <= to < |str| ==> r == to
  {
    if to < 0 || to >= |str| then -1 else to
  }

  /** The index the constructor sets: 0, or -1 for the empty string. */
  function StartIndex(str: string): int
  {
    if |str| > 0 then 0 else -1
  }

  /**
   * The index an Input over `str` holds once the constructor and skipSpaces
   * have run, as for the input handed to a command.
   */
  function IndexAfterLeadingSpaces(str: string): int
  {
    Clamped(str, ParseToolkit.SkipSpacesIndex(str, StartIndex(str)))
  }

  /** The token readToken gives: the token at the index, or "" once exhausted. */
  function TokenRead(str: string, index: int): (t: string)
    ensures ' ' !in t
    ensures Exhausted(str, index) ==> t == ""
  {
    if Exhausted(str, index) then "" else ParseToolkit.PeekedToken(str, index)
  }

  /**
   * Where readToken leaves the index: where skipToken moves it, or -1 when
   * that lies outside the string; an exhausted input does not move.
   */
  function IndexAfterToken(str: string, index: int, skipToken: (string, int) -> int): (r: int)
    ensures !Exhausted(str, index) ==> r == -1 || 0 <= r < |str|
    ensures Exhausted(str, index) ==> r == index
  {
    if Exhausted(str, index) then index else Clamped(str, skipToken(str, index))
  }

  /**
   * A command's input starts at its first non-space character; when the
   * string holds nothing but spaces it is exhausted from the start.
   */
  lemma LeadingSpacesSkipped(str: string)
    ensures var i := IndexAfterLeadingSpaces(str);
            (i == -1 <==> forall k :: 0 <= k < |str| ==> str[k] == ' ') &&
            (i != -1 ==> 0 <= i < |str| && str[i] != ' ' && forall k :: 0 <= k < i ==> str[k] == ' ')
  {
    if |str| > 0 {
      var j := ParseToolkit.SkipSpacesIndex(str, 0);
      if j == |str| {
        assert forall k :: 0 <= k < |str| ==> str[k] == ' ';
      }
    }
  }

  /** Within its bounds, an input is empty exactly when nothing is left to read. */
  lemma EmptyIffNothingLeft(str: string, index: int)
    requires -1 <= index <= |str|
    ensures Exhausted(str, index) <==> Rest(str, index) == ""
  {
    if !Exhausted(str, index) {
      assert Rest(str, index)[0] == str[index];
    }
  }

  /** An Input: the typed string and the read index, -1 once exhausted. */
  class Input {
    var str: string
    var index: int

    /** The index is the sentinel -1 or lies within the string (at most its length). */
    predicate Valid()
      reads this
    {
      -1 <= index <= |str|
    }

    /** isEmpty. */
    predicate IsEmpty()
      reads this
    {
      Exhausted(str, index)
    }

    /** toString. */
    function ToString(): string
      reads this
    {
      Rest(str, index)
    }

    /** Input(str): at the first character, or exhausted for the empty string. */
    constructor(s: string)
      ensures str == s && index == StartIndex(s) && Valid()
    {
      str := s;
      index := if |s| > 0 then 0 else -1;
    }

    /**
     * readToken: the token peekToken finds at the index, then the index moves
     * to what skipToken returns, or to -1 when that lies outside the string.
     * An exhausted input gives "" and does not move.
     */
    method ReadToken(skipToken: (string, int) -> int) returns (token: string)
      requires Valid()
      modifies this
      ensures str == old(str) && Valid()
      ensures token == TokenRead(str, old(index))
      ensures index == IndexAfterToken(str, old(index), skipToken)
    {
      if IsEmpty() {
        return "";
      }
      token := ParseToolkit.PeekToken(str, index);
      var next := skipToken(str, index);
      if next < 0 || next >= |str| {
        index := -1;
      } else {
        index := next;
      }
    }

    /** readChar: the character at the index, which advances; an error once exhausted. */
    method ReadChar() returns (r: Result<char, string>)
      requires Valid()
      modifies this
      ensures str == old(str) && Valid()
      ensures old(IsEmpty()) <==> r.Err?
      ensures old(IsEmpty()) ==> r == Err("readChar - Empty input") && index == old(index)
      ensures !old(IsEmpty()) ==>
                r == Ok(old(ToString())[0]) && ToString() == old(ToString())[1..] && index == old(index) + 1
    {
      if IsEmpty() {
        return Err("readChar - Empty input");
      }
      var character := str[index];
      index := index + 1;
      r := Ok(character);
    }

    /** oefCode. */
    function OefCode(): int
    {
      EofCode
    }

    /**
     * readCharCode: the code of the character at the index, which advances,
     * or EofCode without moving once exhausted.
     */
    method ReadCharCode() returns (charCode: int)
      requires Valid()
      modifies this
      ensures str == old(str) && Valid()
      ensures old(ToString()) == "" ==> charCode == EofCode && index == old(index)
      ensures old(ToString()) != "" ==>
                charCode == old(ToString())[0] as int && ToString() == old(ToString())[1..]
      ensures charCode == EofCode || 0 <= charCode
    {
      EmptyIffNothingLeft(str, index);
      if IsEmpty() {
        charCode := OefCode();
      } else {
        var character := str[index];
        index := index + 1;
        charCode := character as int;
      }
    }

    /**
     * skipSpaces: moves past the spaces at the index; the index then holds a
     * non-space character of the string, or -1.
     */
    method SkipSpaces()
      requires Valid()
      modifies this
      ensures str == old(str) && Valid()
      ensures index == Clamped(str, ParseToolkit.SkipSpacesIndex(str, old(index)))
      ensures index == -1 || (0 <= index < |str| && str[index] != ' ')
      ensures index != -1 ==>
                old(index) <= index && (forall k :: old(index) <= k < index ==> str[k] == ' ')
    {
      var next := ParseToolkit.SkipSpaces(str, index);
      if next < 0 || next >= |str| {
        index := -1;
      } else {
        index := next;
      }
    }
  }
}
