/**
 * The editable console line (`IoLine`, dependencies/h_wcons.js:190-335).
 *
 * A line holds the characters shown, a cursor (the index before which the
 * next character is inserted; |chars| is the end of the line) and the first
 * editable index, which protects the prompt from being erased. The value
 * `Line` and the functions over it say what each operation does; the class
 * `IoLine` performs the same operations in place and is proved against them.
 *
 * The DOM view of the line is left out; the class keeps only whether the line
 * has been attached to a console node, because every operation that touches
 * the view fails on a line that has not been attached.
 */
module LineEditing {
  import opened Outcomes

  /** The editing state of a line: characters, cursor, first editable index. */
  datatype Line = Line(chars: seq<char>, cursor: nat, firstEditable: nat)

  /** The invariant the console relies on: firstEditable <= cursor <= |chars|. */
  predicate Valid(l: Line)
  {
    l.firstEditable <= l.cursor <= |l.chars|
  }

  /** The cursor stands at the end of the line. */
  predicate AtEnd(l: Line)
  {
    l.cursor == |l.chars|
  }

  /** The empty line clearChars leaves behind. */
  const Empty := Line([], 0, 0)

  /**
   * The private addChar: `splice(cursor, 0, c)` inserts before the cursor
   * (at the end when the cursor lies past it) and the cursor moves right.
   */
  function Inserted(l: Line, c: char): Line
  {
    var at := if l.cursor <= |l.chars| then l.cursor else |l.chars|;
    Line(l.chars[..at] + [c] + l.chars[at..], l.cursor + 1, l.firstEditable)
  }

  /** addNTimes: n insertions of c, one after the other. */
  function InsertedTimes(l: Line, n: nat, c: char): Line
    decreases n
  {
    if n == 0 then l else InsertedTimes(Inserted(l, c), n - 1, c)
  }

  /**
   * addChar: a newline first moves to a fresh empty line, a tab first
   * inserts four spaces; then the character itself is inserted.
   */
  function WithChar(l: Line, c: char): Line
  {
    var start := if c == '\n' then Empty else l;
    var padded := if c == '\t' then InsertedTimes(start, 4, ' ') else start;
    Inserted(padded, c)
  }

  /** print: every character of s added in turn. */
  function Printed(l: Line, s: string): Line
    decreases |s|
  {
    if s == [] then l else Printed(WithChar(l, s[0]), s[1..])
  }

  /** printPrompt: print s, then protect everything on the line. */
  function Prompted(l: Line, s: string): Line
  {
    var p := Printed(l, s);
    Line(p.chars, p.cursor, |p.chars|)
  }

  /** `splice(i, 1)`: removes the element at i, or nothing when i lies past the end. */
  function DeletedAt(s: seq<char>, i: nat): seq<char>
  {
    if i < |s| then s[..i] + s[i + 1..] else s
  }

  /** removeChar: backspace, refused at the start of the line or of the editable part. */
  function WithoutCharBeforeCursor(l: Line): Line
  {
    if l.cursor == 0 || l.cursor == l.firstEditable then l
    else Line(DeletedAt(l.chars, l.cursor - 1), l.cursor - 1, l.firstEditable)
  }

  /** moveCursorLeft: refused at the start of the line or of the editable part. */
  function CursorLeft(l: Line): Line
  {
    if l.cursor == 0 || l.cursor == l.firstEditable then l
    else Line(l.chars, l.cursor - 1, l.firstEditable)
  }

  /** moveCursorRight: refused once the cursor is at the end. */
  function CursorRight(l: Line): Line
  {
    if l.cursor > |l.chars| - 1 then l else Line(l.chars, l.cursor + 1, l.firstEditable)
  }

  /** moveCursorToEnd. */
  function CursorToEnd(l: Line): Line
  {
    Line(l.chars, |l.chars|, l.firstEditable)
  }

  /** moveCursorToBeginning: to the first editable index. */
  function CursorToBeginning(l: Line): Line
  {
    Line(l.chars, l.firstEditable, l.firstEditable)
  }

  /** readUserInput: the characters from the first editable index on. */
  function UserInput(l: Line): string
  {
    if l.firstEditable < |l.chars| then l.chars[l.firstEditable..] else ""
  }

  /** What typing s at the end of a line appends: each tab shows as four spaces and the tab. */
  function Expanded(s: string): string
  {
    if s == [] then "" else (if s[0] == '\t' then "    \t" else [s[0]]) + Expanded(s[1..])
  }

  // ---------------------------------------------------------------------
  // Insertion
  // ---------------------------------------------------------------------

  /** n insertions of c at a valid cursor put n copies of c before it. */
  lemma {:induction false} InsertedTimesAtCursor(l: Line, n: nat, c: char)
    requires Valid(l)
    ensures var r := InsertedTimes(l, n, c);
            Valid(r) && r.firstEditable == l.firstEditable && r.cursor == l.cursor + n &&
            r.chars == l.chars[..l.cursor] + seq(n, _ => c) + l.chars[l.cursor..]
    decreases n
  {
    if n > 0 {
      var m := Inserted(l, c);
      InsertedTimesAtCursor(m, n - 1, c);
      assert m.chars[..m.cursor] == l.chars[..l.cursor] + [c];
      assert m.chars[m.cursor..] == l.chars[l.cursor..];
      assert [c] + seq(n - 1, _ => c) == seq(n, _ => c);
    }
  }

  /**
   * Adding an ordinary character inserts it at the cursor and moves the
   * cursor right; the characters before the cursor stay, those after it
   * shift by one, and the prompt boundary does not move.
   */
  lemma AddOrdinaryChar(l: Line, c: char)
    requires Valid(l) && c != '\n' && c != '\t'
    ensures var r := WithChar(l, c);
            Valid(r) && |r.chars| == |l.chars| + 1 &&
            r.cursor == l.cursor + 1 && r.firstEditable == l.firstEditable &&
            r.chars[l.cursor] == c &&
            (forall i :: 0 <= i < l.cursor ==> r.chars[i] == l.chars[i]) &&
            (forall i :: l.cursor <= i < |l.chars| ==> r.chars[i + 1] == l.chars[i])
  {
  }

  /** Adding a tab inserts four spaces and then the tab itself at the cursor. */
  lemma AddTab(l: Line)
    requires Valid(l)
    ensures var r := WithChar(l, '\t');
            Valid(r) && r.cursor == l.cursor + 5 && r.firstEditable == l.firstEditable &&
            r.chars == l.chars[..l.cursor] + "    \t" + l.chars[l.cursor..]
  {
    InsertedTimesAtCursor(l, 4, ' ');
    var m := InsertedTimes(l, 4, ' ');
    assert seq(4, _ => ' ') == "    ";
    assert m.chars[..m.cursor] == l.chars[..l.cursor] + "    ";
    assert m.chars[m.cursor..] == l.chars[l.cursor..];
  }

  /**
   * Adding a newline abandons the line, whatever it held: moveForward empties
   * it and the newline is the only character left, with the cursor after it.
   */
  lemma AddNewline(l: Line)
    ensures WithChar(l, '\n') == Line("\n", 1, 0)
    ensures Valid(WithChar(l, '\n')) && UserInput(WithChar(l, '\n')) == "\n"
  {
  }

  /** addChar keeps the invariant, for every character. */
  lemma WithCharKeepsValid(l: Line, c: char)
    requires Valid(l)
    ensures Valid(WithChar(l, c))
    ensures c != '\n' ==> WithChar(l, c).chars[..l.firstEditable] == l.chars[..l.firstEditable]
  {
    if c == '\t' {
      AddTab(l);
    } else if c != '\n' {
      AddOrdinaryChar(l, c);
    }
  }

  /** print keeps the invariant. */
  lemma {:induction false} PrintedKeepsValid(l: Line, s: string)
    requires Valid(l)
    ensures Valid(Printed(l, s))
    decreases |s|
  {
    if s != [] {
      WithCharKeepsValid(l, s[0]);
      PrintedKeepsValid(WithChar(l, s[0]), s[1..]);
    }
  }

  // ---------------------------------------------------------------------
  // Typing at the end of the line, and the prompt
  // ---------------------------------------------------------------------

  /** Adding any character at the end of the line leaves the cursor at the end. */
  lemma WithCharAtEnd(l: Line, c: char)
    requires Valid(l) && AtEnd(l)
    ensures AtEnd(WithChar(l, c))
    ensures c != '\n' ==> WithChar(l, c) == Line(l.chars + Expanded([c]), l.cursor + |Expanded([c])|, l.firstEditable)
  {
    if c == '\t' {
      AddTab(l);
      assert l.chars[l.cursor..] == [];
    } else if c != '\n' {
      AddOrdinaryChar(l, c);
      assert Expanded([c]) == [c];
    }
  }

  /**
   * Printing a newline-free string at the end of the line appends its
   * expansion and leaves the cursor at the end; the prompt boundary stays.
   */
  lemma {:induction false} PrintedAtEnd(l: Line, s: string)
    requires Valid(l) && AtEnd(l) && '\n' !in s
    ensures Printed(l, s) == Line(l.chars + Expanded(s), l.cursor + |Expanded(s)|, l.firstEditable)
    decreases |s|
  {
    if s != [] {
      var c, rest := s[0], s[1..];
      var m := WithChar(l, c);
      var e := Expanded([c]);
      assert m == Line(l.chars + e, l.cursor + |e|, l.firstEditable) && Valid(m) && AtEnd(m) by {
        assert c in s;
        WithCharAtEnd(l, c);
        WithCharKeepsValid(l, c);
      }
      assert Printed(m, rest) == Line(m.chars + Expanded(rest), m.cursor + |Expanded(rest)|, m.firstEditable) by {
        assert '\n' !in rest by {
          assert forall x :: x in rest ==> x in s;
        }
        PrintedAtEnd(m, rest);
      }
      assert l.chars + Expanded(s) == (l.chars + e) + Expanded(rest) &&
             |Expanded(s)| == |e| + |Expanded(rest)| by {
        ExpandedCons(s);
      }
    }
  }

  /** Expansion goes character by character. */
  lemma ExpandedCons(s: string)
    requires s != []
    ensures Expanded(s) == Expanded([s[0]]) + Expanded(s[1..])
  {
    assert [s[0]][1..] == [];
  }

  /** Printing anything at the end of the line leaves the cursor at the end. */
  lemma {:induction false} PrintedStaysAtEnd(l: Line, s: string)
    requires Valid(l) && AtEnd(l)
    ensures Valid(Printed(l, s)) && AtEnd(Printed(l, s))
    decreases |s|
  {
    if s != [] {
      WithCharAtEnd(l, s[0]);
      WithCharKeepsValid(l, s[0]);
      PrintedStaysAtEnd(WithChar(l, s[0]), s[1..]);
    }
  }

  /**
   * printPrompt at the end of the line keeps the invariant: the cursor and
   * the first editable index both stand at the end, so nothing has been
   * typed yet.
   */
  lemma PromptedAtEnd(l: Line, p: string)
    requires Valid(l) && AtEnd(l)
    ensures var r := Prompted(l, p);
            Valid(r) && AtEnd(r) && r.firstEditable == r.cursor && UserInput(r) == ""
  {
    PrintedStaysAtEnd(l, p);
  }

  /**
   * printPrompt with the cursor inside the line breaks the invariant: the
   * prompt is inserted at the cursor, which stays before the end, while the
   * first editable index moves to the end.
   */
  lemma {:induction false} PromptedMidLine(l: Line, p: string)
    requires Valid(l) && l.cursor < |l.chars| && '\n' !in p
    ensures var r := Prompted(l, p); r.cursor < r.firstEditable && !Valid(r)
  {
    PrintedMidLine(l, p);
  }

  /** Printing a newline-free string with the cursor inside the line leaves it inside. */
  lemma {:induction false} PrintedMidLine(l: Line, s: string)
    requires Valid(l) && l.cursor < |l.chars| && '\n' !in s
    ensures Valid(Printed(l, s)) && Printed(l, s).cursor < |Printed(l, s).chars|
    decreases |s|
  {
    if s != [] {
      var c := s[0];
      if c == '\t' {
        AddTab(l);
      } else {
        AddOrdinaryChar(l, c);
      }
      assert '\n' !in s[1..] by {
        assert forall x :: x in s[1..] ==> x in s;
      }
      PrintedMidLine(WithChar(l, c), s[1..]);
    }
  }

  /**
   * After printPrompt(p) at the end of the line, typing a newline-free s
   * makes readUserInput return what was typed, with each tab shown as four
   * spaces and the tab; the prompt is never part of it.
   */
  lemma TypedAfterPrompt(l: Line, p: string, s: string)
    requires Valid(l) && AtEnd(l) && '\n' !in s
    ensures UserInput(Printed(Prompted(l, p), s)) == Expanded(s)
    ensures '\t' !in s ==> UserInput(Printed(Prompted(l, p), s)) == s
  {
    PromptedAtEnd(l, p);
    var q := Prompted(l, p);
    PrintedAtEnd(q, s);
    assert (q.chars + Expanded(s))[q.firstEditable..] == Expanded(s);
    if '\t' !in s {
      ExpandedWithoutTabs(s);
    }
  }

  /** Without tabs, nothing is expanded. */
  lemma {:induction false} ExpandedWithoutTabs(s: string)
    requires '\t' !in s
    ensures Expanded(s) == s
    decreases |s|
  {
    if s != [] {
      assert '\t' !in s[1..] by {
        assert forall x :: x in s[1..] ==> x in s;
      }
      ExpandedWithoutTabs(s[1..]);
    }
  }

  /** The console's own prompt "wc> " followed by typing "ls" reads back "ls". */
  lemma ConsolePromptExample()
    ensures UserInput(Printed(Prompted(Empty, "wc> "), "ls")) == "ls"
  {
    TypedAfterPrompt(Empty, "wc> ", "ls");
  }

  // ---------------------------------------------------------------------
  // Backspace and cursor moves
  // ---------------------------------------------------------------------

  /**
   * removeChar does nothing at the start of the line or of the editable
   * part; otherwise it deletes the character before the cursor and moves the
   * cursor left. It keeps the invariant and never touches the prompt.
   */
  lemma RemoveCharDeletesBeforeCursor(l: Line)
    requires Valid(l)
    ensures var r := WithoutCharBeforeCursor(l);
            Valid(r) && r.firstEditable == l.firstEditable &&
            r.chars[..l.firstEditable] == l.chars[..l.firstEditable] &&
            (l.cursor == 0 || l.cursor == l.firstEditable ==> r == l) &&
            (l.cursor != 0 && l.cursor != l.firstEditable ==>
               r.cursor == l.cursor - 1 && |r.chars| == |l.chars| - 1 &&
               (forall i :: 0 <= i < r.cursor ==> r.chars[i] == l.chars[i]) &&
               (forall i :: l.cursor <= i < |l.chars| ==> r.chars[i - 1] == l.chars[i]))
  {
  }

  /**
   * None of the cursor moves changes the characters or the prompt boundary;
   * each keeps the invariant. Left stops at the first editable index, right
   * at the end; End and Home go to the end and to the first editable index.
   */
  lemma CursorMovesKeepValid(l: Line)
    requires Valid(l)
    ensures var r := CursorLeft(l);
            Valid(r) && r.chars == l.chars && r.firstEditable == l.firstEditable &&
            (l.cursor > l.firstEditable ==> r.cursor == l.cursor - 1) &&
            (l.cursor == l.firstEditable ==> r.cursor == l.cursor)
    ensures var r := CursorRight(l);
            Valid(r) && r.chars == l.chars && r.firstEditable == l.firstEditable &&
            (l.cursor < |l.chars| ==> r.cursor == l.cursor + 1) &&
            (l.cursor == |l.chars| ==> r.cursor == l.cursor)
    ensures var r := CursorToEnd(l);
            Valid(r) && AtEnd(r) && r.chars == l.chars && r.firstEditable == l.firstEditable
    ensures var r := CursorToBeginning(l);
            Valid(r) && r.cursor == l.firstEditable && r.chars == l.chars && r.firstEditable == l.firstEditable
  {
  }

  // ---------------------------------------------------------------------
  // The line in place
  // ---------------------------------------------------------------------

  /** An IoLine: the editing state, the unused prefix and whether a view is attached. */
  class IoLine {
    var chars: seq<char>
    var cursorIndex: nat
    var firstEditableChar: nat
    var prefix: string
    var attached: bool

    /** The editing state as a value. */
    function State(): Line
      reads this
    {
      Line(chars, cursorIndex, firstEditableChar)
    }

    /** IoLine(prefix): an empty line; a missing or empty prefix becomes "". */
    constructor(prefix: Option<string>)
      ensures State() == Empty && !attached
      ensures this.prefix == (if prefix.Some? then prefix.value else "")
    {
      chars := [];
      cursorIndex := 0;
      this.prefix := if prefix.Some? then prefix.value else "";
      attached := false;
      firstEditableChar := 0;
    }

    /** appendTo: attaches the line to a console node; the text is unchanged. */
    method AppendTo()
      modifies this
      ensures attached && State() == old(State()) && prefix == old(prefix)
    {
      attached := true;
    }

    /** readUserInput: concatenates the characters from the first editable index on. */
    method ReadUserInput() returns (str: string)
      ensures str == UserInput(State())
    {
      str := "";
      var i := firstEditableChar;
      while i < |chars|
        invariant firstEditableChar <= i
        invariant i <= |chars| || i == firstEditableChar
        invariant i <= |chars| ==> str == chars[firstEditableChar..i]
        invariant i > |chars| ==> str == ""
      {
        str := str + [chars[i]];
        i := i + 1;
      }
    }

    /** clearChars. */
    method ClearChars()
      modifies this
      ensures State() == Empty && prefix == old(prefix) && attached == old(attached)
    {
      chars := [];
      firstEditableChar := 0;
      cursorIndex := 0;
    }

    /** The private addChar: insert before the cursor and move it right. */
    method Insert(c: char)
      requires attached
      modifies this
      ensures State() == Inserted(old(State()), c) && prefix == old(prefix) && attached
    {
      var at := if cursorIndex <= |chars| then cursorIndex else |chars|;
      chars := chars[..at] + [c] + chars[at..];
      cursorIndex := cursorIndex + 1;
    }

    /** addNTimes. */
    method AddNTimes(n: nat, c: char)
      requires attached
      modifies this
      ensures State() == InsertedTimes(old(State()), n, c) && prefix == old(prefix) && attached
    {
      var i := 0;
      while i < n
        invariant 0 <= i <= n && attached && prefix == old(prefix)
        invariant InsertedTimes(State(), n - i, c) == InsertedTimes(old(State()), n, c)
      {
        Insert(c);
        i := i + 1;
      }
    }

    /** moveForward: abandons the content and the prefix and moves on to a new view. */
    method MoveForward()
      requires attached
      modifies this
      ensures State() == Empty && prefix == "" && attached
    {
      ClearChars();
      prefix := "";
    }

    /** addChar. */
    method AddChar(c: char)
      requires attached
      modifies this
      ensures State() == WithChar(old(State()), c) && attached
      ensures prefix == if c == '\n' then "" else old(prefix)
    {
      if c == '\n' {
        MoveForward();
        firstEditableChar := 0;
      }
      if c == '\t' {
        AddNTimes(4, ' ');
      }
      Insert(c);
    }

    /** print: adds each character of str in turn; an empty str needs no view. */
    method Print(str: string)
      requires attached || str == []
      modifies this
      ensures State() == Printed(old(State()), str) && attached == old(attached)
      ensures prefix == if '\n' in str then "" else old(prefix)
    {
      var i := 0;
      while i < |str|
        invariant 0 <= i <= |str| && attached == old(attached)
        invariant Printed(State(), str[i..]) == Printed(old(State()), str)
        invariant prefix == if '\n' in str[..i] then "" else old(prefix)
      {
        assert str[i..][1..] == str[i + 1..];
        assert str[..i + 1] == str[..i] + [str[i]];
        AddChar(str[i]);
        i := i + 1;
      }
      assert str[..i] == str;
    }

    /** printPrompt: prints str, then protects the whole line from editing. */
    method PrintPrompt(str: string)
      requires attached || str == []
      modifies this
      ensures State() == Prompted(old(State()), str) && attached == old(attached)
      ensures prefix == if '\n' in str then "" else old(prefix)
    {
      Print(str);
      firstEditableChar := |chars|;
    }

    /** removeChar: backspace; the view is touched only when a character goes. */
    method RemoveChar()
      requires attached || cursorIndex == 0 || cursorIndex == firstEditableChar
      modifies this
      ensures State() == WithoutCharBeforeCursor(old(State()))
      ensures prefix == old(prefix) && attached == old(attached)
    {
      if cursorIndex == 0 || cursorIndex == firstEditableChar {
        return;
      }
      if cursorIndex - 1 < |chars| {
        chars := chars[..cursorIndex - 1] + chars[cursorIndex..];
      }
      cursorIndex := cursorIndex - 1;
    }

    /** moveCursorLeft. */
    method MoveCursorLeft()
      requires attached || cursorIndex == 0 || cursorIndex == firstEditableChar
      modifies this
      ensures State() == CursorLeft(old(State()))
      ensures prefix == old(prefix) && attached == old(attached)
    {
      if cursorIndex == 0 || cursorIndex == firstEditableChar {
        return;
      }
      cursorIndex := cursorIndex - 1;
    }

    /** moveCursorRight. */
    method MoveCursorRight()
      requires attached || cursorIndex > |chars| - 1
      modifies this
      ensures State() == CursorRight(old(State()))
      ensures prefix == old(prefix) && attached == old(attached)
    {
      if cursorIndex > |chars| - 1 {
        return;
      }
      cursorIndex := cursorIndex + 1;
    }

    /** moveCursorToEnd. */
    method MoveCursorToEnd()
      requires attached
      modifies this
      ensures State() == CursorToEnd(old(State()))
      ensures prefix == old(prefix) && attached
    {
      cursorIndex := |chars|;
    }

    /** moveCursorToBeginning. */
    method MoveCursorToBeginning()
      requires attached
      modifies this
      ensures State() == CursorToBeginning(old(State()))
      ensures prefix == old(prefix) && attached
    {
      cursorIndex := firstEditableChar;
    }
  }
}
