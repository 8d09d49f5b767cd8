/**
 * The keyboard toolkit (dependencies/h_keyboardtk.js): classifiers of a
 * key-down event. Each looks only at the event's label `key` and its code
 * `which`.
 *
 * A label is a string of characters. A label of one character whose code lies
 * in 33..126 has one UTF-16 unit in JavaScript as well, so the test of
 * isVisibleChar gives the same answer on either reading of "length".
 */
module KeyboardToolkit {

  /** The two fields of a browser keyboard event that the toolkit reads. */
  datatype KeyboardEvent = KeyboardEvent(key: string, which: int)

  const SpaceCode := 32
  const EnterCode := 13
  const ArrowLeftCode := 37
  const ArrowRightCode := 39
  const BackspaceCode := 8
  const EndCode := 35
  const HomeCode := 36

  /** A printable character other than the space: one character, code 33..126. */
  predicate IsVisibleChar(e: KeyboardEvent)
  {
    |e.key| == 1 && 33 <= e.key[0] as int <= 126
  }

  predicate IsSpace(e: KeyboardEvent) { e.which == SpaceCode }

  predicate IsEnter(e: KeyboardEvent) { e.which == EnterCode }

  predicate IsArrowLeft(e: KeyboardEvent) { e.which == ArrowLeftCode }

  predicate IsArrowRight(e: KeyboardEvent) { e.which == ArrowRightCode }

  predicate IsBackspace(e: KeyboardEvent) { e.which == BackspaceCode }

  predicate IsEnd(e: KeyboardEvent) { e.which == EndCode }

  predicate IsHome(e: KeyboardEvent) { e.which == HomeCode }

  /** How many of the seven code-based classifiers accept the event. */
  function CodeClassCount(e: KeyboardEvent): nat
  {
    (if IsSpace(e) then 1 else 0) + (if IsEnter(e) then 1 else 0) +
    (if IsArrowLeft(e) then 1 else 0) + (if IsArrowRight(e) then 1 else 0) +
    (if IsBackspace(e) then 1 else 0) + (if IsEnd(e) then 1 else 0) +
    (if IsHome(e) then 1 else 0)
  }

  /**
   * The seven code-based classifiers are mutually exclusive, and one of them
   * holds exactly when `which` is one of their seven codes.
   */
  lemma CodeClassesExclusive(e: KeyboardEvent)
    ensures CodeClassCount(e) <= 1
    ensures CodeClassCount(e) == 1 <==> e.which in {32, 13, 37, 39, 8, 35, 36}
  {
  }

  /**
   * A visible character is a single non-space character, and the label
   * alone decides it: the code `which` plays no part.
   */
  lemma VisibleCharIsOneNonSpace(e: KeyboardEvent, which: int)
    ensures IsVisibleChar(e) ==> |e.key| == 1 && e.key[0] != ' '
    ensures IsVisibleChar(e) <==> IsVisibleChar(KeyboardEvent(e.key, which))
  {
  }

  /**
   * The space bar is not a visible character, and neither is the Home key
   * although its code 36 is the code of '$': its label has more than one
   * character. A '$' label is visible.
   */
  lemma SpaceAndHomeNotVisible()
    ensures IsSpace(KeyboardEvent(" ", 32)) && !IsVisibleChar(KeyboardEvent(" ", 32))
    ensures IsHome(KeyboardEvent("Home", 36)) && !IsVisibleChar(KeyboardEvent("Home", 36))
    ensures IsVisibleChar(KeyboardEvent("$", 36))
  {
  }
}
