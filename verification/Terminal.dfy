/** The text screen of print.c: 25 rows of 80 cells in video memory, two bytes a cell, and a hardware cursor; against a
    document without bottom, of which the screen is a window. */
module Terminal {

  type Byte = nat

  const COLS: nat := 80
  const SCREEN_MAX: nat := 2000
  const VIDEO_BYTES: nat := 4000
  const LAST_LINE: nat := 3840
  const BLK_BACK_WHT_WORD: Byte := 7
  const BLANK: Byte := 32
  const BACKSPACE: Byte := 8
  const LINE_FEED: Byte := 10
  const CARRIAGE_RETURN: Byte := 13

  // ----- the screen as a value -----

  datatype Screen = Screen(video: seq<Byte>, cursor: nat)

  predicate Valid(s: Screen) {
    |s.video| == VIDEO_BYTES && s.cursor < SCREEN_MAX
  }

  predicate NewLine(c: Byte) {
    c == CARRIAGE_RETURN || c == LINE_FEED
  }

  function SetCell(v: seq<Byte>, pos: nat, c: Byte): (r: seq<Byte>)
    requires 2 * pos + 1 < |v|
    ensures |r| == |v|
  {
    v[2 * pos := c][2 * pos + 1 := BLK_BACK_WHT_WORD]
  }

  function BlankCells(n: nat): (r: seq<Byte>)
    ensures |r| == 2 * n && forall i | 0 <= i < n :: r[2 * i] == BLANK && r[2 * i + 1] == BLK_BACK_WHT_WORD
  {
    if n == 0 then [] else BlankCells(n - 1) + [BLANK, BLK_BACK_WHT_WORD]
  }

  /** Everything one row up, and a blank last row. */
  function Rolled(v: seq<Byte>): (r: seq<Byte>)
    requires |v| == VIDEO_BYTES
    ensures |r| == VIDEO_BYTES
  {
    v[2 * COLS..] + BlankCells(COLS)
  }

  /** CHECK_OUT_OF_SCREEN and set_cursor */
  function MoveTo(v: seq<Byte>, next: nat): Screen
    requires |v| == VIDEO_BYTES
  {
    if next >= SCREEN_MAX then Screen(Rolled(v), SCREEN_MAX - COLS) else Screen(v, next)
  }

  /** A backspace at the first cell is written below video memory and leaves the cursor at 65535; see OffScreen. */
  predicate OffScreen(s: Screen, c: Byte) {
    c == BACKSPACE && s.cursor == 0
  }

  function PutChar(s: Screen, c: Byte): Screen
    requires Valid(s) && !OffScreen(s, c)
  {
    if NewLine(c) then MoveTo(s.video, s.cursor - s.cursor % COLS + COLS)
    else if c == BACKSPACE then Screen(SetCell(s.video, s.cursor - 1, BLANK), s.cursor - 1)
    else MoveTo(SetCell(s.video, s.cursor, c), s.cursor + 1)
  }

  // ----- the document -----

  /** Cell i is column i % 80 of row i / 80. `top` is the first row of the window. */
  datatype Doc = Doc(cells: map<nat, Byte>, pos: nat, top: nat)

  function CellAt(d: Doc, i: nat): Byte {
    if i in d.cells then d.cells[i] else BLANK
  }

  /** The window moves down just enough to show the row of the cursor. */
  function Window(top: nat, pos: nat): nat {
    if pos / COLS > top + 24 then pos / COLS - 24 else top
  }

  function Type(d: Doc, c: Byte): Doc {
    if NewLine(c) then
      var pos := d.pos - d.pos % COLS + COLS;
      Doc(d.cells, pos, Window(d.top, pos))
    else if c == BACKSPACE then
      if d.pos == 0 then d else d.(cells := d.cells[d.pos - 1 := BLANK], pos := d.pos - 1)
    else Doc(d.cells[d.pos := c], d.pos + 1, Window(d.top, d.pos + 1))
  }

  /** The screen shows rows top .. top + 24 of the document, and nothing was ever written below them. */
  ghost predicate Shows(s: Screen, d: Doc) {
    && Valid(s)
    && d.pos == d.top * COLS + s.cursor
    && (forall i | 0 <= i < SCREEN_MAX ::
       s.video[2 * i] == CellAt(d, d.top * COLS + i) && s.video[2 * i + 1] == BLK_BACK_WHT_WORD)
    && (forall i | i in d.cells :: i < d.top * COLS + SCREEN_MAX)
  }

  lemma SetCellAt(v: seq<Byte>, pos: nat, c: Byte, i: nat)
    requires |v| == VIDEO_BYTES && pos < SCREEN_MAX && i < SCREEN_MAX
    ensures var r := SetCell(v, pos, c);
            && r[2 * i] == (if i == pos then c else v[2 * i])
            && r[2 * i + 1] == (if i == pos then BLK_BACK_WHT_WORD else v[2 * i + 1])
  {
  }

  lemma RolledAt(v: seq<Byte>, i: nat)
    requires |v| == VIDEO_BYTES && i < SCREEN_MAX
    ensures var r := Rolled(v);
            && r[2 * i] == (if i < SCREEN_MAX - COLS then v[2 * (i + COLS)] else BLANK)
            && r[2 * i + 1] == (if i < SCREEN_MAX - COLS then v[2 * (i + COLS) + 1] else BLK_BACK_WHT_WORD)
  {
    var b := BlankCells(COLS);
    if i >= SCREEN_MAX - COLS {
      var j := i - (SCREEN_MAX - COLS);
      assert b[2 * j] == BLANK && b[2 * j + 1] == BLK_BACK_WHT_WORD;
      assert Rolled(v)[2 * i] == b[2 * j] && Rolled(v)[2 * i + 1] == b[2 * j + 1];
    }
  }

  /** The cells agree, whatever the cursor. */
  ghost predicate Pictures(v: seq<Byte>, cells: map<nat, Byte>, top: nat) {
    && |v| == VIDEO_BYTES
    && (forall i | 0 <= i < SCREEN_MAX ::
       v[2 * i] == CellAt(Doc(cells, 0, 0), top * COLS + i) && v[2 * i + 1] == BLK_BACK_WHT_WORD)
    && (forall i | i in cells :: i < top * COLS + SCREEN_MAX)
  }

  lemma SetPictures(v: seq<Byte>, cells: map<nat, Byte>, top: nat, pos: nat, c: Byte)
    requires Pictures(v, cells, top) && pos < SCREEN_MAX
    ensures Pictures(SetCell(v, pos, c), cells[top * COLS + pos := c], top)
  {
    hide SetCell;
    forall i: nat | i < SCREEN_MAX
      ensures SetCell(v, pos, c)[2 * i] == CellAt(Doc(cells[top * COLS + pos := c], 0, 0), top * COLS + i)
      ensures SetCell(v, pos, c)[2 * i + 1] == BLK_BACK_WHT_WORD
    {
      SetCellAt(v, pos, c, i);
    }
  }

  lemma RollPictures(v: seq<Byte>, cells: map<nat, Byte>, top: nat)
    requires Pictures(v, cells, top)
    ensures Pictures(Rolled(v), cells, top + 1)
  {
    hide Rolled;
    forall i: nat | i < SCREEN_MAX
      ensures Rolled(v)[2 * i] == CellAt(Doc(cells, 0, 0), (top + 1) * COLS + i)
      ensures Rolled(v)[2 * i + 1] == BLK_BACK_WHT_WORD
    {
      RolledAt(v, i);
      assert (top + 1) * COLS + i == top * COLS + (i + COLS);
    }
  }

  /** Moving the cursor on by at most a row scrolls exactly when the document's window moves. */
  lemma MoveShows(v: seq<Byte>, cells: map<nat, Byte>, top: nat, next: nat)
    requires Pictures(v, cells, top) && (next < SCREEN_MAX || next == SCREEN_MAX)
    ensures var pos := top * COLS + next; Shows(MoveTo(v, next), Doc(cells, pos, Window(top, pos)))
  {
    hide Rolled;
    var pos := top * COLS + next;
    assert pos / COLS == top + next / COLS;
    if next == SCREEN_MAX {
      RollPictures(v, cells, top);
    }
  }

  /** One character: the screen goes on showing the document. */
  lemma PutCharShows(s: Screen, d: Doc, c: Byte)
    requires Shows(s, d) && !OffScreen(s, c)
    ensures Shows(PutChar(s, c), Type(d, c))
  {
    hide SetCell, Rolled, MoveTo, Pictures, Window;
    ShownPictures(s, d);
    if NewLine(c) {
      NextRow(d.top, s.cursor);
      MoveShows(s.video, d.cells, d.top, s.cursor - s.cursor % COLS + COLS);
    } else if c == BACKSPACE {
      SetPictures(s.video, d.cells, d.top, s.cursor - 1, BLANK);
      PicturesShown(PutChar(s, c), Type(d, c));
    } else {
      SetPictures(s.video, d.cells, d.top, s.cursor, c);
      MoveShows(SetCell(s.video, s.cursor, c), d.cells[d.pos := c], d.top, s.cursor + 1);
    }
  }

  lemma ShownPictures(s: Screen, d: Doc)
    requires Shows(s, d)
    ensures Pictures(s.video, d.cells, d.top)
  {
  }

  lemma PicturesShown(s: Screen, d: Doc)
    requires Pictures(s.video, d.cells, d.top) && Valid(s) && d.pos == d.top * COLS + s.cursor
    ensures Shows(s, d)
  {
  }

  lemma NextRow(top: nat, cursor: nat)
    requires cursor < SCREEN_MAX
    ensures (top * COLS + cursor) % COLS == cursor % COLS && cursor - cursor % COLS + COLS <= SCREEN_MAX
  {
  }

  // ----- strings -----

  /** Some backspace of the string meets the first cell of the screen. */
  predicate RunsOff(s: Screen, str: seq<Byte>)
    requires Valid(s)
    decreases |str|
  {
    str != [] && (OffScreen(s, str[0]) || (PutCharValid(s, str[0]); RunsOff(PutChar(s, str[0]), str[1..])))
  }

  lemma PutCharValid(s: Screen, c: Byte)
    requires Valid(s) && !OffScreen(s, c)
    ensures Valid(PutChar(s, c))
  {
  }

  function PutStr(s: Screen, str: seq<Byte>): (r: Screen)
    requires Valid(s) && !RunsOff(s, str)
    ensures Valid(r)
    decreases |str|
  {
    if str == [] then s else (PutCharValid(s, str[0]); PutStr(PutChar(s, str[0]), str[1..]))
  }

  function TypeAll(d: Doc, str: seq<Byte>): Doc
    decreases |str|
  {
    if str == [] then d else TypeAll(Type(d, str[0]), str[1..])
  }

  /** Any string that does not run off: the screen shows the window of the document it was typed into. */
  lemma {:induction false} PutStrShows(s: Screen, d: Doc, str: seq<Byte>)
    requires Shows(s, d) && !RunsOff(s, str)
    ensures Shows(PutStr(s, str), TypeAll(d, str))
    decreases |str|
  {
    if str != [] {
      PutCharShows(s, d, str[0]);
      PutStrShows(PutChar(s, str[0]), Type(d, str[0]), str[1..]);
    }
  }

  lemma {:induction false} WithoutBackspace(s: Screen, str: seq<Byte>)
    requires Valid(s) && BACKSPACE !in str
    ensures !RunsOff(s, str)
    decreases |str|
  {
    if str != [] {
      assert str[0] in str;
      PutCharValid(s, str[0]);
      assert forall c | c in str[1..] :: c in str;
      WithoutBackspace(PutChar(s, str[0]), str[1..]);
    }
  }

  const EMPTY: Doc := Doc(map[], 0, 0)

  function BlankScreen(): Screen {
    Screen(BlankCells(SCREEN_MAX), 0)
  }

  /** Without backspaces the window is the last 25 rows down to the cursor's. */
  lemma {:induction false} LastRows(d: Doc, str: seq<Byte>)
    requires BACKSPACE !in str && d.top == Window(0, d.pos)
    ensures TypeAll(d, str).top == Window(0, TypeAll(d, str).pos)
    decreases |str|
  {
    if str != [] {
      assert str[0] in str;
      assert forall c | c in str[1..] :: c in str;
      var e := Type(d, str[0]);
      assert e.pos / COLS >= d.pos / COLS;
      LastRows(e, str[1..]);
    }
  }

  /** Text without control characters goes into consecutive cells, wrapping from row to row, and changes no other. */
  lemma {:induction false} TextIsConsecutive(d: Doc, str: seq<Byte>)
    requires forall c | c in str :: !NewLine(c) && c != BACKSPACE
    ensures var e := TypeAll(d, str);
            && e.pos == d.pos + |str|
            && forall i: nat :: CellAt(e, i) == if d.pos <= i < d.pos + |str| then str[i - d.pos] else CellAt(d, i)
    decreases |str|
  {
    if str != [] {
      assert str[0] in str;
      assert forall c | c in str[1..] :: c in str;
      TextIsConsecutive(Type(d, str[0]), str[1..]);
    }
  }

  /** A line end moves to the next multiple of 80 and changes no cell; a backspace moves back one cell and blanks it. */
  lemma ControlsMove(d: Doc, c: Byte)
    requires NewLine(c) || c == BACKSPACE
    ensures var e := Type(d, c);
            && (NewLine(c) ==> e.pos % 80 == 0 && d.pos < e.pos <= d.pos + 80)
            && (c == BACKSPACE ==> e.pos == if d.pos == 0 then 0 else d.pos - 1)
            && forall i: nat :: CellAt(e, i) == if c == BACKSPACE && i == e.pos < d.pos then BLANK else CellAt(d, i)
  {
    var r := d.pos / COLS;
    assert d.pos == r * COLS + d.pos % COLS && d.pos - d.pos % COLS + COLS == (r + 1) * COLS;
  }

  /** From a blank screen: after any string without backspace the cells are the last 25 rows of the wrapped text and the
      cursor is on the screen. */
  lemma TerminalRefinesText(str: seq<Byte>)
    requires BACKSPACE !in str
    ensures !RunsOff(BlankScreen(), str)
    ensures var s, d := PutStr(BlankScreen(), str), TypeAll(EMPTY, str);
            && Shows(s, d) && s.cursor < SCREEN_MAX
            && d.top <= d.pos / COLS <= d.top + 24 && (d.top == 0 || d.pos / COLS == d.top + 24)
  {
    WithoutBackspace(BlankScreen(), str);
    assert Shows(BlankScreen(), EMPTY);
    PutStrShows(BlankScreen(), EMPTY, str);
    LastRows(EMPTY, str);
  }
}
