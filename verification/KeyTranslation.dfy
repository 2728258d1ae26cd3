/** keyEvent as a function: which keys go down and up for one RFB KeyEvent
    (section 7.5.4 of RFC 6143), and what stays held afterwards. */
module KeyTranslation {
  import opened Keymap
  import opened InputStream

  /** Alt + dead key, both released again. */
  function DeadStroke(altChar: int): seq<Transition> {
    [Transition(KEY_LEFTALT, true), Transition(altChar, true),
     Transition(KEY_LEFTALT, false), Transition(altChar, false)]
  }

  function BasicTransitions(keysym: int, down: bool): seq<Transition> {
    var code := Truncate16(keysym);
    if BasicScan(code) == 0 then []
    else (if BasicShift(code) then [Transition(KEY_LEFTSHIFT, down)] else [])
         + [Transition(BasicScan(code), down)]
  }

  function SymbolTransitions(row: SymbolRow, down: bool): seq<Transition> {
    if down then
      [Transition(KEY_LEFTALT, row.needAlt), Transition(KEY_LEFTSHIFT, row.needShift),
       Transition(row.directKey, true),
       Transition(KEY_LEFTSHIFT, false), Transition(KEY_LEFTALT, false)]
    else
      [Transition(row.directKey, false)]
  }

  function AccentTransitions(j: nat, down: bool): seq<Transition>
    requires j < ACCENT_ROWS && DeadRowOf(Latin1ToDeadChars(j).deadChar) < DEAD_ROWS
  {
    var row := Latin1ToDeadChars(j);
    (if down then DeadStroke(DeadCharsToAltChar(DeadRowOf(row.deadChar)).altChar) else [])
    + BasicTransitions(row.baseChar, down)
  }

  /** Which table row, if any, decides what a keysym types. */
  datatype KeyClass = Accent(row: nat) | Special(row: nat) | Symbol(row: nat) | Basic

  predicate ValidClass(k: KeyClass) {
    match k
    case Accent(j) => j < ACCENT_ROWS && DeadRowOf(Latin1ToDeadChars(j).deadChar) < DEAD_ROWS
    case Special(p) => p < SPECIAL_ROWS
    case Symbol(s) => s < SYMBOL_ROWS
    case Basic => true
  }

  /** After the alias scan: accents first, then special keys, then symbols, then letters and digits. */
  function Classify(keysym: int): (k: KeyClass)
    ensures ValidClass(k)
  {
    var j := AccentRowOf(keysym);
    var p := SpecialRowOf(keysym);
    var s := SymbolRowOf(keysym);
    if j < ACCENT_ROWS then Accent(j) else if p < SPECIAL_ROWS then Special(p) else if s < SYMBOL_ROWS then Symbol(s) else Basic
  }

  function ClassTransitions(k: KeyClass, keysym: int, down: bool): seq<Transition>
    requires ValidClass(k)
  {
    match k
    case Accent(j) => AccentTransitions(j, down)
    case Special(p) => [Transition(SpecialKeys(p).directKey, down)]
    case Symbol(s) => SymbolTransitions(SymbolKeys(s), down)
    case Basic => BasicTransitions(keysym, down)
  }

  function Translation(keysym: int, down: bool): seq<Transition> {
    ClassTransitions(Classify(keysym), keysym, down)
  }

  function Transitions(down: bool, rawKeysym: int): seq<Transition> {
    Translation(Dealias(rawKeysym), down)
  }

  function BasicCodes(keysym: int): set<int> {
    var code := Truncate16(keysym);
    if BasicScan(code) == 0 then {}
    else (if BasicShift(code) then {KEY_LEFTSHIFT} else {}) + {BasicScan(code)}
  }

  function ClassCodes(k: KeyClass, keysym: int): set<int>
    requires ValidClass(k)
  {
    match k
    case Accent(j) => BasicCodes(Latin1ToDeadChars(j).baseChar)
    case Special(p) => {SpecialKeys(p).directKey}
    case Symbol(s) => {SymbolKeys(s).directKey}
    case Basic => BasicCodes(keysym)
  }

  /** The codes a keysym owns: held from its down event to its up event. */
  function Persistent(rawKeysym: int): set<int> {
    ClassCodes(Classify(Dealias(rawKeysym)), Dealias(rawKeysym))
  }

  /** The codes that the down stroke of a class presses on the way and releases again. */
  function ClassBorrows(k: KeyClass): set<int>
    requires ValidClass(k)
  {
    match k
    case Accent(j) => {KEY_LEFTALT, DeadCharsToAltChar(DeadRowOf(Latin1ToDeadChars(j).deadChar)).altChar}
    case Symbol(_) => {KEY_LEFTALT, KEY_LEFTSHIFT}
    case _ => {}
  }

  function Borrowed(rawKeysym: int): set<int> { ClassBorrows(Classify(Dealias(rawKeysym))) }

  // ---- Facts about every row of the tables ----

  lemma SpecialRowsAreFunctionKeysyms(i: nat)
    requires i < SPECIAL_ROWS
    ensures SpecialKeys(i).keysym >= 0xff00
  {}

  lemma AccentRowsAreLatin1(j: nat)
    requires j < ACCENT_ROWS
    ensures 0xc0 <= Latin1ToDeadChars(j).latin1Char <= 0xff
  {}

  lemma SymbolRowsAreBelow(i: nat)
    requires i < SYMBOL_ROWS
    ensures SymbolKeys(i).keysym <= 0x20ac
  {}

  lemma SpecialRowsAreKeyboard(i: nat)
    requires i < SPECIAL_ROWS
    ensures KeyboardCode(SpecialKeys(i).directKey)
  {
    var c := SpecialKeys(i).directKey;
    assert 1 <= c <= KEY_NEXT && c != KEY_BACK;
    assert c <= 0xdd || c == KEY_NEXT;
  }

  lemma SymbolRowsAreKeyboard(i: nat)
    requires i < SYMBOL_ROWS
    ensures 1 <= SymbolKeys(i).directKey <= 57
    ensures SymbolKeys(i).directKey !in {KEY_LEFTALT, KEY_LEFTSHIFT}
  {}

  lemma BasicScanRange(code: int)
    ensures 0 <= BasicScan(code) <= 50 && BasicScan(code) !in {KEY_LEFTSHIFT, KEY_LEFTALT}
  {}

  lemma DeadRowsAreKeyboard(i: nat)
    requires i < DEAD_ROWS
    ensures DeadCharsToAltChar(i).altChar in {41, 18, 23, 22, 49}
  {}

  lemma BasicIsKeyboard(keysym: int, down: bool)
    ensures forall t | t in BasicTransitions(keysym, down) :: KeyboardCode(t.code)
  {
    BasicScanRange(Truncate16(keysym));
  }

  lemma DeadStrokeIsKeyboard(i: nat)
    requires i < DEAD_ROWS
    ensures forall t | t in DeadStroke(DeadCharsToAltChar(i).altChar) :: KeyboardCode(t.code)
  {
    DeadRowsAreKeyboard(i);
  }

  lemma SymbolIsKeyboard(i: nat, down: bool)
    requires i < SYMBOL_ROWS
    ensures forall t | t in SymbolTransitions(SymbolKeys(i), down) :: KeyboardCode(t.code)
  {
    SymbolRowsAreKeyboard(i);
  }

  lemma ClassIsKeyboard(k: KeyClass, keysym: int, down: bool)
    requires ValidClass(k)
    ensures forall t | t in ClassTransitions(k, keysym, down) :: KeyboardCode(t.code)
  {
    match k
    case Accent(j) =>
      BasicIsKeyboard(Latin1ToDeadChars(j).baseChar, down);
      DeadStrokeIsKeyboard(DeadRowOf(Latin1ToDeadChars(j).deadChar));
    case Special(p) => SpecialRowsAreKeyboard(p);
    case Symbol(s) => SymbolIsKeyboard(s, down);
    case Basic => BasicIsKeyboard(keysym, down);
  }

  /** The keyboard never writes a pointer button, and only registered codes. */
  lemma TransitionsAreKeyboard(down: bool, rawKeysym: int)
    ensures forall t | t in Transitions(down, rawKeysym) :: KeyboardCode(t.code)
  {
    ClassIsKeyboard(Classify(Dealias(rawKeysym)), Dealias(rawKeysym), down);
  }

  // ---- What is held ----

  lemma HeldOne(held: set<int>, t: Transition)
    ensures HeldAfter(held, [t]) == if t.down then held + {t.code} else held - {t.code}
  {
    assert [t][1..] == [];
  }

  lemma HeldBasic(held: set<int>, keysym: int, down: bool)
    ensures HeldAfter(held, BasicTransitions(keysym, down))
         == if down then held + BasicCodes(keysym) else held - BasicCodes(keysym)
  {
    var code := Truncate16(keysym);
    if BasicScan(code) != 0 {
      var key := Transition(BasicScan(code), down);
      HeldOne(held, key);
      if BasicShift(code) {
        var shift := Transition(KEY_LEFTSHIFT, down);
        HeldOne(held, shift);
        HeldAppend(held, [shift], [key]);
        HeldOne(HeldAfter(held, [shift]), key);
      } else {
        assert [] + [key] == [key];
      }
    }
  }

  lemma HeldDeadStroke(held: set<int>, altChar: int)
    ensures HeldAfter(held, DeadStroke(altChar)) == held - {KEY_LEFTALT, altChar}
  {
    var d := DeadStroke(altChar);
    assert d == [d[0]] + ([d[1]] + ([d[2]] + [d[3]]));
    HeldAppend(held, [d[0]], [d[1]] + ([d[2]] + [d[3]]));
    var h0 := HeldAfter(held, [d[0]]);
    HeldOne(held, d[0]);
    HeldAppend(h0, [d[1]], [d[2]] + [d[3]]);
    var h1 := HeldAfter(h0, [d[1]]);
    HeldOne(h0, d[1]);
    HeldAppend(h1, [d[2]], [d[3]]);
    HeldOne(h1, d[2]);
    HeldOne(HeldAfter(h1, [d[2]]), d[3]);
  }

  lemma HeldSymbol(held: set<int>, row: SymbolRow)
    requires row.directKey !in {KEY_LEFTALT, KEY_LEFTSHIFT}
    ensures HeldAfter(held, SymbolTransitions(row, true))
         == held + {row.directKey} - {KEY_LEFTALT, KEY_LEFTSHIFT}
    ensures HeldAfter(held, SymbolTransitions(row, false)) == held - {row.directKey}
  {
    HeldOne(held, Transition(row.directKey, false));
    var d := SymbolTransitions(row, true);
    assert d == [d[0]] + ([d[1]] + ([d[2]] + ([d[3]] + [d[4]])));
    HeldAppend(held, [d[0]], [d[1]] + ([d[2]] + ([d[3]] + [d[4]])));
    var h0 := HeldAfter(held, [d[0]]);
    HeldOne(held, d[0]);
    HeldAppend(h0, [d[1]], [d[2]] + ([d[3]] + [d[4]]));
    var h1 := HeldAfter(h0, [d[1]]);
    HeldOne(h0, d[1]);
    HeldAppend(h1, [d[2]], [d[3]] + [d[4]]);
    var h2 := HeldAfter(h1, [d[2]]);
    HeldOne(h1, d[2]);
    HeldAppend(h2, [d[3]], [d[4]]);
    HeldOne(h2, d[3]);
    HeldOne(HeldAfter(h2, [d[3]]), d[4]);
  }

  /** A down stroke leaves its own codes held and its borrowed ones released; an up stroke
      releases its own. */
  function HeldByStroke(held: set<int>, own: set<int>, borrowed: set<int>, down: bool): set<int> {
    if down then held - borrowed + own else held - own
  }

  lemma HeldAccent(held: set<int>, j: nat, down: bool)
    requires ValidClass(Accent(j))
    ensures HeldAfter(held, AccentTransitions(j, down))
         == HeldByStroke(held, BasicCodes(Latin1ToDeadChars(j).baseChar), ClassBorrows(Accent(j)), down)
  {
    var base := Latin1ToDeadChars(j).baseChar;
    var alt := DeadCharsToAltChar(DeadRowOf(Latin1ToDeadChars(j).deadChar)).altChar;
    var dead := if down then DeadStroke(alt) else [];
    HeldAppend(held, dead, BasicTransitions(base, down));
    HeldDeadStroke(held, alt);
    HeldBasic(HeldAfter(held, dead), base, down);
  }

  lemma HeldClass(held: set<int>, k: KeyClass, keysym: int, down: bool)
    requires ValidClass(k)
    ensures HeldAfter(held, ClassTransitions(k, keysym, down))
         == HeldByStroke(held, ClassCodes(k, keysym), ClassBorrows(k), down)
  {
    match k
    case Accent(j) => HeldAccent(held, j, down);
    case Special(p) => HeldOne(held, Transition(SpecialKeys(p).directKey, down));
    case Symbol(s) =>
      SymbolRowsAreKeyboard(s);
      HeldSymbol(held, SymbolKeys(s));
      assert down ==> SymbolKeys(s).directKey !in ClassBorrows(k);
    case Basic => HeldBasic(held, keysym, down);
  }

  /** A down event leaves exactly the keysym's own codes newly held, and releases the dead key or
      the modifiers that it borrowed, whoever held them before. */
  lemma DownHoldsOwnCodes(held: set<int>, rawKeysym: int)
    ensures HeldAfter(held, Transitions(true, rawKeysym)) == held - Borrowed(rawKeysym) + Persistent(rawKeysym)
  {
    HeldClass(held, Classify(Dealias(rawKeysym)), Dealias(rawKeysym), true);
  }

  /** An up event releases exactly the keysym's own codes. */
  lemma UpReleasesOwnCodes(held: set<int>, rawKeysym: int)
    ensures HeldAfter(held, Transitions(false, rawKeysym)) == held - Persistent(rawKeysym)
  {
    HeldClass(held, Classify(Dealias(rawKeysym)), Dealias(rawKeysym), false);
  }

  lemma ClassBorrowsNoEnd(k: KeyClass)
    requires ValidClass(k)
    ensures KEY_END !in ClassBorrows(k)
  {
    if k.Accent? { DeadRowsAreKeyboard(DeadRowOf(Latin1ToDeadChars(k.row).deadChar)); }
  }

  lemma EndIsNotBorrowed(rawKeysym: int)
    ensures KEY_END !in Borrowed(rawKeysym)
  {
    ClassBorrowsNoEnd(Classify(Dealias(rawKeysym)));
  }

  /** A keysym of the function range that row i is the first to hold is a special key. */
  lemma SpecialKeyOwns(keysym: int, i: nat)
    requires keysym >= 0xff00 && keysym !in {0xff80, 0xffbd}
    requires SpecialRowOf(keysym) == i < SPECIAL_ROWS
    ensures Persistent(keysym) == {SpecialKeys(i).directKey} && Borrowed(keysym) == {}
  {
    assert AliasKeysym(0) == 0xff80 && AliasKeysym(1) == 0xffbd;
    assert Dealias(keysym) == keysym;
    if AccentRowOf(keysym) < ACCENT_ROWS { AccentRowsAreLatin1(AccentRowOf(keysym)); }
  }

  lemma SymbolKeyOwns(keysym: int, i: nat)
    requires keysym < 0xc0 && SymbolRowOf(keysym) == i < SYMBOL_ROWS
    ensures Persistent(keysym) == {SymbolKeys(i).directKey} && Borrowed(keysym) == {KEY_LEFTALT, KEY_LEFTSHIFT}
  {
    assert AliasKeysym(0) == 0xff80 && AliasKeysym(1) == 0xffbd;
    assert Dealias(keysym) == keysym;
    if AccentRowOf(keysym) < ACCENT_ROWS { AccentRowsAreLatin1(AccentRowOf(keysym)); }
    if SpecialRowOf(keysym) < SPECIAL_ROWS { SpecialRowsAreFunctionKeysyms(SpecialRowOf(keysym)); }
  }
}
