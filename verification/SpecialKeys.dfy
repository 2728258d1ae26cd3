/** The keys that print nothing: which key each special keysym presses, against a table arranged by
    key code; and what becomes of keysyms that no table has. */
module SpecialKeyboard {
  import opened Keymap
  import opened InputStream
  import opened KeyTranslation
  import opened Input
  import opened Typing

  /** The keysyms that a key stands for, by key code: the keypad repeats the function and cursor keys,
      and Meta is Alt. */
  function KeysymsOf(code: int): set<int> {
    if code < 59 then TypewriterKeys(code) else if code < 99 then FunctionAndKeypadKeys(code)
    else if code < 148 then CursorAndEditingKeys(code) else ExtraKeys(code)
  }

  function TypewriterKeys(code: int): set<int> {
    match code
    case 1 => {0xff1b} case 14 => {0xff08} case 15 => {0xff09, 0xff89} case 28 => {0xff0d} case 29 => {0xffe3}
    case 42 => {0xffe1} case 54 => {0xffe2} case 55 => {0xffaa} case 56 => {0xffe9, 0xffe7} case _ => {}
  }

  function FunctionAndKeypadKeys(code: int): set<int> {
    match code
    case 59 => {0xffbe, 0xff91} case 60 => {0xffbf, 0xff92} case 61 => {0xffc0, 0xff93}
    case 62 => {0xffc1, 0xff94} case 63 => {0xffc2} case 64 => {0xffc3} case 65 => {0xffc4} case 66 => {0xffc5}
    case 67 => {0xffc6} case 68 => {0xffc7} case 71 => {0xffb7} case 72 => {0xffb8} case 73 => {0xffb9}
    case 74 => {0xffad} case 75 => {0xffb4} case 76 => {0xffb5} case 77 => {0xffb6} case 78 => {0xffab}
    case 79 => {0xffb1} case 80 => {0xffb2} case 81 => {0xffb3} case 82 => {0xffb0} case 83 => {0xffae}
    case 87 => {0xffc8} case 88 => {0xffc9} case 96 => {0xff8d} case 97 => {0xffe4} case 98 => {0xffaf}
    case _ => {}
  }

  function CursorAndEditingKeys(code: int): set<int> {
    match code
    case 100 => {0xffea, 0xffe8} case 102 => {0xff50, 0xff95} case 103 => {0xff52, 0xff97}
    case 104 => {0xff55, 0xff9a} case 105 => {0xff51, 0xff96} case 106 => {0xff53, 0xff98}
    case 107 => {0xff57, 0xff9c} case 108 => {0xff54, 0xff99} case 109 => {0xff56} case 110 => {0xff63, 0xff9e}
    case 111 => {0xffff, 0xff9f} case 112 => {0xff2e} case 119 => {0xff13} case 121 => {0xffac} case _ => {}
  }

  function ExtraKeys(code: int): set<int> {
    match code
    case 148 => {0xff21} case 183 => {0xffca} case 184 => {0xffcb} case 185 => {0xffcc} case 186 => {0xffcd}
    case 187 => {0xffce} case 188 => {0xffcf} case 189 => {0xffd0} case 190 => {0xffd1} case 191 => {0xffd2}
    case 192 => {0xffd3} case 193 => {0xffd4} case 194 => {0xffd5} case 219 => {0xffeb} case 220 => {0xffec}
    case 221 => {0xff67} case 407 => {0xff9b} case _ => {}
  }

  // ---- The table of the source, row by row ----

  /** The row of a special keysym. */
  function RowOf(keysym: int): nat {
    if 0xff08 <= keysym <= 0xff09 then keysym - 0xff08 else if keysym == 0xff0d then 2 else
    if keysym == 0xff13 then 3 else if keysym == 0xff1b then 4 else if keysym == 0xff21 then 82 else
    if keysym == 0xff2e then 83 else if 0xff50 <= keysym <= 0xff57 then keysym - 0xff50 + 6 else
    if keysym == 0xff63 then 14 else if keysym == 0xff67 then 81 else if keysym == 0xff89 then 39 else
    if keysym == 0xff8d then 40 else if 0xff91 <= keysym <= 0xff99 then keysym - 0xff91 + 41 else
    if 0xff9a <= keysym <= 0xff9b then keysym - 0xff9a + 51 else if keysym == 0xff9c then 50 else
    if 0xff9e <= keysym <= 0xff9f then keysym - 0xff9e + 53 else
    if 0xffaa <= keysym <= 0xffb9 then keysym - 0xffaa + 55 else
    if 0xffbe <= keysym <= 0xffd5 then keysym - 0xffbe + 15 else
    if 0xffe1 <= keysym <= 0xffe4 then keysym - 0xffe1 + 71 else
    if 0xffe7 <= keysym <= 0xffe8 then keysym - 0xffe7 + 77 else
    if 0xffe9 <= keysym <= 0xffea then keysym - 0xffe9 + 75 else
    if 0xffeb <= keysym <= 0xffec then keysym - 0xffeb + 79 else if keysym == 0xffff then 5 else SPECIAL_ROWS
  }

  predicate RowIsIn(i: nat)
    requires i < SPECIAL_ROWS
  {
    RowOf(SpecialKeys(i).keysym) == i && SpecialKeys(i).keysym in KeysymsOf(SpecialKeys(i).directKey)
  }

  lemma EditRows(i: nat)
    requires 0 <= i < 15
    ensures RowIsIn(i)
  {}

  lemma FunctionRows(i: nat)
    requires 15 <= i < 39
    ensures RowIsIn(i)
  {}

  lemma KeypadRows(i: nat)
    requires 39 <= i < 61
    ensures RowIsIn(i)
  {}

  lemma DigitRows(i: nat)
    requires 61 <= i < 71
    ensures RowIsIn(i)
  {}

  lemma ShiftAndControlRows(i: nat)
    requires 71 <= i < 75
    ensures RowIsIn(i)
  {}

  lemma AltAndMetaRows(i: nat)
    requires 75 <= i < 79
    ensures RowIsIn(i)
  {}

  lemma LastRows(i: nat)
    requires 79 <= i < 84
    ensures RowIsIn(i)
  {}

  lemma RowOfRow(i: nat)
    requires i < SPECIAL_ROWS
    ensures RowIsIn(i)
  {
    if i < 15 { EditRows(i); }
    else if i < 39 { FunctionRows(i); }
    else if i < 61 { KeypadRows(i); }
    else if i < 71 { DigitRows(i); }
    else if i < 75 { ShiftAndControlRows(i); }
    else if i < 79 { AltAndMetaRows(i); }
    else { LastRows(i); }
  }

  predicate KeysymHasRow(code: int, keysym: int) {
    && 0xff00 <= keysym <= 0xffff && keysym !in {0xff80, 0xffbd}
    && RowOf(keysym) < SPECIAL_ROWS && SpecialKeys(RowOf(keysym)) == SpecialRow(keysym, code)
  }

  lemma TypewriterHasRow(code: int, keysym: int)
    requires code < 59 && keysym in KeysymsOf(code)
    ensures KeysymHasRow(code, keysym)
  {}

  lemma FunctionHasRow(code: int, keysym: int)
    requires 59 <= code < 79 && keysym in KeysymsOf(code)
    ensures KeysymHasRow(code, keysym)
  {}

  lemma KeypadHasRow(code: int, keysym: int)
    requires 79 <= code < 99 && keysym in KeysymsOf(code)
    ensures KeysymHasRow(code, keysym)
  {}

  lemma CursorHasRow(code: int, keysym: int)
    requires 99 <= code < 107 && keysym in KeysymsOf(code)
    ensures KeysymHasRow(code, keysym)
  {}

  lemma EditingHasRow(code: int, keysym: int)
    requires 107 <= code < 148 && keysym in KeysymsOf(code)
    ensures KeysymHasRow(code, keysym)
  {}

  lemma ExtraHasRow(code: int, keysym: int)
    requires 148 <= code < 188 && keysym in KeysymsOf(code)
    ensures KeysymHasRow(code, keysym)
  {}

  lemma LastHasRow(code: int, keysym: int)
    requires 188 <= code && keysym in KeysymsOf(code)
    ensures KeysymHasRow(code, keysym)
  {}

  lemma RowOfKeysym(code: int, keysym: int)
    requires keysym in KeysymsOf(code)
    ensures KeysymHasRow(code, keysym)
  {
    if code < 59 { TypewriterHasRow(code, keysym); }
    else if code < 79 { FunctionHasRow(code, keysym); }
    else if code < 99 { KeypadHasRow(code, keysym); }
    else if code < 107 { CursorHasRow(code, keysym); }
    else if code < 148 { EditingHasRow(code, keysym); }
    else if code < 188 { ExtraHasRow(code, keysym); }
    else { LastHasRow(code, keysym); }
  }

  lemma ScanFindsRow(keysym: int, i: nat)
    requires i < SPECIAL_ROWS && SpecialKeys(i).keysym == keysym
    ensures SpecialRowOf(keysym) == i
  {
    var r := SpecialRowOf(keysym);
    assert SpecialKeysym(i) == keysym;
    RowOfRow(i);
    RowOfRow(r);
  }

  lemma NoRowNoKey(keysym: int)
    requires 0xff00 <= keysym <= 0xffff && keysym !in {0xff80, 0xffbd} && SpecialRowOf(keysym) == SPECIAL_ROWS
    ensures Persistent(keysym) == {} && Borrowed(keysym) == {}
  {
    assert AliasKeysym(0) == 0xff80 && AliasKeysym(1) == 0xffbd;
    assert Dealias(keysym) == keysym && Truncate16(keysym) == keysym;
    if AccentRowOf(keysym) < ACCENT_ROWS { AccentRowsAreLatin1(AccentRowOf(keysym)); }
    if SymbolRowOf(keysym) < SYMBOL_ROWS { SymbolRowsAreBelow(SymbolRowOf(keysym)); }
  }

  // ---- What they mean ----

  /** Every keysym of the function range holds exactly the key that stands for it, or, if no key
      does, none. */
  lemma SpecialKeyMeans(keysym: int, code: int)
    requires 0xff00 <= keysym <= 0xffff && keysym !in {0xff80, 0xffbd}
    ensures Persistent(keysym) == {code} <==> keysym in KeysymsOf(code)
    ensures Borrowed(keysym) == {}
  {
    var r := SpecialRowOf(keysym);
    if r < SPECIAL_ROWS {
      SpecialKeyOwns(keysym, r);
      RowOfRow(r);
      assert Persistent(keysym) == {SpecialKeys(r).directKey};
    } else {
      NoRowNoKey(keysym);
    }
    if keysym in KeysymsOf(code) {
      RowOfKeysym(code, keysym);
      ScanFindsRow(keysym, RowOf(keysym));
    }
    assert {code} != {} && code in {code};
  }

  /** One stroke of a special keysym presses and releases its key, one frame each, and nothing else. */
  lemma SpecialStrokeReadsBack(d: Device, keysym: int, code: int)
    requires d.fdOpen && d.ready && keysym in KeysymsOf(code)
    ensures Run(d, StrokeCalls(keysym)) == d.(log := d.log + [Syn, Key(code, 1), Syn, Syn, Key(code, 0), Syn])
  {
    RowOfKeysym(code, keysym);
    ScanFindsRow(keysym, RowOf(keysym));
    SpecialTransitions(keysym, RowOf(keysym));
    RunStroke(d, keysym);
    var press, release := Transition(code, true), Transition(code, false);
    FramesOne(press);
    FramesOne(release);
    FramesAppend([press], [release]);
    assert Frame(press) + Frame(release) == [Syn, Key(code, 1), Syn, Syn, Key(code, 0), Syn];
  }

  lemma SpecialTransitions(keysym: int, i: nat)
    requires keysym >= 0xff00 && keysym !in {0xff80, 0xffbd} && SpecialRowOf(keysym) == i < SPECIAL_ROWS
    ensures Stroke(keysym) == [Transition(SpecialKeys(i).directKey, true)] + [Transition(SpecialKeys(i).directKey, false)]
  {
    assert AliasKeysym(0) == 0xff80 && AliasKeysym(1) == 0xffbd;
    assert Dealias(keysym) == keysym;
    if AccentRowOf(keysym) < ACCENT_ROWS { AccentRowsAreLatin1(AccentRowOf(keysym)); }
  }

  // ---- Keysyms that no table has ----

  predicate LetterOrDigit(c: int) {
    'a' as int <= c <= 'z' as int || 'A' as int <= c <= 'Z' as int || '0' as int <= c <= '9' as int
  }

  /** Keysyms beyond 16 bits are cut to 16 bits on the way to doBasicKeyEvent: they type the letter or
      digit that is left, and nothing if what is left is none. */
  lemma HighKeysymsAreCut(down: bool, keysym: int)
    requires keysym >= 0x1_0000
    ensures Transitions(down, keysym)
         == if LetterOrDigit(keysym % 0x1_0000) then Transitions(down, keysym % 0x1_0000) else []
  {
    var low := keysym % 0x1_0000;
    assert AliasKeysym(0) == 0xff80 && AliasKeysym(1) == 0xffbd;
    LetterOrDigitScans(low);
    HighIsBasic(keysym);
    if LetterOrDigit(low) { LetterIsBasic(low); }
  }

  lemma HighIsBasic(keysym: int)
    requires keysym >= 0x1_0000
    ensures Classify(keysym) == Basic && Dealias(keysym) == keysym
  {
    assert AliasKeysym(0) == 0xff80 && AliasKeysym(1) == 0xffbd;
    if AccentRowOf(keysym) < ACCENT_ROWS { AccentRowsAreLatin1(AccentRowOf(keysym)); }
    if SymbolRowOf(keysym) < SYMBOL_ROWS { SymbolRowsAreBelow(SymbolRowOf(keysym)); }
    if SpecialRowOf(keysym) < SPECIAL_ROWS { RowOfRow(SpecialRowOf(keysym)); SpecialRowsAre16Bit(SpecialRowOf(keysym)); }
  }

  lemma SpecialRowsAre16Bit(i: nat)
    requires i < SPECIAL_ROWS
    ensures SpecialKeys(i).keysym <= 0xffff
  {}

  lemma LetterIsBasic(keysym: int)
    requires LetterOrDigit(keysym)
    ensures Classify(keysym) == Basic && Dealias(keysym) == keysym && Truncate16(keysym) == keysym
  {
    assert AliasKeysym(0) == 0xff80 && AliasKeysym(1) == 0xffbd;
    if AccentRowOf(keysym) < ACCENT_ROWS { AccentRowsAreLatin1(AccentRowOf(keysym)); }
    if SpecialRowOf(keysym) < SPECIAL_ROWS { SpecialRowsAreFunctionKeysyms(SpecialRowOf(keysym)); }
    if SymbolRowOf(keysym) < SYMBOL_ROWS { SymbolRowsAreNoLetters(SymbolRowOf(keysym)); }
  }

  lemma SymbolRowsAreNoLetters(i: nat)
    requires i < SYMBOL_ROWS
    ensures !LetterOrDigit(SymbolKeys(i).keysym)
  {}
}
