/** The key tables of src/vncflinger/InputDevice.cpp, and the scans over them.

    Keysyms are the X11 values; key codes are those of Linux input-event-codes.h.
    A table is a function of the row number, so that a scan `for i := 0 to ROWS`
    reads row i exactly as the array does. */
module Keymap {
  const KEY_MAX := 0x2ff
  const KEY_0 := 11
  const KEY_LEFTSHIFT := 42
  const KEY_LEFTALT := 56
  const KEY_END := 107
  const KEY_BACK := 158
  const KEY_NEXT := 0x197
  const BTN_LEFT := 0x110  // the same code as BTN_MOUSE
  const BTN_RIGHT := 0x111
  const BTN_MIDDLE := 0x112
  const BTN_TOUCH := 0x14a

  const ALIAS_ROWS := 2
  const DEAD_ROWS := 5
  const ACCENT_ROWS := 49
  const SPECIAL_ROWS := 84
  const SYMBOL_ROWS := 42

  datatype AliasRow = AliasRow(keysym: int, ascii: int)
  datatype DeadRow = DeadRow(deadChar: int, altChar: int)
  datatype AccentRow = AccentRow(latin1Char: int, deadChar: int, baseChar: int)
  datatype SpecialRow = SpecialRow(keysym: int, directKey: int)
  datatype SymbolRow = SymbolRow(keysym: int, directKey: int, needShift: bool, needAlt: bool)

  function KeysymToAscii(i: nat): AliasRow
    requires i < ALIAS_ROWS
  {
    match i
    case 0 => AliasRow(0xff80, 32) // KP_Space
    case _ => AliasRow(0xffbd, 61) // KP_Equal
  }

  function DeadCharsToAltChar(i: nat): DeadRow
    requires i < DEAD_ROWS
  {
    match i
    case 0 => DeadRow(0x60, 41) // grave KEY_GRAVE
    case 1 => DeadRow(0xb4, 18) // acute KEY_E
    case 2 => DeadRow(0x5e, 23) // asciicircum KEY_I
    case 3 => DeadRow(0xa8, 22) // diaeresis KEY_U
    case _ => DeadRow(0x7e, 49) // asciitilde KEY_N
  }

  function Latin1ToDeadChars(i: nat): AccentRow
    requires i < ACCENT_ROWS
  {
    match i
    case 0 => AccentRow(0xc0, 0x60, 0x41) // Agrave grave A
    case 1 => AccentRow(0xc8, 0x60, 0x45) // Egrave grave E
    case 2 => AccentRow(0xcc, 0x60, 0x49) // Igrave grave I
    case 3 => AccentRow(0xd2, 0x60, 0x4f) // Ograve grave O
    case 4 => AccentRow(0xd9, 0x60, 0x55) // Ugrave grave U
    case 5 => AccentRow(0xe0, 0x60, 0x61) // agrave grave a
    case 6 => AccentRow(0xe8, 0x60, 0x65) // egrave grave e
    case 7 => AccentRow(0xec, 0x60, 0x69) // igrave grave i
    case 8 => AccentRow(0xf2, 0x60, 0x6f) // ograve grave o
    case 9 => AccentRow(0xf9, 0x60, 0x75) // ugrave grave u
    case 10 => AccentRow(0xc1, 0xb4, 0x41) // Aacute acute A
    case 11 => AccentRow(0xc9, 0xb4, 0x45) // Eacute acute E
    case 12 => AccentRow(0xcd, 0xb4, 0x49) // Iacute acute I
    case 13 => AccentRow(0xd3, 0xb4, 0x4f) // Oacute acute O
    case 14 => AccentRow(0xda, 0xb4, 0x55) // Uacute acute U
    case 15 => AccentRow(0xdd, 0xb4, 0x59) // Yacute acute Y
    case 16 => AccentRow(0xe1, 0xb4, 0x61) // aacute acute a
    case 17 => AccentRow(0xe9, 0xb4, 0x65) // eacute acute e
    case 18 => AccentRow(0xed, 0xb4, 0x69) // iacute acute i
    case 19 => AccentRow(0xf3, 0xb4, 0x6f) // oacute acute o
    case 20 => AccentRow(0xfa, 0xb4, 0x75) // uacute acute u
    case 21 => AccentRow(0xfd, 0xb4, 0x79) // yacute acute y
    case 22 => AccentRow(0xc2, 0x5e, 0x41) // Acircumflex asciicircum A
    case 23 => AccentRow(0xca, 0x5e, 0x45) // Ecircumflex asciicircum E
    case 24 => AccentRow(0xce, 0x5e, 0x49) // Icircumflex asciicircum I
    case 25 => AccentRow(0xd4, 0x5e, 0x4f) // Ocircumflex asciicircum O
    case 26 => AccentRow(0xdb, 0x5e, 0x55) // Ucircumflex asciicircum U
    case 27 => AccentRow(0xe2, 0x5e, 0x61) // acircumflex asciicircum a
    case 28 => AccentRow(0xea, 0x5e, 0x65) // ecircumflex asciicircum e
    case 29 => AccentRow(0xee, 0x5e, 0x69) // icircumflex asciicircum i
    case 30 => AccentRow(0xf4, 0x5e, 0x6f) // ocircumflex asciicircum o
    case 31 => AccentRow(0xfb, 0x5e, 0x75) // ucircumflex asciicircum u
    case 32 => AccentRow(0xc4, 0xa8, 0x41) // Adiaeresis diaeresis A
    case 33 => AccentRow(0xcb, 0xa8, 0x45) // Ediaeresis diaeresis E
    case 34 => AccentRow(0xcf, 0xa8, 0x49) // Idiaeresis diaeresis I
    case 35 => AccentRow(0xd6, 0xa8, 0x4f) // Odiaeresis diaeresis O
    case 36 => AccentRow(0xdc, 0xa8, 0x55) // Udiaeresis diaeresis U
    case 37 => AccentRow(0xe4, 0xa8, 0x61) // adiaeresis diaeresis a
    case 38 => AccentRow(0xeb, 0xa8, 0x65) // ediaeresis diaeresis e
    case 39 => AccentRow(0xef, 0xa8, 0x69) // idiaeresis diaeresis i
    case 40 => AccentRow(0xf6, 0xa8, 0x6f) // odiaeresis diaeresis o
    case 41 => AccentRow(0xfc, 0xa8, 0x75) // udiaeresis diaeresis u
    case 42 => AccentRow(0xff, 0xa8, 0x79) // ydiaeresis diaeresis y
    case 43 => AccentRow(0xc3, 0x7e, 0x41) // Atilde asciitilde A
    case 44 => AccentRow(0xd1, 0x7e, 0x4e) // Ntilde asciitilde N
    case 45 => AccentRow(0xd5, 0x7e, 0x4f) // Otilde asciitilde O
    case 46 => AccentRow(0xe3, 0x7e, 0x61) // atilde asciitilde a
    case 47 => AccentRow(0xf1, 0x7e, 0x6e) // ntilde asciitilde n
    case _ => AccentRow(0xf5, 0x7e, 0x6f) // otilde asciitilde o
  }

  function SpecialKeys(i: nat): SpecialRow
    requires i < SPECIAL_ROWS
  {
    match i
    case 0 => SpecialRow(0xff08, 14) // BackSpace KEY_BACKSPACE
    case 1 => SpecialRow(0xff09, 15) // Tab KEY_TAB
    case 2 => SpecialRow(0xff0d, 28) // Return KEY_ENTER
    case 3 => SpecialRow(0xff13, 119) // Pause KEY_PAUSE
    case 4 => SpecialRow(0xff1b, 1) // Escape KEY_ESC
    case 5 => SpecialRow(0xffff, 111) // Delete KEY_DELETE
    case 6 => SpecialRow(0xff50, 102) // Home KEY_HOME
    case 7 => SpecialRow(0xff51, 105) // Left KEY_LEFT
    case 8 => SpecialRow(0xff52, 103) // Up KEY_UP
    case 9 => SpecialRow(0xff53, 106) // Right KEY_RIGHT
    case 10 => SpecialRow(0xff54, 108) // Down KEY_DOWN
    case 11 => SpecialRow(0xff55, 104) // Page_Up KEY_PAGEUP
    case 12 => SpecialRow(0xff56, 109) // Page_Down KEY_PAGEDOWN
    case 13 => SpecialRow(0xff57, 107) // End KEY_END
    case 14 => SpecialRow(0xff63, 110) // Insert KEY_INSERT
    case 15 => SpecialRow(0xffbe, 59) // F1 KEY_F1
    case 16 => SpecialRow(0xffbf, 60) // F2 KEY_F2
    case 17 => SpecialRow(0xffc0, 61) // F3 KEY_F3
    case 18 => SpecialRow(0xffc1, 62) // F4 KEY_F4
    case 19 => SpecialRow(0xffc2, 63) // F5 KEY_F5
    case 20 => SpecialRow(0xffc3, 64) // F6 KEY_F6
    case 21 => SpecialRow(0xffc4, 65) // F7 KEY_F7
    case 22 => SpecialRow(0xffc5, 66) // F8 KEY_F8
    case 23 => SpecialRow(0xffc6, 67) // F9 KEY_F9
    case 24 => SpecialRow(0xffc7, 68) // F10 KEY_F10
    case 25 => SpecialRow(0xffc8, 87) // F11 KEY_F11
    case 26 => SpecialRow(0xffc9, 88) // F12 KEY_F12
    case 27 => SpecialRow(0xffca, 183) // F13 KEY_F13
    case 28 => SpecialRow(0xffcb, 184) // F14 KEY_F14
    case 29 => SpecialRow(0xffcc, 185) // F15 KEY_F15
    case 30 => SpecialRow(0xffcd, 186) // F16 KEY_F16
    case 31 => SpecialRow(0xffce, 187) // F17 KEY_F17
    case 32 => SpecialRow(0xffcf, 188) // F18 KEY_F18
    case 33 => SpecialRow(0xffd0, 189) // F19 KEY_F19
    case 34 => SpecialRow(0xffd1, 190) // F20 KEY_F20
    case 35 => SpecialRow(0xffd2, 191) // F21 KEY_F21
    case 36 => SpecialRow(0xffd3, 192) // F22 KEY_F22
    case 37 => SpecialRow(0xffd4, 193) // F23 KEY_F23
    case 38 => SpecialRow(0xffd5, 194) // F24 KEY_F24
    case 39 => SpecialRow(0xff89, 15) // KP_Tab KEY_TAB
    case 40 => SpecialRow(0xff8d, 96) // KP_Enter KEY_KPENTER
    case 41 => SpecialRow(0xff91, 59) // KP_F1 KEY_F1
    case 42 => SpecialRow(0xff92, 60) // KP_F2 KEY_F2
    case 43 => SpecialRow(0xff93, 61) // KP_F3 KEY_F3
    case 44 => SpecialRow(0xff94, 62) // KP_F4 KEY_F4
    case 45 => SpecialRow(0xff95, 102) // KP_Home KEY_HOME
    case 46 => SpecialRow(0xff96, 105) // KP_Left KEY_LEFT
    case 47 => SpecialRow(0xff97, 103) // KP_Up KEY_UP
    case 48 => SpecialRow(0xff98, 106) // KP_Right KEY_RIGHT
    case 49 => SpecialRow(0xff99, 108) // KP_Down KEY_DOWN
    case 50 => SpecialRow(0xff9c, 107) // KP_End KEY_END
    case 51 => SpecialRow(0xff9a, 104) // KP_Page_Up KEY_PAGEUP
    case 52 => SpecialRow(0xff9b, 407) // KP_Page_Down KEY_NEXT
    case 53 => SpecialRow(0xff9e, 110) // KP_Insert KEY_INSERT
    case 54 => SpecialRow(0xff9f, 111) // KP_Delete KEY_DELETE
    case 55 => SpecialRow(0xffaa, 55) // KP_Multiply KEY_KPASTERISK
    case 56 => SpecialRow(0xffab, 78) // KP_Add KEY_KPPLUS
    case 57 => SpecialRow(0xffac, 121) // KP_Separator KEY_KPCOMMA
    case 58 => SpecialRow(0xffad, 74) // KP_Subtract KEY_KPMINUS
    case 59 => SpecialRow(0xffae, 83) // KP_Decimal KEY_KPDOT
    case 60 => SpecialRow(0xffaf, 98) // KP_Divide KEY_KPSLASH
    case 61 => SpecialRow(0xffb0, 82) // KP_0 KEY_KP0
    case 62 => SpecialRow(0xffb1, 79) // KP_1 KEY_KP1
    case 63 => SpecialRow(0xffb2, 80) // KP_2 KEY_KP2
    case 64 => SpecialRow(0xffb3, 81) // KP_3 KEY_KP3
    case 65 => SpecialRow(0xffb4, 75) // KP_4 KEY_KP4
    case 66 => SpecialRow(0xffb5, 76) // KP_5 KEY_KP5
    case 67 => SpecialRow(0xffb6, 77) // KP_6 KEY_KP6
    case 68 => SpecialRow(0xffb7, 71) // KP_7 KEY_KP7
    case 69 => SpecialRow(0xffb8, 72) // KP_8 KEY_KP8
    case 70 => SpecialRow(0xffb9, 73) // KP_9 KEY_KP9
    case 71 => SpecialRow(0xffe1, 42) // Shift_L KEY_LEFTSHIFT
    case 72 => SpecialRow(0xffe2, 54) // Shift_R KEY_RIGHTSHIFT
    case 73 => SpecialRow(0xffe3, 29) // Control_L KEY_LEFTCTRL
    case 74 => SpecialRow(0xffe4, 97) // Control_R KEY_RIGHTCTRL
    case 75 => SpecialRow(0xffe9, 56) // Alt_L KEY_LEFTALT
    case 76 => SpecialRow(0xffea, 100) // Alt_R KEY_RIGHTALT
    case 77 => SpecialRow(0xffe7, 56) // Meta_L KEY_LEFTALT
    case 78 => SpecialRow(0xffe8, 100) // Meta_R KEY_RIGHTALT
    case 79 => SpecialRow(0xffeb, 0xdb) // Super_L
    case 80 => SpecialRow(0xffec, 0xdc) // Super_R
    case 81 => SpecialRow(0xff67, 0xdd) // Menu
    case 82 => SpecialRow(0xff21, 0x94) // Kanji
    case _ => SpecialRow(0xff2e, 0x70) // Kana_Shift
  }

  function SymbolKeys(i: nat): SymbolRow
    requires i < SYMBOL_ROWS
  {
    match i
    case 0 => SymbolRow(0x20, 57, false, false) // space KEY_SPACE
    case 1 => SymbolRow(0x21, 2, true, false) // exclam KEY_1
    case 2 => SymbolRow(0x22, 40, true, false) // quotedbl KEY_APOSTROPHE
    case 3 => SymbolRow(0x23, 4, true, false) // numbersign KEY_3
    case 4 => SymbolRow(0x24, 5, true, false) // dollar KEY_4
    case 5 => SymbolRow(0x25, 6, true, false) // percent KEY_5
    case 6 => SymbolRow(0x26, 8, true, false) // ampersand KEY_7
    case 7 => SymbolRow(0x27, 40, false, false) // apostrophe KEY_APOSTROPHE
    case 8 => SymbolRow(0x28, 10, true, false) // parenleft KEY_9
    case 9 => SymbolRow(0x29, 11, true, false) // parenright KEY_0
    case 10 => SymbolRow(0x2a, 9, true, false) // asterisk KEY_8
    case 11 => SymbolRow(0x2b, 13, true, false) // plus KEY_EQUAL
    case 12 => SymbolRow(0x2c, 51, false, false) // comma KEY_COMMA
    case 13 => SymbolRow(0x2d, 12, false, false) // minus KEY_MINUS
    case 14 => SymbolRow(0x2e, 52, false, false) // period KEY_DOT
    case 15 => SymbolRow(0x2f, 53, false, false) // slash KEY_SLASH
    case 16 => SymbolRow(0x3a, 39, true, false) // colon KEY_SEMICOLON
    case 17 => SymbolRow(0x3b, 39, false, false) // semicolon KEY_SEMICOLON
    case 18 => SymbolRow(0x3c, 51, true, false) // less KEY_COMMA
    case 19 => SymbolRow(0x3d, 13, false, false) // equal KEY_EQUAL
    case 20 => SymbolRow(0x3e, 52, true, false) // greater KEY_DOT
    case 21 => SymbolRow(0x3f, 53, true, false) // question KEY_SLASH
    case 22 => SymbolRow(0x40, 3, true, false) // at KEY_2
    case 23 => SymbolRow(0x5b, 26, false, false) // bracketleft KEY_LEFTBRACE
    case 24 => SymbolRow(0x5c, 43, false, false) // backslash KEY_BACKSLASH
    case 25 => SymbolRow(0x5d, 27, false, false) // bracketright KEY_RIGHTBRACE
    case 26 => SymbolRow(0x5e, 7, true, false) // asciicircum KEY_6
    case 27 => SymbolRow(0x5f, 12, true, false) // underscore KEY_MINUS
    case 28 => SymbolRow(0x60, 41, false, false) // grave KEY_GRAVE
    case 29 => SymbolRow(0x7b, 26, true, false) // braceleft KEY_LEFTBRACE
    case 30 => SymbolRow(0x7c, 43, true, false) // bar KEY_BACKSLASH
    case 31 => SymbolRow(0x7d, 27, true, false) // braceright KEY_RIGHTBRACE
    case 32 => SymbolRow(0x7e, 41, true, false) // asciitilde KEY_GRAVE
    case 33 => SymbolRow(0xc5, 30, true, true) // Aring KEY_A
    case 34 => SymbolRow(0xe5, 30, false, true) // aring KEY_A
    case 35 => SymbolRow(0xc7, 46, true, true) // Ccedilla KEY_C
    case 36 => SymbolRow(0xe7, 46, false, true) // ccedilla KEY_C
    case 37 => SymbolRow(0x20ac, 3, true, true) // EuroSign KEY_2
    case 38 => SymbolRow(0xba, 11, false, true) // masculine KEY_0
    case 39 => SymbolRow(0xa3, 4, false, true) // sterling KEY_3
    case 40 => SymbolRow(0xdf, 31, false, true) // ssharp KEY_S
    case _ => SymbolRow(0xa7, 7, false, true) // section KEY_6
  }

  function Qwerty(i: nat): int
    requires i < 26
  {
    match i
    case 0 => 30 // KEY_A
    case 1 => 48 // KEY_B
    case 2 => 46 // KEY_C
    case 3 => 32 // KEY_D
    case 4 => 18 // KEY_E
    case 5 => 33 // KEY_F
    case 6 => 34 // KEY_G
    case 7 => 35 // KEY_H
    case 8 => 23 // KEY_I
    case 9 => 36 // KEY_J
    case 10 => 37 // KEY_K
    case 11 => 38 // KEY_L
    case 12 => 50 // KEY_M
    case 13 => 49 // KEY_N
    case 14 => 24 // KEY_O
    case 15 => 25 // KEY_P
    case 16 => 16 // KEY_Q
    case 17 => 19 // KEY_R
    case 18 => 31 // KEY_S
    case 19 => 20 // KEY_T
    case 20 => 22 // KEY_U
    case 21 => 47 // KEY_V
    case 22 => 17 // KEY_W
    case 23 => 45 // KEY_X
    case 24 => 21 // KEY_Y
    case _ => 44 // KEY_Z
  }

  // ---- Scanning a table: the first row whose key column holds `key`, or `rows` ----

  function AliasKeysym(i: nat): int { if i < ALIAS_ROWS then KeysymToAscii(i).keysym else -1 }

  function DeadChar(i: nat): int { if i < DEAD_ROWS then DeadCharsToAltChar(i).deadChar else -1 }

  function SpecialKeysym(i: nat): int { if i < SPECIAL_ROWS then SpecialKeys(i).keysym else -1 }

  function SymbolKeysym(i: nat): int { if i < SYMBOL_ROWS then SymbolKeys(i).keysym else -1 }

  function Lookup(column: nat -> int, rows: nat, key: int, start: nat := 0): (r: nat)
    requires start <= rows
    ensures start <= r <= rows
    ensures r < rows ==> column(r) == key
    ensures forall k | start <= k < r :: column(k) != key
    decreases rows - start
  {
    if start == rows || column(start) == key then start else Lookup(column, rows, key, start + 1)
  }

  function DeadRowOf(deadChar: int): (r: nat)
    ensures r <= DEAD_ROWS
  {
    Lookup(DeadChar, DEAD_ROWS, deadChar)
  }

  /** A row of the accent table that the nested scan accepts: its character matches
      and its dead character is in the dead-key table. */
  predicate AccentHit(keysym: int, j: nat)
    requires j < ACCENT_ROWS
  {
    Latin1ToDeadChars(j).latin1Char == keysym && DeadRowOf(Latin1ToDeadChars(j).deadChar) < DEAD_ROWS
  }

  function AccentRowOf(keysym: int, start: nat := 0): (r: nat)
    requires start <= ACCENT_ROWS
    ensures start <= r <= ACCENT_ROWS
    ensures r < ACCENT_ROWS ==> AccentHit(keysym, r)
    ensures forall k | start <= k < r :: !AccentHit(keysym, k)
    decreases ACCENT_ROWS - start
  {
    if start == ACCENT_ROWS || AccentHit(keysym, start) then start else AccentRowOf(keysym, start + 1)
  }

  function SpecialRowOf(keysym: int): (r: nat)
    ensures r <= SPECIAL_ROWS
  {
    Lookup(SpecialKeysym, SPECIAL_ROWS, keysym)
  }

  function SymbolRowOf(keysym: int): (r: nat)
    ensures r <= SYMBOL_ROWS
  {
    Lookup(SymbolKeysym, SYMBOL_ROWS, keysym)
  }

  /** The two keypad keysyms that are rewritten to ASCII before anything else. */
  function Dealias(keysym: int): int {
    var i := Lookup(AliasKeysym, ALIAS_ROWS, keysym);
    if i < ALIAS_ROWS then KeysymToAscii(i).ascii else keysym
  }

  // ---- Letters and digits ----

  /** doBasicKeyEvent takes a uint16_t, so a keysym is truncated to 16 bits first. */
  function Truncate16(keysym: int): int { keysym % 0x1_0000 }

  /** 0 stands for "unknown keysym", as in the source. */
  function BasicScan(code: int): int {
    if 'a' as int <= code <= 'z' as int then Qwerty(code - 'a' as int)
    else if 'A' as int <= code <= 'Z' as int then Qwerty(code - 'A' as int)
    else if '1' as int <= code <= '9' as int then code - '1' as int + 2
    else if code == '0' as int then KEY_0
    else 0
  }

  predicate BasicShift(code: int) { 'A' as int <= code <= 'Z' as int }
}
