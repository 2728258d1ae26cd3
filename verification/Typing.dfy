/** Typing round trip: an independent US-layout reader of the stream gets back exactly the
    text that was typed. */
module Typing {
  import opened Keymap
  import opened InputStream
  import opened KeyTranslation
  import opened Input

  // ---- The reader: a US keyboard with Alt characters and dead keys, arranged by key code ----

  /** Plain and shifted character of a key; (0, 0) for keys that print nothing. */
  function UsKey(code: int): (char, char) {
    match code
    case 2 => ('1', '!') case 3 => ('2', '@') case 4 => ('3', '#') case 5 => ('4', '$')
    case 6 => ('5', '%') case 7 => ('6', '^') case 8 => ('7', '&') case 9 => ('8', '*')
    case 10 => ('9', '(') case 11 => ('0', ')') case 12 => ('-', '_') case 13 => ('=', '+')
    case 16 => ('q', 'Q') case 17 => ('w', 'W') case 18 => ('e', 'E') case 19 => ('r', 'R')
    case 20 => ('t', 'T') case 21 => ('y', 'Y') case 22 => ('u', 'U') case 23 => ('i', 'I')
    case 24 => ('o', 'O') case 25 => ('p', 'P') case 26 => ('[', '{') case 27 => (']', '}')
    case 30 => ('a', 'A') case 31 => ('s', 'S') case 32 => ('d', 'D') case 33 => ('f', 'F')
    case 34 => ('g', 'G') case 35 => ('h', 'H') case 36 => ('j', 'J') case 37 => ('k', 'K')
    case 38 => ('l', 'L') case 39 => (';', ':') case 40 => ('\'', '"') case 41 => ('`', '~')
    case 43 => ('\\', '|') case 44 => ('z', 'Z') case 45 => ('x', 'X') case 46 => ('c', 'C')
    case 47 => ('v', 'V') case 48 => ('b', 'B') case 49 => ('n', 'N') case 50 => ('m', 'M')
    case 51 => (',', '<') case 52 => ('.', '>') case 53 => ('/', '?') case 57 => (' ', ' ')
    case _ => ('\0', '\0')
  }

  function UsChar(code: int, shift: bool): int {
    if shift then UsKey(code).1 as int else UsKey(code).0 as int
  }

  predicate IsDeadKey(code: int) { code in {41, 18, 23, 22, 49} }

  /** Characters on the Alt layer, by key code. */
  function AltChar(code: int, shift: bool): int {
    if shift then
      match code case 3 => 0x20ac case 30 => 0xc5 case 46 => 0xc7 case _ => 0
    else
      match code case 4 => 163 case 7 => 167 case 11 => 0xba case 30 => 0xe5 case 31 => 223 case 46 => 0xe7 case _ => 0
  }

  /** Dead key and upper-case letter to Latin-1; letters by their ASCII codes. */
  function ComposeUpper(dead: int, letter: int): int {
    match (dead, letter)
    case (41, 65) => 0xc0 case (41, 69) => 0xc8 case (41, 73) => 0xcc case (41, 79) => 0xd2 case (41, 85) => 0xd9
    case (18, 65) => 0xc1 case (18, 69) => 0xc9 case (18, 73) => 0xcd case (18, 79) => 0xd3 case (18, 85) => 0xda
    case (18, 89) => 0xdd
    case (23, 65) => 0xc2 case (23, 69) => 0xca case (23, 73) => 0xce case (23, 79) => 0xd4 case (23, 85) => 0xdb
    case (22, 65) => 0xc4 case (22, 69) => 0xcb case (22, 73) => 0xcf case (22, 79) => 0xd6 case (22, 85) => 0xdc
    case (49, 65) => 0xc3 case (49, 78) => 0xd1 case (49, 79) => 0xd5
    case _ => 0
  }

  /** Latin-1 puts a lower-case letter 0x20 above its upper case, but for y with diaeresis,
      whose upper case it lacks. */
  function Compose(dead: int, letter: int): int {
    if dead == 22 && letter == 'y' as int then 0xff
    else if 'a' as int <= letter <= 'z' as int then ComposeUpper(dead, letter - 0x20) + 0x20
    else ComposeUpper(dead, letter)
  }

  /** `dead` is the key code of a pending dead key, or 0. */
  datatype Reader = Reader(shift: bool, alt: bool, dead: int, text: seq<int>)

  function Read(s: Reader, code: int, down: bool): Reader {
    if code == KEY_LEFTSHIFT then s.(shift := down)
    else if code == KEY_LEFTALT then s.(alt := down)
    else if !down then s
    else if s.alt && !s.shift && IsDeadKey(code) then s.(dead := code)
    else
      var ch := if s.alt then AltChar(code, s.shift) else UsChar(code, s.shift);
      s.(text := s.text + [if s.dead != 0 then Compose(s.dead, ch) else ch], dead := 0)
  }

  function ReadLog(s: Reader, log: seq<Entry>): Reader
    decreases log
  {
    if log == [] then s
    else ReadLog(if log[0].Key? then Read(s, log[0].code, log[0].value != 0) else s, log[1..])
  }

  /** The text of a stretch of stream, read with no key down. */
  function TextOf(log: seq<Entry>): seq<int> { ReadLog(Reader(false, false, 0, []), log).text }

  // ---- Reading transitions instead of entries ----

  function ReadAll(s: Reader, ts: seq<Transition>): Reader
    decreases ts
  {
    if ts == [] then s else ReadAll(Read(s, ts[0].code, ts[0].down), ts[1..])
  }

  lemma {:induction false} ReadAllAppend(s: Reader, a: seq<Transition>, b: seq<Transition>)
    ensures ReadAll(s, a + b) == ReadAll(ReadAll(s, a), b)
    decreases a
  {
    if a == [] {
      assert a + b == b;
    } else {
      assert (a + b)[1..] == a[1..] + b;
      ReadAllAppend(Read(s, a[0].code, a[0].down), a[1..], b);
    }
  }

  lemma ReadOne(s: Reader, t: Transition)
    ensures ReadAll(s, [t]) == Read(s, t.code, t.down)
  {
    assert [t][1..] == [];
  }

  lemma {:induction false} ReadLogAppend(s: Reader, a: seq<Entry>, b: seq<Entry>)
    ensures ReadLog(s, a + b) == ReadLog(ReadLog(s, a), b)
    decreases a
  {
    if a == [] {
      assert a + b == b;
    } else {
      assert (a + b)[1..] == a[1..] + b;
      ReadLogAppend(if a[0].Key? then Read(s, a[0].code, a[0].value != 0) else s, a[1..], b);
    }
  }

  lemma ReadLogFrame(s: Reader, t: Transition)
    ensures ReadLog(s, Frame(t)) == Read(s, t.code, t.down)
  {
    var f := Frame(t);
    var s' := Read(s, t.code, t.down);
    assert ReadLog(s, f) == ReadLog(s, f[1..]);
    assert ReadLog(s, f[1..]) == ReadLog(s', f[1..][1..]);
    assert ReadLog(s', f[1..][1..]) == ReadLog(s', f[1..][1..][1..]);
    assert f[1..][1..][1..] == [];
  }

  lemma {:induction false} ReadLogFrames(s: Reader, ts: seq<Transition>)
    ensures ReadLog(s, Frames(ts)) == ReadAll(s, ts)
    decreases ts
  {
    if ts != [] {
      ReadLogFrame(s, ts[0]);
      ReadLogAppend(s, Frame(ts[0]), Frames(ts[1..]));
      ReadLogFrames(Read(s, ts[0].code, ts[0].down), ts[1..]);
    }
  }

  // ---- Unique decodability of the tables, row by row ----

  lemma PlainSymbolReadsBack(i: nat)
    requires i < SYMBOL_ROWS && !SymbolKeys(i).needAlt && !SymbolKeys(i).needShift
    ensures UsChar(SymbolKeys(i).directKey, false) == SymbolKeys(i).keysym
  {}

  lemma ShiftedSymbolReadsBack(i: nat)
    requires i < SYMBOL_ROWS && !SymbolKeys(i).needAlt && SymbolKeys(i).needShift
    ensures UsChar(SymbolKeys(i).directKey, true) == SymbolKeys(i).keysym
  {}

  lemma AltSymbolReadsBack(i: nat)
    requires i < SYMBOL_ROWS && SymbolKeys(i).needAlt
    ensures AltChar(SymbolKeys(i).directKey, SymbolKeys(i).needShift) == SymbolKeys(i).keysym
    ensures !SymbolKeys(i).needShift ==> !IsDeadKey(SymbolKeys(i).directKey)
  {}

  lemma BasicReadsBack(code: int)
    requires BasicScan(code) != 0
    ensures UsChar(BasicScan(code), BasicShift(code)) == code
  {}

  lemma AccentRowReadsBack(j: nat)
    requires j < ACCENT_ROWS && DeadRowOf(Latin1ToDeadChars(j).deadChar) < DEAD_ROWS
    ensures var row := Latin1ToDeadChars(j);
            var alt := DeadCharsToAltChar(DeadRowOf(row.deadChar)).altChar;
      && IsDeadKey(alt) && Compose(alt, row.baseChar) == row.latin1Char
      && Truncate16(row.baseChar) == row.baseChar && BasicScan(row.baseChar) != 0
  {
    var row := Latin1ToDeadChars(j);
    assert DeadChar(DeadRowOf(row.deadChar)) == row.deadChar;
  }

  // ---- One stroke ----

  /** Between strokes nothing is pending. */
  function Ready(text: seq<int>): Reader { Reader(false, false, 0, text) }

  function Stroke(keysym: int): seq<Transition> { Transitions(true, keysym) + Transitions(false, keysym) }

  /** A letter or digit, possibly after a dead key. */
  lemma ReadBasic(text: seq<int>, dead: int, code: int)
    requires Truncate16(code) == code && BasicScan(code) != 0
    ensures ReadAll(Ready(text).(dead := dead), BasicTransitions(code, true) + BasicTransitions(code, false))
         == Ready(text + [if dead != 0 then Compose(dead, code) else code])
  {
    var s := Ready(text).(dead := dead);
    var scan := BasicScan(code);
    BasicReadsBack(code);
    BasicScanRange(code);
    var down, up := BasicTransitions(code, true), BasicTransitions(code, false);
    ReadAllAppend(s, down, up);
    if BasicShift(code) {
      ReadTwo(s, Transition(KEY_LEFTSHIFT, true), Transition(scan, true));
      ReadTwo(ReadAll(s, down), Transition(KEY_LEFTSHIFT, false), Transition(scan, false));
    } else {
      assert down == [Transition(scan, true)] && up == [Transition(scan, false)];
      ReadOne(s, Transition(scan, true));
      ReadOne(ReadAll(s, down), Transition(scan, false));
    }
  }

  lemma ReadTwo(s: Reader, a: Transition, b: Transition)
    ensures ReadAll(s, [a] + [b]) == Read(Read(s, a.code, a.down), b.code, b.down)
  {
    ReadAllAppend(s, [a], [b]);
    ReadOne(s, a);
    ReadOne(Read(s, a.code, a.down), b);
  }

  lemma ReadDeadStroke(text: seq<int>, altChar: int)
    requires IsDeadKey(altChar)
    ensures ReadAll(Ready(text), DeadStroke(altChar)) == Ready(text).(dead := altChar)
  {
    var d := DeadStroke(altChar);
    assert d == ([d[0]] + [d[1]]) + ([d[2]] + [d[3]]);
    ReadAllAppend(Ready(text), [d[0]] + [d[1]], [d[2]] + [d[3]]);
    ReadTwo(Ready(text), d[0], d[1]);
    ReadTwo(ReadAll(Ready(text), [d[0]] + [d[1]]), d[2], d[3]);
  }

  lemma ReadSymbol(text: seq<int>, i: nat)
    requires i < SYMBOL_ROWS
    ensures ReadAll(Ready(text), SymbolTransitions(SymbolKeys(i), true) + SymbolTransitions(SymbolKeys(i), false))
         == Ready(text + [SymbolKeys(i).keysym])
  {
    var row := SymbolKeys(i);
    var d := SymbolTransitions(row, true);
    var s := Ready(text);
    SymbolRowsAreKeyboard(i);
    if row.needAlt { AltSymbolReadsBack(i); } else if row.needShift { ShiftedSymbolReadsBack(i); } else { PlainSymbolReadsBack(i); }
    ReadAllAppend(s, d, [Transition(row.directKey, false)]);
    assert d == ([d[0]] + [d[1]]) + ([d[2]] + ([d[3]] + [d[4]]));
    ReadAllAppend(s, [d[0]] + [d[1]], [d[2]] + ([d[3]] + [d[4]]));
    ReadTwo(s, d[0], d[1]);
    var modified := s.(alt := row.needAlt, shift := row.needShift);
    ReadAllAppend(modified, [d[2]], [d[3]] + [d[4]]);
    ReadOne(modified, d[2]);
    var typed := Read(modified, row.directKey, true);
    ReadTwo(typed, d[3], d[4]);
    ReadOne(Ready(typed.text), Transition(row.directKey, false));
  }

  // ---- Which keysyms print ----

  /** Printable ASCII, the accented letters and the symbols of the tables, and the two keypad
      aliases. */
  predicate Typable(keysym: int) {
    || 0x20 <= keysym <= 0x7e
    || AccentRowOf(keysym) < ACCENT_ROWS
    || SymbolRowOf(keysym) < SYMBOL_ROWS
    || keysym in {0xff80, 0xffbd}
  }

  /** The character a keysym stands for: itself, but for KP_Space and KP_Equal. */
  function Character(keysym: int): int {
    if keysym == 0xff80 then ' ' as int else if keysym == 0xffbd then '=' as int else keysym
  }

  /** Every printable ASCII character is a letter, a digit or a row of the symbol table. */
  lemma AsciiIsCovered(keysym: int)
    requires 0x20 <= keysym <= 0x7e
    ensures BasicScan(keysym) != 0 || SymbolRowOf(keysym) < SYMBOL_ROWS
  {
    if BasicScan(keysym) == 0 {
      var row := if keysym <= 0x2f then keysym - 0x20 else if keysym <= 0x40 then keysym - 0x3a + 16
                 else if keysym <= 0x60 then keysym - 0x5b + 23 else keysym - 0x7b + 29;
      LetterOrDigitScans(keysym);
      assert SymbolKeysym(row) == keysym;
    }
  }

  lemma LetterOrDigitScans(code: int)
    ensures BasicScan(code) == 0 <==>
            !('a' as int <= code <= 'z' as int || 'A' as int <= code <= 'Z' as int || '0' as int <= code <= '9' as int)
  {}

  lemma AliasesResolve(keysym: int)
    ensures Dealias(keysym) == Character(keysym)
  {
    var i := Lookup(AliasKeysym, ALIAS_ROWS, keysym);
    assert AliasKeysym(0) == 0xff80 && AliasKeysym(1) == 0xffbd;
  }

  /** No printing keysym is taken for a special key. */
  lemma TypableIsNotSpecial(keysym: int)
    requires keysym < 0xff00
    ensures SpecialRowOf(keysym) == SPECIAL_ROWS
  {
    var p := SpecialRowOf(keysym);
    if p < SPECIAL_ROWS { SpecialRowsAreFunctionKeysyms(p); }
  }

  lemma CharacterIsPlain(keysym: int)
    requires Typable(keysym)
    ensures var c := Character(keysym);
      && 0 <= c <= 0x20ac
      && (AccentRowOf(c) < ACCENT_ROWS || SymbolRowOf(c) < SYMBOL_ROWS || BasicScan(c) != 0)
  {
    var c := Character(keysym);
    if AccentRowOf(keysym) < ACCENT_ROWS { AccentRowsAreLatin1(AccentRowOf(keysym)); }
    else if SymbolRowOf(keysym) < SYMBOL_ROWS {
      SymbolRowsAreBelow(SymbolRowOf(keysym));
      SymbolKeysymsPositive(SymbolRowOf(keysym));
    }
    else { AsciiIsCovered(c); }
  }

  lemma SymbolKeysymsPositive(i: nat)
    requires i < SYMBOL_ROWS
    ensures SymbolKeys(i).keysym >= 0x20
  {}

  lemma ReadAccent(text: seq<int>, j: nat)
    requires j < ACCENT_ROWS && DeadRowOf(Latin1ToDeadChars(j).deadChar) < DEAD_ROWS
    ensures ReadAll(Ready(text), AccentTransitions(j, true) + AccentTransitions(j, false))
         == Ready(text + [Latin1ToDeadChars(j).latin1Char])
  {
    var base := Latin1ToDeadChars(j).baseChar;
    var alt := DeadCharsToAltChar(DeadRowOf(Latin1ToDeadChars(j).deadChar)).altChar;
    AccentRowReadsBack(j);
    ReadDeadStroke(text, alt);
    ReadBasic(text, alt, base);
    assert AccentTransitions(j, true) + AccentTransitions(j, false)
        == DeadStroke(alt) + (BasicTransitions(base, true) + BasicTransitions(base, false));
    ReadAllAppend(Ready(text), DeadStroke(alt), BasicTransitions(base, true) + BasicTransitions(base, false));
  }

  /** The class decides the character, and it is not a special key. */
  predicate Prints(k: KeyClass, c: int) {
    && ValidClass(k)
    && match k
       case Accent(j) => Latin1ToDeadChars(j).latin1Char == c
       case Special(_) => false
       case Symbol(s) => SymbolKeys(s).keysym == c
       case Basic => Truncate16(c) == c && BasicScan(c) != 0
  }

  lemma TypablePrints(keysym: int)
    requires Typable(keysym)
    ensures Prints(Classify(Character(keysym)), Character(keysym))
  {
    CharacterIsPlain(keysym);
    TypableIsNotSpecial(Character(keysym));
    assert forall i: nat | i < SYMBOL_ROWS :: SymbolKeysym(i) == SymbolKeys(i).keysym;
  }

  lemma ClassReadsBack(text: seq<int>, k: KeyClass, c: int)
    requires Prints(k, c)
    ensures ReadAll(Ready(text), ClassTransitions(k, c, true) + ClassTransitions(k, c, false)) == Ready(text + [c])
  {
    match k
    case Accent(j) => ReadAccent(text, j);
    case Symbol(s) => ReadSymbol(text, s);
    case Basic => ReadBasic(text, 0, c);
  }

  /** One down/up stroke of any printing keysym is read back as its character. */
  lemma StrokeReadsBack(text: seq<int>, keysym: int)
    requires Typable(keysym)
    ensures ReadAll(Ready(text), Stroke(keysym)) == Ready(text + [Character(keysym)])
  {
    AliasesResolve(keysym);
    TypablePrints(keysym);
    ClassReadsBack(text, Classify(Character(keysym)), Character(keysym));
  }

  // ---- Whole texts, typed on the device ----

  function StrokeCalls(keysym: int): seq<Call> { [Call.KeyEvent(true, keysym), Call.KeyEvent(false, keysym)] }

  /** A text typed one key after the other: each key goes down and up before the next. */
  function Strokes(text: seq<int>): seq<Call> {
    if text == [] then []
    else StrokeCalls(text[0]) + Strokes(text[1..])
  }

  function Characters(text: seq<int>): seq<int> {
    if text == [] then [] else [Character(text[0])] + Characters(text[1..])
  }

  function Stream(text: seq<int>): seq<Entry> {
    if text == [] then [] else Frames(Stroke(text[0])) + Stream(text[1..])
  }

  lemma RunTwo(d: Device, a: Call, b: Call)
    ensures Run(d, [a, b]) == Step(Step(d, a), b)
  {
    assert [a, b][..1] == [a] && [a][..0] == [];
    assert Run(d, [a]) == Step(d, a);
  }

  lemma LogTwice(log: seq<Entry>, a: seq<Transition>, b: seq<Transition>)
    ensures log + Frames(a) + Frames(b) == log + Frames(a + b)
  {
    FramesAppend(a, b);
  }

  lemma RunStroke(d: Device, keysym: int)
    requires d.fdOpen && d.ready
    ensures Run(d, StrokeCalls(keysym)) == d.(log := d.log + Frames(Stroke(keysym)))
  {
    RunTwo(d, Call.KeyEvent(true, keysym), Call.KeyEvent(false, keysym));
    LogTwice(d.log, Transitions(true, keysym), Transitions(false, keysym));
  }

  /** Appending streams stroke by stroke, whatever the strokes write. */
  lemma RunsChain(d: Device, first: seq<Call>, rest: seq<Call>, es: seq<Entry>, more: seq<Entry>)
    requires Run(d, first) == d.(log := d.log + es)
    requires Run(d.(log := d.log + es), rest) == d.(log := d.log + es + more)
    ensures Run(d, first + rest) == d.(log := d.log + (es + more))
  {
    RunAppend(d, first, rest);
    assert d.log + es + more == d.log + (es + more);
  }

  lemma {:induction false} RunStrokes(d: Device, text: seq<int>)
    requires d.fdOpen && d.ready
    ensures Run(d, Strokes(text)) == d.(log := d.log + Stream(text))
    decreases text
  {
    if text == [] {
      assert d.log + [] == d.log;
    } else {
      var es := Frames(Stroke(text[0]));
      RunStroke(d, text[0]);
      RunStrokes(d.(log := d.log + es), text[1..]);
      RunsChain(d, StrokeCalls(text[0]), Strokes(text[1..]), es, Stream(text[1..]));
    }
  }

  lemma ReadChain(before: seq<int>, es: seq<Entry>, c: int, rest: seq<Entry>, cs: seq<int>)
    requires ReadLog(Ready(before), es) == Ready(before + [c])
    requires ReadLog(Ready(before + [c]), rest) == Ready(before + [c] + cs)
    ensures ReadLog(Ready(before), es + rest) == Ready(before + ([c] + cs))
  {
    ReadLogAppend(Ready(before), es, rest);
    assert before + [c] + cs == before + ([c] + cs);
  }

  lemma {:induction false} StreamReadsBack(before: seq<int>, text: seq<int>)
    requires forall keysym | keysym in text :: Typable(keysym)
    ensures ReadLog(Ready(before), Stream(text)) == Ready(before + Characters(text))
    decreases text
  {
    if text == [] {
      assert before + [] == before;
    } else {
      StrokeReadsBack(before, text[0]);
      ReadLogFrames(Ready(before), Stroke(text[0]));
      StreamReadsBack(before + [Character(text[0])], text[1..]);
      ReadChain(before, Frames(Stroke(text[0])), Character(text[0]), Stream(text[1..]), Characters(text[1..]));
    }
  }

  /** Typing round trip: whatever an open device wrote before, the stream that a text adds to it
      reads back as exactly the characters typed. */
  lemma TypingRoundTrip(d: Device, text: seq<int>)
    requires d.fdOpen && d.ready
    requires forall keysym | keysym in text :: Typable(keysym)
    ensures var typed := Run(d, Strokes(text));
      && d.log <= typed.log
      && TextOf(typed.log[|d.log|..]) == Characters(text)
  {
    RunStrokes(d, text);
    StreamReadsBack([], text);
    assert (d.log + Stream(text))[|d.log|..] == Stream(text);
    assert [] + Characters(text) == Characters(text);
  }

  /** So two texts with the same stream are the same text, up to the keypad aliases. */
  lemma StreamDeterminesText(a: seq<int>, b: seq<int>)
    requires forall keysym | keysym in a + b :: Typable(keysym)
    requires Stream(a) == Stream(b)
    ensures Characters(a) == Characters(b)
  {
    StreamReadsBack([], a);
    StreamReadsBack([], b);
    assert [] + Characters(a) == Characters(a) && [] + Characters(b) == Characters(b);
  }
}
