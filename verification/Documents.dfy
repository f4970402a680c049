/** JSON texts as trees, after the grammar of RFC 8259, and the proof that the reader of Json reads
    exactly those texts. */
module Documents {
  import opened Common
  import opened Json

  // ---- the grammar ----

  /** A character of a string as it is written: itself, a backslash and a letter, or a backslash, u and
      four hex digits with the values a, b, d and e. */
  datatype Unit =
    | Plainly(c: char)
    | Short(letter: char, c: char)
    | Hex(text: string, a: nat, b: nat, d: nat, e: nat, c: char)

  /** A hex digit and its value. */
  predicate HexIs(c: char, v: nat)
  {
    v < 16 && (c == "0123456789abcdef"[v] || c == "0123456789ABCDEF"[v])
  }

  predicate UnitRight(u: Unit)
  {
    match u
    case Plainly(c) => c != '"' && c != '\\' && c as int >= 0x20
    case Short(letter, c) =>
      || (letter == c && (c == '"' || c == '\\' || c == '/'))
      || (letter == 'b' && c as int == 8) || (letter == 'f' && c as int == 12) || (letter == 'n' && c as int == 10)
      || (letter == 'r' && c as int == 13) || (letter == 't' && c as int == 9)
    case Hex(text, a, b, d, e, c) =>
      && |text| == 4 && HexIs(text[0], a) && HexIs(text[1], b) && HexIs(text[2], d) && HexIs(text[3], e)
      && c as int == 4096 * a + 256 * b + 16 * d + e && c as int > 0
  }

  predicate UnitsRight(us: seq<Unit>)
  {
    forall i | 0 <= i < |us| :: UnitRight(us[i])
  }

  function Written(u: Unit): string
  {
    match u
    case Plainly(c) => [c]
    case Short(letter, _) => ['\\', letter]
    case Hex(text, _, _, _, _, _) => ['\\', 'u'] + text
  }

  /** The characters, the closing quote, and what follows. */
  function SpellUnits(us: seq<Unit>, rest: string): string
  {
    if us == [] then ['"'] + rest else Written(us[0]) + SpellUnits(us[1..], rest)
  }

  function UnitsText(us: seq<Unit>): string
  {
    if us == [] then [] else [us[0].c] + UnitsText(us[1..])
  }

  predicate IsDigits(s: string)
  {
    s != [] && forall i | 0 <= i < |s| :: '0' <= s[i] <= '9'
  }

  /** A number: its sign, the digits before the point, those after it, and its exponent. */
  datatype Num = Num(negative: bool, whole: string, fraction: Option<string>, exponent: Option<Exponent>)

  datatype Exponent = Exponent(mark: string, digits: string)

  predicate NumRight(n: Num)
  {
    && (n.whole == "0" || (IsDigits(n.whole) && n.whole[0] != '0'))
    && (n.fraction.Some? ==> IsDigits(n.fraction.value))
    && (n.exponent.Some? ==>
          n.exponent.value.mark in {"e", "E", "e+", "e-", "E+", "E-"} && IsDigits(n.exponent.value.digits))
  }

  function SpellNum(n: Num, rest: string): string
  {
    var whole := n.whole + SpellFraction(n.fraction, SpellExponent(n.exponent, rest));
    if n.negative then ['-'] + whole else whole
  }

  function SpellFraction(f: Option<string>, rest: string): string
  {
    if f.None? then rest else ['.'] + (f.value + rest)
  }

  function SpellExponent(x: Option<Exponent>, rest: string): string
  {
    if x.None? then rest else x.value.mark + (x.value.digits + rest)
  }

  /** A value; the strings in arrays and objects are the white space at each place. */
  datatype Doc =
    | DText(units: seq<Unit>)
    | DNumber(num: Num)
    | DWord(word: string)
    | DArray(lead: string, items: seq<Item>)
    | DObject(lead: string, entries: seq<Entry>)

  datatype Item = Item(doc: Doc, trail: string, next: string)

  datatype Entry = Entry(key: seq<Unit>, mid: string, gap: string, doc: Doc, trail: string, next: string)

  predicate IsSpaces(s: string)
  {
    forall i | 0 <= i < |s| :: s[i] as int in {0x20, 0x09, 0x0A, 0x0D}
  }

  predicate DocRight(d: Doc)
  {
    match d
    case DText(us) => UnitsRight(us)
    case DNumber(n) => NumRight(n)
    case DWord(w) => w in {"true", "false", "null"}
    case DArray(lead, items) =>
      IsSpaces(lead) && forall i | 0 <= i < |items| ::
        DocRight(items[i].doc) && IsSpaces(items[i].trail) && IsSpaces(items[i].next)
    case DObject(lead, entries) =>
      IsSpaces(lead) && forall i | 0 <= i < |entries| ::
        && UnitsRight(entries[i].key) && IsSpaces(entries[i].mid) && IsSpaces(entries[i].gap)
        && DocRight(entries[i].doc) && IsSpaces(entries[i].trail) && IsSpaces(entries[i].next)
  }

  /** The text of a value, and what follows it. */
  function Spell(d: Doc, rest: string): string
    decreases d, 0
  {
    match d
    case DText(us) => ['"'] + SpellUnits(us, rest)
    case DNumber(n) => SpellNum(n, rest)
    case DWord(w) => w + rest
    case DArray(lead, items) => ['['] + (lead + if items == [] then [']'] + rest else SpellItems(items, rest))
    case DObject(lead, entries) => ['{'] + (lead + if entries == [] then ['}'] + rest else SpellEntries(entries, rest))
  }

  function SpellItems(items: seq<Item>, rest: string): string
    requires items != []
    decreases items, 1
  {
    Spell(items[0].doc, items[0].trail +
      if |items| == 1 then [']'] + rest else [','] + (items[0].next + SpellItems(items[1..], rest)))
  }

  function SpellEntries(entries: seq<Entry>, rest: string): string
    requires entries != []
    decreases entries, 1
  {
    ['"'] + SpellUnits(entries[0].key, entries[0].mid + ([':'] + (entries[0].gap +
      Spell(entries[0].doc, entries[0].trail +
        if |entries| == 1 then ['}'] + rest else [','] + (entries[0].next + SpellEntries(entries[1..], rest))))))
  }

  /** What the program looks at in a value. */
  function ValueOf(d: Doc): Value
  {
    match d
    case DText(us) => Text(UnitsText(us))
    case DObject(_, entries) => Object(MembersOf(entries))
    case _ => Other
  }

  function MembersOf(entries: seq<Entry>): Members
  {
    if entries == [] then []
    else [(UnitsText(entries[0].key), ValueOf(entries[0].doc))] + MembersOf(entries[1..])
  }

  // ---- white space ----

  lemma SpaceIs(c: char)
    ensures IsSpace(c) <==> c as int in {0x20, 0x09, 0x0A, 0x0D}
  {
  }

  lemma {:induction false} SpacesSkipped(sp: string, t: string)
    requires IsSpaces(sp)
    ensures SkipSpace(sp + t) == SkipSpace(t)
  {
    if sp == [] {
      assert sp + t == t;
    } else {
      SpaceIs(sp[0]);
      assert (sp + t)[1..] == sp[1..] + t;
      SpacesSkipped(sp[1..], t);
    }
  }

  lemma SpacesMore(c: char, sp: string)
    requires IsSpaces(sp) && c as int in {0x20, 0x09, 0x0A, 0x0D}
    ensures IsSpaces([c] + sp)
  {
  }

  lemma {:induction false} SpacesOf(t: string) returns (sp: string)
    ensures IsSpaces(sp) && t == sp + SkipSpace(t)
  {
    hide IsSpaces;
    NoSpaces();
    if t != [] && IsSpace(t[0]) {
      SpaceIs(t[0]);
      var more := SpacesOf(t[1..]);
      sp := [t[0]] + more;
      SpacesMore(t[0], more);
      assert t == [t[0]] + t[1..];
    } else {
      sp := [];
    }
  }

  // ---- strings ----

  lemma HexExactly(c: char)
    ensures forall v: nat :: HexIs(c, v) <==> HexDigit(c) == Some(v)
  {
    forall v: nat
      ensures HexIs(c, v) <==> HexDigit(c) == Some(v)
    {
      if v < 16 {
        HexLower(v);
      }
    }
  }

  lemma HexLower(v: nat)
    requires v < 16
    ensures "0123456789abcdef"[v] == (if v < 10 then (48 + v) as char else (87 + v) as char)
    ensures "0123456789ABCDEF"[v] == (if v < 10 then (48 + v) as char else (55 + v) as char)
  {
  }

  /** One character of a string, as the reader takes it. */
  lemma UnitRead(u: Unit, t: string)
    requires UnitRight(u)
    ensures ReadString(Written(u) + t) ==
            match ReadString(t) case None => None case Some((s, r)) => Some(([u.c] + s, r))
  {
    hide HexIs, HexDigit;
    match u {
      case Plainly(c) => ReadPlainChar(c, t);
      case Short(letter, c) =>
        var more := [letter] + t;
        assert (['\\', letter] + t)[1..] == more && more[1..] == t;
      case Hex(text, a, b, d, e, c) =>
        var more := ['u'] + (text + t);
        assert ((['\\', 'u'] + text) + t)[1..] == more;
        assert more[1..5] == text && more[5..] == t;
        HexExactly(text[0]);
        HexExactly(text[1]);
        HexExactly(text[2]);
        HexExactly(text[3]);
        assert HexChar(text) == Some(c);
    }
  }

  lemma {:induction false} UnitsRead(us: seq<Unit>, rest: string)
    requires UnitsRight(us)
    ensures ReadString(SpellUnits(us, rest)) == Some((UnitsText(us), rest))
  {
    hide UnitRight, Written;
    if us == [] {
      assert (['"'] + rest)[1..] == rest;
    } else {
      UnitsRead(us[1..], rest);
      UnitRead(us[0], SpellUnits(us[1..], rest));
    }
  }

  /** What the reader takes for an escape sequence is one. */
  lemma EscapeOf(t: string) returns (u: Unit)
    requires ReadEscape(t).Some?
    ensures UnitRight(u) && u.c == ReadEscape(t).value.0 && ['\\'] + t == Written(u) + ReadEscape(t).value.1
  {
    hide HexIs, HexDigit;
    var (c, r) := ReadEscape(t).value;
    if t[0] == 'u' {
      var text := t[1..5];
      HexExactly(text[0]);
      HexExactly(text[1]);
      HexExactly(text[2]);
      HexExactly(text[3]);
      u := Hex(text, HexDigit(text[0]).value, HexDigit(text[1]).value, HexDigit(text[2]).value,
               HexDigit(text[3]).value, c);
      assert t == ['u'] + text + t[5..];
    } else {
      u := Short(t[0], c);
      assert t == [t[0]] + t[1..];
    }
  }

  lemma {:induction false} UnitsOf(t: string) returns (us: seq<Unit>)
    requires ReadString(t).Some?
    ensures UnitsRight(us) && UnitsText(us) == ReadString(t).value.0 && t == SpellUnits(us, ReadString(t).value.1)
    decreases |t|
  {
    hide UnitRight, Written, ReadEscape;
    if t[0] == '"' {
      us := [];
      assert t == ['"'] + t[1..];
    } else {
      var u, more;
      if t[0] == '\\' {
        u := EscapeOf(t[1..]);
        more := ReadEscape(t[1..]).value.1;
        assert t == ['\\'] + t[1..];
      } else {
        u := Plainly(t[0]);
        more := t[1..];
        PlainUnit(t[0]);
        assert t == [t[0]] + t[1..];
      }
      var rest := UnitsOf(more);
      us := [u] + rest;
      assert us[1..] == rest;
    }
  }

  lemma PlainUnit(c: char)
    requires c != '"' && c != '\\' && c >= ' '
    ensures UnitRight(Plainly(c)) && Written(Plainly(c)) == [c]
  {
  }

  // ---- numbers ----

  predicate StartsDigit(t: string)
  {
    t != [] && '0' <= t[0] <= '9'
  }

  /** What follows a number could not be part of it. */
  predicate EndsNumber(t: string)
  {
    t != [] ==> !('0' <= t[0] <= '9') && t[0] !in {'.', 'e', 'E'}
  }

  lemma {:induction false} DigitsSkipped(ds: string, t: string)
    requires (forall i | 0 <= i < |ds| :: '0' <= ds[i] <= '9') && !StartsDigit(t)
    ensures SkipDigits(ds + t) == t
  {
    if ds == [] {
      assert ds + t == t;
    } else {
      assert (ds + t)[1..] == ds[1..] + t;
      DigitsSkipped(ds[1..], t);
    }
  }

  lemma DigitsRead(ds: string, t: string)
    requires IsDigits(ds) && !StartsDigit(t)
    ensures ReadDigits(ds + t) == Some(t)
  {
    assert (ds + t)[1..] == ds[1..] + t;
    DigitsSkipped(ds[1..], t);
  }

  lemma {:induction false} SkippedDigits(t: string) returns (ds: string)
    ensures (forall i | 0 <= i < |ds| :: '0' <= ds[i] <= '9') && t == ds + SkipDigits(t)
  {
    if StartsDigit(t) {
      var more := SkippedDigits(t[1..]);
      ds := [t[0]] + more;
      assert t == [t[0]] + t[1..];
    } else {
      ds := [];
    }
  }

  lemma DigitsOf(t: string) returns (ds: string)
    requires ReadDigits(t).Some?
    ensures IsDigits(ds) && t == ds + ReadDigits(t).value && ds[0] == t[0]
  {
    var more := SkippedDigits(t[1..]);
    ds := [t[0]] + more;
    assert t == [t[0]] + t[1..];
  }

  /** The reader's three steps on a number: the digits before the point, those after it, the exponent. */
  function AfterSign(t: string): string
  {
    if t != [] && t[0] == '-' then t[1..] else t
  }

  function AfterWhole(t: string): Option<string>
  {
    if t != [] && t[0] == '0' then Some(t[1..]) else ReadDigits(t)
  }

  function AfterFraction(t: string): Option<string>
  {
    if t != [] && t[0] == '.' then ReadDigits(t[1..]) else Some(t)
  }

  function AfterExponent(t: string): Option<string>
  {
    if t == [] || (t[0] != 'e' && t[0] != 'E') then Some(t)
    else ReadDigits(if t[1..] != [] && (t[1..][0] == '+' || t[1..][0] == '-') then t[1..][1..] else t[1..])
  }

  lemma NumberSteps(t: string)
    ensures ReadNumber(t) ==
            match AfterWhole(AfterSign(t))
            case None => None
            case Some(t1) => match AfterFraction(t1) case None => None case Some(t2) => AfterExponent(t2)
  {
    hide ReadDigits;
  }

  lemma ExponentRead(x: Option<Exponent>, rest: string)
    requires EndsNumber(rest)
    requires x.Some? ==> x.value.mark in {"e", "E", "e+", "e-", "E+", "E-"} && IsDigits(x.value.digits)
    ensures AfterExponent(SpellExponent(x, rest)) == Some(rest)
    ensures var t := SpellExponent(x, rest); !StartsDigit(t) && (t != [] ==> t[0] != '.')
  {
    if x.Some? {
      var mark, ds := x.value.mark, x.value.digits;
      var t := mark + (ds + rest);
      DigitsRead(ds, rest);
      if |mark| == 1 {
        assert t[1..] == ds + rest;
      } else {
        assert t[1..][1..] == ds + rest;
      }
    }
  }

  lemma FractionRead(f: Option<string>, t: string)
    requires !StartsDigit(t) && (t != [] ==> t[0] != '.') && (f.Some? ==> IsDigits(f.value))
    ensures AfterFraction(SpellFraction(f, t)) == Some(t)
    ensures !StartsDigit(SpellFraction(f, t))
  {
    if f.Some? {
      assert (['.'] + (f.value + t))[1..] == f.value + t;
      DigitsRead(f.value, t);
    }
  }

  lemma WholeRead(whole: string, t: string)
    requires !StartsDigit(t) && (whole == "0" || (IsDigits(whole) && whole[0] != '0'))
    ensures AfterWhole(whole + t) == Some(t) && (whole + t) != [] && '0' <= (whole + t)[0] <= '9'
  {
    if whole == "0" {
      assert (whole + t)[1..] == t;
    } else {
      DigitsRead(whole, t);
    }
  }

  lemma NumRead(n: Num, rest: string)
    requires NumRight(n) && EndsNumber(rest)
    ensures ReadNumber(SpellNum(n, rest)) == Some(rest)
    ensures var t := SpellNum(n, rest); t != [] && (t[0] == '-' || '0' <= t[0] <= '9')
  {
    hide AfterWhole, AfterFraction, AfterExponent, SpellExponent, SpellFraction, IsDigits;
    var t2 := SpellExponent(n.exponent, rest);
    var t1 := SpellFraction(n.fraction, t2);
    ExponentRead(n.exponent, rest);
    FractionRead(n.fraction, t2);
    WholeRead(n.whole, t1);
    NumberSteps(SpellNum(n, rest));
    assert (['-'] + (n.whole + t1))[1..] == n.whole + t1;
  }

  lemma ExponentOf(t: string) returns (x: Option<Exponent>)
    requires AfterExponent(t).Some?
    ensures x.Some? ==> x.value.mark in {"e", "E", "e+", "e-", "E+", "E-"} && IsDigits(x.value.digits)
    ensures t == SpellExponent(x, AfterExponent(t).value)
  {
    if t == [] || (t[0] != 'e' && t[0] != 'E') {
      x := None;
    } else if t[1..] != [] && (t[1..][0] == '+' || t[1..][0] == '-') {
      var ds := DigitsOf(t[1..][1..]);
      x := Some(Exponent([t[0], t[1]], ds));
      assert t == [t[0], t[1]] + t[1..][1..];
      MarkOf(t[0], t[1]);
    } else {
      var ds := DigitsOf(t[1..]);
      x := Some(Exponent([t[0]], ds));
      assert t == [t[0]] + t[1..];
    }
  }

  lemma MarkOf(a: char, b: char)
    requires (a == 'e' || a == 'E') && (b == '+' || b == '-')
    ensures [a, b] in {"e+", "e-", "E+", "E-"}
  {
  }

  lemma FractionOf(t: string) returns (f: Option<string>)
    requires AfterFraction(t).Some?
    ensures (f.Some? ==> IsDigits(f.value)) && t == SpellFraction(f, AfterFraction(t).value)
  {
    if t != [] && t[0] == '.' {
      var ds := DigitsOf(t[1..]);
      f := Some(ds);
      assert t == ['.'] + t[1..];
    } else {
      f := None;
    }
  }

  lemma WholeOf(t: string) returns (whole: string)
    requires AfterWhole(t).Some?
    ensures (whole == "0" || (IsDigits(whole) && whole[0] != '0')) && t == whole + AfterWhole(t).value
  {
    if t != [] && t[0] == '0' {
      whole := "0";
      assert t == ['0'] + t[1..];
    } else {
      whole := DigitsOf(t);
    }
  }

  lemma NumOf(t: string) returns (n: Num)
    requires ReadNumber(t).Some?
    ensures NumRight(n) && t == SpellNum(n, ReadNumber(t).value)
  {
    hide AfterWhole, AfterFraction, AfterExponent, SpellExponent, SpellFraction, IsDigits, ReadNumber;
    NumberSteps(t);
    var t0 := AfterSign(t);
    var t1 := AfterWhole(t0).value;
    var t2 := AfterFraction(t1).value;
    var whole := WholeOf(t0);
    var f := FractionOf(t1);
    var x := ExponentOf(t2);
    n := Num(t != [] && t[0] == '-', whole, f, x);
    if n.negative { assert t == ['-'] + t[1..]; }
  }

  // ---- values: every text of the grammar is read ----

  lemma DocStarts(d: Doc, rest: string)
    requires DocRight(d)
    ensures Spell(d, rest) != [] && SkipSpace(Spell(d, rest)) == Spell(d, rest)
  {
    hide SpellUnits, SpellItems, SpellEntries, NumRight;
    match d
    case DNumber(n) => NumStarts(n, rest);
    case _ =>
  }

  lemma NumStarts(n: Num, rest: string)
    requires NumRight(n)
    ensures var t := SpellNum(n, rest); t != [] && (t[0] == '-' || '0' <= t[0] <= '9')
  {
  }

  lemma SpaceEnds(trail: string, tail: string)
    requires IsSpaces(trail) && tail != [] && tail[0] in {']', '}', ','}
    ensures EndsNumber(trail + tail) && SkipSpace(trail + tail) == tail
  {
    SpacesSkipped(trail, tail);
    if trail != [] {
      assert (trail + tail)[0] == trail[0];
    } else {
      assert trail + tail == tail;
    }
  }

  /** The reader's choice by the first character. */
  lemma ValueIsText(t: string)
    ensures ReadValue(['"'] + t) == match ReadString(t) case None => None case Some((s, r)) => Some((Text(s), r))
  {
    assert (['"'] + t)[1..] == t;
  }

  lemma ValueIsNumber(t: string)
    requires t != [] && (t[0] == '-' || '0' <= t[0] <= '9')
    ensures ReadValue(t) == match ReadNumber(t) case None => None case Some(r) => Some((Other, r))
  {
    hide ReadNumber;
    assert "true"[0] == 't' && "false"[0] == 'f' && "null"[0] == 'n';
  }

  lemma ValueIsWord(word: string, rest: string)
    requires word in {"true", "false", "null"}
    ensures ReadValue(word + rest) == Some((Other, rest))
  {
    var t := word + rest;
    assert t[0] == word[0] && word <= t && t[|word|..] == rest;
    assert "true"[0] == 't' && "false"[0] == 'f' && "null"[0] == 'n';
  }

  lemma ValueIsArray(t: string)
    ensures ReadValue(['['] + t) ==
            var t1 := SkipSpace(t);
            if t1 != [] && t1[0] == ']' then Some((Other, t1[1..]))
            else match ReadElements(t1) case None => None case Some(r) => Some((Other, r))
  {
    hide ReadElements;
    assert (['['] + t)[1..] == t;
  }

  lemma ValueIsObject(t: string)
    ensures ReadValue(['{'] + t) ==
            var t1 := SkipSpace(t);
            if t1 != [] && t1[0] == '}' then Some((Object([]), t1[1..]))
            else match ReadMembers(t1) case None => None case Some((ms, r)) => Some((Object(ms), r))
  {
    hide ReadMembers;
    assert (['{'] + t)[1..] == t;
  }

  lemma {:induction false} DocRead(d: Doc, rest: string)
    requires DocRight(d) && (d.DNumber? ==> EndsNumber(rest))
    ensures ReadValue(Spell(d, rest)) == Some((ValueOf(d), rest))
    decreases d, 0
  {
    hide ReadValue, ReadElements, ReadMembers, ReadString, ReadNumber, SpellUnits, SpellNum, UnitsText;
    match d {
      case DText(us) =>
        UnitsRead(us, rest);
        ValueIsText(SpellUnits(us, rest));
      case DNumber(n) =>
        NumRead(n, rest);
        ValueIsNumber(SpellNum(n, rest));
      case DWord(w) =>
        ValueIsWord(w, rest);
      case DArray(lead, items) =>
        ArrayRead(lead, items, rest);
      case DObject(lead, entries) =>
        ObjectRead(lead, entries, rest);
    }
  }

  lemma ArrayRead(lead: string, items: seq<Item>, rest: string)
    requires DocRight(DArray(lead, items))
    ensures ReadValue(Spell(DArray(lead, items), rest)) == Some((Other, rest))
    decreases items, 2
  {
    hide ReadValue, ReadElements, SkipSpace, IsSpaces;
    var t := if items == [] then [']'] + rest else SpellItems(items, rest);
    ValueIsArray(lead + t);
    SpacesSkipped(lead, t);
    if items == [] {
      SpaceNone(t);
      assert t[1..] == rest;
    } else {
      ItemsRead(items, rest);
      ItemsStart(items, rest);
    }
  }

  /** An element does not start with a bracket that closes the array. */
  lemma ItemsStart(items: seq<Item>, rest: string)
    requires items != [] && DocRight(items[0].doc)
    ensures var t := SpellItems(items, rest); t != [] && SkipSpace(t) == t && t[0] != ']'
  {
    hide SkipSpace, Spell;
    var more := items[0].trail +
      if |items| == 1 then [']'] + rest else [','] + (items[0].next + SpellItems(items[1..], rest));
    DocStarts(items[0].doc, more);
    NoBracket(items[0].doc, more);
  }

  lemma NoBracket(d: Doc, rest: string)
    requires DocRight(d)
    ensures Spell(d, rest) != [] && Spell(d, rest)[0] != ']'
  {
    hide SpellUnits, SpellItems, SpellEntries, NumRight;
    match d
    case DNumber(n) => NumStarts(n, rest);
    case _ =>
  }

  lemma {:induction false} ItemsRead(items: seq<Item>, rest: string)
    requires items != [] && forall i | 0 <= i < |items| ::
               DocRight(items[i].doc) && IsSpaces(items[i].trail) && IsSpaces(items[i].next)
    ensures ReadElements(SpellItems(items, rest)) == Some(rest)
    decreases items, 1
  {
    hide ReadValue, SkipSpace, Spell, IsSpaces, DocRight;
    var more := if |items| == 1 then [] else SpellItems(items[1..], rest);
    var tail := if |items| == 1 then [']'] + rest else [','] + (items[0].next + more);
    SpaceEnds(items[0].trail, tail);
    DocRead(items[0].doc, items[0].trail + tail);
    if |items| == 1 {
      assert tail[1..] == rest;
    } else {
      assert tail[1..] == items[0].next + more;
      SpacesSkipped(items[0].next, more);
      ItemsRead(items[1..], rest);
      ItemsStart(items[1..], rest);
    }
  }

  lemma ObjectRead(lead: string, entries: seq<Entry>, rest: string)
    requires DocRight(DObject(lead, entries))
    ensures ReadValue(Spell(DObject(lead, entries), rest)) == Some((Object(MembersOf(entries)), rest))
    decreases entries, 2
  {
    hide ReadValue, ReadMembers, IsSpaces, SkipSpace;
    var t := if entries == [] then ['}'] + rest else SpellEntries(entries, rest);
    ValueIsObject(lead + t);
    SpacesSkipped(lead, t);
    SpaceNone(t);
    if entries == [] {
      assert t[1..] == rest;
    } else {
      EntriesRead(entries, rest);
    }
  }

  lemma {:induction false} EntriesRead(entries: seq<Entry>, rest: string)
    requires entries != [] && forall i | 0 <= i < |entries| ::
               && UnitsRight(entries[i].key) && IsSpaces(entries[i].mid) && IsSpaces(entries[i].gap)
               && DocRight(entries[i].doc) && IsSpaces(entries[i].trail) && IsSpaces(entries[i].next)
    ensures ReadMembers(SpellEntries(entries, rest)) == Some((MembersOf(entries), rest))
    decreases entries, 1
  {
    hide ReadMember, SkipSpace, Spell, IsSpaces, DocRight, SpellUnits, UnitsText, ValueOf, UnitsRight;
    var more := if |entries| == 1 then [] else SpellEntries(entries[1..], rest);
    var tail := if |entries| == 1 then ['}'] + rest else [','] + (entries[0].next + more);
    var e := entries[0];
    SpaceEnds(e.trail, tail);
    DocRead(e.doc, e.trail + tail);
    EntryRead(e, e.trail + tail);
    if |entries| == 1 {
      assert tail[1..] == rest;
      assert entries[1..] == [];
      assert MembersOf(entries) == [(UnitsText(e.key), ValueOf(e.doc))];
    } else {
      assert tail[1..] == e.next + more;
      SpacesSkipped(e.next, more);
      EntriesRead(entries[1..], rest);
      SpaceNone(more);
    }
  }

  /** A key and its value. */
  lemma EntryRead(e: Entry, rest: string)
    requires UnitsRight(e.key) && IsSpaces(e.mid) && IsSpaces(e.gap) && DocRight(e.doc)
    requires ReadValue(Spell(e.doc, rest)) == Some((ValueOf(e.doc), rest))
    ensures ReadMember(['"'] + SpellUnits(e.key, e.mid + ([':'] + (e.gap + Spell(e.doc, rest))))) ==
            Some(((UnitsText(e.key), ValueOf(e.doc)), rest))
  {
    hide ReadValue, SkipSpace, Spell, IsSpaces, DocRight, SpellUnits, UnitsText, ValueOf, UnitsRight, ReadString;
    var value := Spell(e.doc, rest);
    var colon := [':'] + (e.gap + value);
    var t := SpellUnits(e.key, e.mid + colon);
    assert (['"'] + t)[1..] == t;
    UnitsRead(e.key, e.mid + colon);
    SpacesSkipped(e.mid, colon);
    SpaceNone(colon);
    assert colon[1..] == e.gap + value;
    SpacesSkipped(e.gap, value);
    DocStarts(e.doc, rest);
  }

  // ---- values: every text that is read is of the grammar ----

  lemma WordOf(t: string) returns (word: string)
    requires "true" <= t || "false" <= t || "null" <= t
    ensures word in {"true", "false", "null"} && word <= t
    ensures ReadValue(t) == Some((Other, t[|word|..])) && t == word + t[|word|..]
  {
    word := if "true" <= t then "true" else if "false" <= t then "false" else "null";
    assert t == word + t[|word|..];
    ValueIsWord(word, t[|word|..]);
  }

  /** What is left when no other case of the reader applies. */
  lemma OnlyNumber(t: string)
    requires ReadValue(t).Some? && t[0] != '"' && t[0] != '{' && t[0] != '['
    requires !("true" <= t) && !("false" <= t) && !("null" <= t)
    ensures ReadNumber(t).Some? && ReadValue(t).value == (Other, ReadNumber(t).value)
  {
    hide ReadNumber;
  }

  lemma {:induction false} DocOf(t: string) returns (d: Doc)
    requires ReadValue(t).Some?
    ensures DocRight(d) && ValueOf(d) == ReadValue(t).value.0 && t == Spell(d, ReadValue(t).value.1)
    decreases |t|, 0
  {
    hide ReadValue, ReadElements, ReadMembers, ReadString, ReadNumber, SpellUnits, SpellNum, UnitsText;
    TextNotEmpty(t);
    var more := t[1..];
    assert t == [t[0]] + more;
    if t[0] == '"' {
      ValueIsText(more);
      var us := UnitsOf(more);
      d := DText(us);
    } else if t[0] == '{' {
      d := ObjectOfText(more);
    } else if t[0] == '[' {
      d := ArrayOfText(more);
    } else if "true" <= t || "false" <= t || "null" <= t {
      var word := WordOf(t);
      d := DWord(word);
    } else {
      OnlyNumber(t);
      var n := NumOf(t);
      d := DNumber(n);
    }
  }

  lemma TextNotEmpty(t: string)
    requires ReadValue(t).Some?
    ensures t != []
  {
  }

  lemma {:induction false} ArrayOfText(t: string) returns (d: Doc)
    requires ReadValue(['['] + t).Some?
    ensures DocRight(d) && ValueOf(d) == ReadValue(['['] + t).value.0
    ensures ['['] + t == Spell(d, ReadValue(['['] + t).value.1)
    decreases |t|, 3
  {
    hide ReadValue, ReadElements, SkipSpace, IsSpaces;
    ValueIsArray(t);
    var lead := SpacesOf(t);
    var t1 := SkipSpace(t);
    if t1 != [] && t1[0] == ']' {
      d := DArray(lead, []);
      assert t1 == [']'] + t1[1..];
    } else {
      var items := ItemsOf(t1);
      d := DArray(lead, items);
    }
  }

  lemma {:induction false} ItemsOf(t: string) returns (items: seq<Item>)
    requires ReadElements(t).Some?
    ensures items != [] && t == SpellItems(items, ReadElements(t).value)
    ensures forall i | 0 <= i < |items| :: DocRight(items[i].doc) && IsSpaces(items[i].trail) && IsSpaces(items[i].next)
    decreases |t|, 2
  {
    hide ReadValue, SkipSpace, Spell, IsSpaces, DocRight, ValueOf;
    var r := ReadValue(t).value.1;
    var d := DocOf(t);
    var trail := SpacesOf(r);
    var r' := SkipSpace(r);
    if r'[0] == ']' {
      items := [Item(d, trail, [])];
      NoSpaces();
      assert r' == [']'] + r'[1..];
    } else {
      var next := SpacesOf(r'[1..]);
      var more := ItemsOf(SkipSpace(r'[1..]));
      items := [Item(d, trail, next)] + more;
      assert items[1..] == more && r' == [','] + r'[1..];
    }
  }

  lemma NoSpaces()
    ensures IsSpaces([])
  {
  }

  lemma {:induction false} ObjectOfText(t: string) returns (d: Doc)
    requires ReadValue(['{'] + t).Some?
    ensures DocRight(d) && ValueOf(d) == ReadValue(['{'] + t).value.0
    ensures ['{'] + t == Spell(d, ReadValue(['{'] + t).value.1)
    decreases |t|, 3
  {
    hide ReadValue, ReadMembers, SkipSpace, IsSpaces;
    ValueIsObject(t);
    var lead := SpacesOf(t);
    var t1 := SkipSpace(t);
    if t1 != [] && t1[0] == '}' {
      d := DObject(lead, []);
      assert t1 == ['}'] + t1[1..];
    } else {
      var entries := EntriesOf(t1);
      d := DObject(lead, entries);
    }
  }

  lemma {:induction false} EntriesOf(t: string) returns (entries: seq<Entry>)
    requires ReadMembers(t).Some?
    ensures entries != [] && t == SpellEntries(entries, ReadMembers(t).value.1)
    ensures MembersOf(entries) == ReadMembers(t).value.0
    ensures forall i | 0 <= i < |entries| ::
              && UnitsRight(entries[i].key) && IsSpaces(entries[i].mid) && IsSpaces(entries[i].gap)
              && DocRight(entries[i].doc) && IsSpaces(entries[i].trail) && IsSpaces(entries[i].next)
    decreases |t|, 2
  {
    hide ReadMember, SkipSpace, Spell, IsSpaces, DocRight, SpellUnits, UnitsText, ValueOf, UnitsRight;
    var r := ReadMember(t).value.1;
    var key, mid, gap, d := EntryOf(t);
    var trail := SpacesOf(r);
    var r' := SkipSpace(r);
    if r'[0] == '}' {
      entries := [Entry(key, mid, gap, d, trail, [])];
      NoSpaces();
      assert r' == ['}'] + r'[1..];
      assert entries[1..] == [];
    } else {
      var next := SpacesOf(r'[1..]);
      var more := EntriesOf(SkipSpace(r'[1..]));
      entries := [Entry(key, mid, gap, d, trail, next)] + more;
      assert entries[1..] == more && r' == [','] + r'[1..];
    }
  }

  lemma {:induction false} EntryOf(t: string) returns (key: seq<Unit>, mid: string, gap: string, d: Doc)
    requires ReadMember(t).Some?
    ensures UnitsRight(key) && IsSpaces(mid) && IsSpaces(gap) && DocRight(d)
    ensures ReadMember(t).value.0 == (UnitsText(key), ValueOf(d))
    ensures t == ['"'] + SpellUnits(key, mid + ([':'] + (gap + Spell(d, ReadMember(t).value.1))))
    decreases |t|, 1
  {
    hide ReadValue, SkipSpace, Spell, IsSpaces, DocRight, SpellUnits, UnitsText, ValueOf, UnitsRight, ReadString;
    key := UnitsOf(t[1..]);
    var r1 := ReadString(t[1..]).value.1;
    mid := SpacesOf(r1);
    var r2 := SkipSpace(r1);
    gap := SpacesOf(r2[1..]);
    d := DocOf(SkipSpace(r2[1..]));
    assert t == ['"'] + t[1..] && r2 == [':'] + r2[1..];
  }

  // ---- whole texts ----

  /** The text is this value between white space. */
  predicate Spells(t: string, lead: string, d: Doc, trail: string)
  {
    IsSpaces(lead) && DocRight(d) && IsSpaces(trail) && t == lead + Spell(d, trail)
  }

  function TopMembers(d: Doc): Members
  {
    if d.DObject? then MembersOf(d.entries) else []
  }

  /** A text is read exactly if it is a JSON text, a value of the grammar between white space; and what
      is read is that value's members, in order, with their characters and not their spelling. */
  lemma ReadsExactly(t: string, ms: Members)
    ensures ReadObject(t) == Some(ms) <==> exists lead, d, trail :: Spells(t, lead, d, trail) && TopMembers(d) == ms
  {
    hide Spell, DocRight, IsSpaces, ReadObject, TopMembers, Spells;
    if ReadObject(t) == Some(ms) {
      var lead, d, trail := TextIs(t);
    }
    if lead, d, trail :| Spells(t, lead, d, trail) && TopMembers(d) == ms {
      TextRead(t, lead, d, trail);
    }
  }

  lemma TextRead(t: string, lead: string, d: Doc, trail: string)
    requires Spells(t, lead, d, trail)
    ensures ReadObject(t) == Some(TopMembers(d))
  {
    hide Spell, DocRight, IsSpaces, ReadValue, SkipSpace;
    SpacesSkipped(lead, Spell(d, trail));
    DocStarts(d, trail);
    SpacesOnly(trail);
    DocRead(d, trail);
    KindOf(d);
  }

  lemma KindOf(d: Doc)
    ensures ValueOf(d).Object? <==> d.DObject?
    ensures d.DObject? ==> ValueOf(d) == Object(MembersOf(d.entries))
  {
  }

  lemma SpacesOnly(sp: string)
    requires IsSpaces(sp)
    ensures SkipSpace(sp) == [] && EndsNumber(sp)
  {
    SpacesSkipped(sp, []);
    assert sp + [] == sp;
  }

  lemma TextIs(t: string) returns (lead: string, d: Doc, trail: string)
    requires ReadObject(t).Some?
    ensures Spells(t, lead, d, trail) && TopMembers(d) == ReadObject(t).value
  {
    hide Spell, DocRight, IsSpaces, ReadValue, SkipSpace;
    lead := SpacesOf(t);
    d := DocOf(SkipSpace(t));
    var r := ReadValue(SkipSpace(t)).value.1;
    trail := SpacesOf(r);
    assert trail + [] == trail;
    KindOf(d);
  }

  /** The i-th member is the last with this key, and stores this string. */
  predicate StoredAt(ms: Members, key: string, text: string, i: nat)
  {
    i < |ms| && ms[i] == (key, Text(text)) && forall j | i < j < |ms| :: ms[j].0 != key
  }

  /** The string found under a key is that of the last member with the key, if that is a string. */
  lemma {:induction false} LastStored(ms: Members, key: string, text: string)
    ensures TextOf(ms, key) == Some(text) <==> exists i :: StoredAt(ms, key, text, i)
    decreases |ms|
  {
    hide StoredAt, Lookup;
    LookupLast(ms, key);
    if ms == [] {
      NothingStored(key, text);
    } else {
      var front := ms[..|ms| - 1];
      LastStored(front, key, text);
      if ms[|ms| - 1].0 == key {
        StoredLast(ms, key, text);
      } else {
        StoredStep(ms, key, text);
      }
    }
  }

  lemma LookupLast(ms: Members, key: string)
    ensures Lookup(ms, key) ==
            if ms == [] then None
            else if ms[|ms| - 1].0 == key then Some(ms[|ms| - 1].1)
            else Lookup(ms[..|ms| - 1], key)
  {
  }

  lemma NothingStored(key: string, text: string)
    ensures forall i :: !StoredAt([], key, text, i)
  {
  }

  lemma StoredLast(ms: Members, key: string, text: string)
    requires ms != [] && ms[|ms| - 1].0 == key
    ensures (exists i :: StoredAt(ms, key, text, i)) <==> ms[|ms| - 1].1 == Text(text)
  {
    if ms[|ms| - 1].1 == Text(text) {
      assert StoredAt(ms, key, text, |ms| - 1);
    }
  }

  lemma StoredStep(ms: Members, key: string, text: string)
    requires ms != [] && ms[|ms| - 1].0 != key
    ensures var front := ms[..|ms| - 1];
            (exists i :: StoredAt(ms, key, text, i)) <==> exists i :: StoredAt(front, key, text, i)
  {
    var front := ms[..|ms| - 1];
    forall i: nat
      ensures StoredAt(ms, key, text, i) <==> StoredAt(front, key, text, i)
    {
    }
  }
}
