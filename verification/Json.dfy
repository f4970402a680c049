/** A reader for JSON texts (RFC 8259), keeping what the program looks at: the members of objects
    and the contents of strings. */
module Json {
  import opened Common

  datatype Value = Text(text: string) | Object(members: seq<(string, Value)>) | Other

  type Members = seq<(string, Value)>

  // ---- characters ----

  /** Characters that stand for themselves inside a JSON string. */
  predicate PlainChar(c: char)
  {
    c != '"' && c != '\\' && c >= ' '
  }

  predicate Plain(s: string)
  {
    forall i | 0 <= i < |s| :: PlainChar(s[i])
  }

  predicate IsSpace(c: char)
  {
    c == ' ' || c == '\t' || c == '\n' || c == '\r'
  }

  function SkipSpace(t: string): (r: string)
    ensures |r| <= |t|
    ensures r == [] || !IsSpace(r[0])
  {
    if t != [] && IsSpace(t[0]) then SkipSpace(t[1..]) else t
  }

  function HexDigit(c: char): (d: Option<int>)
    ensures d.Some? ==> 0 <= d.value < 16
  {
    if '0' <= c <= '9' then Some(c as int - '0' as int)
    else if 'a' <= c <= 'f' then Some(10 + c as int - 'a' as int)
    else if 'A' <= c <= 'F' then Some(10 + c as int - 'A' as int)
    else None
  }

  /** The character named by the four digits of a \u escape; NUL and surrogates are refused. */
  function HexChar(t: string): Option<char>
    requires |t| == 4
  {
    var a, b, c, d := HexDigit(t[0]), HexDigit(t[1]), HexDigit(t[2]), HexDigit(t[3]);
    if a.None? || b.None? || c.None? || d.None? then None
    else
      var code := a.value * 4096 + b.value * 256 + c.value * 16 + d.value;
      if 0 < code < 0xD800 then Some(code as char)
      else if 0xE000 <= code < 0x10000 then Some(code as char)
      else None
  }

  /** Reads one escape sequence, the backslash being already taken. */
  function ReadEscape(t: string): (r: Option<(char, string)>)
    ensures r.Some? ==> |r.value.1| < |t|
  {
    if t == [] then None
    else match t[0]
      case '"' => Some(('"', t[1..]))
      case '\\' => Some(('\\', t[1..]))
      case '/' => Some(('/', t[1..]))
      case 'b' => Some((8 as char, t[1..]))
      case 'f' => Some((12 as char, t[1..]))
      case 'n' => Some(('\n', t[1..]))
      case 'r' => Some(('\r', t[1..]))
      case 't' => Some(('\t', t[1..]))
      case 'u' =>
        if |t| < 5 then None
        else (match HexChar(t[1..5]) case None => None case Some(c) => Some((c, t[5..])))
      case _ => None
  }

  // ---- strings, values, objects ----

  /** Reads a string whose opening quote is already taken: its text and what follows it. */
  function ReadString(t: string): (r: Option<(string, string)>)
    ensures r.Some? ==> |r.value.0| + |r.value.1| < |t|
    decreases |t|
  {
    if t == [] then None
    else if t[0] == '"' then Some(([], t[1..]))
    else if t[0] == '\\' then
      match ReadEscape(t[1..])
      case None => None
      case Some((c, rest)) =>
        (match ReadString(rest) case None => None case Some((s, r)) => Some(([c] + s, r)))
    else if t[0] < ' ' then None
    else
      match ReadString(t[1..])
      case None => None
      case Some((s, r)) => Some(([t[0]] + s, r))
  }

  function SkipDigits(t: string): (r: string)
    ensures |r| <= |t|
  {
    if t != [] && '0' <= t[0] <= '9' then SkipDigits(t[1..]) else t
  }

  /** At least one digit, and what follows the digits. */
  function ReadDigits(t: string): (r: Option<string>)
    ensures r.Some? ==> |r.value| < |t|
  {
    if t != [] && '0' <= t[0] <= '9' then Some(SkipDigits(t[1..])) else None
  }

  /** A number (RFC 8259, section 6); returns what follows it. */
  function ReadNumber(t: string): (r: Option<string>)
    ensures r.Some? ==> |r.value| < |t|
  {
    var t0 := if t != [] && t[0] == '-' then t[1..] else t;
    var t1 := if t0 != [] && t0[0] == '0' then Some(t0[1..]) else ReadDigits(t0);
    if t1.None? then None
    else
      var t2 := if t1.value != [] && t1.value[0] == '.' then ReadDigits(t1.value[1..]) else t1;
      if t2.None? then None
      else if t2.value == [] || (t2.value[0] != 'e' && t2.value[0] != 'E') then t2
      else
        var t3 := t2.value[1..];
        ReadDigits(if t3 != [] && (t3[0] == '+' || t3[0] == '-') then t3[1..] else t3)
  }

  function ReadValue(t: string): (r: Option<(Value, string)>)
    ensures r.Some? ==> |r.value.1| < |t|
    ensures r.Some? && r.value.0.Text? ==> |r.value.0.text| + |r.value.1| + 2 <= |t|
    decreases |t|, 0
  {
    if t == [] then None
    else if t[0] == '"' then
      match ReadString(t[1..])
      case None => None
      case Some((s, r)) => Some((Text(s), r))
    else if t[0] == '{' then
      var t1 := SkipSpace(t[1..]);
      if t1 != [] && t1[0] == '}' then Some((Object([]), t1[1..]))
      else (match ReadMembers(t1) case None => None case Some((ms, r)) => Some((Object(ms), r)))
    else if t[0] == '[' then
      var t1 := SkipSpace(t[1..]);
      if t1 != [] && t1[0] == ']' then Some((Other, t1[1..]))
      else (match ReadElements(t1) case None => None case Some(r) => Some((Other, r)))
    else if "true" <= t then Some((Other, t[4..]))
    else if "false" <= t then Some((Other, t[5..]))
    else if "null" <= t then Some((Other, t[4..]))
    else
      match ReadNumber(t)
      case None => None
      case Some(r) => Some((Other, r))
  }

  /** Reads the elements of an array up to and including its closing bracket. */
  function ReadElements(t: string): (r: Option<string>)
    ensures r.Some? ==> |r.value| < |t|
    decreases |t|, 1
  {
    match ReadValue(t)
    case None => None
    case Some((_, r)) =>
      var r' := SkipSpace(r);
      if r' == [] then None
      else if r'[0] == ']' then Some(r'[1..])
      else if r'[0] == ',' then ReadElements(SkipSpace(r'[1..]))
      else None
  }

  /** Reads one `"key": value` and returns it with what follows. */
  function ReadMember(t: string): (r: Option<((string, Value), string)>)
    ensures r.Some? ==> |r.value.1| < |t|
    ensures r.Some? && r.value.0.1.Text? ==> |r.value.0.1.text| + |r.value.1| + 2 <= |t|
    decreases |t|, 1
  {
    if t == [] || t[0] != '"' then None
    else
      match ReadString(t[1..])
      case None => None
      case Some((key, r1)) =>
        var r2 := SkipSpace(r1);
        if r2 == [] || r2[0] != ':' then None
        else
          match ReadValue(SkipSpace(r2[1..]))
          case None => None
          case Some((v, r3)) => Some(((key, v), r3))
  }

  /** Reads the members of an object up to and including its closing brace. */
  function ReadMembers(t: string): (r: Option<(Members, string)>)
    ensures r.Some? ==> |r.value.1| < |t|
    decreases |t|, 2
  {
    match ReadMember(t)
    case None => None
    case Some((m, r)) =>
      var r' := SkipSpace(r);
      if r' == [] then None
      else if r'[0] == '}' then Some(([m], r'[1..]))
      else if r'[0] == ',' then
        (match ReadMembers(SkipSpace(r'[1..])) case None => None case Some((ms, r'')) => Some(([m] + ms, r'')))
      else None
  }

  /** The members of the object a text holds; a text that holds another value has none. */
  function ReadObject(t: string): Option<Members>
  {
    match ReadValue(SkipSpace(t))
    case None => None
    case Some((v, r)) =>
      if SkipSpace(r) != [] then None
      else if v.Object? then Some(v.members)
      else Some([])
  }

  /** Members that run to the closing brace at the end of the text. */
  function ReadAll(t: string): Option<Members>
  {
    match ReadMembers(t)
    case None => None
    case Some((ms, r)) => if SkipSpace(r) == [] then Some(ms) else None
  }

  /** A later member with the same key replaces an earlier one. */
  function Lookup(ms: Members, key: string): Option<Value>
  {
    if ms == [] then None
    else if ms[|ms| - 1].0 == key then Some(ms[|ms| - 1].1)
    else Lookup(ms[..|ms| - 1], key)
  }

  /** The string stored under a key; an absent key and a value that is not a string both give nothing. */
  function TextOf(ms: Members, key: string): Option<string>
  {
    match Lookup(ms, key)
    case Some(Text(s)) => Some(s)
    case _ => None
  }

  // ---- writing ----

  /** One string member, followed by the rest of the text; the strings are written unescaped. */
  function Member(key: string, text: string, rest: string): string
  {
    ['"'] + (key + (['"'] + ([':'] + (['"'] + (text + (['"'] + rest))))))
  }

  // ---- what reading gives back ----

  /** A plain string reads back as itself. */
  lemma {:induction false} ReadPlain(s: string, rest: string)
    requires Plain(s)
    ensures ReadString(s + (['"'] + rest)) == Some((s, rest))
  {
    var t := s + (['"'] + rest);
    if s == [] {
      assert t == ['"'] + rest;
      assert t[1..] == rest;
    } else {
      assert PlainChar(s[0]);
      assert t[1..] == s[1..] + (['"'] + rest);
      ReadPlain(s[1..], rest);
      assert [s[0]] + s[1..] == s;
    }
  }

  /** Reading shortens the text by exactly the closing quote only when nothing was escaped. */
  lemma {:induction false} ReadStringExact(t: string)
    requires ReadString(t).Some?
    ensures var (s, r) := ReadString(t).value;
            |s| + |r| + 1 == |t| ==> Plain(s) && t == s + (['"'] + r)
    decreases |t|
  {
    var (s, r) := ReadString(t).value;
    if t[0] == '"' {
      assert t == s + (['"'] + r);
    } else if t[0] == '\\' {
      var (c, rest) := ReadEscape(t[1..]).value;
      assert ReadString(rest).Some?;
    } else {
      ReadStringExact(t[1..]);
      var (s', r') := ReadString(t[1..]).value;
      assert s == [t[0]] + s' && r == r';
      if |s| + |r| + 1 == |t| {
        assert t == [t[0]] + t[1..];
        assert t == s + (['"'] + r);
      }
    }
  }

  lemma ReadMemberPlain(key: string, text: string, rest: string)
    requires Plain(key) && Plain(text)
    ensures ReadMember(Member(key, text, rest)) == Some(((key, Text(text)), rest))
  {
    ReadMemberOf(key, text + (['"'] + rest));
    ReadPlain(text, rest);
    assert Member(key, text, rest) == ['"'] + (key + (['"'] + ([':'] + (['"'] + (text + (['"'] + rest))))));
  }

  /** Reading a member whose key is plain comes down to reading its string. */
  lemma ReadMemberOf(key: string, body: string)
    requires Plain(key)
    ensures ReadMember(['"'] + (key + (['"'] + ([':'] + (['"'] + body))))) ==
            if ReadString(body).None? then None
            else Some(((key, Text(ReadString(body).value.0)), ReadString(body).value.1))
  {
    hide ReadString;
    var v := ['"'] + body;
    var afterKey := [':'] + v;
    var t := ['"'] + (key + (['"'] + afterKey));
    assert t[1..] == key + (['"'] + afterKey);
    ReadPlain(key, afterKey);
    SpaceNone(afterKey);
    assert afterKey[1..] == v;
    SpaceNone(v);
    assert v[1..] == body;
  }

  lemma SpaceNone(t: string)
    requires t != [] && !IsSpace(t[0])
    ensures SkipSpace(t) == t
  {
  }

  /** A member before the last one is read and passed over. */
  lemma ReadAllAfter(t: string, m: (string, Value), more: string)
    requires ReadMember(t) == Some((m, [','] + more))
    requires more != [] && !IsSpace(more[0])
    ensures ReadAll(t) == match ReadAll(more) case None => None case Some(ms) => Some([m] + ms)
  {
    hide ReadMember, SkipSpace;
    var r := [','] + more;
    SpaceNone(r);
    assert r[1..] == more;
    SpaceNone(more);
  }

  lemma ReadAllMore(key: string, text: string, more: string)
    requires Plain(key) && Plain(text)
    requires more != [] && !IsSpace(more[0])
    ensures ReadAll(Member(key, text, [','] + more)) ==
            match ReadAll(more)
            case None => None
            case Some(ms) => Some([(key, Text(text))] + ms)
  {
    hide ReadMember, SkipSpace, Member;
    ReadMemberPlain(key, text, [','] + more);
    ReadAllAfter(Member(key, text, [','] + more), (key, Text(text)), more);
  }

  lemma ReadAllLast(key: string, text: string)
    requires Plain(key) && Plain(text)
    ensures ReadAll(Member(key, text, "}")) == Some([(key, Text(text))])
  {
    hide ReadMember, Member;
    ReadMemberPlain(key, text, "}");
    SpaceNone("}");
    assert "}"[1..] == [];
  }

  /** Equal members with the same plain key and plain texts agree in text and in what follows. */
  lemma MemberApart(key: string, text: string, rest: string, text': string, rest': string)
    requires Plain(key) && Plain(text) && Plain(text')
    requires Member(key, text, rest) == Member(key, text', rest')
    ensures text == text' && rest == rest'
  {
    hide ReadMember, Member;
    ReadMemberPlain(key, text, rest);
    ReadMemberPlain(key, text', rest');
  }

  /** No text read from a member list is as long as the text the list was read from. */
  lemma {:induction false} ReadMembersBound(t: string)
    requires ReadMembers(t).Some?
    ensures forall i | 0 <= i < |ReadMembers(t).value.0| ::
              ReadMembers(t).value.0[i].1.Text? ==> |ReadMembers(t).value.0[i].1.text| + 3 <= |t|
    decreases |t|
  {
    hide ReadMember, SkipSpace;
    var (m, r) := ReadMember(t).value;
    var r' := SkipSpace(r);
    if r'[0] == ',' {
      ReadMembersBound(SkipSpace(r'[1..]));
    }
  }

  lemma {:induction false} LookupIsMember(ms: Members, key: string)
    ensures Lookup(ms, key).Some? ==> exists i | 0 <= i < |ms| :: ms[i] == (key, Lookup(ms, key).value)
    decreases |ms|
  {
    if ms != [] {
      if ms[|ms| - 1].0 == key {
        assert ms[|ms| - 1] == (key, Lookup(ms, key).value);
      } else {
        var front := ms[..|ms| - 1];
        LookupIsMember(front, key);
        if Lookup(front, key).Some? {
          var i :| 0 <= i < |front| && front[i] == (key, Lookup(front, key).value);
          assert ms[i] == (key, Lookup(ms, key).value);
        }
      }
    }
  }

  /** The last member of a list reads back as the string that was written exactly when that
      string is plain; whatever else the string contains, its own text is never given back. */
  lemma LastMemberReadsBack(key: string, text: string)
    requires Plain(key)
    ensures (ReadAll(Member(key, text, "}")).Some? &&
             TextOf(ReadAll(Member(key, text, "}")).value, key) == Some(text)) <==> Plain(text)
  {
    if Plain(text) {
      ReadAllLast(key, text);
    } else if ReadAll(Member(key, text, "}")).Some? {
      NotReadBack(key, text);
    }
  }

  lemma NotReadBack(key: string, text: string)
    requires Plain(key) && !Plain(text) && ReadAll(Member(key, text, "}")).Some?
    ensures TextOf(ReadAll(Member(key, text, "}")).value, key) != Some(text)
  {
    hide ReadMember, SkipSpace, ReadString, Lookup;
    var t, body := Member(key, text, "}"), text + (['"'] + "}");
    assert t == ['"'] + (key + (['"'] + ([':'] + (['"'] + body))));
    ReadMemberOf(key, body);
    var (s, r) := ReadString(body).value;
    ReadStringExact(body);
    var ms := ReadAll(t).value;
    LookupIsMember(ms, key);
    if TextOf(ms, key) == Some(text) {
      var i :| 0 <= i < |ms| && ms[i] == (key, Text(text));
      var r' := SkipSpace(r);
      if i > 0 {
        ReadMembersBound(SkipSpace(r'[1..]));
      }
    }
  }

  // ---- members read one after another ----

  lemma ObjectOf(t: string)
    requires t != [] && t[0] == '"'
    ensures ReadObject(['{'] + t) == ReadAll(t)
  {
    var t0 := ['{'] + t;
    assert SkipSpace(t0) == t0;
    assert t0[1..] == t;
    assert SkipSpace(t) == t;
  }

  lemma MemberStarts(key: string, text: string, rest: string)
    ensures Member(key, text, rest) != [] && Member(key, text, rest)[0] == '"'
  {
  }

  lemma LookupSingle(key: string, v: Value)
    ensures Lookup([(key, v)], key) == Some(v)
  {
  }

  lemma LookupAfter(m: (string, Value), ms: Members, key: string)
    ensures Lookup([m] + ms, key) ==
            if Lookup(ms, key).Some? then Lookup(ms, key) else if m.0 == key then Some(m.1) else None
    decreases |ms|
  {
    if ms == [] {
      assert [m] + ms == [m];
      assert [m][..0] == [];
    } else {
      assert ([m] + ms)[..|ms|] == [m] + ms[..|ms| - 1];
      LookupAfter(m, ms[..|ms| - 1], key);
    }
  }

  lemma LookupPair(a: (string, Value), b: (string, Value))
    requires a.0 != b.0
    ensures Lookup([a] + [b], a.0) == Some(a.1) && Lookup([a] + [b], b.0) == Some(b.1)
  {
    LookupAfter(a, [b], a.0);
    LookupAfter(a, [b], b.0);
    LookupSingle(b.0, b.1);
    assert [b][..0] == [];
  }

  lemma LookupThree(a: (string, Value), b: (string, Value), c: (string, Value))
    requires a.0 != b.0 && b.0 != c.0 && a.0 != c.0
    ensures Lookup([a, b, c], a.0) == Some(a.1)
    ensures Lookup([a, b, c], b.0) == Some(b.1)
    ensures Lookup([a, b, c], c.0) == Some(c.1)
  {
    assert [a, b, c][..2] == [a, b];
    assert [a, b][..1] == [a];
    LookupSingle(a.0, a.1);
    assert Lookup([a, b], a.0) == Some(a.1);
  }

  /** A member and what comes after it. */
  lemma ReadAllStep(t: string)
    ensures ReadAll(t) ==
            if ReadMember(t).None? then None
            else
              var (m, r) := ReadMember(t).value;
              var r' := SkipSpace(r);
              if r' == [] then None
              else if r'[0] == '}' then (if SkipSpace(r'[1..]) == [] then Some([m]) else None)
              else if r'[0] == ',' then
                match ReadAll(SkipSpace(r'[1..])) case None => None case Some(ms) => Some([m] + ms)
              else None
  {
    hide ReadMember, SkipSpace;
  }

  // ---- strings read character by character ----

  lemma ReadPlainChar(c: char, t: string)
    requires PlainChar(c)
    ensures ReadString([c] + t) ==
            match ReadString(t) case None => None case Some((s, r)) => Some(([c] + s, r))
  {
    assert ([c] + t)[1..] == t;
  }

  lemma ReadEscapedChar(c: char, t: string)
    requires (c == '"' || c == '\\') && ReadString(t).Some?
    ensures ReadString(['\\', c] + t) == Some(([c] + ReadString(t).value.0, ReadString(t).value.1))
  {
    assert (['\\', c] + t)[1..] == [c] + t;
    assert ([c] + t)[1..] == t;
  }

  /** Plain text at the front of a string is read as it stands. */
  lemma {:induction false} ReadPlainPrefix(prefix: string, t: string)
    requires Plain(prefix)
    ensures ReadString(prefix + t) ==
            match ReadString(t) case None => None case Some((s, r)) => Some((prefix + s, r))
  {
    hide ReadString;
    if prefix == [] {
      assert prefix + t == t;
      assert ReadString(t).Some? ==> [] + ReadString(t).value.0 == ReadString(t).value.0;
    } else {
      ReadPlainPrefix(prefix[1..], t);
      assert prefix + t == [prefix[0]] + (prefix[1..] + t);
      ReadPlainChar(prefix[0], prefix[1..] + t);
      assert forall s :: [prefix[0]] + (prefix[1..] + s) == prefix + s;
    }
  }

  /** A string with its quotes and backslashes escaped. */
  function Escaped(s: string): string
  {
    if s == [] then []
    else (if s[0] == '"' || s[0] == '\\' then ['\\', s[0]] else [s[0]]) + Escaped(s[1..])
  }

  lemma {:induction false} ReadEscaped(s: string, rest: string)
    requires forall i | 0 <= i < |s| :: s[i] >= ' '
    ensures ReadString(Escaped(s) + (['"'] + rest)) == Some((s, rest))
  {
    if s == [] {
      assert Escaped(s) + (['"'] + rest) == ['"'] + rest;
      assert (['"'] + rest)[1..] == rest;
    } else {
      ReadEscaped(s[1..], rest);
      ReadEscapedFirst(s, rest);
    }
  }

  lemma ReadEscapedFirst(s: string, rest: string)
    requires s != [] && s[0] >= ' '
    requires ReadString(Escaped(s[1..]) + (['"'] + rest)) == Some((s[1..], rest))
    ensures ReadString(Escaped(s) + (['"'] + rest)) == Some((s, rest))
  {
    hide ReadString;
    var e, q := Escaped(s[1..]), ['"'] + rest;
    assert [s[0]] + s[1..] == s;
    EscapedStarts(s);
    hide Escaped;
    if s[0] == '"' || s[0] == '\\' {
      Regroup(['\\', s[0]], e, q);
      ReadEscapedChar(s[0], e + q);
    } else {
      Regroup([s[0]], e, q);
      ReadPlainChar(s[0], e + q);
    }
  }

  lemma EscapedStarts(s: string)
    requires s != []
    ensures Escaped(s) == (if s[0] == '"' || s[0] == '\\' then ['\\', s[0]] else [s[0]]) + Escaped(s[1..])
  {
  }

  lemma Regroup(a: string, b: string, c: string)
    ensures (a + b) + c == a + (b + c)
  {
  }

  lemma EscapedMember(key: string, text: string, rest: string)
    requires Plain(key) && forall i | 0 <= i < |text| :: text[i] >= ' '
    ensures ReadMember(Member(key, Escaped(text), rest)) == Some(((key, Text(text)), rest))
  {
    hide ReadMember, ReadString, Escaped, Plain;
    ReadEscaped(text, rest);
    ReadMemberOf(key, Escaped(text) + (['"'] + rest));
  }

  /** A first member whose text was escaped, before members that are read on their own. */
  lemma EscapedFirst(key: string, text: string, more: string)
    requires Plain(key) && forall i | 0 <= i < |text| :: text[i] >= ' '
    requires more != [] && more[0] == '"'
    ensures ReadObject(['{'] + Member(key, Escaped(text), [','] + more)) ==
            match ReadAll(more) case None => None case Some(ms) => Some([(key, Text(text))] + ms)
  {
    hide ReadObject, ReadAll, ReadMember, Member, Escaped, Plain;
    var t1 := Member(key, Escaped(text), [','] + more);
    MemberStarts(key, Escaped(text), [','] + more);
    ObjectOf(t1);
    EscapedMember(key, text, [','] + more);
    ReadAllAfter(t1, (key, Text(text)), more);
  }
}
