/** What a node makes of the arbiter's answer to any text, not only to printed requests. */
module Answers {
  import opened Common
  import opened Json
  import opened Requests

  // ---- what a text asks for ----

  /** What the dispatcher reads as a request for op from an edge or a hub. */
  predicate AsksFor(body: string, op: Op)
  {
    ReadObject(body).Some? &&
    var ms := ReadObject(body).value;
    TextOf(ms, "method") == Some(OpWord(op)) &&
    ((TextOf(ms, "deviceType") == Some("edge") && TextOf(ms, "edgeId").Some?) ||
     (TextOf(ms, "deviceType") == Some("hub") && TextOf(ms, "hubId").Some?))
  }

  /** Text put unescaped into the string of an answer closes that string and goes on with members,
      the last "result" of which is op's word. */
  predicate BreaksOut(quoted: string, suffix: string, op: Op)
  {
    match ReadString(quoted + (suffix + (['"'] + "}")))
    case None => false
    case Some((_, r)) =>
      var r' := SkipSpace(r);
      r' != [] && r'[0] == ',' && ReadAll(SkipSpace(r'[1..])).Some? &&
      TextOf(ReadAll(SkipSpace(r'[1..])).value, "result") == Some(Expected(op))
  }

  /** The dispatcher knows the device type and finds its id. */
  predicate KnownDevice(ms: Members)
  {
    (TextOf(ms, "deviceType") == Some("edge") && TextOf(ms, "edgeId").Some?) ||
    (TextOf(ms, "deviceType") == Some("hub") && TextOf(ms, "hubId").Some?)
  }

  predicate KnownMethod(verb: string)
  {
    verb == "enroll" || verb == "activate" || verb == "deactivate" || verb == "delist"
  }

  /** The text makes the dispatcher quote back a name that breaks out of the refusal. */
  predicate Misleads(body: string, op: Op)
  {
    ReadObject(body).Some? &&
    var ms := ReadObject(body).value;
    TextOf(ms, "deviceType").Some? && TextOf(ms, "method").Some? &&
    var device, verb := TextOf(ms, "deviceType").value, TextOf(ms, "method").value;
    if device != "edge" && device != "hub" then BreaksOut(device, ")", op)
    else KnownDevice(ms) && !KnownMethod(verb) && BreaksOut(verb, ") is not supported", op)
  }

  // ---- refusals that quote a name ----

  lemma OtherStart(prefix: string, s: string, op: Op)
    requires prefix != [] && (prefix[0] == 'u' || prefix[0] == 'm')
    ensures prefix + s != Expected(op)
  {
    assert (prefix + s)[0] == prefix[0];
  }

  /** A refusal that quotes a name is accepted as op's answer exactly when the name breaks out. */
  lemma QuotedBack(prefix: string, quoted: string, suffix: string, op: Op)
    requires Plain(prefix) && prefix != [] && (prefix[0] == 'u' || prefix[0] == 'm')
    ensures Validates(Some(Answer(prefix + quoted + suffix)), Expected(op)) <==> BreaksOut(quoted, suffix, op)
  {
    hide ReadObject, ReadAll, ReadMember, ReadString, SkipSpace, Plain, Expected, Lookup, Member;
    var word, tail := prefix + quoted + suffix, quoted + (suffix + (['"'] + "}"));
    AnswerShape(word);
    ResultMember(word);
    assert word + (['"'] + "}") == prefix + tail;
    ReadPlainPrefix(prefix, tail);
    ReadAllStep(Member("result", word, "}"));
    if ReadString(tail).Some? {
      var (s, r) := ReadString(tail).value;
      OtherStart(prefix, s, op);
      LookupSingle("result", Text(prefix + s));
      var r' := SkipSpace(r);
      if r' != [] && r'[0] == ',' && ReadAll(SkipSpace(r'[1..])).Some? {
        LookupAfter(("result", Text(prefix + s)), ReadAll(SkipSpace(r'[1..])).value, "result");
      }
    }
  }

  lemma ResultMember(word: string)
    ensures ReadMember(Member("result", word, "}")) ==
            match ReadString(word + (['"'] + "}"))
            case None => None
            case Some((s, r)) => Some((("result", Text(s)), r))
  {
    hide ReadMember, ReadString, Plain;
    ResultPlain();
    ReadMemberOf("result", word + (['"'] + "}"));
  }

  lemma ResultPlain()
    ensures Plain("result") && Plain("x")
  {
  }

  lemma SuffixesPlain()
    ensures Plain("method(") && Plain(") is not supported") && Plain("unknown device type (") && Plain(")")
  {
  }

  lemma RefusalRejected(word: string, op: Op)
    requires Plain(word) && |word| > 9
    ensures !Validates(Some(Answer(word)), Expected(op))
  {
    hide Validates, Answer;
    PlainAnswer(word, Expected(op));
    assert |Expected(op)| <= 9;
  }

  // ---- every text ----

  /** For every text: the dispatcher's answer is accepted as op's exactly when the text asks for op
      or misleads, and no text does both. So the answer tells what was asked exactly when the text
      does not mislead. */
  lemma AnswerTells(body: string, op: Op)
    ensures Validates(Some(Dispatch(body).answer), Expected(op)) <==> AsksFor(body, op) || Misleads(body, op)
    ensures !(AsksFor(body, op) && Misleads(body, op))
    ensures (Validates(Some(Dispatch(body).answer), Expected(op)) <==> AsksFor(body, op)) <==> !Misleads(body, op)
  {
    hide Validates, Dispatch, Expected, AsksFor, Misleads;
    EveryTextTells(body, op);
  }

  ghost predicate Tells(body: string, op: Op)
  {
    && (Validates(Some(Dispatch(body).answer), Expected(op)) <==> AsksFor(body, op) || Misleads(body, op))
    && !(AsksFor(body, op) && Misleads(body, op))
  }

  lemma EveryTextTells(body: string, op: Op)
    ensures Tells(body, op)
  {
    hide Tells, ReadObject, Lookup;
    if ReadObject(body).None? || TextOf(ReadObject(body).value, "deviceType").None? ||
       TextOf(ReadObject(body).value, "method").None? {
      RefusedTells(body, op);
    } else if TextOf(ReadObject(body).value, "deviceType").value == "edge" {
      EdgeAnswerTells(body, op);
    } else if TextOf(ReadObject(body).value, "deviceType").value == "hub" {
      HubAnswerTells(body, op);
    } else {
      UnknownDeviceTells(body, op);
    }
  }

  /** A text without a device type or a method is refused whatever the operation. */
  lemma RefusedTells(body: string, op: Op)
    requires ReadObject(body).None? || TextOf(ReadObject(body).value, "deviceType").None? ||
             TextOf(ReadObject(body).value, "method").None?
    ensures Tells(body, op)
  {
    hide ReadObject, Lookup, Validates, Answer, DispatchMethod, BreaksOut, OpWord, Expected;
    RefusalRejected("failed to parse body", op);
    RefusalRejected("device type is missing", op);
    RefusalRejected("method is missing", op);
  }

  lemma EdgeAnswerTells(body: string, op: Op)
    requires ReadObject(body).Some?
    requires var ms := ReadObject(body).value; TextOf(ms, "deviceType") == Some("edge") && TextOf(ms, "method").Some?
    ensures Tells(body, op)
  {
    hide ReadObject, Lookup, Validates, Answer, DispatchMethod, BreaksOut, Expected, KnownMethod, OpWord;
    var ms := ReadObject(body).value;
    OpKnown(op);
    if TextOf(ms, "edgeId").None? {
      RefusalRejected("edgeId does not exist", op);
    } else {
      MethodAnswerTells(Edge, TextOf(ms, "method").value, TextOf(ms, "edgeId").value, op);
    }
  }

  lemma HubAnswerTells(body: string, op: Op)
    requires ReadObject(body).Some?
    requires var ms := ReadObject(body).value; TextOf(ms, "deviceType") == Some("hub") && TextOf(ms, "method").Some?
    ensures Tells(body, op)
  {
    hide ReadObject, Lookup, Validates, Answer, DispatchMethod, BreaksOut, Expected, KnownMethod, OpWord;
    var ms := ReadObject(body).value;
    OpKnown(op);
    if TextOf(ms, "hubId").None? {
      RefusalRejected("hubId does not exist", op);
    } else {
      MethodAnswerTells(Hub, TextOf(ms, "method").value, TextOf(ms, "hubId").value, op);
    }
  }

  lemma UnknownDeviceTells(body: string, op: Op)
    requires ReadObject(body).Some?
    requires var ms := ReadObject(body).value;
             TextOf(ms, "deviceType").Some? && TextOf(ms, "method").Some? &&
             TextOf(ms, "deviceType") != Some("edge") && TextOf(ms, "deviceType") != Some("hub")
    ensures Tells(body, op)
  {
    hide ReadObject, Lookup, Validates, Answer, DispatchMethod, BreaksOut, Expected;
    SuffixesPlain();
    QuotedBack("unknown device type (", TextOf(ReadObject(body).value, "deviceType").value, ")", op);
  }

  lemma OpKnown(op: Op)
    ensures KnownMethod(OpWord(op))
  {
  }

  lemma MethodAnswerTells(kind: Kind, verb: string, id: string, op: Op)
    ensures Validates(Some(DispatchMethod(kind, verb, id).answer), Expected(op)) <==>
            verb == OpWord(op) || (!KnownMethod(verb) && BreaksOut(verb, ") is not supported", op))
  {
    hide Validates, Answer, BreaksOut;
    if verb == "enroll" {
      PlainAnswer("enrolled", Expected(op));
    } else if verb == "activate" {
      PlainAnswer("activated", Expected(op));
    } else if verb == "deactivate" {
      RefusalRejected("deactivated", op);
    } else if verb == "delist" {
      PlainAnswer("delisted", Expected(op));
    } else {
      SuffixesPlain();
      QuotedBack("method(", verb, ") is not supported", op);
    }
  }

  // ---- which names break out ----

  predicate QuoteFree(s: string)
  {
    forall i | 0 <= i < |s| :: s[i] != '"'
  }

  lemma {:induction false} QuoteFreeTail(x: string)
    requires QuoteFree(x)
    ensures ReadString(x + (['"'] + "}")).Some? ==> ReadString(x + (['"'] + "}")).value.1 == "}"
    decreases |x|
  {
    var t := x + (['"'] + "}");
    if x == [] {
      assert t[1..] == "}";
    } else if t[0] == '\\' {
      if ReadString(t).Some? {
        var rest := ReadEscape(t[1..]).value.1;
        if |x| > 1 {
          var n := |t| - |rest|;
          assert t[n..] == rest;
          assert n == 2 || n == 6;
          if n == 6 {
            var hex := t[1..][1..5];
            assert HexChar(hex).Some?;
            assert hex[0] == t[2] && hex[1] == t[3] && hex[2] == t[4] && hex[3] == t[5];
            assert t[|x|] == '"' && t[|x| + 1] == '}';
          }
          assert rest == x[n..] + (['"'] + "}");
          QuoteFreeTail(x[n..]);
        }
      }
    } else {
      assert t[1..] == x[1..] + (['"'] + "}");
      QuoteFreeTail(x[1..]);
    }
  }

  /** A name without a quote never breaks out, so an answer that quotes none always tells. */
  lemma QuoteFreeStaysIn(quoted: string, suffix: string, op: Op)
    requires QuoteFree(quoted) && QuoteFree(suffix)
    ensures !BreaksOut(quoted, suffix, op)
  {
    hide ReadString, ReadAll, Lookup;
    assert quoted + (suffix + (['"'] + "}")) == (quoted + suffix) + (['"'] + "}");
    QuoteFreeTail(quoted + suffix);
    SpaceNone("}");
  }

  /** A name that makes the refusal that quotes it read as the answer to op. */
  function Misleading(op: Op): string
  {
    ['"'] + ([','] + Member("result", Expected(op), [','] + (['"'] + ("x" + (['"'] + ([':'] + ['"']))))))
  }

  lemma MisleadingWord(op: Op)
    ensures forall i | 0 <= i < |Misleading(op)| :: Misleading(op)[i] >= ' '
    ensures Misleading(op) != [] && Misleading(op)[0] == '"'
  {
    var w := Expected(op);
    assert forall i | 0 <= i < |w| :: w[i] >= ' ';
  }

  lemma MisleadingBreaksOut(suffix: string, op: Op)
    requires Plain(suffix)
    ensures BreaksOut(Misleading(op), suffix, op)
  {
    hide ReadAll, Lookup, Plain, Expected, Member, Misleading;
    var word, m3 := Expected(op), Member("x", suffix, "}");
    var m2 := Member("result", word, [','] + m3);
    MisleadingShape(suffix, op);
    assert (['"'] + ([','] + m2))[1..] == [','] + m2 && ([','] + m2)[1..] == m2;
    OpWordsPlain(op);
    ResultPlain();
    MemberStarts("result", word, [','] + m3);
    MemberStarts("x", suffix, "}");
    SpaceNone([','] + m2);
    SpaceNone(m2);
    ReadAllMore("result", word, m3);
    ReadAllLast("x", suffix);
    LookupPair(("result", Text(word)), ("x", Text(suffix)));
  }

  lemma MisleadingShape(suffix: string, op: Op)
    ensures Misleading(op) + (suffix + (['"'] + "}")) ==
            ['"'] + ([','] + Member("result", Expected(op), [','] + Member("x", suffix, "}")))
  {
    hide Expected;
    var tail := ['"'] + ("x" + (['"'] + ([':'] + ['"'])));
    assert Member("x", suffix, "}") == tail + (suffix + (['"'] + "}"));
    assert Member("result", Expected(op), [','] + (tail + (suffix + (['"'] + "}")))) ==
           Member("result", Expected(op), [','] + tail) + (suffix + (['"'] + "}"));
  }

  /** Methods that mislead: for every operation, kind and plain id there is a text that does not
      ask for the operation and has no effect, and is answered as if it did. */
  lemma QuotedVerbMisreads(op: Op, kind: Kind, id: string) returns (body: string)
    requires Plain(id)
    ensures !AsksFor(body, op) && Dispatch(body).effect == NoEffect
    ensures Validates(Some(Dispatch(body).answer), Expected(op))
  {
    hide ReadObject, Lookup, Validates, Answer, Misleading, Escaped, Plain, BreaksOut;
    var verb := Misleading(op);
    MisleadingWord(op);
    body := ['{'] + Member("method", Escaped(verb), [','] + DeviceMembers(kind, id));
    DeviceRead(kind, id);
    OpWordsPlain(op);
    EscapedFirst("method", verb, DeviceMembers(kind, id));
    var m, dev, own := ("method", Text(verb)), ("deviceType", Text(KindWord(kind))), (IdKey(kind), Text(id));
    assert [m] + [dev, own] == [m, dev, own];
    LookupThree(m, dev, own);
    SuffixesPlain();
    MisleadingBreaksOut(") is not supported", op);
    QuotedBack("method(", verb, ") is not supported", op);
  }

  /** Device types that mislead, whatever the method is. */
  lemma QuotedDeviceMisreads(op: Op, verb: string) returns (body: string)
    requires Plain(verb)
    ensures !AsksFor(body, op) && Dispatch(body).effect == NoEffect
    ensures Validates(Some(Dispatch(body).answer), Expected(op))
  {
    hide ReadObject, Lookup, Validates, Answer, Misleading, Escaped, Plain, Member, BreaksOut;
    var device := Misleading(op);
    MisleadingWord(op);
    var last := Member("method", verb, "}");
    body := ['{'] + Member("deviceType", Escaped(device), [','] + last);
    OpWordsPlain(op);
    KindWordsPlain(Edge);
    MemberStarts("method", verb, "}");
    ReadAllLast("method", verb);
    EscapedFirst("deviceType", device, last);
    var dev, m := ("deviceType", Text(device)), ("method", Text(verb));
    LookupPair(dev, m);
    SuffixesPlain();
    MisleadingBreaksOut(")", op);
    QuotedBack("unknown device type (", device, ")", op);
  }

  lemma DeviceRead(kind: Kind, id: string)
    requires Plain(id)
    ensures DeviceMembers(kind, id) != [] && DeviceMembers(kind, id)[0] == '"'
    ensures ReadAll(DeviceMembers(kind, id)) == Some([("deviceType", Text(KindWord(kind))), (IdKey(kind), Text(id))])
  {
    hide ReadAll, Member, Plain, KindWord, IdKey;
    var t3 := Member(IdKey(kind), id, "}");
    MemberStarts("deviceType", KindWord(kind), [','] + t3);
    MemberStarts(IdKey(kind), id, "}");
    KindWordsPlain(kind);
    ReadAllMore("deviceType", KindWord(kind), t3);
    ReadAllLast(IdKey(kind), id);
    var dev, own := ("deviceType", Text(KindWord(kind))), (IdKey(kind), Text(id));
    assert [dev] + [own] == [dev, own];
  }

  // ---- requests dressed as commands ----

  /** A request's text with a "to" member in front, as a sender of user commands may write it. */
  function Addressed(to: string, op: Op, kind: Kind, id: string): string
  {
    ['{'] + Member("to", to, [','] + Member("method", OpWord(op), [','] + DeviceMembers(kind, id)))
  }

  /** The dispatcher serves it as the request it contains. */
  lemma AddressedServed(to: string, op: Op, kind: Kind, id: string)
    requires Plain(to) && Plain(id)
    ensures Dispatch(Addressed(to, op, kind, id)) == Reaction(Answer(Expected(op)), EffectOf(op, kind, id))
    ensures ReadObject(Addressed(to, op, kind, id)).Some? &&
            TextOf(ReadObject(Addressed(to, op, kind, id)).value, "to") == Some(to)
  {
    hide ReadObject, ReadAll, Lookup, Member, Plain, Answer, DeviceMembers;
    var t := Member("method", OpWord(op), [','] + DeviceMembers(kind, id));
    var m, dev, own := ("method", Text(OpWord(op))), ("deviceType", Text(KindWord(kind))), (IdKey(kind), Text(id));
    AddressedReads(to, op, kind, id);
    LookupThree(m, dev, own);
    LookupAfter(("to", Text(to)), [m, dev, own], "method");
    LookupAfter(("to", Text(to)), [m, dev, own], "deviceType");
    LookupAfter(("to", Text(to)), [m, dev, own], IdKey(kind));
    LookupAfter(("to", Text(to)), [m, dev, own], "to");
    LookupOther(m, dev, own, "to");
    DispatchWords(op, kind, id);
  }

  lemma LookupOther(a: (string, Value), b: (string, Value), c: (string, Value), key: string)
    requires a.0 != key && b.0 != key && c.0 != key
    ensures Lookup([a, b, c], key) == None
  {
    assert [a, b, c][..2] == [a, b];
    assert [a, b][..1] == [a];
    assert [a][..0] == [];
    assert Lookup([a], key) == None;
    assert Lookup([a, b], key) == None;
  }

  lemma DispatchWords(op: Op, kind: Kind, id: string)
    ensures DispatchMethod(kind, OpWord(op), id) == Reaction(Answer(Expected(op)), EffectOf(op, kind, id))
    ensures KindWord(kind) == "edge" <==> kind == Edge
    ensures KindWord(kind) == "hub" <==> kind == Hub
  {
    hide Answer;
    assert KindWord(Edge)[0] == 'e' && KindWord(Hub)[0] == 'h';
  }

  lemma AddressedReads(to: string, op: Op, kind: Kind, id: string)
    requires Plain(to) && Plain(id)
    ensures ReadObject(Addressed(to, op, kind, id)) ==
            Some([("to", Text(to))] + [("method", Text(OpWord(op))), ("deviceType", Text(KindWord(kind))),
              (IdKey(kind), Text(id))])
  {
    hide ReadObject, ReadAll, Member, Plain, DeviceMembers;
    var d := DeviceMembers(kind, id);
    var t := Member("method", OpWord(op), [','] + d);
    var m, dev, own := ("method", Text(OpWord(op))), ("deviceType", Text(KindWord(kind))), (IdKey(kind), Text(id));
    MemberStarts("to", to, [','] + t);
    MemberStarts("method", OpWord(op), [','] + d);
    ObjectOf(Member("to", to, [','] + t));
    ToPlain();
    OpWordsPlain(op);
    DeviceRead(kind, id);
    ReadAllMore("to", to, t);
    ReadAllMore("method", OpWord(op), d);
    assert [m] + [dev, own] == [m, dev, own];
  }

  lemma ToPlain()
    ensures Plain("to")
  {
  }

  // ---- ids that are read as another node's ----

  /** An id that ends the member it is printed in and goes on with another one. */
  function Redirecting(kind: Kind, a: string, b: string): string
  {
    a + (['"'] + ([','] + (Head(IdKey(kind)) + b)))
  }

  lemma RedirectingShape(kind: Kind, a: string, b: string)
    ensures Member(IdKey(kind), Redirecting(kind, a, b), "}") ==
            Member(IdKey(kind), a, [','] + Member(IdKey(kind), b, "}"))
  {
    hide IdKey, Head, Member;
    var key, h, end := IdKey(kind), Head(IdKey(kind)), ['"'] + "}";
    Spelled(key, Redirecting(kind, a, b), "}");
    Spelled(key, b, "}");
    Spelled(key, a, [','] + Member(key, b, "}"));
    Regroup(h, b, end);
    Regroup([','], h + b, end);
    Regroup(['"'], [','] + (h + b), end);
    Regroup(a, ['"'] + ([','] + (h + b)), end);
  }

  /** A node with such an id acts for another node: each of its requests is answered as accepted and
      has its effect on the other id. */
  lemma RedirectingServed(op: Op, kind: Kind, a: string, b: string)
    requires Plain(a) && Plain(b)
    ensures Dispatch(PrintRequest(op, kind, Redirecting(kind, a, b))) ==
            Reaction(Answer(Expected(op)), EffectOf(op, kind, b))
  {
    hide ReadObject, ReadAll, Lookup, Member, Plain, Answer, PrintRequest, IdKey, Redirecting;
    var m, dev := ("method", Text(OpWord(op))), ("deviceType", Text(KindWord(kind)));
    var first, own := (IdKey(kind), Text(a)), (IdKey(kind), Text(b));
    var t := Member(IdKey(kind), b, "}");
    RedirectingShape(kind, a, b);
    PrintedReads(op, kind, Redirecting(kind, a, b));
    KindWordsPlain(kind);
    MemberStarts(IdKey(kind), b, "}");
    ReadAllMore(IdKey(kind), a, t);
    ReadAllLast(IdKey(kind), b);
    KeysApart(kind);
    LookupAfter(m, [dev] + ([first] + [own]), "method");
    LookupAfter(m, [dev] + ([first] + [own]), "deviceType");
    LookupAfter(m, [dev] + ([first] + [own]), IdKey(kind));
    LookupAfter(dev, [first] + [own], "method");
    LookupAfter(dev, [first] + [own], "deviceType");
    LookupAfter(dev, [first] + [own], IdKey(kind));
    LookupTwo(first, own, "method");
    LookupTwo(first, own, "deviceType");
    LookupTwo(first, own, IdKey(kind));
    WordsServed(op, kind, ReadObject(PrintRequest(op, kind, Redirecting(kind, a, b))).value, b,
                    PrintRequest(op, kind, Redirecting(kind, a, b)));
  }

  lemma KeysApart(kind: Kind)
    ensures IdKey(kind) != "method" && IdKey(kind) != "deviceType"
  {
    assert IdKey(kind)[0] == 'e' || IdKey(kind)[0] == 'h';
  }

  lemma LookupTwo(a: (string, Value), b: (string, Value), key: string)
    ensures Lookup([a] + [b], key) == if b.0 == key then Some(b.1) else if a.0 == key then Some(a.1) else None
  {
    LookupAfter(a, [b], key);
    assert [b][..0] == [];
  }

  /** A text with the three words of a request is served as that request. */
  lemma WordsServed(op: Op, kind: Kind, ms: Members, id: string, body: string)
    requires ReadObject(body) == Some(ms)
    requires TextOf(ms, "method") == Some(OpWord(op)) && TextOf(ms, "deviceType") == Some(KindWord(kind))
    requires TextOf(ms, IdKey(kind)) == Some(id)
    ensures Dispatch(body) == Reaction(Answer(Expected(op)), EffectOf(op, kind, id))
  {
    hide ReadObject, Lookup, Answer;
    DispatchWords(op, kind, id);
  }
}
