/** The requests nodes print, the arbiter's dispatcher that answers them, and the check a node
    makes on the answer. */
module Requests {
  import opened Common
  import opened Json

  // ---- the node's side: printing (chamge/amqp-edge-backend.c, chamge/amqp-hub-backend.c) ----

  function OpWord(op: Op): string
  {
    match op
    case Enroll => "enroll"
    case Delist => "delist"
    case Activate => "activate"
  }

  /** The word the node expects back. */
  function Expected(op: Op): string
  {
    match op
    case Enroll => "enrolled"
    case Delist => "delisted"
    case Activate => "activated"
  }

  function KindWord(kind: Kind): string
  {
    if kind == Edge then "edge" else "hub"
  }

  function IdKey(kind: Kind): string
  {
    if kind == Edge then "edgeId" else "hubId"
  }

  /** The printed request: `{"method":"...","deviceType":"...","edgeId":"..."}` with the id put in
      unescaped, as a %s does (`hubId` for a hub). */
  function PrintRequest(op: Op, kind: Kind, id: string): string
  {
    ['{'] + Member("method", OpWord(op), [','] + DeviceMembers(kind, id))
  }

  function DeviceMembers(kind: Kind, id: string): string
  {
    Member("deviceType", KindWord(kind), [','] + Member(IdKey(kind), id, "}"))
  }

  // ---- the arbiter's side: the dispatcher (chamge/amqp-arbiter-backend.c) ----

  /** What a request does to the agent's lists. */
  datatype Effect = NoEffect | Joined(kind: Kind, id: string) | Left(kind: Kind, id: string)

  datatype Reaction = Reaction(answer: string, effect: Effect)

  function Answer(word: string): string
  {
    ['{'] + Member("result", word, "}")
  }

  function DispatchMethod(kind: Kind, verb: string, id: string): Reaction
  {
    if verb == "enroll" then Reaction(Answer("enrolled"), Joined(kind, id))
    else if verb == "activate" then Reaction(Answer("activated"), NoEffect)
    else if verb == "deactivate" then Reaction(Answer("deactivated"), NoEffect)
    else if verb == "delist" then Reaction(Answer("delisted"), Left(kind, id))
    else Reaction(Answer("method(" + verb + ") is not supported"), NoEffect)
  }

  function Dispatch(body: string): Reaction
  {
    match ReadObject(body)
    case None => Reaction(Answer("failed to parse body"), NoEffect)
    case Some(ms) =>
      match TextOf(ms, "deviceType")
      case None => Reaction(Answer("device type is missing"), NoEffect)
      case Some(device) =>
        match TextOf(ms, "method")
        case None => Reaction(Answer("method is missing"), NoEffect)
        case Some(verb) =>
          if device == "edge" then
            (match TextOf(ms, "edgeId")
             case None => Reaction(Answer("edgeId does not exist"), NoEffect)
             case Some(id) => DispatchMethod(Edge, verb, id))
          else if device == "hub" then
            (match TextOf(ms, "hubId")
             case None => Reaction(Answer("hubId does not exist"), NoEffect)
             case Some(id) => DispatchMethod(Hub, verb, id))
          else Reaction(Answer("unknown device type (" + device + ")"), NoEffect)
  }

  // ---- the node's check on the answer ----

  predicate Validates(response: Option<string>, shouldBe: string)
  {
    response.Some? && ReadObject(response.value).Some? &&
    TextOf(ReadObject(response.value).value, "result") == Some(shouldBe)
  }

  // ---- the printed text ----

  /** The text is the printf format of the source with its three words put in. */
  lemma PrintedText(op: Op, kind: Kind, id: string)
    ensures PrintRequest(op, kind, id) ==
            "{\"method\":\"" + (match op case Enroll => "enroll" case Delist => "delist" case Activate => "activate") +
            "\",\"deviceType\":\"" + (if kind == Edge then "edge" else "hub") +
            ("\",\"" + (if kind == Edge then "edgeId" else "hubId") + "\":\"") + id + "\"}"
  {
    TextOfWords(op, kind, id);
    assert OpWord(op) == (match op case Enroll => "enroll" case Delist => "delist" case Activate => "activate");
    assert KindWord(kind) == (if kind == Edge then "edge" else "hub");
    assert IdKey(kind) == (if kind == Edge then "edgeId" else "hubId");
  }

  lemma TextOfWords(op: Op, kind: Kind, id: string)
    ensures PrintRequest(op, kind, id) ==
            "{\"method\":\"" + OpWord(op) + "\",\"deviceType\":\"" + KindWord(kind) +
            ("\",\"" + IdKey(kind) + "\":\"") + id + "\"}"
  {
    hide OpWord, KindWord, IdKey;
    var m, d, k := OpWord(op), KindWord(kind), IdKey(kind);
    assert "{\"method\":\"" == ['{'] + Head("method");
    assert "\",\"deviceType\":\"" == ['"'] + ([','] + Head("deviceType"));
    Spelled("method", m, [','] + DeviceMembers(kind, id));
    Spelled("deviceType", d, [','] + Member(k, id, "}"));
    Spelled(k, id, "}");
    PiecesJoined(['{'], Head("method"), m, Head("deviceType"), d, Head(k), id, PrintRequest(op, kind, id));
    HeadOf(k);
  }

  function Head(key: string): string
  {
    ['"'] + (key + (['"'] + ([':'] + ['"'])))
  }

  lemma HeadOf(key: string)
    ensures "\",\"" + key + "\":\"" == ['"'] + ([','] + Head(key))
  {
  }

  lemma Spelled(key: string, text: string, rest: string)
    ensures Member(key, text, rest) == Head(key) + (text + (['"'] + rest))
  {
  }

  lemma PiecesJoined(brace: string, h1: string, m: string, h2: string, d: string, h3: string, id: string, t: string)
    requires t == brace + (h1 + (m + (['"'] + ([','] + (h2 + (d + (['"'] + ([','] + (h3 + (id + (['"'] + "}")))))))))))
    ensures t == (brace + h1) + m + (['"'] + ([','] + h2)) + d + (['"'] + ([','] + h3)) + id + "\"}"
  {
  }

  /** So is an answer. */
  lemma AnswerText(word: string)
    ensures Answer(word) == "{\"result\":\"" + word + "\"}"
  {
    assert "{\"result\":\"" == ['{'] + Head("result");
    Spelled("result", word, "}");
  }

  ghost predicate ReadsBack(op: Op, kind: Kind, id: string)
  {
    var r := ReadObject(PrintRequest(op, kind, id));
    r.Some? &&
    TextOf(r.value, "method") == Some(OpWord(op)) &&
    TextOf(r.value, "deviceType") == Some(KindWord(kind)) &&
    TextOf(r.value, IdKey(kind)) == Some(id)
  }

  /** Reading a printed request past its first two members. */
  lemma PrintedReads(op: Op, kind: Kind, id: string)
    ensures ReadObject(PrintRequest(op, kind, id)) ==
            match ReadAll(Member(IdKey(kind), id, "}"))
            case None => None
            case Some(ms) => Some([("method", Text(OpWord(op)))] + ([("deviceType", Text(KindWord(kind)))] + ms))
  {
    var t3 := Member(IdKey(kind), id, "}");
    var t2 := DeviceMembers(kind, id);
    var t1 := Member("method", OpWord(op), [','] + t2);
    ObjectOf(t1);
    WordsPlain(op, kind);
    ReadAllMore("method", OpWord(op), t2);
    ReadAllMore("deviceType", KindWord(kind), t3);
  }

  lemma WordsPlain(op: Op, kind: Kind)
    ensures Plain("method") && Plain(OpWord(op)) && Plain("deviceType") && Plain(KindWord(kind)) && Plain(IdKey(kind))
    ensures Plain(Expected(op))
  {
    OpWordsPlain(op);
    KindWordsPlain(kind);
  }

  lemma OpWordsPlain(op: Op)
    ensures Plain("method") && Plain(OpWord(op)) && Plain(Expected(op))
  {
  }

  lemma KindWordsPlain(kind: Kind)
    ensures Plain("deviceType") && Plain(KindWord(kind)) && Plain(IdKey(kind))
  {
  }

  /** A printed request gives back its method, device type and id exactly when the id is plain; an id
      that is not plain is itself never given back. */
  lemma RequestReadsBack(op: Op, kind: Kind, id: string)
    ensures ReadsBack(op, kind, id) <==> Plain(id)
    ensures var r := ReadObject(PrintRequest(op, kind, id));
            r.Some? && !Plain(id) ==> TextOf(r.value, IdKey(kind)) != Some(id)
  {
    hide ReadObject, ReadAll, ReadMembers, ReadString, SkipSpace, Member, ReadMember;
    PrintedReads(op, kind, id);
    LastMemberReadsBack(IdKey(kind), id);
    var tail := ReadAll(Member(IdKey(kind), id, "}"));
    if tail.Some? {
      var ms := tail.value;
      var m1, m2 := ("method", Text(OpWord(op))), ("deviceType", Text(KindWord(kind)));
      LookupAfter(m1, [m2] + ms, IdKey(kind));
      LookupAfter(m2, ms, IdKey(kind));
      if Plain(id) {
        ReadAllLast(IdKey(kind), id);
        LookupThree(m1, m2, (IdKey(kind), Text(id)));
        assert ReadObject(PrintRequest(op, kind, id)).value == [m1, m2, (IdKey(kind), Text(id))];
      }
    } else {
      assert !Plain(id) by {
        if Plain(id) { ReadAllLast(IdKey(kind), id); }
      }
    }
  }

  /** Distinct requests print distinct texts, whatever the ids contain. */
  lemma PrintedApart(op: Op, kind: Kind, id: string, op': Op, kind': Kind, id': string)
    requires PrintRequest(op, kind, id) == PrintRequest(op', kind', id')
    ensures op == op' && kind == kind' && id == id'
  {
    hide Member, DeviceMembers;
    var d, d' := DeviceMembers(kind, id), DeviceMembers(kind', id');
    TailsAgree('{', Member("method", OpWord(op), [','] + d), Member("method", OpWord(op'), [','] + d'));
    OpsAgree(op, [','] + d, op', [','] + d');
    TailsAgree(',', d, d');
    DevicesAgree(kind, id, kind', id');
  }

  lemma TailsAgree(c: char, t: string, t': string)
    requires [c] + t == [c] + t'
    ensures t == t'
  {
    assert ([c] + t)[1..] == t && ([c] + t')[1..] == t';
  }

  lemma OpsAgree(op: Op, rest: string, op': Op, rest': string)
    requires Member("method", OpWord(op), rest) == Member("method", OpWord(op'), rest')
    ensures op == op' && rest == rest'
  {
    hide Member, Plain;
    OpWordsPlain(op);
    OpWordsPlain(op');
    MemberApart("method", OpWord(op), rest, OpWord(op'), rest');
    WordsApart(op, op', Edge, Edge);
  }

  lemma DevicesAgree(kind: Kind, id: string, kind': Kind, id': string)
    requires DeviceMembers(kind, id) == DeviceMembers(kind', id')
    ensures kind == kind' && id == id'
  {
    hide Member, Plain;
    var l, l' := Member(IdKey(kind), id, "}"), Member(IdKey(kind'), id', "}");
    KindWordsPlain(kind);
    KindWordsPlain(kind');
    MemberApart("deviceType", KindWord(kind), [','] + l, KindWord(kind'), [','] + l');
    WordsApart(Enroll, Enroll, kind, kind');
    TailsAgree(',', l, l');
    LastTextsAgree(IdKey(kind), id, id');
  }

  lemma LastTextsAgree(key: string, text: string, text': string)
    requires Member(key, text, "}") == Member(key, text', "}")
    ensures text == text'
  {
    var l, l', n := Member(key, text, "}"), Member(key, text', "}"), |key| + 4;
    assert l[n..|l| - 2] == text;
    assert l'[n..|l'| - 2] == text';
  }

  lemma WordsApart(op: Op, op': Op, kind: Kind, kind': Kind)
    ensures OpWord(op) == OpWord(op') ==> op == op'
    ensures Expected(op) == Expected(op') ==> op == op'
    ensures KindWord(kind) == KindWord(kind') ==> kind == kind'
  {
    assert OpWord(op)[0] == OpWord(op')[0] ==> op == op';
    assert Expected(op)[0] == Expected(op')[0] ==> op == op';
    assert KindWord(kind)[0] == KindWord(kind')[0] ==> kind == kind';
  }

  // ---- served and answered ----

  function EffectOf(op: Op, kind: Kind, id: string): Effect
  {
    match op
    case Enroll => Joined(kind, id)
    case Delist => Left(kind, id)
    case Activate => NoEffect
  }

  /** The answer to a printed request with a plain id is the expected word, and the request has
      exactly its own operation's effect on the lists. With any other id an enrolment or a delist
      never has the effect it was sent for. */
  lemma RequestServed(op: Op, kind: Kind, id: string)
    ensures Plain(id) ==> Dispatch(PrintRequest(op, kind, id)) == Reaction(Answer(Expected(op)), EffectOf(op, kind, id))
    ensures Expected(op) == match op case Enroll => "enrolled" case Delist => "delisted" case Activate => "activated"
    ensures EffectOf(op, kind, id) ==
            match op case Enroll => Joined(kind, id) case Delist => Left(kind, id) case Activate => NoEffect
    ensures op != Activate ==> (Dispatch(PrintRequest(op, kind, id)).effect == EffectOf(op, kind, id) <==> Plain(id))
  {
    hide PrintRequest, ReadObject, Lookup, Answer;
    RequestReadsBack(op, kind, id);
    WordsApart(op, op, Edge, Hub);
  }

  predicate Has(body: string, key: string, text: string)
  {
    ReadObject(body).Some? && TextOf(ReadObject(body).value, key) == Some(text)
  }

  /** For every text, told from its members: it enters a name in a list exactly when it is an enrolment
      of that name, it takes one out exactly when it is a delist of it, and nothing else touches the
      lists. */
  lemma EffectExactly(body: string, id: string)
    ensures Dispatch(body).effect == Joined(Edge, id) <==>
            Has(body, "deviceType", "edge") && Has(body, "edgeId", id) && Has(body, "method", "enroll")
    ensures Dispatch(body).effect == Joined(Hub, id) <==>
            Has(body, "deviceType", "hub") && Has(body, "hubId", id) && Has(body, "method", "enroll")
    ensures Dispatch(body).effect == Left(Edge, id) <==>
            Has(body, "deviceType", "edge") && Has(body, "edgeId", id) && Has(body, "method", "delist")
    ensures Dispatch(body).effect == Left(Hub, id) <==>
            Has(body, "deviceType", "hub") && Has(body, "hubId", id) && Has(body, "method", "delist")
    ensures Has(body, "method", "activate") || Has(body, "method", "deactivate") ==> Dispatch(body).effect == NoEffect
  {
    hide ReadObject, Lookup, Answer;
  }

  /** What a text is refused with, the first fault met deciding, and how a deactivation is answered. */
  lemma RefusalExactly(body: string)
    ensures ReadObject(body).None? ==> Dispatch(body).answer == Answer("failed to parse body")
    ensures ReadObject(body).Some? ==>
              var ms := ReadObject(body).value;
              match (TextOf(ms, "deviceType"), TextOf(ms, "method"))
              case (None, _) => Dispatch(body).answer == Answer("device type is missing")
              case (Some(_), None) => Dispatch(body).answer == Answer("method is missing")
              case (Some(device), Some(verb)) =>
                && (device == "edge" && TextOf(ms, "edgeId").None? ==>
                      Dispatch(body).answer == Answer("edgeId does not exist"))
                && (device == "hub" && TextOf(ms, "hubId").None? ==>
                      Dispatch(body).answer == Answer("hubId does not exist"))
                && (device != "edge" && device != "hub" ==>
                      Dispatch(body).answer == Answer("unknown device type (" + device + ")"))
                && ((device == "edge" && TextOf(ms, "edgeId").Some?) ||
                    (device == "hub" && TextOf(ms, "hubId").Some?) ==>
                     if verb == "deactivate" then Dispatch(body).answer == Answer("deactivated")
                     else verb !in {"enroll", "activate", "delist"} ==>
                       Dispatch(body).answer == Answer("method(" + verb + ") is not supported"))
  {
    hide ReadObject, Lookup, Answer;
  }

  /** Reading an answer whose word is plain. */
  lemma PlainAnswer(word: string, shouldBe: string)
    requires Plain(word)
    ensures Validates(Some(Answer(word)), shouldBe) <==> word == shouldBe
  {
    hide ReadObject, ReadAll, Member, Lookup;
    AnswerShape(word);
    ReadAllLast("result", word);
    LookupSingle("result", Text(word));
  }

  lemma AnswerShape(word: string)
    ensures ReadObject(Answer(word)) == ReadAll(Member("result", word, "}"))
  {
    hide ReadObject, ReadAll;
    ObjectOf(Member("result", word, "}"));
  }

  /** Print, dispatch, validate: a node that sends op accepts the answer to its own request and
      to no request for another operation, and a missing answer is never accepted. */
  lemma AnswerAccepted(op: Op, kind: Kind, id: string, expecting: Op)
    requires Plain(id)
    ensures Validates(Some(Dispatch(PrintRequest(op, kind, id)).answer), Expected(expecting)) <==> op == expecting
    ensures !Validates(None, Expected(expecting))
  {
    RequestServed(op, kind, id);
    WordsPlain(op, kind);
    PlainAnswer(Expected(op), Expected(expecting));
    WordsApart(op, expecting, kind, kind);
  }
}
