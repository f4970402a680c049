/** Waiting for a correlated answer on a shared connection: the comparison of correlation ids, the
    bounded loop of edges and hubs, and the arbiter's unbounded loop. */
module RpcWait {
  import opened Common

  // ---- comparing correlation ids ----

  /** strncmp(expected, delivered, |delivered|) == 0, from position i on. Bytes are compared until
      the delivered length is used up, or both strings show a NUL at the same place; the expected
      id is a C string and shows its NUL at position |expected|. */
  function SameBytes(expected: string, delivered: string, i: nat): bool
    requires i <= |expected| && i <= |delivered|
    decreases |delivered| - i
  {
    if i == |delivered| then true
    else if i == |expected| then delivered[i] == NUL
    else expected[i] == delivered[i] && SameBytes(expected, delivered, i + 1)
  }

  predicate Matches(expected: string, delivered: string)
  {
    SameBytes(expected, delivered, 0)
  }

  lemma {:induction false} SameBytesExact(expected: string, delivered: string, i: nat)
    requires i <= |expected| && i <= |delivered|
    requires expected[..i] == delivered[..i]
    ensures SameBytes(expected, delivered, i) <==> delivered <= expected || expected + [NUL] <= delivered
    decreases |delivered| - i
  {
    if i == |delivered| {
      assert delivered == expected[..i];
    } else if i == |expected| {
      assert delivered[..i] == expected;
      if delivered[i] == NUL {
        assert delivered[..i + 1] == expected + [NUL];
      }
      if expected + [NUL] <= delivered {
        assert (expected + [NUL])[i] == delivered[i];
      }
    } else {
      if expected[i] == delivered[i] {
        assert expected[..i + 1] == delivered[..i + 1];
        SameBytesExact(expected, delivered, i + 1);
      } else {
        assert (expected + [NUL])[i] == expected[i];
      }
    }
  }

  /** The comparison accepts exactly the prefixes of the expected id (the empty id among them),
      and the ids that continue it after a NUL. */
  lemma MatchesExactly(expected: string, delivered: string)
    ensures Matches(expected, delivered) <==> delivered <= expected || expected + [NUL] <= delivered
    ensures NulFree(delivered) ==> (Matches(expected, delivered) <==> delivered <= expected)
    ensures |delivered| == |expected| ==> (Matches(expected, delivered) <==> delivered == expected)
  {
    SameBytesExact(expected, delivered, 0);
    if expected + [NUL] <= delivered {
      assert delivered[|expected|] == (expected + [NUL])[|expected|];
    }
  }

  // ---- one draw ----

  /** What one draw from the connection gives. A message's correlation id may be absent, and its
      body may be a null pointer. */
  datatype Event = Delivery(cid: Option<string>, body: Option<string>) | Timeout | Failure

  datatype Reason = NoQueue | NoReplyQueue | NotPublished | NotConsuming | TimedOut | ConsumeFailed | NoAnswer

  datatype Verdict = Discard | Accept(body: Option<string>) | GiveUp(reason: Reason)

  /** A byte block copied as a C string ends at its first NUL. */
  function UpToNul(s: string): (r: string)
    ensures NulFree(r) && r <= s
    ensures if NulFree(s) then r == s else |r| < |s| && s[|r|] == NUL
  {
    if s == [] || s[0] == NUL then []
    else
      assert NulFree(s) ==> NulFree(s[1..]);
      [s[0]] + UpToNul(s[1..])
  }

  /** g_strndup of the delivered body: a null pointer stays null. */
  function Copied(body: Option<string>): Option<string>
  {
    match body
    case None => None
    case Some(b) => Some(UpToNul(b))
  }

  function Judge(expected: string, e: Event): Verdict
  {
    match e
    case Timeout => GiveUp(TimedOut)
    case Failure => GiveUp(ConsumeFailed)
    case Delivery(None, _) => Discard
    case Delivery(Some(cid), body) => if Matches(expected, cid) then Accept(Copied(body)) else Discard
  }

  /** The event does not end a wait: a message without a correlation id, or with one that is neither
      a prefix of the expected id nor a continuation of it after a NUL. */
  predicate PassedOver(expected: string, e: Event)
  {
    e.Delivery? && (e.cid.Some? ==> !(e.cid.value <= expected) && !(expected + [NUL] <= e.cid.value))
  }

  /** What a wait is left with that this event ended: the message's body up to its first NUL, or the
      error. */
  predicate EndedBy(e: Event, body: Option<string>, error: Option<Reason>)
  {
    match e
    case Timeout => body == None && error == Some(TimedOut)
    case Failure => body == None && error == Some(ConsumeFailed)
    case Delivery(_, None) => body == None && error == None
    case Delivery(_, Some(b)) =>
      error == None && body.Some? && NulFree(body.value) && (b == body.value || body.value + [NUL] <= b)
  }

  /** Verdicts told from the event alone. */
  lemma JudgeExactly(expected: string, e: Event)
    ensures Judge(expected, e) == Discard <==> PassedOver(expected, e)
    ensures match Judge(expected, e)
            case Discard => true
            case Accept(b) => EndedBy(e, b, None)
            case GiveUp(reason) => EndedBy(e, None, Some(reason))
    ensures forall body, error | !PassedOver(expected, e) && EndedBy(e, body, error) ::
              (error.Some? ==> body == None) &&
              Judge(expected, e) == if error.Some? then GiveUp(error.value) else Accept(body)
  {
    if e.Delivery? && e.cid.Some? {
      MatchesExactly(expected, e.cid.value);
    }
    if e.Delivery? && e.body.Some? {
      var b := e.body.value;
      forall r | NulFree(r) && (b == r || r + [NUL] <= b)
        ensures r == UpToNul(b)
      {
        CutAt(b, r);
      }
    }
  }

  /** There is one way to cut a byte block at its first NUL. */
  lemma CutAt(b: string, r: string)
    requires NulFree(r) && (b == r || r + [NUL] <= b)
    ensures r == UpToNul(b)
  {
    var r' := UpToNul(b);
    if r + [NUL] <= b {
      assert (r + [NUL])[|r|] == NUL;
      assert b[|r|] == NUL;
    }
    assert |r'| >= |r|;
    assert |r| >= |r'|;
  }

  /** The most messages one call of the bounded loop may draw. */
  const BUDGET: nat := 11

  predicate AllDiscarded(expected: string, drawn: seq<Event>)
  {
    forall i | 0 <= i < |drawn| :: Judge(expected, drawn[i]) == Discard
  }

  /** The drawn events end the wait at their last one, with this result. */
  predicate Settles(expected: string, drawn: seq<Event>, body: Option<string>, error: Option<Reason>)
  {
    drawn != [] && AllDiscarded(expected, drawn[..|drawn| - 1]) &&
    match Judge(expected, drawn[|drawn| - 1])
    case Discard => false
    case Accept(b) => body == b && error == None
    case GiveUp(reason) => body == None && error == Some(reason)
  }

  /** The result of the bounded loop: settled within the budget, or the budget is spent on
      messages that were all discarded. */
  predicate Bounded(expected: string, drawn: seq<Event>, body: Option<string>, error: Option<Reason>)
  {
    || (|drawn| <= BUDGET && Settles(expected, drawn, body, error))
    || (|drawn| == BUDGET && AllDiscarded(expected, drawn) && body == None && error == Some(NoAnswer))
  }

  /** The event i places after position from is not discarded. */
  predicate Decisive(expected: string, events: nat -> Event, from: nat, i: nat)
  {
    Judge(expected, events(from + i)) != Discard
  }

  predicate PassedAt(expected: string, events: nat -> Event, from: nat, i: nat)
  {
    PassedOver(expected, events(from + i))
  }

  /** The event k places after position from is the first that ends a wait. */
  predicate EndsAt(expected: string, events: nat -> Event, from: nat, k: nat)
  {
    !PassedAt(expected, events, from, k) && forall i | 0 <= i < k :: PassedAt(expected, events, from, i)
  }

  function Slice(events: nat -> Event, from: nat, n: nat): (s: seq<Event>)
    ensures |s| == n && forall i | 0 <= i < n :: s[i] == events(from + i)
  {
    seq(n, i requires 0 <= i < n => events(from + i))
  }

  // ---- the loops ----

  /** What the broker and the network make of the steps before the wait. */
  datatype Setup = Setup(queueExists: bool, replyDeclared: bool, published: bool, consuming: bool)

  /** The step that ends a request before its wait. */
  function EarlyTrouble(setup: Setup): Option<Reason>
  {
    if !setup.queueExists then Some(NoQueue)
    else if !setup.replyDeclared then Some(NoReplyQueue)
    else if !setup.published then Some(NotPublished)
    else if !setup.consuming then Some(NotConsuming)
    else None
  }

  /** A connection: the events it will give, in order, and how many were drawn so far. All calls
      on one connection draw from the same stream. */
  class Connection {
    const incoming: nat -> Event
    var taken: nat
    var destroyed: bool

    constructor (incoming: nat -> Event)
      ensures this.incoming == incoming && taken == 0 && !destroyed
    {
      this.incoming := incoming;
      taken, destroyed := 0, false;
    }

    /** amqp_destroy_connection. */
    method Destroy()
      modifies this`destroyed
      ensures destroyed
    {
      destroyed := true;
    }

    /** One message drawn by a message watch. */
    method Draw() returns (e: Event)
      requires !destroyed
      modifies this`taken
      ensures e == incoming(old(taken)) && taken == old(taken) + 1
    {
      e := incoming(taken);
      taken := taken + 1;
    }

    /** The wait of an edge or a hub. */
    method WaitBounded(expected: string) returns (body: Option<string>, error: Option<Reason>)
      requires !destroyed
      modifies this`taken
      ensures old(taken) <= taken <= old(taken) + 11
      ensures Bounded(expected, Slice(incoming, old(taken), taken - old(taken)), body, error)
      ensures forall k: nat | EndsAt(expected, incoming, old(taken), k) && k <= 10 ::
                taken == old(taken) + k + 1 && EndedBy(incoming(old(taken) + k), body, error)
      ensures (forall i | 0 <= i < 11 :: PassedAt(expected, incoming, old(taken), i)) ==>
                taken == old(taken) + 11 && body == None && error == Some(NoAnswer)
    {
      var retry := 0;
      body, error := None, None;
      while true
        invariant 0 <= retry <= BUDGET && taken == old(taken) + retry
        invariant AllDiscarded(expected, Slice(incoming, old(taken), retry))
        invariant forall i | 0 <= i < retry :: PassedAt(expected, incoming, old(taken), i)
        decreases BUDGET - retry
      {
        if retry > 10 {
          error := Some(NoAnswer);
          return;
        }
        var e := incoming(taken);
        taken, retry := taken + 1, retry + 1;
        ghost var drawn := Slice(incoming, old(taken), retry);
        assert drawn[..retry - 1] == Slice(incoming, old(taken), retry - 1);
        JudgeExactly(expected, e);
        assert PassedAt(expected, incoming, old(taken), retry - 1) <==> PassedOver(expected, e);
        match e {
          case Timeout =>
            error := Some(TimedOut);
            return;
          case Failure =>
            error := Some(ConsumeFailed);
            return;
          case Delivery(cid, b) =>
            if cid.None? {
              continue;
            }
            if !Matches(expected, cid.value) {
              continue;
            }
            body := Copied(b);
            return;
        }
      }
    }

    /** The arbiter's wait, which has no budget. It needs an event that ends it. */
    method WaitUnbounded(expected: string) returns (body: Option<string>, error: Option<Reason>)
      requires !destroyed
      requires exists k: nat :: Decisive(expected, incoming, taken, k)
      modifies this`taken
      ensures old(taken) < taken
      ensures Settles(expected, Slice(incoming, old(taken), taken - old(taken)), body, error)
      ensures EndsAt(expected, incoming, old(taken), taken - old(taken) - 1)
      ensures EndedBy(incoming(taken - 1), body, error)
    {
      ghost var last: nat :| Decisive(expected, incoming, taken, last);
      ghost var n := 0;
      body, error := None, None;
      while true
        invariant n <= last && taken == old(taken) + n
        invariant AllDiscarded(expected, Slice(incoming, old(taken), n))
        invariant forall i | 0 <= i < n :: PassedAt(expected, incoming, old(taken), i)
        decreases last - n
      {
        var e := incoming(taken);
        taken, n := taken + 1, n + 1;
        ghost var drawn := Slice(incoming, old(taken), n);
        assert drawn[..n - 1] == Slice(incoming, old(taken), n - 1);
        JudgeExactly(expected, e);
        assert PassedAt(expected, incoming, old(taken), n - 1) <==> PassedOver(expected, e);
        match e {
          case Timeout =>
            error := Some(TimedOut);
            return;
          case Failure =>
            error := Some(ConsumeFailed);
            return;
          case Delivery(cid, b) =>
            if cid.None? {
              continue;
            }
            if !Matches(expected, cid.value) {
              continue;
            }
            body := Copied(b);
            return;
        }
      }
    }

    /** One request of an edge or a hub: check the queue, declare a reply queue, publish, consume,
        wait. The call reports Ok however the wait ends. */
    method RpcRequest(setup: Setup, cid: string)
      returns (ret: Return, body: Option<string>, error: Option<Reason>, sent: bool)
      requires !destroyed
      modifies this`taken
      ensures sent == (setup.queueExists && setup.replyDeclared && setup.published)
      ensures ret == if EarlyTrouble(setup).None? then Ok else Fail
      ensures ret == Fail ==> taken == old(taken) && body == None && error == EarlyTrouble(setup)
      ensures !setup.queueExists ==> error == Some(NoQueue)
      ensures setup.queueExists && !setup.replyDeclared ==> error == Some(NoReplyQueue)
      ensures setup.queueExists && setup.replyDeclared && !setup.published ==> error == Some(NotPublished)
      ensures sent && !setup.consuming ==> error == Some(NotConsuming)
      ensures ret == Ok <==> sent && setup.consuming
      ensures ret == Ok ==> old(taken) <= taken <= old(taken) + 11
      ensures ret == Ok ==> Bounded(cid, Slice(incoming, old(taken), taken - old(taken)), body, error)
    {
      ret, body, error, sent := Fail, None, None, false;
      if !setup.queueExists {
        error := Some(NoQueue);
        return;
      }
      if !setup.replyDeclared {
        error := Some(NoReplyQueue);
        return;
      }
      if !setup.published {
        error := Some(NotPublished);
        return;
      }
      sent := true;
      if !setup.consuming {
        error := Some(NotConsuming);
        return;
      }
      body, error := WaitBounded(cid);
      ret := Ok;
    }
  }

  // ---- what the loops guarantee ----

  /** Position of the first event that is not discarded among the first n. */
  function FirstDecisive(expected: string, events: nat -> Event, from: nat, n: nat): (k: Option<nat>)
    ensures k.Some? ==> k.value < n && Decisive(expected, events, from, k.value)
    ensures k.Some? ==> forall i | 0 <= i < k.value :: !Decisive(expected, events, from, i)
    ensures k.None? ==> forall i | 0 <= i < n :: !Decisive(expected, events, from, i)
  {
    if n == 0 then None
    else
      var k := FirstDecisive(expected, events, from, n - 1);
      if k.Some? then k
      else if Decisive(expected, events, from, n - 1) then Some(n - 1)
      else None
  }

  /** On every stream the bounded loop has one result: what the first decisive event among the
      first eleven says, or else that the budget is spent. */
  lemma BoundedResult(expected: string, events: nat -> Event, from: nat, n: nat, body: Option<string>,
                      error: Option<Reason>)
    ensures Bounded(expected, Slice(events, from, n), body, error) <==>
            match FirstDecisive(expected, events, from, 11)
            case None => n == 11 && body == None && error == Some(NoAnswer)
            case Some(k) =>
              n == k + 1 &&
              match Judge(expected, events(from + k))
              case Accept(b) => body == b && error == None
              case GiveUp(reason) => body == None && error == Some(reason)
              case Discard => false
  {
    var drawn := Slice(events, from, n);
    DiscardedPrefix(expected, events, from, n, n);
    if n > 0 {
      DiscardedPrefix(expected, events, from, n, n - 1);
    }
    assert drawn[..n] == drawn;
  }

  lemma DiscardedPrefix(expected: string, events: nat -> Event, from: nat, n: nat, m: nat)
    requires m <= n
    ensures AllDiscarded(expected, Slice(events, from, n)[..m]) <==>
            forall i | 0 <= i < m :: !Decisive(expected, events, from, i)
  {
    var drawn := Slice(events, from, n)[..m];
    assert forall i | 0 <= i < m :: Decisive(expected, events, from, i) <==> Judge(expected, drawn[i]) != Discard;
  }

  /** The messages a bounded wait draws, the response body and the error it leaves, when it starts at
      position from. */
  function WaitDraws(expected: string, events: nat -> Event, from: nat): (n: nat)
    ensures n <= BUDGET
  {
    match FirstDecisive(expected, events, from, BUDGET)
    case None => BUDGET
    case Some(k) => k + 1
  }

  function WaitBody(expected: string, events: nat -> Event, from: nat): Option<string>
  {
    match FirstDecisive(expected, events, from, BUDGET)
    case None => None
    case Some(k) =>
      match Judge(expected, events(from + k))
      case Accept(b) => b
      case _ => None
  }

  function WaitError(expected: string, events: nat -> Event, from: nat): Option<Reason>
  {
    match FirstDecisive(expected, events, from, BUDGET)
    case None => Some(NoAnswer)
    case Some(k) =>
      match Judge(expected, events(from + k))
      case GiveUp(reason) => Some(reason)
      case _ => None
  }

  lemma ResultOfWait(expected: string, events: nat -> Event, from: nat, n: nat, body: Option<string>,
                     error: Option<Reason>)
    requires Bounded(expected, Slice(events, from, n), body, error)
    ensures n == WaitDraws(expected, events, from)
    ensures body == WaitBody(expected, events, from) && error == WaitError(expected, events, from)
  {
    BoundedResult(expected, events, from, n, body, error);
  }

  /** Told from the stream alone: a bounded wait that an event ends among the first eleven draws as far
      as that event and is left with what it says; a wait that passes over all eleven gives up. */
  lemma BoundedSays(expected: string, events: nat -> Event, from: nat, n: nat, body: Option<string>,
                    error: Option<Reason>)
    requires Bounded(expected, Slice(events, from, n), body, error)
    ensures forall k: nat | EndsAt(expected, events, from, k) && k <= 10 ::
              n == k + 1 && EndedBy(events(from + k), body, error)
    ensures (forall i | 0 <= i < 11 :: PassedAt(expected, events, from, i)) ==>
              n == 11 && body == None && error == Some(NoAnswer)
  {
    hide Judge, EndedBy, Bounded;
    BoundedResult(expected, events, from, n, body, error);
    forall i
      ensures PassedAt(expected, events, from, i) <==> !Decisive(expected, events, from, i)
    {
      JudgeExactly(expected, events(from + i));
    }
    forall k: nat | EndsAt(expected, events, from, k) && k <= 10
      ensures n == k + 1 && EndedBy(events(from + k), body, error)
    {
      JudgeExactly(expected, events(from + k));
    }
  }

  /** An event that ends a wait leaves it with one body and one error. */
  lemma EndedOneWay(expected: string, e: Event, body: Option<string>, error: Option<Reason>,
                    body': Option<string>, error': Option<Reason>)
    requires !PassedOver(expected, e) && EndedBy(e, body, error) && EndedBy(e, body', error')
    ensures body == body' && error == error'
  {
    JudgeExactly(expected, e);
  }

  /** A wait sets a body or an error and never both; it sets neither exactly when it ended on a
      matching message whose body is a null pointer. */
  lemma OneOfBodyAndError(expected: string, drawn: seq<Event>, body: Option<string>, error: Option<Reason>)
    requires Bounded(expected, drawn, body, error)
    ensures !(body.Some? && error.Some?)
    ensures (body.None? && error.None?) <==>
            drawn != [] && Judge(expected, drawn[|drawn| - 1]) == Accept(None)
  {
    if AllDiscarded(expected, drawn) && drawn != [] {
      assert Judge(expected, drawn[|drawn| - 1]) == Discard;
    }
  }

  /** Where the first decisive event is among the first eleven, the two loops draw the same
      messages and give the same result. */
  lemma LoopsAgree(expected: string, events: nat -> Event, from: nat, k: nat,
                   n: nat, body: Option<string>, error: Option<Reason>,
                   n': nat, body': Option<string>, error': Option<Reason>)
    requires k < 11 && Decisive(expected, events, from, k)
    requires Bounded(expected, Slice(events, from, n), body, error)
    requires Settles(expected, Slice(events, from, n'), body', error')
    ensures n == n' && body == body' && error == error'
  {
    DiscardedPrefix(expected, events, from, n', n' - 1);
    BoundedResult(expected, events, from, n, body, error);
    BoundedResult(expected, events, from, n', body', error');
  }

  /** The unbounded loop is still waiting after n rounds. */
  predicate Waiting(expected: string, events: nat -> Event, from: nat, n: nat)
  {
    n == 0 || (Waiting(expected, events, from, n - 1) && !Decisive(expected, events, from, n - 1))
  }

  lemma {:induction false} WaitingWhileDiscarding(expected: string, events: nat -> Event, from: nat, n: nat)
    ensures Waiting(expected, events, from, n) <==> FirstDecisive(expected, events, from, n).None?
  {
    if n > 0 {
      WaitingWhileDiscarding(expected, events, from, n - 1);
    }
  }

  /** The unbounded loop ends exactly on the streams that hold a match, a timeout or a failure. */
  lemma UnboundedEnds(expected: string, events: nat -> Event, from: nat)
    ensures (exists n: nat :: !Waiting(expected, events, from, n)) <==>
            (exists k: nat :: Decisive(expected, events, from, k))
  {
    if n: nat :| !Waiting(expected, events, from, n) {
      WaitingWhileDiscarding(expected, events, from, n);
      var k := FirstDecisive(expected, events, from, n).value;
      assert Decisive(expected, events, from, k);
    }
    if k: nat :| Decisive(expected, events, from, k) {
      WaitingWhileDiscarding(expected, events, from, k + 1);
      assert !Waiting(expected, events, from, k + 1);
    }
  }
}
