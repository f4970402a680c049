/** Runs of the whole system in which a node's state and the arbiter's lists part, and a run in which
    a node comes back by itself. */
module Divergence {
  import opened Common
  import opened Json
  import opened Requests
  import opened Answers
  import opened RpcWait
  import opened Registry
  import opened Messages
  import opened Arbiter
  import opened Protocol
  import opened Invariant
  import opened Theorems
  import LazyEnrol
  import Lifecycle

  lemma ExecMore(nodes: set<Name>, actions: seq<Action>, a: Action)
    requires Exec(nodes, actions).Some? && Enabled(Exec(nodes, actions).value, a)
    ensures Exec(nodes, actions + [a]) == Some(Step(Exec(nodes, actions).value, a))
  {
    hide Enabled, Step;
    assert (actions + [a])[..|actions|] == actions;
  }

  // ---- one call from beginning to end ----

  /** The run leads to a state in which n rests and the arbiter has taken everything. */
  ghost predicate Settled(nodes: set<Name>, actions: seq<Action>, n: Name)
  {
    n in nodes && Exec(nodes, actions).Some? &&
    var s := Final(nodes, actions);
    Resting(s, n) && s.enrolQueue == []
  }

  /** Nothing happened to the other nodes. */
  predicate SameOthers(s: System, s': System, n: Name)
  {
    s'.peers.Keys == s.peers.Keys && forall m | m in s.peers && m != n :: s'.peers[m] == s.peers[m]
  }

  /** The arbiter's answer to n's request is the one n expects. */
  predicate Agreeable(n: Name, op: Op)
  {
    Dispatch(PrintRequest(op, n.kind, n.id)).answer == Answer(Expected(op))
  }

  lemma PlainAgreeable(n: Name)
    requires Plain(n.id)
    ensures forall op :: Agreeable(n, op)
  {
    forall op
      ensures Agreeable(n, op)
    {
      RequestServed(op, n.kind, n.id);
    }
  }

  /** One node n, whose request of purpose p was published and taken by the arbiter. */
  lemma Asked(nodes: set<Name>, actions: seq<Action>, n: Name, p: Purpose, cid: string, q: string) returns (s: System)
    requires Settled(nodes, actions, n)
    requires var s := Final(nodes, actions); MayCall(s.peers[n].view, p) && Fresh(s.log, cid, q)
    ensures Exec(nodes, actions + [Publish(n, p, cid, q)] + [Consume(n)] + [Serve(true)]) == Some(s)
    ensures AskedFrom(Final(nodes, actions), s, n, p, cid, q)
  {
    hide Exec, MayCall, ReplyFor, EffectFor, EnvelopeOf, Right, ReplyTo, Apply, Fresh;
    var s0 := Final(nodes, actions);
    ExecMore(nodes, actions, Publish(n, p, cid, q));
    var s1 := Step(s0, Publish(n, p, cid, q));
    ExecMore(nodes, actions + [Publish(n, p, cid, q)], Consume(n));
    var s2 := Step(s1, Consume(n));
    ExecMore(nodes, actions + [Publish(n, p, cid, q)] + [Consume(n)], Serve(true));
    s := Step(s2, Serve(true));
    RunRight(nodes, actions);
    RunRight(nodes, actions + [Publish(n, p, cid, q)] + [Consume(n)]);
    NothingQueued(nodes, s0);
    HeadReply(nodes, s2);
    AskedLast(s0, s2, n, p, cid, q);
  }

  /** What asking makes of the system. */
  ghost predicate AskedFrom(s0: System, s: System, n: Name, p: Purpose, cid: string, q: string)
  {
    var e := Request(n, OpOf(p), q, cid);
    && n in s0.peers && n in s.peers && s.peers[n].view == s0.peers[n].view
    && s.log.published == s0.log.published + [e] && Taken(s) == |s.log.published| && s.enrolQueue == []
    && s.peers[n].call == Some(Call(p, cid, q, |s0.log.published|, true, []))
    && s.peers[n].consumers == (if p == ToDelist then s0.peers[n].consumers else s0.peers[n].consumers + {q})
    && s.peers[n].heard == s0.peers[n].heard
    && s.boxes == s0.boxes[q := [ReplyFor(e).env]]
    && s.log.cids == s0.log.cids + {cid} && s.log.names == s0.log.names + {q} && s.log.commands == s0.log.commands
    && s.records == s0.records && SameOthers(s0, s, n)
  }

  lemma AskedLast(s0: System, s2: System, n: Name, p: Purpose, cid: string, q: string)
    requires Enabled(s0, Publish(n, p, cid, q)) && s0.enrolQueue == [] && Taken(s0) == |s0.log.published|
    requires var s1 := Step(s0, Publish(n, p, cid, q)); Enabled(s1, Consume(n)) && s2 == Step(s1, Consume(n))
    requires s2.enrolQueue != [] && Taken(s2) < |s2.log.published|
    requires ReplyTo(s2.enrolQueue[0]) == Some(ReplyFor(s2.log.published[Taken(s2)]))
    requires ReplyFor(s2.log.published[Taken(s2)]).queue == s2.log.published[Taken(s2)].replyTo
    ensures Enabled(s2, Serve(true)) && AskedFrom(s0, Step(s2, Serve(true)), n, p, cid, q)
  {
    hide MayCall, ReplyFor, EffectFor, EnvelopeOf, ReplyTo, Apply, Fresh;
    var e := Request(n, OpOf(p), q, cid);
    assert s2.log.published[Taken(s2)] == e;
    ServedInto(s2, s0.boxes, q, ReplyFor(e));
  }

  /** A reply posted to an empty queue is all there is in it. */
  lemma ServedInto(s: System, boxes: map<string, seq<Envelope>>, q: string, reply: Posted)
    requires s.enrolQueue != [] && ReplyTo(s.enrolQueue[0]) == Some(reply) && reply.queue == q
    requires s.boxes == boxes[q := []]
    ensures Step(s, Serve(true)).boxes == boxes[q := [reply.env]]
  {
    hide ReplyTo, EffectFor, Apply;
    assert Step(s, Serve(true)).boxes == Pushed(s.boxes, q, reply.env);
    assert s.boxes[q] + [reply.env] == [reply.env];
    assert s.boxes[q := [reply.env]] == boxes[q := [reply.env]];
  }

  lemma NothingQueued(nodes: set<Name>, s: System)
    requires Right(nodes, s) && s.enrolQueue == []
    ensures Taken(s) == |s.log.published|
  {
  }

  lemma HeadReply(nodes: set<Name>, s: System)
    requires Right(nodes, s) && s.enrolQueue != []
    ensures Taken(s) < |s.log.published|
    ensures ReplyTo(s.enrolQueue[0]) == Some(ReplyFor(s.log.published[Taken(s)]))
    ensures ReplyFor(s.log.published[Taken(s)]).queue == s.log.published[Taken(s)].replyTo
  {
    hide Right, EntryAnswer, ReplyTo;
    HeadServed(nodes, s);
  }

  /** The reply to a call's own request, once drawn, is accepted. */
  lemma OwnReplyAccepted(c: Call, e: Entry)
    requires c.consuming && e.Request? && e.cid == c.cid && e.op == OpOf(c.purpose) && Agreeable(e.who, e.op)
    requires c.drawn == [Arrived(ReplyFor(e).env)]
    ensures Accepted(c) && !Undecided(c) && BodyOf(c).Some?
  {
    hide Answer, Expected, Validates, Matches, Dispatch, PrintRequest;
    var word := Expected(e.op);
    MatchesExactly(c.cid, c.cid);
    AnswerNulFree(e.op);
    WordsPlain(e.op, Edge);
    PlainAnswer(word, word);
    assert Judge(c.cid, c.drawn[0]) == Accept(Some(Answer(word)));
  }

  lemma NothingDrawn(c: Call)
    requires c.consuming && c.drawn == []
    ensures Undecided(c)
  {
  }

  /** What an accepted call does to its node. */
  function Success(p: Purpose, after: bool): Lifecycle.Event
  {
    match p
    case ToEnroll => Lifecycle.EnrolNow(true)
    case ToEnrollLazily(timer) => Lifecycle.Fire(timer, true)
    case ToDelist => Lifecycle.DelistNow(after)
    case ToActivate => Lifecycle.ActivateNow(true, after)
  }

  lemma SuccessIs(c: Call, after: bool)
    requires Accepted(c)
    ensures Outcome(c, after) == Success(c.purpose, after)
  {
    hide Accepted;
  }

  /** A whole call: published, taken, answered, drawn and finished. */
  lemma RoundTrip(nodes: set<Name>, actions: seq<Action>, n: Name, p: Purpose, cid: string, q: string, after: bool)
    returns (more: seq<Action>)
    requires Settled(nodes, actions, n)
    requires var s := Final(nodes, actions); MayCall(s.peers[n].view, p) && Fresh(s.log, cid, q)
    requires Agreeable(n, OpOf(p))
    ensures Settled(nodes, more, n)
    ensures more == actions + [Publish(n, p, cid, q)] + [Consume(n)] + [Serve(true)] + [Draw(n, q)] + [Finish(n, after)]
    ensures var s0, s := Final(nodes, actions), Final(nodes, more);
            && s.peers[n].view == Lifecycle.Next(s0.peers[n].view, Success(p, after))
            && s.log.published == s0.log.published + [Request(n, OpOf(p), q, cid)] && Taken(s) == |s.log.published|
            && s.log.cids == s0.log.cids + {cid} && s.log.names == s0.log.names + {q} &&
              s.log.commands == s0.log.commands
            && |s.records| == |s0.records| + 1 && s.records[..|s0.records|] == s0.records
            && s.records[|s0.records|].call.purpose == p && s.records[|s0.records|].body.Some?
            && SameOthers(s0, s, n)
  {
    hide Exec, ReplyFor, Undecided, Accepted, Outcome, Success, MayCall, Fresh, BodyOf, Agreeable;
    var s1 := Asked(nodes, actions, n, p, cid, q);
    more := actions + [Publish(n, p, cid, q)] + [Consume(n)] + [Serve(true)];
    assert Undecided(s1.peers[n].call.value) by { NothingDrawn(s1.peers[n].call.value); }
    ExecMore(nodes, more, Draw(n, q));
    var s2 := Step(s1, Draw(n, q));
    OwnReplyAccepted(s2.peers[n].call.value, Request(n, OpOf(p), q, cid));
    SuccessIs(s2.peers[n].call.value, after);
    ExecMore(nodes, more + [Draw(n, q)], Finish(n, after));
    FinishSettles(s2, n, after);
    more := more + [Draw(n, q)] + [Finish(n, after)];
  }

  lemma FinishSettles(s: System, n: Name, after: bool)
    requires Enabled(s, Finish(n, after))
    ensures var s' := Step(s, Finish(n, after));
            && Resting(s', n) && s'.enrolQueue == s.enrolQueue && s'.log == s.log
            && s'.peers[n].view == Lifecycle.Next(s.peers[n].view, Outcome(s.peers[n].call.value, after))
            && s'.records == s.records + [s'.records[|s.records|]]
            && s'.records[|s.records|].call == s.peers[n].call.value && s'.records[|s.records|].who == n
            && s'.records[|s.records|].body == BodyOf(s.peers[n].call.value) && SameOthers(s, s', n)
  {
    hide Outcome, Lifecycle.Next, Lifecycle.Ret;
  }

  lemma StartSettled(n: Name)
    ensures Settled({n}, [], n) && Final({n}, []) == Start({n})
  {
  }

  /** Two fresh ids and queues, for two calls of the one node n. */
  predicate Apart(n: Name, cid: string, q: string, cid': string, q': string)
  {
    && WellFormedCid(cid) && WellFormedCid(cid') && cid != cid'
    && q != [] && NulFree(q) && q' != [] && NulFree(q') && q != q' && q != n.id && q' != n.id
  }

  // ---- a delist whose answer is of no use ----

  /** For every node there is a run that ends with the node in state Enrolled and absent from the
      arbiter's list: it enrolled, and it failed to close the connection its delist was answered on. */
  lemma EnrolledYetUnlisted(n: Name, cid: string, q: string, cid': string, q': string) returns (actions: seq<Action>)
    requires Plain(n.id) && Apart(n, cid, q, cid', q')
    ensures Reachable({n}, actions)
    ensures var s := Final({n}, actions);
            && n in s.peers && s.peers[n].view.state == Enrolled && !Listed(s, n)
            && (forall k | 0 <= k < |s.records| :: s.records[k].body.Some?)
  {
    hide Exec, Listed, SameOthers, Agreeable, Plain;
    StartSettled(n);
    PlainAgreeable(n);
    actions := RoundTrip({n}, [], n, ToEnroll, cid, q, true);
    actions := RoundTrip({n}, actions, n, ToDelist, cid', q', false);
    var s := Final({n}, actions);
    NotKept(s, n);
    ListedIff({n}, actions, n);
  }

  lemma NotKept(s: System, n: Name)
    requires Taken(s) == 2 == |s.log.published| && Asks(s.log.published[1], n, Delist) &&
             Asks(s.log.published[0], n, Enroll) && Plain(n.id)
    ensures !exists i :: TakenAndKept(s, n, i)
  {
    OwnEffect(s.log.published[0], n);
    OwnEffect(s.log.published[1], n);
    assert TookEffect(s, 1, Left(n.kind, n.id));
  }

  // ---- a lazy timer that outlives a delist ----

  /** For every node there is a run that ends with the node enrolled and listed although its last call
      was neither an enrolment nor asked for after its delist: a lazy timer set before its first
      enrolment was still pending. */
  lemma ReturnsByItself(n: Name, now: int, digit: LazyEnrol.Digit, cid: string, q: string, cid': string, q': string,
                        cid'': string, q'': string) returns (actions: seq<Action>)
    requires Plain(n.id) && Apart(n, cid, q, cid', q') && Apart(n, cid', q', cid'', q'') && Apart(n, cid, q, cid'', q'')
    ensures Reachable({n}, actions)
    ensures var s := Final({n}, actions);
            && n in s.peers && s.peers[n].view.state == Enrolled && s.peers[n].view.emitted == [Enrolled, Null,
              Enrolled]
            && |s.records| == 3 && s.records[0].call.purpose == ToEnroll && s.records[1].call.purpose == ToDelist
            && s.records[2].call.purpose == ToEnrollLazily(0) && Listed(s, n)
  {
    hide Exec, Listed, Lifecycle.Next, MayCall, Success, OpOf, Settled, Resting, SameOthers, Agreeable, Plain,
         WellFormedCid;
    PlainAgreeable(n);
    actions := LazilyFirst(n, now, digit);
    LazyViews(now, digit);
    actions := RoundTrip({n}, actions, n, ToEnroll, cid, q, true);
    actions := RoundTrip({n}, actions, n, ToDelist, cid', q', true);
    actions := RoundTrip({n}, actions, n, ToEnrollLazily(0), cid'', q'', true);
    SettledReaches({n}, actions, n);
    ListedAtLast(Final({n}, actions), n);
    ListedIff({n}, actions, n);
  }

  lemma SettledReaches(nodes: set<Name>, actions: seq<Action>, n: Name)
    requires Settled(nodes, actions, n)
    ensures Reachable(nodes, actions) && n in Final(nodes, actions).peers
  {
  }

  lemma LazilyFirst(n: Name, now: int, digit: LazyEnrol.Digit) returns (actions: seq<Action>)
    ensures Settled({n}, actions, n)
    ensures var s := Final({n}, actions);
            && s.peers[n].view == Lifecycle.Next(Lifecycle.INITIAL, Lifecycle.EnrolLazily(now, digit))
            && s.log == Start({n}).log && s.records == []
  {
    hide Exec, Lifecycle.Next;
    StartSettled(n);
    ExecMore({n}, [], Alone(n, Lifecycle.EnrolLazily(now, digit)));
    actions := [] + [Alone(n, Lifecycle.EnrolLazily(now, digit))];
  }

  lemma LazyViews(now: int, digit: LazyEnrol.Digit)
    ensures var v1 := Lifecycle.Next(Lifecycle.INITIAL, Lifecycle.EnrolLazily(now, digit));
            var v2 := Lifecycle.Next(v1, Success(ToEnroll, true));
            var v3 := Lifecycle.Next(v2, Success(ToDelist, true));
            var v4 := Lifecycle.Next(v3, Success(ToEnrollLazily(0), true));
            && MayCall(v1, ToEnroll) && MayCall(v2, ToDelist) && MayCall(v3, ToEnrollLazily(0))
            && v4.state == Enrolled && v4.emitted == [Enrolled, Null, Enrolled]
            && OpOf(ToEnrollLazily(0)) == Enroll
  {
  }

  lemma ListedAtLast(s: System, n: Name)
    requires Plain(n.id) && Taken(s) == |s.log.published| && s.log.published != []
    requires Asks(s.log.published[|s.log.published| - 1], n, Enroll)
    ensures exists i :: TakenAndKept(s, n, i)
  {
    var i := |s.log.published| - 1;
    OwnEffect(s.log.published[i], n);
    assert TakenAndKept(s, n, i);
  }

  // ---- a command that is read as a request ----

  /** Somebody sends a command that reads as n's delist to the enrol queue, and the arbiter takes it. */
  lemma Meddled(nodes: set<Name>, actions: seq<Action>, n: Name, c: Command) returns (s: System)
    requires Settled(nodes, actions, n) && Fresh(Final(nodes, actions).log, c.cid, c.replyTo) && c.target == EnrolQueue
    ensures Exec(nodes, actions + [Send(c)] + [Serve(true)]) == Some(s)
    ensures var s0 := Final(nodes, actions);
            && s.peers == s0.peers
            && s.log.published == s0.log.published + [Stray(c.text, c.replyTo, c.cid)] && Taken(s) == |s.log.published|
            && s.log.commands == s0.log.commands + [c]
  {
    hide Exec, ReplyFor, EffectFor, EnvelopeOf, Right, ReplyTo, Apply;
    var s0 := Final(nodes, actions);
    ExecMore(nodes, actions, Send(c));
    var s1 := Step(s0, Send(c));
    ExecMore(nodes, actions + [Send(c)], Serve(true));
    s := Step(s1, Serve(true));
    RunRight(nodes, actions);
    NothingQueued(nodes, s0);
  }

  /** For every node, and every plain name `to` of the enrol queue, there is a run that ends with the
      node believing it is enrolled and absent from the arbiter's list: it enrolled, and a user
      command that was sent to the enrol queue delisted it. */
  lemma DelistedByCommand(n: Name, to: string, cid: string, q: string, cid': string, q': string)
    returns (actions: seq<Action>, command: Command)
    requires Plain(n.id) && Plain(to) && Apart(n, cid, q, cid', q')
    ensures command == Command(EnrolQueue, Addressed(to, Delist, n.kind, n.id), q', cid')
    ensures Reachable({n}, actions)
    ensures var s := Final({n}, actions);
            Believing(s, n) && !Listed(s, n) && s.log.commands == [command] && |s.log.published| == 2
  {
    hide Exec, Listed, Addressed, SameOthers, Agreeable, Plain;
    StartSettled(n);
    PlainAgreeable(n);
    actions := RoundTrip({n}, [], n, ToEnroll, cid, q, true);
    command := Command(EnrolQueue, Addressed(to, Delist, n.kind, n.id), q', cid');
    var s0 := Final({n}, actions);
    var s := Meddled({n}, actions, n, command);
    actions := actions + [Send(command)] + [Serve(true)];
    AddressedServed(to, Delist, n.kind, n.id);
    StrayNotKept(s, n);
    ListedIff({n}, actions, n);
  }

  lemma StrayNotKept(s: System, n: Name)
    requires Taken(s) == 2 == |s.log.published| && Asks(s.log.published[0], n, Enroll) && Plain(n.id)
    requires EntryEffect(s.log.published[1]) == Left(n.kind, n.id)
    ensures !exists i :: TakenAndKept(s, n, i)
  {
    hide EntryEffect;
    OwnEffect(s.log.published[0], n);
    assert TookEffect(s, 1, Left(n.kind, n.id));
  }

  // ---- a node whose id is read as another node's ----

  /** The node whose requests are read as n's. */
  function Impostor(n: Name, a: string): Name
  {
    Name(n.kind, Redirecting(n.kind, a, n.id))
  }

  lemma ImpostorApart(n: Name, a: string)
    requires Plain(a) && Plain(n.id)
    ensures Impostor(n, a) != n
    ensures forall op :: Agreeable(Impostor(n, a), op)
    ensures forall op, q, cid :: EntryEffect(Request(Impostor(n, a), op, q, cid)) == EffectOf(op, n.kind, n.id)
  {
    hide Dispatch, PrintRequest, Plain;
    forall op
      ensures Agreeable(Impostor(n, a), op)
      ensures forall q, cid :: EntryEffect(Request(Impostor(n, a), op, q, cid)) == EffectOf(op, n.kind, n.id)
    {
      RedirectingServed(op, n.kind, a, n.id);
    }
    assert |Redirecting(n.kind, a, n.id)| > |n.id|;
  }

  /** Fresh ids and queues for the calls of these nodes. */
  predicate AllApart(ids: set<string>, names: seq<(string, string)>)
  {
    && (forall i | 0 <= i < |names| ::
          WellFormedCid(names[i].0) && names[i].1 != [] && NulFree(names[i].1) && names[i].1 !in ids)
    && (forall i, j | 0 <= i < j < |names| :: names[i].0 != names[j].0 && names[i].1 != names[j].1)
  }

  lemma SettledOther(nodes: set<Name>, actions: seq<Action>, more: seq<Action>, n: Name, m: Name)
    requires Settled(nodes, actions, m) && Settled(nodes, more, n) && m != n
    requires SameOthers(Final(nodes, actions), Final(nodes, more), n)
    ensures Settled(nodes, more, m) && Final(nodes, more).peers[m] == Final(nodes, actions).peers[m]
  {
    hide Exec;
  }

  lemma StartOf(nodes: set<Name>, n: Name)
    requires n in nodes
    ensures Settled(nodes, [], n) && Final(nodes, []) == Start(nodes)
  {
  }

  /** Two nodes have enrolled, one after the other. */
  lemma BothEnrolled(n: Name, m: Name, names: seq<(string, string)>) returns (actions: seq<Action>)
    requires m != n && Agreeable(n, Enroll) && Agreeable(m, Enroll) && |names| == 3 && AllApart({n.id, m.id}, names)
    ensures Settled({n, m}, actions, n) && Settled({n, m}, actions, m)
    ensures var s := Final({n, m}, actions);
            && Fresh(s.log, names[2].0, names[2].1) && s.log.commands == []
            && s.peers[n].view == Lifecycle.Next(Lifecycle.INITIAL, Success(ToEnroll, true))
            && s.peers[m].view == Lifecycle.Next(Lifecycle.INITIAL, Success(ToEnroll, true))
  {
    hide Exec, SameOthers, Agreeable, WellFormedCid, Lifecycle.Next, Success;
    var nodes := {n, m};
    StartOf(nodes, n);
    StartOf(nodes, m);
    var a1 := RoundTrip(nodes, [], n, ToEnroll, names[0].0, names[0].1, true);
    SettledOther(nodes, [], a1, n, m);
    actions := RoundTrip(nodes, a1, m, ToEnroll, names[1].0, names[1].1, true);
    SettledOther(nodes, a1, actions, m, n);
  }

  /** For every plain node there is a run, without any user command, that ends with the node believing
      it is enrolled and absent from the arbiter's list: another node, whose id is not plain, enrolled
      and delisted. */
  lemma DelistedByNode(n: Name, a: string, names: seq<(string, string)>) returns (actions: seq<Action>)
    requires Plain(n.id) && Plain(a) && |names| == 3 && AllApart({n.id, Impostor(n, a).id}, names)
    ensures Reachable({n, Impostor(n, a)}, actions)
    ensures var s := Final({n, Impostor(n, a)}, actions);
            Believing(s, n) && !Listed(s, n) && s.log.commands == []
  {
    hide Exec, Listed, SameOthers, Agreeable, Plain, AllApart, Impostor, Fresh;
    var m := Impostor(n, a);
    ImpostorApart(n, a);
    PlainAgreeable(n);
    var both := BothEnrolled(n, m, names);
    actions := RoundTrip({n, m}, both, m, ToDelist, names[2].0, names[2].1, true);
    SettledOther({n, m}, both, actions, m, n);
    LeftAtLast(Final({n, m}, actions), n);
    ListedIff({n, m}, actions, n);
  }

  lemma LeftAtLast(s: System, n: Name)
    requires Taken(s) == |s.log.published| && s.log.published != []
    requires EntryEffect(s.log.published[|s.log.published| - 1]) == Left(n.kind, n.id)
    ensures !exists i :: TakenAndKept(s, n, i)
  {
    hide EntryEffect;
    assert TookEffect(s, |s.log.published| - 1, Left(n.kind, n.id));
  }

  // ---- when a node in Null can come back by itself ----

  /** The arbiter takes everything that is queued. */
  lemma {:induction false} Drained(nodes: set<Name>, actions: seq<Action>, n: Name) returns (more: seq<Action>)
    requires Reachable(nodes, actions)
    ensures Reachable(nodes, actions + more) && (forall i | 0 <= i < |more| :: more[i].Serve?)
    ensures var s, s' := Final(nodes, actions), Final(nodes, actions + more);
            s'.enrolQueue == [] && s'.peers == s.peers && s'.log.cids == s.log.cids && s'.log.names == s.log.names
    decreases |Final(nodes, actions).enrolQueue|
  {
    hide Exec, EffectFor, ReplyTo, Apply, WithReply, Delivered;
    var s := Final(nodes, actions);
    if s.enrolQueue == [] {
      more := [];
      assert actions + more == actions;
    } else {
      ExecMore(nodes, actions, Serve(false));
      var rest := Drained(nodes, actions + [Serve(false)], n);
      more := [Serve(false)] + rest;
      assert actions + more == actions + [Serve(false)] + rest;
    }
  }

  /** No step of the continuation starts an enrolment of n. */
  predicate LeavesAlone(more: seq<Action>, n: Name)
  {
    forall i | 0 <= i < |more| :: !StartsEnrolment(more[i], n)
  }

  /** With a timer pending, some continuation enrols a resting node in Null without its starting an
      enrolment. */
  lemma TimerEnrols(nodes: set<Name>, actions: seq<Action>, n: Name, cid: string, q: string) returns (more: seq<Action>)
    requires Reachable(nodes, actions) && n in nodes && Plain(n.id) && Resting(Final(nodes, actions), n)
    requires Final(nodes, actions).peers[n].view.state == Null && Final(nodes, actions).peers[n].view.timers != []
    requires Fresh(Final(nodes, actions).log, cid, q)
    ensures Reachable(nodes, actions + more) && LeavesAlone(more, n)
    ensures OutsideNull(Final(nodes, actions + more), n)
  {
    hide Exec, Plain, Fresh, Agreeable, SameOthers, OutsideNull;
    PlainAgreeable(n);
    var serves := Drained(nodes, actions, n);
    assert Fresh(Final(nodes, actions + serves).log, cid, q) by {
      SameFresh(Final(nodes, actions).log, Final(nodes, actions + serves).log, cid, q);
    }
    var all, calls := TripMore(nodes, actions + serves, n, cid, q);
    more := serves + calls;
    assert actions + more == all;
  }

  lemma SameFresh(g: Log, h: Log, cid: string, q: string)
    requires Fresh(g, cid, q) && h.cids == g.cids && h.names == g.names
    ensures Fresh(h, cid, q)
  {
  }

  /** The call of a timer, as a continuation. */
  lemma TripMore(nodes: set<Name>, actions: seq<Action>, n: Name, cid: string, q: string)
    returns (all: seq<Action>, calls: seq<Action>)
    requires Settled(nodes, actions, n) && Fresh(Final(nodes, actions).log, cid, q) && Agreeable(n, Enroll)
    requires Final(nodes, actions).peers[n].view.state == Null && Final(nodes, actions).peers[n].view.timers != []
    ensures all == actions + calls && Reachable(nodes, all) && LeavesAlone(calls, n) &&
            OutsideNull(Final(nodes, all), n)
  {
    hide Exec, Fresh, Agreeable, SameOthers;
    all := RoundTrip(nodes, actions, n, ToEnrollLazily(0), cid, q, true);
    calls := [Publish(n, ToEnrollLazily(0), cid, q), Consume(n), Serve(true), Draw(n, q), Finish(n, true)];
    assert all == actions + calls;
  }

  /** Whatever happens that is not the node's own starting an enrolment, a resting node in Null stays
      in Null exactly when it has no timer pending. */
  lemma NullStaysExactly(nodes: set<Name>, actions: seq<Action>, n: Name, cid: string, q: string)
    requires Reachable(nodes, actions) && n in nodes && Plain(n.id) && Resting(Final(nodes, actions), n)
    requires Final(nodes, actions).peers[n].view.state == Null && Fresh(Final(nodes, actions).log, cid, q)
    ensures (forall more | Reachable(nodes, actions + more) && LeavesAlone(more, n) ::
            !OutsideNull(Final(nodes, actions + more), n)) <==>
            Final(nodes, actions).peers[n].view.timers == []
  {
    hide Exec, Fresh, Plain;
    if Final(nodes, actions).peers[n].view.timers == [] {
      forall more | Reachable(nodes, actions + more) && LeavesAlone(more, n)
        ensures !OutsideNull(Final(nodes, actions + more), n)
      {
        NullStaysInside(nodes, actions, more, n);
      }
    } else {
      var more := TimerEnrols(nodes, actions, n, cid, q);
    }
  }
}
