/** Late answers: how many of them a call survives. For every number m there is a run in which m
    enrolments time out although the arbiter answers each, and one more enrolment draws their answers
    before its own. */
module Late {
  import opened Common
  import opened Json
  import opened Requests
  import opened RpcWait
  import opened Messages
  import opened Protocol
  import opened Invariant
  import opened Theorems
  import opened Divergence
  import opened Budget
  import opened Runs
  import Lifecycle

  /** The arbiter's answer to the j-th of n's enrolments. */
  function LateEnv(n: Name, names: seq<(string, string)>, j: nat): Envelope
    requires j < |names|
  {
    ReplyFor(Request(n, Enroll, names[j].1, names[j].0)).env
  }

  /** The answers from the i-th to the one before the m-th wait in their queues, which n consumes from. */
  predicate Pending(s: System, n: Name, names: seq<(string, string)>, i: nat, m: nat)
    requires m <= |names|
  {
    n in s.peers && forall j | i <= j < m ::
      names[j].1 in s.peers[n].consumers && names[j].1 in s.boxes && s.boxes[names[j].1] == [LateEnv(n, names, j)]
  }

  predicate TimedOutRecords(s: System, n: Name, m: nat)
  {
    |s.records| == m &&
    forall k | 0 <= k < m :: s.records[k].who == n && s.records[k].body == None && s.records[k].ret == Fail
  }

  /** n has made m enrolments, which the arbiter answered and which all timed out. */
  ghost predicate LateState(s: System, n: Name, names: seq<(string, string)>, m: nat)
    requires m <= |names|
  {
    && Pending(s, n, names, 0, m) && s.peers[n].view.state == Null
    && UsedUp(s.log, n, names, m) && TimedOutRecords(s, n, m)
  }

  ghost predicate TimedOutTimes(actions: seq<Action>, n: Name, names: seq<(string, string)>, m: nat)
    requires m <= |names|
  {
    Settled({n}, actions, n) && LateState(Final({n}, actions), n, names, m)
  }

  // ---- calls that time out ----

  /** An enrolment that was sent and consumed for times out. */
  lemma TimesOut(s: System, n: Name, cid: string, q: string, index: nat)
    requires n in s.peers && s.peers[n].call == Some(Call(ToEnroll, cid, q, index, true, []))
    requires s.peers[n].view.state == Null
    ensures Enabled(s, Break(n, Timeout)) && Enabled(Step(s, Break(n, Timeout)), Finish(n, true))
    ensures var s' := Step(Step(s, Break(n, Timeout)), Finish(n, true));
            && Resting(s', n) && s'.enrolQueue == s.enrolQueue && s'.log == s.log && s'.boxes == s.boxes
            && s'.peers[n].consumers == s.peers[n].consumers && s'.peers[n].view.state == Null
            && |s'.records| == |s.records| + 1 && s'.records[..|s.records|] == s.records
            && s'.records[|s.records|].who == n && s'.records[|s.records|].body == None
            && s'.records[|s.records|].ret == Fail
  {
    hide HeardAfter;
    var c := s.peers[n].call.value;
    var s1 := Step(s, Break(n, Timeout));
    var c1 := s1.peers[n].call.value;
    assert c1.drawn == [Timeout];
    BrokenDecided(c, Timeout);
    EnrolFails(s1, n, c1);
  }

  /** An enrolment ends without a body. */
  lemma EnrolFails(s: System, n: Name, c: Call)
    requires n in s.peers && s.peers[n].call == Some(c) && c.purpose == ToEnroll && !Undecided(c)
    requires s.peers[n].view.state == Null && BodyOf(c) == None
    ensures Enabled(s, Finish(n, true))
    ensures var s' := Step(s, Finish(n, true));
            && Resting(s', n) && s'.enrolQueue == s.enrolQueue && s'.log == s.log && s'.boxes == s.boxes
            && s'.lists == s.lists
            && s'.peers[n].consumers == s.peers[n].consumers && s'.peers[n].view.state == Null
            && s'.records == s.records + [Record(n, c, true, None, Fail)]
  {
    hide HeardAfter, Undecided, BodyOf, Within;
    var e := Outcome(c, true);
    assert e == Lifecycle.EnrolNow(false);
    assert QueuesGone(s, n, s.peers[n], e) == {};
    assert (s.boxes - {}) + map[] == s.boxes;
  }

  /** What waits for n still waits when one more answer is posted for it. */
  lemma PendingMore(s: System, s': System, n: Name, names: seq<(string, string)>, m: nat)
    requires m < |names| && Pending(s, n, names, 0, m) && AllApart({n.id}, names) && n in s'.peers
    requires s.peers[n].consumers + {names[m].1} == s'.peers[n].consumers
    requires s'.boxes == s.boxes[names[m].1 := [LateEnv(n, names, m)]]
    ensures Pending(s', n, names, 0, m + 1)
  {
    hide LateEnv, WellFormedCid;
  }

  /** One more enrolment that times out although it is answered. */
  lemma OneMoreLate(actions: seq<Action>, n: Name, names: seq<(string, string)>, m: nat) returns (more: seq<Action>)
    requires m < |names| && AllApart({n.id}, names) && TimedOutTimes(actions, n, names, m)
    ensures TimedOutTimes(more, n, names, m + 1)
  {
    hide Exec, Fresh, AllApart, Enabled, Step, LateState, AskedFrom;
    var s0, cid, q := Final({n}, actions), names[m].0, names[m].1;
    LateMay(s0, n, names, m);
    NextFresh(s0.log, n, names, m);
    var s1 := Asked({n}, actions, n, ToEnroll, cid, q);
    var asked := actions + [Publish(n, ToEnroll, cid, q)] + [Consume(n)] + [Serve(true)];
    AskedCall(s0, s1, n, cid, q);
    TimesOut(s1, n, cid, q, |s0.log.published|);
    ExecMore({n}, asked, Break(n, Timeout));
    ExecMore({n}, asked + [Break(n, Timeout)], Finish(n, true));
    more := asked + [Break(n, Timeout)] + [Finish(n, true)];
    LateStep(s0, s1, Final({n}, more), n, names, m);
  }

  lemma LateMay(s: System, n: Name, names: seq<(string, string)>, m: nat)
    requires m <= |names| && LateState(s, n, names, m)
    ensures n in s.peers && MayCall(s.peers[n].view, ToEnroll) && UsedUp(s.log, n, names, m)
  {
  }

  lemma AskedCall(s0: System, s: System, n: Name, cid: string, q: string)
    requires AskedFrom(s0, s, n, ToEnroll, cid, q)
    ensures n in s0.peers && n in s.peers && s.peers[n].view == s0.peers[n].view && s.enrolQueue == []
    ensures s.peers[n].call == Some(Call(ToEnroll, cid, q, |s0.log.published|, true, []))
  {
    hide ReplyFor, SameOthers;
  }

  lemma LateStep(s0: System, s1: System, s: System, n: Name, names: seq<(string, string)>, m: nat)
    requires m < |names| && AllApart({n.id}, names) && LateState(s0, n, names, m)
    requires AskedFrom(s0, s1, n, ToEnroll, names[m].0, names[m].1)
    requires n in s.peers && s.log == s1.log && s.boxes == s1.boxes && s.peers[n].consumers == s1.peers[n].consumers
    requires s.peers[n].view.state == Null && |s.records| == |s1.records| + 1 && s.records[..|s1.records|] == s1.records
    requires var r := s.records[|s1.records|]; r.who == n && r.body == None && r.ret == Fail
    ensures LateState(s, n, names, m + 1)
  {
    hide AllApart, UsedUp, Pending, ReplyFor, SameOthers;
    AskedEnv(s0, s1, n, names, m);
    PendingHas(s0, n, names, m);
    PendingMore(s0, s1, n, names, m);
    PendingSame(s1, s, n, names, m + 1);
    UsedMore(s0.log, s.log, n, names, m);
    assert forall k | 0 <= k < m :: s.records[k] == s.records[..|s1.records|][k];
  }

  lemma PendingHas(s: System, n: Name, names: seq<(string, string)>, m: nat)
    requires m <= |names| && Pending(s, n, names, 0, m)
    ensures n in s.peers
  {
  }

  lemma AskedEnv(s0: System, s: System, n: Name, names: seq<(string, string)>, m: nat)
    requires m < |names| && AskedFrom(s0, s, n, ToEnroll, names[m].0, names[m].1)
    ensures s.boxes == s0.boxes[names[m].1 := [LateEnv(n, names, m)]]
    ensures s.peers[n].consumers == s0.peers[n].consumers + {names[m].1}
  {
    hide ReplyFor, SameOthers;
  }

  lemma PendingSame(s: System, s': System, n: Name, names: seq<(string, string)>, m: nat)
    requires m <= |names| && Pending(s, n, names, 0, m) && n in s'.peers
    requires s.peers[n].consumers == s'.peers[n].consumers && s'.boxes == s.boxes
    ensures Pending(s', n, names, 0, m)
  {
  }

  lemma {:induction false} TimesOutOften(n: Name, names: seq<(string, string)>, m: nat) returns (actions: seq<Action>)
    requires m <= |names| && AllApart({n.id}, names)
    ensures TimedOutTimes(actions, n, names, m)
  {
    hide Exec, AllApart;
    if m == 0 {
      StartSettled(n);
      actions := [];
    } else {
      actions := TimesOutOften(n, names, m - 1);
      actions := OneMoreLate(actions, n, names, m - 1);
    }
  }

  // ---- one more call, which draws the late answers ----

  /** n's enrolment under the m-th id has drawn and discarded the first i late answers. */
  ghost predicate Drawing(s: System, n: Name, names: seq<(string, string)>, m: nat, i: nat)
    requires m < |names|
  {
    && Pending(s, n, names, i, m + 1) && TimedOutRecords(s, n, m) && s.peers[n].view.state == Null
    && s.peers[n].call.Some? && var c := s.peers[n].call.value;
    && c.purpose == ToEnroll && c.consuming && c.cid == names[m].0 && c.replyTo == names[m].1
    && |c.drawn| == i && AllDiscarded(c.cid, c.drawn)
  }

  /** A late answer is discarded. */
  lemma LateDiscarded(n: Name, names: seq<(string, string)>, i: nat, m: nat)
    requires i < m < |names| && AllApart({n.id}, names)
    ensures Judge(names[m].0, Arrived(LateEnv(n, names, i))) == Discard
  {
    hide Matches, EntryAnswer;
    MatchesExactly(names[m].0, names[i].0);
  }

  lemma DrawsLate(s: System, n: Name, names: seq<(string, string)>, m: nat, i: nat)
    requires i < m < |names| && i <= 10 && AllApart({n.id}, names) && Drawing(s, n, names, m, i)
    ensures Enabled(s, Draw(n, names[i].1))
    ensures var s' := Step(s, Draw(n, names[i].1)); Drawing(s', n, names, m, i + 1) && s'.log == s.log
  {
    hide Judge, LateEnv;
    LateDiscarded(n, names, i, m);
    var s', q := Step(s, Draw(n, names[i].1)), names[i].1;
    var c, c' := s.peers[n].call.value, s'.peers[n].call.value;
    assert c'.drawn == c.drawn + [Arrived(LateEnv(n, names, i))];
    NamesApart(n, names);
    assert forall j | i < j < m + 1 :: names[j].1 != q;
  }

  lemma NamesApart(n: Name, names: seq<(string, string)>)
    requires AllApart({n.id}, names)
    ensures forall i, j | 0 <= i < j < |names| :: names[i].1 != names[j].1
  {
  }

  /** The arbiter's answer to n's own request. */
  lemma OwnJudged(n: Name, q: string, cid: string)
    requires Agreeable(n, Enroll)
    ensures Judge(cid, Arrived(ReplyFor(Request(n, Enroll, q, cid)).env)) == Accept(Some(Answer(Expected(Enroll))))
    ensures Validates(Some(Answer(Expected(Enroll))), Expected(Enroll))
  {
    hide Answer, Expected, Validates, Matches, Dispatch, PrintRequest;
    MatchesExactly(cid, cid);
    AnswerNulFree(Enroll);
    WordsPlain(Enroll, Edge);
    PlainAnswer(Expected(Enroll), Expected(Enroll));
  }

  /** After at most ten late answers the own answer is drawn and accepted. */
  lemma DrawsOwn(s: System, n: Name, names: seq<(string, string)>, m: nat)
    requires m < |names| && m <= 10 && Agreeable(n, Enroll) && Drawing(s, n, names, m, m)
    ensures Enabled(s, Draw(n, names[m].1))
    ensures var s' := Step(s, Draw(n, names[m].1));
            && n in s'.peers && s'.peers[n].call.Some? && s'.peers[n].view == s.peers[n].view
            && TimedOutRecords(s', n, m) && s'.log == s.log
            && var c := s'.peers[n].call.value;
            && c.purpose == ToEnroll && c.cid == names[m].0 && |c.drawn| == m + 1 && !Undecided(c) && Accepted(c)
  {
    hide Judge, Validates, ReplyFor, Agreeable, Expected, Answer, Dispatch, PrintRequest;
    OwnJudged(n, names[m].1, names[m].0);
    var s' := Step(s, Draw(n, names[m].1));
    var c, c' := s.peers[n].call.value, s'.peers[n].call.value;
    var env := ReplyFor(Request(n, Enroll, names[m].1, names[m].0)).env;
    assert c'.drawn == c.drawn + [Arrived(env)];
    assert c'.drawn[m] == Arrived(env);
  }

  /** An accepted enrolment ends. */
  lemma EnrolEnds(s: System, n: Name)
    requires n in s.peers && s.peers[n].call.Some? && s.peers[n].call.value.purpose == ToEnroll
    requires !Undecided(s.peers[n].call.value) && Accepted(s.peers[n].call.value) && s.peers[n].view.state == Null
    ensures Enabled(s, Finish(n, true))
    ensures var s' := Step(s, Finish(n, true));
            && n in s'.peers && s'.peers[n].view.state == Enrolled && s'.log == s.log
            && |s'.records| == |s.records| + 1 && s'.records[..|s.records|] == s.records
            && s'.records[|s.records|].call == s.peers[n].call.value && s'.records[|s.records|].ret == Ok
            && s'.records[|s.records|].who == n
  {
    hide Undecided, Accepted, HeardAfter, ConsumersAfter, QueuesGone, QueuesNew, Within;
  }

  /** Eleven late answers use the wait up. */
  lemma DrewEleven(s: System, n: Name, names: seq<(string, string)>, m: nat)
    requires 11 <= m < |names| && Drawing(s, n, names, m, 11)
    ensures !Undecided(s.peers[n].call.value) && BodyOf(s.peers[n].call.value) == None
  {
    var c := s.peers[n].call.value;
    assert Judge(c.cid, c.drawn[10]) == Discard;
  }

  lemma {:induction false} DrawsMany(actions: seq<Action>, n: Name, names: seq<(string, string)>, m: nat, i: nat)
    returns (more: seq<Action>)
    requires i <= m < |names| && i <= 11 && AllApart({n.id}, names)
    requires Reachable({n}, actions) && Drawing(Final({n}, actions), n, names, m, 0)
    ensures Reachable({n}, more) && Drawing(Final({n}, more), n, names, m, i)
    ensures Final({n}, more).log == Final({n}, actions).log
  {
    hide Exec, Enabled, Step, AllApart, Drawing;
    if i == 0 {
      more := actions;
    } else {
      var front := DrawsMany(actions, n, names, m, i - 1);
      DrawsLate(Final({n}, front), n, names, m, i - 1);
      ExecMore({n}, front, Draw(n, names[i - 1].1));
      more := front + [Draw(n, names[i - 1].1)];
    }
  }

  /** The call that comes after m enrolments that timed out. */
  lemma StartsDrawing(s0: System, s: System, n: Name, names: seq<(string, string)>, m: nat)
    requires m < |names| && AllApart({n.id}, names) && LateState(s0, n, names, m)
    requires AskedFrom(s0, s, n, ToEnroll, names[m].0, names[m].1)
    ensures Drawing(s, n, names, m, 0)
    ensures Taken(s) == |s.log.published| && s.log.published != [] &&
            Asks(s.log.published[|s.log.published| - 1], n, Enroll)
  {
    hide AllApart, UsedUp, Pending, ReplyFor, SameOthers;
    AskedEnv(s0, s, n, names, m);
    PendingHas(s0, n, names, m);
    PendingMore(s0, s, n, names, m);
  }

  /** n is enrolling again, the answers to its m enrolments that timed out wait for it, and so does the
      answer to this one. */
  lemma AsksAgain(n: Name, names: seq<(string, string)>, m: nat) returns (actions: seq<Action>)
    requires m < |names| && AllApart({n.id}, names)
    ensures Reachable({n}, actions)
    ensures var s := Final({n}, actions);
            && Drawing(s, n, names, m, 0)
            && Taken(s) == |s.log.published| && s.log.published != []
            && Asks(s.log.published[|s.log.published| - 1], n, Enroll)
  {
    hide Exec, Fresh, AllApart, Enabled, Step, LateState, AskedFrom, Drawing;
    actions := TimesOutOften(n, names, m);
    var s0 := Final({n}, actions);
    LateMay(s0, n, names, m);
    NextFresh(s0.log, n, names, m);
    var s := Asked({n}, actions, n, ToEnroll, names[m].0, names[m].1);
    StartsDrawing(s0, s, n, names, m);
    actions := actions + [Publish(n, ToEnroll, names[m].0, names[m].1)] + [Consume(n)] + [Serve(true)];
  }

  /** The outcome of the last enrolment. */
  ghost predicate LateOutcome(s: System, n: Name, names: seq<(string, string)>, m: nat)
    requires m < |names|
  {
    && n in s.peers && |s.records| == m + 1
    && (forall k | 0 <= k < m :: s.records[k].who == n && s.records[k].body == None && s.records[k].ret == Fail)
    && var r := s.records[m];
    && r.who == n && r.call.purpose == ToEnroll
    && if m <= 10 then r.ret == Ok && |r.call.drawn| == m + 1 && s.peers[n].view.state == Enrolled
       else r.ret == Fail && |r.call.drawn| == 11 && OutOfBudget(r.call) && s.peers[n].view.state == Null &&
            names[m].1 in s.boxes && s.boxes[names[m].1] == [LateEnv(n, names, m)]
  }

  /** For every plain node and every number m there is a run in which m enrolments of it time out and
      one more draws their late answers: it returns Ok with the answer after them if m is at most ten,
      and spends its budget on eleven of them if m is more, with its own answer waiting and the arbiter
      listing a node that is still in Null. */
  lemma LateAnswers(n: Name, names: seq<(string, string)>, m: nat) returns (actions: seq<Action>)
    requires Plain(n.id) && m < |names| && AllApart({n.id}, names)
    ensures Reachable({n}, actions) && LateOutcome(Final({n}, actions), n, names, m) && Listed(Final({n}, actions), n)
  {
    hide Exec, Enabled, Step, AllApart, Drawing, Plain, Agreeable, Listed, LateOutcome;
    PlainAgreeable(n);
    actions := AsksAgain(n, names, m);
    actions := DrawsMany(actions, n, names, m, if m <= 10 then m else 11);
    if m <= 10 {
      actions := EndsWell(actions, n, names, m);
    } else {
      actions := EndsIll(actions, n, names, m);
    }
    ListedAtLast(Final({n}, actions), n);
    ListedIff({n}, actions, n);
  }

  lemma EndsWell(actions: seq<Action>, n: Name, names: seq<(string, string)>, m: nat) returns (more: seq<Action>)
    requires m < |names| && m <= 10 && Agreeable(n, Enroll)
    requires Reachable({n}, actions) && Drawing(Final({n}, actions), n, names, m, m)
    ensures Reachable({n}, more) && LateOutcome(Final({n}, more), n, names, m)
    ensures Final({n}, more).log == Final({n}, actions).log
  {
    hide Exec, Enabled, Step, Agreeable, Undecided, Accepted;
    var s, a := Final({n}, actions), Draw(n, names[m].1);
    DrawsOwn(s, n, names, m);
    ExecMore({n}, actions, a);
    var s1 := Step(s, a);
    EnrolEnds(s1, n);
    ExecMore({n}, actions + [a], Finish(n, true));
    more := actions + [a] + [Finish(n, true)];
    var s2 := Final({n}, more);
    assert forall k | 0 <= k < m :: s2.records[k] == s2.records[..|s1.records|][k];
  }

  lemma EndsIll(actions: seq<Action>, n: Name, names: seq<(string, string)>, m: nat) returns (more: seq<Action>)
    requires 11 <= m < |names|
    requires Reachable({n}, actions) && Drawing(Final({n}, actions), n, names, m, 11)
    ensures Reachable({n}, more) && LateOutcome(Final({n}, more), n, names, m)
    ensures Final({n}, more).log == Final({n}, actions).log
  {
    hide Exec, Enabled, Step, Undecided, AllDiscarded;
    var s := Final({n}, actions);
    DrewEleven(s, n, names, m);
    EnrolFails(s, n, s.peers[n].call.value);
    ExecMore({n}, actions, Finish(n, true));
    more := actions + [Finish(n, true)];
  }
}
