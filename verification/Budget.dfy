/** Why a call gets no answer: over every run, what a call drew instead of its own answer is late
    answers to earlier calls of the same node that got none, and commands to that node. */
module Budget {
  import opened Common
  import opened RpcWait
  import opened Messages
  import opened Arbiter
  import opened Protocol
  import opened Invariant
  import opened Theorems
  import opened Delivery
  import Lifecycle

  // ---- what calls draw ----

  /** The message answers the i-th request, which is n's. */
  predicate AnswersOwn(env: Envelope, n: Name, i: nat, g: Log)
  {
    i < |g.published| && By(g.published[i], n) && env.cid == Some(g.published[i].cid) && env.replyTo.None?
  }

  /** The message is the k-th command, which was sent to n. */
  predicate CommandsIt(env: Envelope, n: Name, k: nat, g: Log)
  {
    k < |g.commands| && g.commands[k].target == QueueOf(n.id) && env.cid == Some(g.commands[k].cid) && env.replyTo.Some?
  }

  /** A message drawn by the call of the index-th request: an answer to that request or an earlier one
      of the same node, or a command to the node. */
  ghost predicate StrangerRight(env: Envelope, index: nat, g: Log)
  {
    index < |g.published| && g.published[index].Request? && env.body.Some? && env.cid.Some? &&
    var n := g.published[index].who;
    (exists i: nat :: i <= index && AnswersOwn(env, n, i, g)) || (exists k :: CommandsIt(env, n, k, g))
  }

  ghost predicate HandedRight(h: Handed, g: Log)
  {
    h.reader.ByCall? ==> StrangerRight(h.env, h.reader.index, g)
  }

  /** The d-th message the call drew is the i-th delivered. */
  predicate HandedAs(delivered: seq<Handed>, i: nat, c: Call, d: nat)
  {
    i < |delivered| && d < |c.drawn| && Arrived(delivered[i].env) == c.drawn[d] &&
      delivered[i].reader == ByCall(c.index, d)
  }

  ghost predicate CallDrawn(c: Call, delivered: seq<Handed>)
  {
    forall d | 0 <= d < |c.drawn| && c.drawn[d].Delivery? :: exists i :: HandedAs(delivered, i, c, d)
  }

  ghost predicate AllDrawn(s: System)
  {
    && (forall i | 0 <= i < |s.delivered| :: HandedRight(s.delivered[i], s.log))
    && (forall n | n in s.peers && s.peers[n].call.Some? :: CallDrawn(s.peers[n].call.value, s.delivered))
    && (forall k | 0 <= k < |s.records| :: CallDrawn(s.records[k].call, s.delivered))
  }

  // ---- every step ----

  lemma HandedGrows(h: Handed, g: Log, g': Log)
    requires Grows(g, g') && HandedRight(h, g)
    ensures HandedRight(h, g')
  {
    if h.reader.ByCall? {
      var n := g.published[h.reader.index].who;
      if i: nat :| i <= h.reader.index && AnswersOwn(h.env, n, i, g) {
        assert AnswersOwn(h.env, n, i, g');
      } else {
        var k: nat :| CommandsIt(h.env, n, k, g);
        assert CommandsIt(h.env, n, k, g');
      }
    }
  }

  lemma DrawnGrows(c: Call, delivered: seq<Handed>, more: seq<Handed>)
    requires CallDrawn(c, delivered) && delivered <= more
    ensures CallDrawn(c, more)
  {
    forall d | 0 <= d < |c.drawn| && c.drawn[d].Delivery?
      ensures exists i :: HandedAs(more, i, c, d)
    {
      var i :| HandedAs(delivered, i, c, d);
      assert HandedAs(more, i, c, d);
    }
  }

  /** Nothing new is drawn by a call, and every open or finished call was open or finished before. */
  ghost predicate Quiet(s: System, s': System)
  {
    && Grows(s.log, s'.log)
    && s.delivered <= s'.delivered
    && (forall i | |s.delivered| <= i < |s'.delivered| :: !s'.delivered[i].reader.ByCall?)
    && (forall n | n in s'.peers && s'.peers[n].call.Some? ::
          SameDraws(s'.peers[n].call.value) || (n in s.peers && s.peers[n].call.Some? &&
            SameCall(s'.peers[n].call.value, s.peers[n].call.value)))
    && (forall k | 0 <= k < |s'.records| ::
          (k < |s.records| && s'.records[k] == s.records[k]) ||
          exists n | n in s.peers && s.peers[n].call.Some? :: s'.records[k].call == s.peers[n].call.value)
  }

  /** A call that has drawn nothing but breaks so far. */
  predicate SameDraws(c: Call)
  {
    forall d | 0 <= d < |c.drawn| :: !c.drawn[d].Delivery?
  }

  /** The same call, possibly after one more break. */
  predicate SameCall(c': Call, c: Call)
  {
    c'.index == c.index && c.drawn <= c'.drawn &&
    forall d | |c.drawn| <= d < |c'.drawn| :: !c'.drawn[d].Delivery?
  }

  lemma CallKept(c: Call, c': Call, delivered: seq<Handed>)
    requires CallDrawn(c, delivered) && SameCall(c', c)
    ensures CallDrawn(c', delivered)
  {
    forall d | 0 <= d < |c'.drawn| && c'.drawn[d].Delivery?
      ensures exists i :: HandedAs(delivered, i, c', d)
    {
      var i :| HandedAs(delivered, i, c, d);
      assert HandedAs(delivered, i, c', d);
    }
  }

  lemma QuietDrawn(s: System, s': System)
    requires AllDrawn(s) && Quiet(s, s')
    ensures AllDrawn(s')
  {
    hide HandedRight, CallDrawn, Grows, SameCall;
    forall i | 0 <= i < |s'.delivered|
      ensures HandedRight(s'.delivered[i], s'.log)
    {
      if i < |s.delivered| {
        HandedGrows(s.delivered[i], s.log, s'.log);
      } else {
        NotByCall(s'.delivered[i], s'.log);
      }
    }
    forall n | n in s'.peers && s'.peers[n].call.Some?
      ensures CallDrawn(s'.peers[n].call.value, s'.delivered)
    {
      if SameDraws(s'.peers[n].call.value) {
        OnlyBreaks(s'.peers[n].call.value, s'.delivered);
      } else {
        CallKept(s.peers[n].call.value, s'.peers[n].call.value, s.delivered);
        DrawnGrows(s'.peers[n].call.value, s.delivered, s'.delivered);
      }
    }
    forall k | 0 <= k < |s'.records|
      ensures CallDrawn(s'.records[k].call, s'.delivered)
    {
      DrawnGrows(s'.records[k].call, s.delivered, s'.delivered);
    }
  }

  lemma NotByCall(h: Handed, g: Log)
    requires !h.reader.ByCall?
    ensures HandedRight(h, g)
  {
  }

  lemma OnlyBreaks(c: Call, delivered: seq<Handed>)
    requires SameDraws(c)
    ensures CallDrawn(c, delivered)
  {
  }

  /** What a call draws comes from a queue its node consumes, so it was meant for its node. */
  lemma DrawnStranger(nodes: set<Name>, g: Log, n: Name, c: Call, q: string, env: Envelope)
    requires LogRight(g, nodes) && n in nodes && c.index < |g.published| && By(g.published[c.index], n) &&
             SilentAfter(n, c.index, g)
    requires ConsumerRight(n, q, g) && MessageRight(env, q, g)
    ensures StrangerRight(env, c.index, g)
  {
    hide LogRight, CommandEnvelope, EntryAnswer, Ids;
    if i: nat :| IsReply(env, q, i, g) {
      LogReplies(g, nodes);
      EntryIssued(nodes, g, i);
      OwnQueueInIds(n, nodes);
      var j: nat :| j < |g.published| && By(g.published[j], n) && g.published[j].replyTo == q;
      if i != j { EntriesApart(nodes, g, i, j); }
      assert AnswersOwn(env, n, i, g);
    } else if k: nat :| IsCommand(env, q, k, g) {
      CommandIssued(nodes, g, k);
      CommandCid(g.commands[k]);
      if q != n.id {
        var j: nat :| j < |g.published| && By(g.published[j], n) && g.published[j].replyTo == q;
        EntryIssued(nodes, g, j);
      } else {
        assert env.body.Some? by { CommandBody(g.commands[k]); }
        assert CommandsIt(env, n, k, g);
      }
    } else {
      var i: nat :| IsResponse(env, q, i, g);
      var k := ServiceOf(nodes, g, i);
      CommandIssued(nodes, g, k);
      OwnQueueInIds(n, nodes);
      var j: nat :| j < |g.published| && By(g.published[j], n) && g.published[j].replyTo == q;
      RequestBesideCommand(nodes, g, j, k);
    }
  }

  lemma CommandBody(c: Command)
    ensures CommandEnvelope(c).body.Some?
  {
  }

  lemma OwnQueueInIds(n: Name, nodes: set<Name>)
    requires n in nodes
    ensures n.id in Ids(nodes)
  {
  }

  lemma DrawDrawn(nodes: set<Name>, s: System, n: Name, q: string)
    requires Right(nodes, s) && Enabled(s, Draw(n, q)) && AllDrawn(s)
    ensures AllDrawn(Step(s, Draw(n, q)))
  {
    hide Right, LogRight, MessageRight, ConsumerRight, HandedRight, CallDrawn, SilentAfter, AllDiscarded, Popped,
         PeerRight;
    var s' := Step(s, Draw(n, q));
    var c, h := s.peers[n].call.value, s'.delivered[|s.delivered|];
    DrawFacts(nodes, s, n, q);
    DrawnStranger(nodes, s.log, n, c, q, h.env);
    forall i | 0 <= i < |s'.delivered|
      ensures HandedRight(s'.delivered[i], s'.log)
    {
      if i == |s.delivered| { ByCallRight(h, s.log); }
    }
    forall m | m in s'.peers && s'.peers[m].call.Some?
      ensures CallDrawn(s'.peers[m].call.value, s'.delivered)
    {
      if m == n {
        OneMoreDrawn(c, s.delivered, h);
      } else {
        DrawnGrows(s.peers[m].call.value, s.delivered, s'.delivered);
      }
    }
    forall k | 0 <= k < |s'.records|
      ensures CallDrawn(s'.records[k].call, s'.delivered)
    {
      DrawnGrows(s.records[k].call, s.delivered, s'.delivered);
    }
  }

  lemma ByCallRight(h: Handed, g: Log)
    requires h.reader.ByCall? && StrangerRight(h.env, h.reader.index, g)
    ensures HandedRight(h, g)
  {
  }

  lemma OneMoreDrawn(c: Call, delivered: seq<Handed>, h: Handed)
    requires CallDrawn(c, delivered) && h.reader == ByCall(c.index, |c.drawn|)
    ensures CallDrawn(c.(drawn := c.drawn + [Arrived(h.env)]), delivered + [h])
  {
    var c', more := c.(drawn := c.drawn + [Arrived(h.env)]), delivered + [h];
    assert HandedAs(more, |delivered|, c', |c.drawn|);
    forall d | 0 <= d < |c.drawn| && c.drawn[d].Delivery?
      ensures exists i :: HandedAs(more, i, c', d)
    {
      var i :| HandedAs(delivered, i, c, d);
      assert HandedAs(more, i, c', d);
    }
  }

  lemma DrawFacts(nodes: set<Name>, s: System, n: Name, q: string)
    requires Right(nodes, s) && Enabled(s, Draw(n, q))
    ensures var c := s.peers[n].call.value;
            && LogRight(s.log, nodes) && n in nodes && c.index < |s.log.published| && By(s.log.published[c.index], n)
            && SilentAfter(n, c.index, s.log) && ConsumerRight(n, q, s.log) && MessageRight(s.boxes[q][0], q, s.log)
  {
    hide LogRight, MessageRight, QueueRight, ListsRight, RecordsRight, WaitsRight, Lifecycle.Run, Standing, Enlisted,
         AllDiscarded, PeersRight;
    RightPeer(nodes, s, n);
    var c := s.peers[n].call.value;
    assert By(s.log.published[c.index], n) && s.log.published[c.index].replyTo == c.replyTo;
  }

  lemma StepDrawn(nodes: set<Name>, s: System, a: Action)
    requires Right(nodes, s) && Enabled(s, a) && AllDrawn(s)
    ensures AllDrawn(Step(s, a))
  {
    hide Right, AllDrawn, Grows;
    if a.Draw? {
      DrawDrawn(nodes, s, a.who, a.queue);
    } else {
      GrowsAlways(s, a);
      assert Quiet(s, Step(s, a)) by { QuietStep(s, a); }
      QuietDrawn(s, Step(s, a));
    }
  }

  lemma QuietStep(s: System, a: Action)
    requires Enabled(s, a) && !a.Draw? && Grows(s.log, Step(s, a).log)
    ensures Quiet(s, Step(s, a))
  {
    hide Grows, MayCall, Undecided, Outcome, QueuesGone, QueuesNew, ConsumersAfter, Lifecycle.Next, Lifecycle.Ret,
         HeardAfter, WithReply,
         CommandReply, ReplyTo, EnvelopeOf, CommandEnvelope, AllDiscarded, Pushed, Popped, Fresh, PublishesNothing;
  }

  lemma StartDrawn(nodes: set<Name>)
    ensures AllDrawn(Start(nodes))
  {
  }

  lemma {:induction false} RunDrawn(nodes: set<Name>, actions: seq<Action>)
    ensures Exec(nodes, actions).Some? ==> AllDrawn(Exec(nodes, actions).value)
    decreases |actions|
  {
    hide Right, Enabled, Step, AllDrawn;
    if actions == [] {
      StartDrawn(nodes);
    } else {
      RunDrawn(nodes, actions[..|actions| - 1]);
      RunRight(nodes, actions[..|actions| - 1]);
      if Exec(nodes, actions).Some? {
        StepDrawn(nodes, Exec(nodes, actions[..|actions| - 1]).value, actions[|actions| - 1]);
      }
    }
  }

  // ---- results ----

  /** The last draw was a timeout or a failure. */
  predicate Interrupted(c: Call)
  {
    c.drawn != [] && IsBreak(c.drawn[|c.drawn| - 1])
  }

  /** The budget went on messages that were all discarded. */
  predicate OutOfBudget(c: Call)
  {
    |c.drawn| == 11 && AllDiscarded(c.cid, c.drawn)
  }

  /** The call of the i-th request was finished without an answer, or not finished. */
  predicate Unanswered(s: System, i: nat)
  {
    forall k | 0 <= k < |s.records| && s.records[k].call.index == i :: s.records[k].body.None?
  }

  /** The ids of n's requests before the index-th that got no answer, and of the commands sent to n. */
  function StrangerCids(s: System, n: Name, index: nat): set<string>
    requires index <= |s.log.published|
  {
    (set i | 0 <= i < index && By(s.log.published[i], n) && Unanswered(s, i) :: s.log.published[i].cid) +
    (set k | 0 <= k < |s.log.commands| && s.log.commands[k].target == QueueOf(n.id) :: s.log.commands[k].cid)
  }

  /** The key of a message a call drew. */
  lemma KeyOfDrawn(nodes: set<Name>, g: Log, env: Envelope, index: nat, i: nat)
    requires LogRight(g, nodes) && StrangerRight(env, index, g) && i < |g.published| && g.published[i].Request?
    requires env.cid == Some(g.published[i].cid)
    ensures Carries(env, Key(g.published[i].cid, false)) && g.published[i].who == g.published[index].who && i <= index
  {
    hide LogRight;
    var n := g.published[index].who;
    if j: nat :| j <= index && AnswersOwn(env, n, j, g) {
      if j != i { EntriesApart(nodes, g, i, j); }
    } else {
      var k: nat :| CommandsIt(env, n, k, g);
      RequestBesideCommand(nodes, g, i, k);
    }
  }

  /** An answered call drew the answer itself. */
  lemma AnswerDrawn(nodes: set<Name>, s: System, k: nat) returns (i: nat)
    requires Right(nodes, s) && AllDrawn(s) && k < |s.records| && s.records[k].body.Some?
    ensures var c := s.records[k].call;
            c.index < |s.log.published| && i < |s.delivered| && c.drawn != [] &&
            s.delivered[i].reader == ByCall(c.index, |c.drawn| - 1) && Came(PastOf(s), Read(i),
              Key(s.log.published[c.index].cid, false))
  {
    hide LogRight, QueueRight, ListsRight, BoxesRight, PeersRight, WaitsRight, Matches, HandedRight, Answered,
         Undecided, Accepted;
    var r, c := s.records[k], s.records[k].call;
    assert RecordRight(r, s.log);
    var d := |c.drawn| - 1;
    assert c.drawn[d].Delivery?;
    i :| HandedAs(s.delivered, i, c, d);
    assert StrangerRight(s.delivered[i].env, c.index, s.log) by { HandedStranger(s.delivered[i], s.log); }
    DrawnMatch(nodes, s.log, s.delivered[i].env, c.index);
    KeyOfDrawn(nodes, s.log, s.delivered[i].env, c.index, c.index);
  }

  lemma HandedStranger(h: Handed, g: Log)
    requires HandedRight(h, g) && h.reader.ByCall?
    ensures StrangerRight(h.env, h.reader.index, g)
  {
  }

  /** A drawn message whose id passes the comparison carries the very id. */
  lemma DrawnMatch(nodes: set<Name>, g: Log, env: Envelope, index: nat)
    requires LogRight(g, nodes) && StrangerRight(env, index, g)
    ensures env.cid.Some? && (Matches(g.published[index].cid, env.cid.value) <==>
            env.cid == Some(g.published[index].cid))
  {
    hide LogRight, Matches;
    EntryIssued(nodes, g, index);
    MatchesExactly(g.published[index].cid, env.cid.value);
    var n := g.published[index].who;
    if j: nat :| j <= index && AnswersOwn(env, n, j, g) {
      EntryIssued(nodes, g, j);
    } else {
      var k: nat :| CommandsIt(env, n, k, g);
      CommandIssued(nodes, g, k);
    }
  }

  /** A call ends without an answer exactly when it never consumed, was interrupted, or spent its
      budget on strangers. */
  lemma NoAnswerExactly(nodes: set<Name>, actions: seq<Action>, k: nat)
    requires Reachable(nodes, actions)
    requires k < |Final(nodes, actions).records|
    ensures var r := Final(nodes, actions).records[k];
            r.body.None? <==> !r.call.consuming || Interrupted(r.call) || OutOfBudget(r.call)
  {
    hide Exec, LogRight, BoxesRight, PeersRight, QueueRight, ListsRight, WaitsRight, Answered, Accepted, Matches,
         HandedRight;
    RunRight(nodes, actions);
    RunDrawn(nodes, actions);
    var s := Final(nodes, actions);
    var r := s.records[k];
    var c := r.call;
    assert RecordRight(r, s.log) && CallDrawn(c, s.delivered);
    if c.drawn != [] {
      var d := |c.drawn| - 1;
      DiscardedAll(c.cid, c.drawn);
      if c.drawn[d].Delivery? {
        var i: nat :| HandedAs(s.delivered, i, c, d);
        HandedStranger(s.delivered[i], s.log);
      }
    }
  }

  lemma DiscardedAll(cid: string, drawn: seq<Event>)
    requires drawn != []
    ensures AllDiscarded(cid, drawn) <==>
            AllDiscarded(cid, drawn[..|drawn| - 1]) && Judge(cid, drawn[|drawn| - 1]) == Discard
  {
    var last := |drawn| - 1;
    assert forall i | 0 <= i < last :: drawn[i] == drawn[..last][i];
  }

  lemma StrangerDrawn(nodes: set<Name>, s: System, k: nat, d: nat) returns (i: nat)
    requires Right(nodes, s) && AllDrawn(s) && Once(s.boxes, PastOf(s)) && k < |s.records| &&
             OutOfBudget(s.records[k].call)
    requires d < 11
    ensures var c := s.records[k].call;
            c.index < |s.log.published| && HandedAs(s.delivered, i, c, d) && s.delivered[i].env.cid.Some? &&
            s.delivered[i].env.cid.value in StrangerCids(s, s.records[k].who, c.index)
  {
    hide LogRight, QueueRight, ListsRight, BoxesRight, PeersRight, WaitsRight, Matches, HandedRight, Answered,
         Undecided, Accepted,
         StrangerCids, Once;
    var r, c, g := s.records[k], s.records[k].call, s.log;
    assert RecordRight(r, g) && CallDrawn(c, s.delivered);
    assert Judge(c.cid, c.drawn[d]) == Discard;
    i :| HandedAs(s.delivered, i, c, d);
    var env := s.delivered[i].env;
    HandedStranger(s.delivered[i], g);
    DrawnMatch(nodes, g, env, c.index);
    if j: nat :| j <= c.index && AnswersOwn(env, r.who, j, g) {
      LateIsUnanswered(nodes, s, i, j, c.index, d);
      StrangerListed(s, r.who, c.index, j);
    } else {
      var m: nat :| CommandsIt(env, r.who, m, g);
      CommandListed(s, r.who, c.index, m);
    }
  }

  lemma StrangerListed(s: System, n: Name, index: nat, j: nat)
    requires j < index <= |s.log.published| && By(s.log.published[j], n) && Unanswered(s, j)
    ensures s.log.published[j].cid in StrangerCids(s, n, index)
  {
  }

  lemma CommandListed(s: System, n: Name, index: nat, m: nat)
    requires index <= |s.log.published| && m < |s.log.commands| && s.log.commands[m].target == QueueOf(n.id)
    ensures s.log.commands[m].cid in StrangerCids(s, n, index)
  {
  }

  /** An answer drawn by another call was not drawn by its own. */
  lemma LateIsUnanswered(nodes: set<Name>, s: System, i: nat, j: nat, index: nat, d: nat)
    requires Right(nodes, s) && AllDrawn(s) && Once(s.boxes, PastOf(s))
    requires i < |s.delivered| && s.delivered[i].reader == ByCall(index, d) && j != index
    requires j < |s.log.published| && Carries(s.delivered[i].env, Key(s.log.published[j].cid, false))
    ensures Unanswered(s, j)
  {
    hide Right, AllDrawn, Waits, Carries;
    assert Came(PastOf(s), Read(i), Key(s.log.published[j].cid, false));
    forall k | 0 <= k < |s.records| && s.records[k].call.index == j
      ensures s.records[k].body.None?
    {
      if s.records[k].body.Some? {
        var i' := AnswerDrawn(nodes, s, k);
      }
    }
  }

  /** What a call that spent its budget drew: each message is a late answer to an earlier call of the
      same node that got none, or a command to the node. */
  lemma DrewStrangers(nodes: set<Name>, actions: seq<Action>, k: nat, d: nat)
    requires Reachable(nodes, actions) && k < |Final(nodes, actions).records| && d < 11
    ensures var s, r := Final(nodes, actions), Final(nodes, actions).records[k];
            OutOfBudget(r.call) ==>
              r.call.index <= |s.log.published| && r.call.drawn[d].Delivery? && r.call.drawn[d].cid.Some? &&
              r.call.drawn[d].cid.value in StrangerCids(s, r.who, r.call.index)
  {
    hide Exec, Right, AllDrawn, StrangerCids, Once, AllDiscarded;
    RunRight(nodes, actions);
    RunDrawn(nodes, actions);
    RunOnce(nodes, actions);
    if OutOfBudget(Final(nodes, actions).records[k].call) {
      var i := StrangerDrawn(nodes, Final(nodes, actions), k, d);
    }
  }

  /** A call can spend its budget only after at least eleven earlier calls of its node went without
      an answer or commands were sent to the node, counted together. */
  lemma BudgetSpent(nodes: set<Name>, actions: seq<Action>, k: nat)
    requires Reachable(nodes, actions) && k < |Final(nodes, actions).records|
    ensures var s, r := Final(nodes, actions), Final(nodes, actions).records[k];
            OutOfBudget(r.call) ==>
              r.call.index <= |s.log.published| && |StrangerCids(s, r.who, r.call.index)| >= 11
  {
    hide Exec, Right, AllDrawn, StrangerCids, Waits, OutOfBudget;
    RunRight(nodes, actions);
    RunDrawn(nodes, actions);
    RunOnce(nodes, actions);
    var s := Final(nodes, actions);
    var r := s.records[k];
    if OutOfBudget(r.call) {
      var cids := StrangersDrawn(nodes, s, k, 11);
      SubsetSize(cids, StrangerCids(s, r.who, r.call.index));
    }
  }

  lemma SubsetSize(a: set<string>, b: set<string>)
    requires a <= b
    ensures |a| <= |b|
  {
    assert b == a + (b - a);
  }

  /** The d-th message the call drew is the i-th delivered, and has this id. */
  predicate DrewCid(s: System, c: Call, i: nat, d: nat, cid: string)
  {
    HandedAs(s.delivered, i, c, d) && s.delivered[i].env.cid == Some(cid)
  }

  ghost predicate AmongFirst(s: System, c: Call, m: nat, cid: string)
  {
    exists i: nat, d: nat :: d < m && DrewCid(s, c, i, d, cid)
  }

  /** These are the ids of the first m messages the call drew, all different and all of strangers. */
  ghost predicate StrangerSet(s: System, r: Record, m: nat, cids: set<string>)
  {
    r.call.index <= |s.log.published| && cids <= StrangerCids(s, r.who, r.call.index) && |cids| == m &&
    forall cid | cid in cids :: AmongFirst(s, r.call, m, cid)
  }

  lemma {:induction false} StrangersDrawn(nodes: set<Name>, s: System, k: nat, m: nat) returns (cids: set<string>)
    requires Right(nodes, s) && AllDrawn(s) && Once(s.boxes, PastOf(s)) && k < |s.records| &&
             OutOfBudget(s.records[k].call)
    requires m <= 11
    ensures StrangerSet(s, s.records[k], m, cids)
  {
    hide Right, AllDrawn, StrangerCids, Once, OutOfBudget, AmongFirst, HandedAs;
    var r, c := s.records[k], s.records[k].call;
    if m == 0 {
      cids := {};
      var i := StrangerDrawn(nodes, s, k, 0);
    } else {
      var before := StrangersDrawn(nodes, s, k, m - 1);
      var i := StrangerDrawn(nodes, s, k, m - 1);
      assert i < |s.delivered| by { HandedBound(s.delivered, i, c, m - 1); }
      var cid := s.delivered[i].env.cid.value;
      cids := before + {cid};
      NewCid(nodes, s, c, i, m, cid);
      assert cid !in before;
      forall cid' | cid' in before
        ensures AmongFirst(s, c, m, cid')
      {
        AmongMore(s, c, m, cid');
      }
    }
  }

  lemma HandedBound(delivered: seq<Handed>, i: nat, c: Call, d: nat)
    requires HandedAs(delivered, i, c, d)
    ensures i < |delivered|
  {
  }

  lemma AmongMore(s: System, c: Call, m: nat, cid: string)
    requires m > 0 && AmongFirst(s, c, m - 1, cid)
    ensures AmongFirst(s, c, m, cid)
  {
    hide DrewCid;
  }

  /** The id of the m-th message drawn is new. */
  lemma NewCid(nodes: set<Name>, s: System, c: Call, i: nat, m: nat, cid: string)
    requires Right(nodes, s) && AllDrawn(s) && Once(s.boxes, PastOf(s)) && m > 0
    requires DrewCid(s, c, i, m - 1, cid)
    ensures AmongFirst(s, c, m, cid) && !AmongFirst(s, c, m - 1, cid)
  {
    hide Right, AllDrawn, Once, HandedAs;
    assert AmongFirst(s, c, m, cid) by { assert DrewCid(s, c, i, m - 1, cid); }
    if i': nat, d: nat :| d < m - 1 && DrewCid(s, c, i', d, cid) {
      SameCidOnce(nodes, s, c, i, m - 1, i', d);
    }
  }

  /** Two draws of one call never have the same id. */
  lemma SameCidOnce(nodes: set<Name>, s: System, c: Call, i: nat, d: nat, i': nat, d': nat)
    requires Right(nodes, s) && AllDrawn(s) && Once(s.boxes, PastOf(s))
    requires HandedAs(s.delivered, i, c, d) && HandedAs(s.delivered, i', c, d') && d != d'
    ensures s.delivered[i].env.cid != s.delivered[i'].env.cid
  {
    hide LogRight, QueueRight, ListsRight, BoxesRight, PeersRight, WaitsRight, RecordsRight, HandedRight, Waits;
    var g, a, b := s.log, s.delivered[i].env, s.delivered[i'].env;
    HandedStranger(s.delivered[i], g);
    HandedStranger(s.delivered[i'], g);
    if a.cid == b.cid {
      SameKind(nodes, g, a, b, c.index);
      CameAt(PastOf(s), i);
      CameAt(PastOf(s), i');
    }
  }

  lemma SameKind(nodes: set<Name>, g: Log, a: Envelope, b: Envelope, index: nat)
    requires LogRight(g, nodes) && StrangerRight(a, index, g) && StrangerRight(b, index, g) && a.cid == b.cid
    ensures a.replyTo.Some? == b.replyTo.Some?
  {
    hide LogRight;
    var n := g.published[index].who;
    if j: nat :| j <= index && AnswersOwn(a, n, j, g) {
      KeyOfDrawn(nodes, g, b, index, j);
    } else if j: nat :| j <= index && AnswersOwn(b, n, j, g) {
      KeyOfDrawn(nodes, g, a, index, j);
    }
  }

  /** A delist draws at most one message, and that message ends its wait: it never spends its budget.
      So the strangers of BudgetSpent only ever reach enrolments and activations. */
  lemma DelistDrawsOnce(nodes: set<Name>, actions: seq<Action>)
    requires Reachable(nodes, actions)
    ensures var s := Final(nodes, actions);
            && (forall n | n in s.peers && s.peers[n].call.Some? && s.peers[n].call.value.purpose == ToDelist ::
                 AtMostOne(s.peers[n].call.value.cid, s.peers[n].call.value.drawn))
            && (forall k | 0 <= k < |s.records| && s.records[k].call.purpose == ToDelist ::
                  AtMostOne(s.records[k].call.cid, s.records[k].call.drawn) && !OutOfBudget(s.records[k].call))
  {
    hide Exec, LogRight, BoxesRight, QueueRight, ListsRight, WaitsRight, Answered, Accepted, Undecided, Standing,
         Enlisted, ConsumerRight,
         AtMostOne, SilentAfter;
    RunRight(nodes, actions);
    var s := Final(nodes, actions);
    forall n | n in s.peers && s.peers[n].call.Some? && s.peers[n].call.value.purpose == ToDelist
      ensures AtMostOne(s.peers[n].call.value.cid, s.peers[n].call.value.drawn)
    {
      RightPeer(nodes, s, n);
    }
    forall k | 0 <= k < |s.records| && s.records[k].call.purpose == ToDelist
      ensures AtMostOne(s.records[k].call.cid, s.records[k].call.drawn) && !OutOfBudget(s.records[k].call)
    {
      assert RecordRight(s.records[k], s.log);
      OneIsNotEleven(s.records[k].call.cid, s.records[k].call.drawn);
    }
  }

  lemma OneIsNotEleven(cid: string, drawn: seq<Event>)
    requires AtMostOne(cid, drawn)
    ensures |drawn| < 11
  {
  }
}
