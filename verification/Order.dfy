/** The order of user commands: those sent to one node's queue leave it in the order they were sent. */
module Order {
  import opened Common
  import opened RpcWait
  import opened Registry
  import opened Messages
  import opened Arbiter
  import opened Protocol
  import opened Invariant
  import opened Theorems
  import opened Delivery
  import Lifecycle

  /** The k-th command is the p-th message waiting in queue q, to which it was sent. */
  predicate CommandAt(boxes: map<string, seq<Envelope>>, commands: seq<Command>, q: string, p: nat, k: nat)
  {
    k < |commands| && commands[k].target == QueueOf(q) &&
    q in boxes && p < |boxes[q]| && boxes[q][p] == CommandEnvelope(commands[k])
  }

  /** The k'-th command waits in queue q behind position p. */
  ghost predicate Behind(boxes: map<string, seq<Envelope>>, commands: seq<Command>, q: string, p: nat, k': nat)
  {
    exists p' :: p' > p && CommandAt(boxes, commands, q, p', k')
  }

  /** Behind a command that waits in a queue waits every command sent there after it. */
  ghost predicate Ordered(boxes: map<string, seq<Envelope>>, commands: seq<Command>)
  {
    forall q, p: nat, k: nat, k': nat |
      CommandAt(boxes, commands, q, p, k) && k < k' < |commands| && commands[k'].target == QueueOf(q) ::
      Behind(boxes, commands, q, p, k')
  }

  // ---- what keeps it ----

  /** A queue loses its first d messages, and messages that are no commands may come behind the rest. */
  predicate Follows(boxes: map<string, seq<Envelope>>, boxes': map<string, seq<Envelope>>, q: string, d: nat)
    requires q in boxes'
  {
    var before := if q in boxes then boxes[q] else [];
    && d <= |before| && |before| - d <= |boxes'[q]| && before[d..] == boxes'[q][..|before| - d]
    && forall i | |before| - d <= i < |boxes'[q]| :: boxes'[q][i].replyTo == None
  }

  ghost predicate AllFollow(boxes: map<string, seq<Envelope>>, boxes': map<string, seq<Envelope>>)
  {
    forall q | q in boxes' :: exists d :: Follows(boxes, boxes', q, d)
  }

  lemma FollowingOrdered(boxes: map<string, seq<Envelope>>, boxes': map<string, seq<Envelope>>, commands: seq<Command>)
    requires Ordered(boxes, commands) && AllFollow(boxes, boxes')
    ensures Ordered(boxes', commands)
  {
    forall q, p: nat, k: nat, k': nat |
      CommandAt(boxes', commands, q, p, k) && k < k' < |commands| && commands[k'].target == QueueOf(q)
      ensures Behind(boxes', commands, q, p, k')
    {
      var d :| Follows(boxes, boxes', q, d);
      FollowingBehind(boxes, boxes', commands, q, d, p, k, k');
    }
  }

  lemma FollowingBehind(boxes: map<string, seq<Envelope>>, boxes': map<string, seq<Envelope>>, commands: seq<Command>,
                        q: string, d: nat, p: nat, k: nat, k': nat)
    requires Ordered(boxes, commands) && q in boxes' && Follows(boxes, boxes', q, d)
    requires CommandAt(boxes', commands, q, p, k) && k < k' < |commands| && commands[k'].target == QueueOf(q)
    ensures Behind(boxes', commands, q, p, k')
  {
    hide CommandEnvelope;
    CommandCid(commands[k]);
    var before := if q in boxes then boxes[q] else [];
    assert before[d..][p] == boxes'[q][..|before| - d][p];
    assert CommandAt(boxes, commands, q, p + d, k);
    assert Behind(boxes, commands, q, p + d, k');
    var p' :| p' > p + d && CommandAt(boxes, commands, q, p', k');
    assert before[d..][p' - d] == boxes'[q][..|before| - d][p' - d];
    assert CommandAt(boxes', commands, q, p' - d, k');
  }

  lemma PoppedFollows(boxes: map<string, seq<Envelope>>, q: string)
    requires q in boxes && boxes[q] != []
    ensures AllFollow(boxes, Popped(boxes, q))
  {
    var boxes' := Popped(boxes, q);
    forall q' | q' in boxes'
      ensures exists d :: Follows(boxes, boxes', q', d)
    {
      assert Follows(boxes, boxes', q', if q' == q then 1 else 0);
    }
  }

  lemma RepliedFollows(boxes: map<string, seq<Envelope>>, posted: Option<Posted>)
    requires posted.Some? ==> posted.value.queue in boxes && posted.value.env.replyTo == None
    ensures AllFollow(boxes, WithReply(boxes, posted))
  {
    var boxes' := WithReply(boxes, posted);
    forall q | q in boxes'
      ensures exists d :: Follows(boxes, boxes', q, d)
    {
      assert Follows(boxes, boxes', q, 0);
    }
  }

  lemma ReshapedFollows(boxes: map<string, seq<Envelope>>, gone: set<string>, boxes': map<string, seq<Envelope>>)
    requires Reshaped(boxes, gone, boxes')
    ensures AllFollow(boxes, boxes')
  {
    forall q | q in boxes'
      ensures exists d :: Follows(boxes, boxes', q, d)
    {
      if boxes'[q] == [] {
        assert Follows(boxes, boxes', q, if q in boxes then |boxes[q]| else 0);
      } else {
        assert Follows(boxes, boxes', q, 0);
      }
    }
  }

  /** A command that is sent goes behind all that wait. */
  lemma SentOrdered(boxes: map<string, seq<Envelope>>, commands: seq<Command>, c: Command,
                    boxes': map<string, seq<Envelope>>)
    requires Ordered(boxes, commands) && forall k | 0 <= k < |commands| :: commands[k].cid != c.cid
    requires c.target.QueueOf? ==> c.target.id in boxes
    requires boxes' == if c.target.QueueOf? then Pushed(boxes, c.target.id, CommandEnvelope(c)) else boxes
    ensures Ordered(boxes', commands + [c])
  {
    hide CommandEnvelope;
    var more := commands + [c];
    forall q, p: nat, k: nat, k': nat |
      CommandAt(boxes', more, q, p, k) && k < k' < |more| && more[k'].target == QueueOf(q)
      ensures Behind(boxes', more, q, p, k')
    {
      CommandCid(c);
      CommandCid(commands[k]);
      assert p < |boxes[q]| && CommandAt(boxes, commands, q, p, k);
      if k' == |commands| {
        assert CommandAt(boxes', more, q, |boxes[q]|, k');
      } else {
        assert Behind(boxes, commands, q, p, k');
        var p' :| p' > p && CommandAt(boxes, commands, q, p', k');
        assert CommandAt(boxes', more, q, p', k');
      }
    }
  }

  // ---- every step ----

  lemma SendOrder(nodes: set<Name>, s: System, c: Command)
    requires Enabled(s, Send(c)) && Right(nodes, s) && Ordered(s.boxes, s.log.commands)
    ensures Ordered(Step(s, Send(c)).boxes, Step(s, Send(c)).log.commands)
  {
    hide Right, Ordered, Fresh, Pushed, CommandEnvelope, EnvelopeOf;
    var boxes := s.boxes[c.replyTo := []];
    FreshQueue(nodes, s, c.cid, c.replyTo);
    FreshCid(nodes, s, c);
    AppearedFollows(s.boxes, c.replyTo);
    FollowingOrdered(s.boxes, boxes, s.log.commands);
    SentOrdered(boxes, s.log.commands, c, Step(s, Send(c)).boxes);
  }

  lemma AppearedFollows(boxes: map<string, seq<Envelope>>, q: string)
    requires q !in boxes
    ensures AllFollow(boxes, boxes[q := []])
  {
    var boxes' := boxes[q := []];
    forall q' | q' in boxes'
      ensures exists d :: Follows(boxes, boxes', q', d)
    {
      assert Follows(boxes, boxes', q', 0);
    }
  }

  lemma FreshCid(nodes: set<Name>, s: System, c: Command)
    requires Right(nodes, s) && Fresh(s.log, c.cid, c.replyTo)
    ensures forall k | 0 <= k < |s.log.commands| :: s.log.commands[k].cid != c.cid
  {
    hide PeersRight, RecordsRight, WaitsRight, QueueRight, ListsRight, BoxesRight, EntriesRight, ServicesRight,
         RepliesRight;
    forall k | 0 <= k < |s.log.commands|
      ensures s.log.commands[k].cid != c.cid
    {
      CommandIssued(nodes, s.log, k);
    }
  }

  /** A node's watch takes the head of a queue and posts a reply, which is no command. */
  lemma WatchOrder(s: System, n: Name, q: string, handled: Option<string>, posts: bool)
    requires Enabled(s, Watch(n, q, handled, posts)) && Ordered(s.boxes, s.log.commands)
    ensures Ordered(Step(s, Watch(n, q, handled, posts)).boxes, s.log.commands)
  {
    hide Ordered, Popped, WithReply, Served, AllFollow;
    var env, boxes := s.boxes[q][0], Popped(s.boxes, q);
    PoppedFollows(s.boxes, q);
    FollowingOrdered(s.boxes, boxes, s.log.commands);
    RepliedFollows(boxes, Delivered(boxes, CommandReply(env, handled), posts));
    FollowingOrdered(boxes, Step(s, Watch(n, q, handled, posts)).boxes, s.log.commands);
  }

  lemma ServeOrder(s: System, posts: bool)
    requires Enabled(s, Serve(posts)) && Ordered(s.boxes, s.log.commands)
    ensures Ordered(Step(s, Serve(posts)).boxes, s.log.commands)
  {
    hide Ordered, WithReply, Served, AllFollow, EffectFor, Apply;
    RepliedFollows(s.boxes, Delivered(s.boxes, ReplyTo(s.enrolQueue[0]), posts));
    FollowingOrdered(s.boxes, Step(s, Serve(posts)).boxes, s.log.commands);
  }

  lemma LiveOrder(s: System, n: Name, e: Lifecycle.Event, boxes': map<string, seq<Envelope>>)
    requires n in s.peers && Ordered(s.boxes, s.log.commands)
    requires boxes' == (s.boxes - QueuesGone(s, n, s.peers[n], e)) + QueuesNew(s, n, e)
    ensures Ordered(boxes', s.log.commands)
  {
    hide Ordered, QueuesGone, AllFollow;
    ReshapedFollows(s.boxes, QueuesGone(s, n, s.peers[n], e), boxes');
    FollowingOrdered(s.boxes, boxes', s.log.commands);
  }

  lemma StepOrder(nodes: set<Name>, s: System, a: Action)
    requires Enabled(s, a) && Right(nodes, s) && Ordered(s.boxes, s.log.commands)
    ensures Ordered(Step(s, a).boxes, Step(s, a).log.commands)
  {
    hide Right, Ordered, Pushed, Popped, EnvelopeOf, Outcome, QueuesGone, ConsumersAfter, Undecided, Sources, MayCall,
         Lived, AfterWatch, AfterSend, AllDiscarded, Fresh, WithReply, AllFollow;
    match a
    case Publish(_, _, cid, q) =>
      FreshQueue(nodes, s, cid, q);
      AppearedFollows(s.boxes, q);
      FollowingOrdered(s.boxes, s.boxes[q := []], s.log.commands);
    case Consume(_) =>
    case Draw(_, q) =>
      PoppedFollows(s.boxes, q);
      FollowingOrdered(s.boxes, Popped(s.boxes, q), s.log.commands);
    case Break(_, _) =>
    case Finish(n, after) => LiveOrder(s, n, Outcome(s.peers[n].call.value, after), Step(s, a).boxes);
    case Alone(n, e) => LiveOrder(s, n, e, Step(s, a).boxes);
    case Watch(n, q, handled, posts) => WatchOrder(s, n, q, handled, posts); WatchCommands(s, a);
    case Serve(posts) => ServeOrder(s, posts);
    case Send(c) => SendOrder(nodes, s, c);
    case Receive(k) =>
      PoppedFollows(s.boxes, s.log.commands[k].replyTo);
      FollowingOrdered(s.boxes, Popped(s.boxes, s.log.commands[k].replyTo), s.log.commands);
    case Lose(_, _) =>
    case HangUp(k) =>
      ReshapedFollows(s.boxes, {s.log.commands[k].replyTo}, Step(s, a).boxes);
      FollowingOrdered(s.boxes, Step(s, a).boxes, s.log.commands);
  }

  lemma WatchCommands(s: System, a: Action)
    requires Enabled(s, a) && a.Watch?
    ensures Step(s, a).log.commands == s.log.commands
  {
    hide Served, CommandReply;
  }

  lemma {:induction false} RunOrder(nodes: set<Name>, actions: seq<Action>)
    requires Reachable(nodes, actions)
    ensures Ordered(Final(nodes, actions).boxes, Final(nodes, actions).log.commands)
    decreases |actions|
  {
    hide Right, Enabled, Step, Ordered;
    if actions == [] {
      assert Ordered(Start(nodes).boxes, []) by { NothingOrdered(nodes); }
    } else {
      RunOrder(nodes, actions[..|actions| - 1]);
      RunRight(nodes, actions[..|actions| - 1]);
      StepOrder(nodes, Final(nodes, actions[..|actions| - 1]), actions[|actions| - 1]);
    }
  }

  lemma NothingOrdered(nodes: set<Name>)
    ensures Ordered(Start(nodes).boxes, []) && Start(nodes).log.commands == []
  {
  }

  /** In every reachable state no command to a node overtakes another: while one waits in the node's
      queue, every command sent to that queue after it waits there too, behind it. */
  lemma NoOvertaking(nodes: set<Name>, actions: seq<Action>, q: string, p: nat, k: nat, k': nat)
    requires Reachable(nodes, actions)
    requires var s := Final(nodes, actions);
             k < k' < |s.log.commands| && s.log.commands[k].target == s.log.commands[k'].target == QueueOf(q) &&
             q in s.boxes && p < |s.boxes[q]| && s.boxes[q][p] == CommandEnvelope(s.log.commands[k])
    ensures var s := Final(nodes, actions);
            q in s.boxes && exists p' :: p < p' < |s.boxes[q]| && s.boxes[q][p'] == CommandEnvelope(s.log.commands[k'])
  {
    hide Exec;
    RunOrder(nodes, actions);
    var s := Final(nodes, actions);
    assert CommandAt(s.boxes, s.log.commands, q, p, k);
    assert Behind(s.boxes, s.log.commands, q, p, k');
  }
}
