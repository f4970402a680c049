/** What can happen: runs of the whole system that exist for every node and from every reachable state. */
module Runs {
  import opened Common
  import opened Json
  import opened Requests
  import opened RpcWait
  import opened Messages
  import opened Arbiter
  import opened Protocol
  import opened Invariant
  import opened Theorems
  import opened Divergence
  import opened Queues
  import opened Budget
  import Lifecycle

  // ---- every life happens ----

  /** A node asks the arbiter exactly for what it would succeed in if the arbiter agreed. */
  lemma MayCallExactly(v: Lifecycle.View, p: Purpose)
    ensures MayCall(v, p) <==> Lifecycle.Ret(v, Success(p, true)) == Ok
  {
  }

  /** Ids and queues used up by the first m of these. */
  predicate UsedUp(g: Log, n: Name, names: seq<(string, string)>, m: nat)
    requires m <= |names|
  {
    && (forall cid | cid in g.cids :: exists i | 0 <= i < m :: names[i].0 == cid)
    && (forall q | q in g.names :: q == n.id || exists i | 0 <= i < m :: names[i].1 == q)
  }

  lemma NextFresh(g: Log, n: Name, names: seq<(string, string)>, m: nat)
    requires m < |names| && UsedUp(g, n, names, m) && AllApart({n.id}, names)
    ensures Fresh(g, names[m].0, names[m].1)
  {
    hide WellFormedCid;
  }

  lemma UsedMore(g: Log, h: Log, n: Name, names: seq<(string, string)>, m: nat)
    requires m < |names| && UsedUp(g, n, names, m)
    requires h.cids <= g.cids + {names[m].0} && h.names <= g.names + {names[m].1}
    ensures UsedUp(h, n, names, m + 1)
  {
  }

  /** The call that makes this event, for an event that publishes something. */
  function CallFor(e: Lifecycle.Event): (Purpose, bool)
    requires !PublishesNothing(e)
  {
    match e
    case EnrolNow(_) => (ToEnroll, true)
    case Fire(timer, _) => (ToEnrollLazily(timer), true)
    case DelistNow(_) => (ToDelist, true)
    case ActivateNow(_, subscribed) => (ToActivate, subscribed)
  }

  /** An event that publishes something changes a node only if the node may make that call. */
  lemma CallMakes(v: Lifecycle.View, e: Lifecycle.Event)
    requires !PublishesNothing(e)
    ensures Success(CallFor(e).0, CallFor(e).1) == e
    ensures !MayCall(v, CallFor(e).0) ==> Lifecycle.Next(v, e) == v
  {
  }

  /** n rests, has lived this life, and has used up no more than the first m ids and queues. */
  ghost predicate LivedSo(actions: seq<Action>, n: Name, life: seq<Lifecycle.Event>, names: seq<(string, string)>,
                          m: nat)
    requires m <= |names|
  {
    Settled({n}, actions, n) && UsedUp(Final({n}, actions).log, n, names, m) &&
    Final({n}, actions).log.commands == [] &&
    Final({n}, actions).peers[n].view == Lifecycle.Run(Lifecycle.INITIAL, life)
  }

  lemma AloneSettles(s: System, n: Name, e: Lifecycle.Event)
    requires Resting(s, n) && PublishesNothing(e)
    ensures Enabled(s, Alone(n, e))
    ensures var s' := Step(s, Alone(n, e));
            Resting(s', n) && s'.enrolQueue == s.enrolQueue && s'.log == s.log &&
            s'.peers[n].view == Lifecycle.Next(s.peers[n].view, e)
  {
    hide PublishesNothing, Lifecycle.Next, ConsumersAfter, QueuesGone, QueuesNew, Within, HeardAfter;
  }

  lemma LiveAlone(actions: seq<Action>, n: Name, life: seq<Lifecycle.Event>, names: seq<(string, string)>, m: nat,
                  e: Lifecycle.Event)
    requires m < |names| && LivedSo(actions, n, life, names, m) && PublishesNothing(e)
    ensures LivedSo(actions + [Alone(n, e)], n, life + [e], names, m + 1)
  {
    hide Exec, PublishesNothing, Lifecycle.Next, Lifecycle.Run, Step, Enabled;
    AloneSettles(Final({n}, actions), n, e);
    ExecMore({n}, actions, Alone(n, e));
    Lifecycle.RunLast(Lifecycle.INITIAL, life, e);
    UsedMore(Final({n}, actions).log, Final({n}, actions).log, n, names, m);
  }

  lemma LiveCall(actions: seq<Action>, n: Name, life: seq<Lifecycle.Event>, names: seq<(string, string)>, m: nat,
                 e: Lifecycle.Event) returns (more: seq<Action>)
    requires m < |names| && LivedSo(actions, n, life, names, m) && AllApart({n.id}, names) && Plain(n.id)
    requires !PublishesNothing(e)
    ensures LivedSo(more, n, life + [e], names, m + 1)
  {
    hide Exec, PublishesNothing, Lifecycle.Next, Lifecycle.Run, MayCall, AllApart, Plain, Agreeable, Success, CallFor,
         SameOthers, Fresh, UsedUp;
    var v, s := Lifecycle.Run(Lifecycle.INITIAL, life), Final({n}, actions);
    var (p, after) := CallFor(e);
    CallMakes(v, e);
    Lifecycle.RunLast(Lifecycle.INITIAL, life, e);
    if MayCall(v, p) {
      PlainAgreeable(n);
      NextFresh(s.log, n, names, m);
      more := RoundTrip({n}, actions, n, p, names[m].0, names[m].1, after);
      UsedMore(s.log, Final({n}, more).log, n, names, m);
    } else {
      more := actions;
      UsedMore(s.log, s.log, n, names, m);
    }
  }

  /** Every life of Lifecycle happens inside the whole system, for every node with a plain id and all
      fresh ids and queues: it leads to a state in which the node is what that life makes of it. */
  lemma {:induction false} LivesHappen(n: Name, life: seq<Lifecycle.Event>, names: seq<(string, string)>)
    returns (actions: seq<Action>)
    requires Plain(n.id) && |names| >= |life| && AllApart({n.id}, names)
    ensures Reachable({n}, actions) && n in Final({n}, actions).peers
    ensures Final({n}, actions).peers[n].view == Lifecycle.Run(Lifecycle.INITIAL, life)
    ensures LivedSo(actions, n, life, names, |life|)
    decreases |life|
  {
    hide Exec, PublishesNothing, Lifecycle.Next, AllApart, Plain, Agreeable;
    if life == [] {
      StartSettled(n);
      actions := [];
    } else {
      var front, e := life[..|life| - 1], life[|life| - 1];
      assert life == front + [e];
      actions := LivesHappen(n, front, names);
      if PublishesNothing(e) {
        LiveAlone(actions, n, front, names, |front|, e);
        actions := actions + [Alone(n, e)];
      } else {
        actions := LiveCall(actions, n, front, names, |front|, e);
      }
    }
  }

  // ---- every wait can end ----

  /** In every state an open call can come to its end, whatever the rest of the system does or fails to
      do: a wait that goes on can run into a timeout or a failure, and one that is over can finish, with
      or without what follows going well. */
  lemma CallsCanEnd(s: System, n: Name, cause: Event, after: bool)
    requires n in s.peers && s.peers[n].call.Some? && (cause == Timeout || cause == Failure)
    ensures if Enabled(s, Break(n, cause)) then
              var s' := Step(s, Break(n, cause)); Enabled(s', Finish(n, after)) && Ended(Step(s', Finish(n, after)), n)
            else Enabled(s, Finish(n, after)) && Ended(Step(s, Finish(n, after)), n)
  {
    hide Undecided, Outcome, BodyOf;
    var c := s.peers[n].call.value;
    BrokenDecided(c, cause);
    if Undecided(c) {
      var s' := Step(s, Break(n, cause));
      assert s'.peers[n].call == Some(c.(drawn := c.drawn + [cause]));
      FinishEnds(s', n, after);
    } else {
      FinishEnds(s, n, after);
    }
  }

  /** n is not calling any more, and its call is recorded. */
  predicate Ended(s: System, n: Name)
  {
    n in s.peers && s.peers[n].call == None && s.records != [] && s.records[|s.records| - 1].who == n
  }

  lemma FinishEnds(s: System, n: Name, after: bool)
    requires Enabled(s, Finish(n, after))
    ensures Ended(Step(s, Finish(n, after)), n)
  {
    hide Outcome, Lifecycle.Next, Lifecycle.Ret, HeardAfter, ConsumersAfter, QueuesGone, QueuesNew, Within, BodyOf,
         Undecided;
  }

  /** So can the wait of every sender that has not been answered; every queued text can be taken, with
      or without its reply reaching its queue; and a sender can always hang up. */
  lemma WaitsCanEnd(s: System, k: nat, cause: Event, posts: bool)
    requires cause == Timeout || cause == Failure
    ensures k < |s.waits| && k < |s.log.commands| && s.waits[k] == [] ==> Enabled(s, Lose(k, cause))
    ensures s.enrolQueue != [] ==> Enabled(s, Serve(posts))
    ensures k < |s.log.commands| ==> Enabled(s, HangUp(k))
  {
  }

  lemma BrokenDecided(c: Call, cause: Event)
    requires cause == Timeout || cause == Failure
    ensures !Undecided(c.(drawn := c.drawn + [cause]))
  {
    assert (c.drawn + [cause])[|c.drawn|] == cause;
    assert Judge(c.cid, cause) != Discard;
  }

  // ---- commands answered ----

  /** With its watch attached, a resting node can draw whatever waits in a queue it consumes from. */
  lemma {:induction false} Emptied(nodes: set<Name>, actions: seq<Action>, n: Name, q: string)
    returns (more: seq<Action>)
    requires Reachable(nodes, actions) && n in nodes && Resting(Final(nodes, actions), n)
    requires var p := Final(nodes, actions).peers[n]; p.view.sources != {} && q in p.consumers
    requires q in Final(nodes, actions).boxes
    ensures Reachable(nodes, actions + more)
    ensures forall i | 0 <= i < |more| :: more[i] == Watch(n, q, None, false)
    ensures var s, s' := Final(nodes, actions), Final(nodes, actions + more);
            && s'.boxes == s.boxes[q := []] && s'.waits == s.waits && s'.peers.Keys == s.peers.Keys
            && Resting(s', n) && s'.peers[n].view == s.peers[n].view && s'.peers[n].consumers == s.peers[n].consumers
            && s'.log.commands == s.log.commands && s'.log.cids == s.log.cids && s'.log.names == s.log.names
    decreases |Final(nodes, actions).boxes[q]|
  {
    hide Exec, Enabled, Step;
    var s := Final(nodes, actions);
    if s.boxes[q] == [] {
      more := [];
      assert actions + more == actions;
      assert s.boxes == s.boxes[q := []];
    } else {
      var a := Watch(n, q, None, false);
      WatchDrops(s, n, q);
      ExecMore(nodes, actions, a);
      var rest := Emptied(nodes, actions + [a], n, q);
      more := [a] + rest;
      assert actions + more == actions + [a] + rest;
    }
  }

  lemma WatchDrops(s: System, n: Name, q: string)
    requires Resting(s, n) && s.peers[n].view.sources != {} && q in s.peers[n].consumers && q in s.boxes
    requires s.boxes[q] != []
    ensures Enabled(s, Watch(n, q, None, false))
    ensures var s' := Step(s, Watch(n, q, None, false));
            && s'.boxes == s.boxes[q := s.boxes[q][1..]] && s'.waits == s.waits && s'.peers.Keys == s.peers.Keys
            && Resting(s', n) && s'.peers[n].view == s.peers[n].view && s'.peers[n].consumers == s.peers[n].consumers
            && s'.log.commands == s.log.commands && s'.log.cids == s.log.cids && s'.log.names == s.log.names
  {
    hide Served, CommandReply;
  }

  /** The command is put on the node's empty queue. */
  lemma CommandSent(s: System, n: Name, c: Command)
    requires n in s.peers && n.id in s.boxes && s.boxes[n.id] == [] && n.id != c.replyTo
    requires c.target == QueueOf(n.id) && Fresh(s.log, c.cid, c.replyTo)
    ensures Enabled(s, Send(c))
    ensures var s' := Step(s, Send(c));
            && s'.peers == s.peers && s'.waits == s.waits + [[]] && s'.log.commands == s.log.commands + [c]
            && s'.log.services == s.log.services
            && n.id in s'.boxes && s'.boxes[n.id] == [CommandEnvelope(c)]
            && c.replyTo in s'.boxes && s'.boxes[c.replyTo] == []
  {
    hide CommandEnvelope, Fresh;
    InIds(s, n);
  }

  /** The node's watch serves it, and the reply is posted. */
  lemma CommandWatched(s: System, n: Name, c: Command, handled: Option<string>, reply: Posted)
    requires Resting(s, n) && s.peers[n].view.sources != {} && n.id in s.peers[n].consumers && n.id != c.replyTo
    requires n.id in s.boxes && s.boxes[n.id] == [CommandEnvelope(c)]
    requires c.replyTo in s.boxes && s.boxes[c.replyTo] == []
    requires CommandReply(CommandEnvelope(c), handled) == Some(reply) && reply.queue == c.replyTo
    ensures Enabled(s, Watch(n, n.id, handled, true))
    ensures var s' := Step(s, Watch(n, n.id, handled, true));
            && s'.waits == s.waits && s'.log.commands == s.log.commands
            && n in s'.peers && s'.peers[n].view == s.peers[n].view
            && s'.log.services == s.log.services + [Service(n, n.id, CommandEnvelope(c), handled, Some(reply))]
            && c.replyTo in s'.boxes && s'.boxes[c.replyTo] == [reply.env]
  {
    hide CommandEnvelope, Served, ReplyWith;
    var boxes := Popped(s.boxes, n.id);
    assert boxes[c.replyTo] + [reply.env] == [reply.env];
  }

  /** The sender draws it. */
  lemma CommandReceived(s: System, k: nat, env: Envelope)
    requires k < |s.waits| && k < |s.log.commands| && s.waits[k] == []
    requires s.log.commands[k].replyTo in s.boxes && s.boxes[s.log.commands[k].replyTo] == [env]
    ensures Enabled(s, Receive(k))
    ensures var s' := Step(s, Receive(k));
            && s'.log == s.log && s'.peers == s.peers && |s'.waits| == |s.waits| && s'.waits[k] == [Arrived(env)]
  {
  }

  /** All three: the node served the command, and what its sender has drawn is the node's response. */
  lemma CommandRuns(nodes: set<Name>, actions: seq<Action>, n: Name, c: Command, handled: Option<string>)
    returns (all: seq<Action>)
    requires Reachable(nodes, actions) && n in nodes && Resting(Final(nodes, actions), n)
    requires var s := Final(nodes, actions);
             && s.peers[n].view.sources != {} && n.id in s.peers[n].consumers
             && n.id in s.boxes && s.boxes[n.id] == [] && n.id != c.replyTo
             && c.target == QueueOf(n.id) && Fresh(s.log, c.cid, c.replyTo) && |s.waits| == |s.log.commands|
    requires CommandReply(CommandEnvelope(c), handled) == Some(Reply(c.replyTo, c.cid, CommandAnswer(c.text, handled)))
    ensures all == actions + [Send(c)] + [Watch(n, n.id, handled, true)] +
                   [Receive(|Final(nodes, actions).log.commands|)]
    ensures Reachable(nodes, all) && CommandDone(Final(nodes, actions), Final(nodes, all), n, c, handled)
  {
    hide Exec, Enabled, Step, CommandReply, CommandEnvelope, Fresh, CommandAnswer;
    var s, k := Final(nodes, actions), |Final(nodes, actions).log.commands|;
    var reply := Reply(c.replyTo, c.cid, CommandAnswer(c.text, handled));
    CommandSent(s, n, c);
    ExecMore(nodes, actions, Send(c));
    var s1 := Step(s, Send(c));
    CommandWatched(s1, n, c, handled, reply);
    ExecMore(nodes, actions + [Send(c)], Watch(n, n.id, handled, true));
    var s2 := Step(s1, Watch(n, n.id, handled, true));
    CommandReceived(s2, k, reply.env);
    ExecMore(nodes, actions + [Send(c)] + [Watch(n, n.id, handled, true)], Receive(k));
    all := actions + [Send(c)] + [Watch(n, n.id, handled, true)] + [Receive(k)];
  }

  lemma InIds(s: System, n: Name)
    requires n in s.peers
    ensures n.id in Ids(s.peers.Keys)
  {
  }

  /** The node served the command, and all its sender has drawn is the node's response. */
  predicate CommandDone(s: System, s3: System, n: Name, c: Command, handled: Option<string>)
  {
    var k := |s.log.commands|;
    var response := CommandAnswer(c.text, handled);
    && s3.log.commands == s.log.commands + [c] && |s3.waits| == k + 1
    && n in s.peers && n in s3.peers && s3.peers[n].view == s.peers[n].view
    && s3.waits[k] == [Arrived(Reply(c.replyTo, c.cid, response).env)]
    && |s3.log.services| == |s.log.services| + 1
    && s3.log.services[|s.log.services|] ==
       Service(n, n.id, CommandEnvelope(c), handled, Some(Reply(c.replyTo, c.cid, response)))
  }

  /** In every reachable state a command can be sent to a resting node whose watch is attached, the node
      serves it after what waits in its queue, and its response is what the sender of the command takes
      for the response. */
  lemma CommandAnswered(nodes: set<Name>, actions: seq<Action>, n: Name, c: Command, handled: Option<string>)
    returns (more: seq<Action>)
    requires Reachable(nodes, actions) && n in nodes && Resting(Final(nodes, actions), n)
    requires Final(nodes, actions).peers[n].view.sources != {}
    requires c.target == QueueOf(n.id) && Fresh(Final(nodes, actions).log, c.cid, c.replyTo)
    ensures Reachable(nodes, actions + more)
    ensures var s, s' := Final(nodes, actions), Final(nodes, actions + more);
            var k := |s.log.commands|;
            var response := if ReadObject(c.text).None? then Answer("failed to parse body")
                            else if handled.None? then Answer("not ok")
                            else handled.value;
            && s'.log.commands == s.log.commands + [c] && |s'.waits| == k + 1
            && n in s'.peers && s'.peers[n].view == s.peers[n].view
            && LastBody(c.cid, s'.waits[k]) == Some(UpToNul(response))
            && s'.log.services != []
            && s'.log.services[|s'.log.services| - 1] ==
               Service(n, n.id, CommandEnvelope(c), handled, Some(Reply(c.replyTo, c.cid, response)))
  {
    hide Exec, Enabled, Step, CommandReply, CommandEnvelope, Fresh, Right, CommandAnswer, LastBody, Arrived, Reply;
    WatchedConsumes(nodes, actions, n);
    var empty := Emptied(nodes, actions, n, n.id);
    var s := Final(nodes, actions + empty);
    RunRight(nodes, actions + empty);
    RightWaits(nodes, s);
    FreshNotId(nodes, actions, n, c);
    FreshReply(c, handled, Final(nodes, actions).log);
    SameFresh(Final(nodes, actions).log, s.log, c.cid, c.replyTo);
    var all := CommandRuns(nodes, actions + empty, n, c, handled);
    more := empty + [Send(c)] + [Watch(n, n.id, handled, true)] + [Receive(|s.log.commands|)];
    assert actions + more == all;
    RespondedLast(c, handled);
  }

  lemma RightWaits(nodes: set<Name>, s: System)
    requires Right(nodes, s)
    ensures |s.waits| == |s.log.commands|
  {
  }

  lemma FreshNotId(nodes: set<Name>, actions: seq<Action>, n: Name, c: Command)
    requires Reachable(nodes, actions) && n in nodes && Fresh(Final(nodes, actions).log, c.cid, c.replyTo)
    ensures n.id != c.replyTo
  {
    hide Exec, Right;
    RunRight(nodes, actions);
    RunPlaced(nodes, actions);
    FreshApart(nodes, Final(nodes, actions), c.replyTo);
    OwnQueueId(nodes, n);
  }

  lemma FreshReply(c: Command, handled: Option<string>, g: Log)
    requires Fresh(g, c.cid, c.replyTo)
    ensures CommandReply(CommandEnvelope(c), handled) == Some(Reply(c.replyTo, c.cid, CommandAnswer(c.text, handled)))
  {
    hide CommandAnswer, IsJson;
    SendingServed(c.text, c.replyTo, c.cid, CommandAnswer(c.text, handled));
  }

  lemma RespondedLast(c: Command, handled: Option<string>)
    ensures LastBody(c.cid, [Arrived(Reply(c.replyTo, c.cid, CommandAnswer(c.text, handled)).env)]) ==
            Some(UpToNul(CommandAnswer(c.text, handled)))
    ensures CommandAnswer(c.text, handled) ==
            if ReadObject(c.text).None? then Answer("failed to parse body")
            else if handled.None? then Answer("not ok")
            else handled.value
  {
    hide ReadObject, Answer, UpToNul, Matches;
    MatchesExactly(c.cid, c.cid);
  }

  /** For every plain node there is a run in which it enrols, activates, is sent a command and answers it:
      the response reaches the sender. */
  lemma ActivatesAndServes(n: Name, names: seq<(string, string)>, text: string, handled: Option<string>)
    returns (actions: seq<Action>)
    requires Plain(n.id) && |names| == 3 && AllApart({n.id}, names)
    ensures Reachable({n}, actions)
    ensures var s := Final({n}, actions);
            var response := if ReadObject(text).None? then Answer("failed to parse body")
                            else if handled.None? then Answer("not ok")
                            else handled.value;
            && n in s.peers && s.peers[n].view.state == Activated && s.peers[n].view.emitted == [Enrolled, Activated]
            && s.log.commands == [Command(QueueOf(n.id), text, names[2].1, names[2].0)] && |s.waits| == 1
            && LastBody(names[2].0, s.waits[0]) == Some(UpToNul(response))
            && s.log.services != [] && s.log.services[|s.log.services| - 1].posted ==
                                       Some(Reply(names[2].1, names[2].0, response))
  {
    hide Exec, AllApart, Plain, LastBody, Reply, UpToNul, ReadObject, Fresh, Lifecycle.Run, Answer;
    var life := [Lifecycle.EnrolNow(true), Lifecycle.ActivateNow(true, true)];
    var c := Command(QueueOf(n.id), text, names[2].1, names[2].0);
    ActivatedView();
    actions := LivesHappen(n, life, names);
    var s := Final({n}, actions);
    NextFresh(s.log, n, names, 2);
    var more := CommandAnswered({n}, actions, n, c, handled);
    actions := actions + more;
  }

  lemma ActivatedView()
    ensures var v := Lifecycle.Run(Lifecycle.INITIAL, [Lifecycle.EnrolNow(true), Lifecycle.ActivateNow(true, true)]);
            v.state == Activated && v.sources != {} && v.emitted == [Enrolled, Activated]
  {
    Lifecycle.RunTwo(Lifecycle.INITIAL, Lifecycle.EnrolNow(true), Lifecycle.ActivateNow(true, true));
  }
}
