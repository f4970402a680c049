/** The objects of Node and Arbiter carry out the protocol. Every run of the protocol can be replayed
    on a node object, call after call over the connections it really has: the object goes through the
    protocol's states, returns what the protocol records and sends what the protocol publishes. */
module Refinement {
  import opened Common
  import opened Requests
  import opened RpcWait
  import opened Messages
  import opened Loop
  import opened Protocol
  import opened Invariant
  import opened Theorems
  import A = Arbiter
  import Lifecycle
  import Registry
  import N = Node

  // ---- one call ----

  /** A settled call's body is what the bounded loop returns on the messages the call drew. */
  lemma CallIsLoop(c: Call) returns (error: Option<Reason>)
    requires c.consuming && !Undecided(c) && |c.drawn| <= BUDGET
    requires c.drawn != [] ==> AllDiscarded(c.cid, c.drawn[..|c.drawn| - 1])
    ensures Bounded(c.cid, c.drawn, BodyOf(c), error)
  {
    if AllDiscarded(c.cid, c.drawn) {
      error := Some(NoAnswer);
      assert c.drawn != [] ==> Judge(c.cid, c.drawn[|c.drawn| - 1]) == Discard;
    } else {
      assert c.drawn != [];
      var last := |c.drawn| - 1;
      assert forall i | 0 <= i < last :: c.drawn[i] == c.drawn[..last][i];
      error := match Judge(c.cid, c.drawn[last]) case GiveUp(reason) => Some(reason) case _ => None;
    }
  }

  /** The surroundings of a call that got as far as publishing its request. */
  function LinkOf(c: Call): N.Link
  {
    N.Link(true, Setup(true, true, true, c.consuming), c.cid)
  }

  /** The object accepts the answer exactly when the protocol's call does, draws as many messages, and
      the text it sends is the body of the request the protocol published. */
  lemma CallRefines(n: Name, c: Call, g: Log, events: nat -> Event, from: nat)
    requires CallRight(n, c, g) && !Undecided(c)
    requires c.drawn == Slice(events, from, |c.drawn|)
    ensures N.Accepted(LinkOf(c), events, from, OpOf(c.purpose)) <==> Accepted(c)
    ensures N.Drawn(LinkOf(c), events, from) == |c.drawn|
    ensures N.Sent(LinkOf(c), OpOf(c.purpose), n.kind, n.id) == EnvelopeOf(g.published[c.index]).body
  {
    hide Undecided, Validates, Answered, PrintRequest, WaitBody, BodyOf;
    if c.consuming {
      var error := CallIsLoop(c);
      ResultOfWait(c.cid, events, from, |c.drawn|, BodyOf(c), error);
    }
  }

  /** A call that fails before it publishes is one of the protocol's events that publish nothing. */
  lemma UnsentIsAlone(link: N.Link, events: nat -> Event, from: nat, purpose: Purpose, after: bool)
    requires !N.Sends(link)
    ensures !N.Accepted(link, events, from, OpOf(purpose)) && N.Drawn(link, events, from) == 0
    ensures var ok := N.Accepted(link, events, from, OpOf(purpose));
            PublishesNothing(match purpose
                             case ToEnroll => Lifecycle.EnrolNow(ok)
                             case ToEnrollLazily(timer) => Lifecycle.Fire(timer, ok)
                             case ToDelist => Lifecycle.DelistNow(ok && after)
                             case ToActivate => Lifecycle.ActivateNow(ok, after))
  {
  }

  // ---- a node object and the protocol's node ----

  /** The object has the node's value, and its connection has given what the node heard on its latest
      one; `incoming` gives the stream of each connection in turn. */
  ghost predicate Coupled(node: N.Node, p: Peer, incoming: nat -> (nat -> Event))
    reads node, node.loop, node.backend, if node.backend == null then {} else {node.backend.conn}
  {
    node.Valid() && node.Value() == p.view &&
    (node.backend != null ==>
       p.heard != [] && node.backend.conn.incoming == incoming(|p.heard| - 1) &&
       node.backend.conn.taken == |p.heard[|p.heard| - 1]|)
  }

  /** What was heard on each connection is what its stream gives first. */
  ghost predicate Feeds(incoming: nat -> (nat -> Event), heard: seq<seq<Event>>)
  {
    forall c: nat | c < |heard| :: heard[c] == Slice(incoming(c), 0, |heard[c]|)
  }

  /** What a call draws from the main connection is what the stream gives next. */
  lemma NextDrawn(p: Peer, e: Lifecycle.Event, drawn: seq<Event>, incoming: nat -> (nat -> Event))
    requires Feeds(incoming, HeardAfter(p, e, drawn))
    requires p.view.backend.Some? ==> p.heard != []
    requires p.view.backend.Some? || Lifecycle.Next(p.view, e).backend.Some?
    ensures p.view.backend.Some? ==> drawn == Slice(incoming(|p.heard| - 1), |p.heard[|p.heard| - 1]|, |drawn|)
    ensures p.view.backend.None? ==> drawn == Slice(incoming(|p.heard|), 0, |drawn|)
  {
    hide Lifecycle.Next, Slice;
    var h := HeardAfter(p, e, drawn);
    var last := |h| - 1;
    var before := if p.view.backend.Some? then p.heard[last] else [];
    assert h[last] == before + drawn;
    SliceTail(before, drawn, incoming(last));
  }

  lemma SliceTail(before: seq<Event>, drawn: seq<Event>, events: nat -> Event)
    requires before + drawn == Slice(events, 0, |before| + |drawn|)
    ensures drawn == Slice(events, |before|, |drawn|)
  {
    assert forall i | 0 <= i < |drawn| :: drawn[i] == (before + drawn)[|before| + i];
  }

  /** A connection of its own, which gives what the call drew. */
  function OwnStream(drawn: seq<Event>): nat -> Event
  {
    (i: nat) => if i < |drawn| then drawn[i] else Timeout
  }

  lemma OwnDrawn(drawn: seq<Event>)
    ensures drawn == Slice(OwnStream(drawn), 0, |drawn|)
  {
  }

  /** Carries out on the object the call that node n has open and finishes in state s. */
  method Perform(node: N.Node, s: System, n: Name, after: bool, incoming: nat -> (nat -> Event))
    returns (ret: Return, sent: Option<string>)
    requires Enabled(s, Finish(n, after)) && PeerRight(n, s.peers[n], s.log)
    requires node.kind == n.kind && node.id == n.id && Coupled(node, s.peers[n], incoming)
    requires Feeds(incoming, Step(s, Finish(n, after)).peers[n].heard)
    modifies node, node.Owned()
    ensures fresh(node.Owned() - old(node.Owned()))
    ensures var s' := Step(s, Finish(n, after));
            && Coupled(node, s'.peers[n], incoming)
            && ret == s'.records[|s.records|].ret
            && sent == Some(PrintRequest(OpOf(s.peers[n].call.value.purpose), n.kind, n.id))
  {
    hide Step, PrintRequest, Feeds, PeerRight, Lifecycle.Next, Lifecycle.Ret, HeardAfter, Outcome, MayCall;
    FinishView(s, n, after);
    OpenCall(n, s.peers[n], s.log);
    if s.peers[n].call.value.purpose == ToDelist {
      ret, sent := PerformDelist(node, s.peers[n], n, s.peers[n].call.value, after, s.log, incoming);
    } else {
      ret, sent := PerformMain(node, s.peers[n], n, s.peers[n].call.value, after, s.log, incoming);
    }
  }

  /** A call on the main connection: an enrolment, direct or lazy, or an activation. */
  method PerformMain(node: N.Node, p: Peer, n: Name, c: Call, after: bool, g: Log, incoming: nat -> (nat -> Event))
    returns (ret: Return, sent: Option<string>)
    requires CallRight(n, c, g) && MayCall(p.view, c.purpose) && !Undecided(c) && c.purpose != ToDelist
    requires node.kind == n.kind && node.id == n.id && Coupled(node, p, incoming)
    requires Feeds(incoming, HeardAfter(p, Outcome(c, after), c.drawn))
    modifies node, node.Owned()
    ensures fresh(node.Owned() - old(node.Owned()))
    ensures Coupled(node, Lived(p, Outcome(c, after), c.drawn), incoming)
    ensures ret == Lifecycle.Ret(p.view, Outcome(c, after))
    ensures sent == Some(PrintRequest(OpOf(c.purpose), n.kind, n.id))
  {
    hide N.Accepted, N.Sent, N.Drawn, Accepted, Undecided, BodyOf, Slice, PrintRequest, Feeds, Lifecycle.Next,
         Lifecycle.Ret, HeardAfter,
         CallRight;
    ghost var e := Outcome(c, after);
    var link, next := LinkOf(c), incoming(|p.heard|);
    SentIsPrinted(n, c, g);
    MainHasBackend(p.view, c, after);
    MainCall(n, p, c, e, g, incoming);
    HeardNow(p, e, c.drawn);
    match c.purpose {
      case ToEnroll =>
        ret, sent := node.Enroll(false, 0, 0, link, next);
      case ToEnrollLazily(timer) =>
        var keep;
        keep, sent := node.Fire(timer, link, next);
        FireRet(p.view, timer, Accepted(c));
        ret := if node.state == NodeState.Enrolled then Ok else Fail;
      case ToActivate =>
        ret, sent := node.Activate(link.setup, link.cid, after);
    }
  }

  /** A delist, on a connection of its own. */
  method PerformDelist(node: N.Node, p: Peer, n: Name, c: Call, after: bool, g: Log, incoming: nat -> (nat -> Event))
    returns (ret: Return, sent: Option<string>)
    requires CallRight(n, c, g) && MayCall(p.view, c.purpose) && !Undecided(c) && c.purpose == ToDelist
    requires node.kind == n.kind && node.id == n.id && Coupled(node, p, incoming)
    modifies node, node.Owned()
    ensures fresh(node.Owned() - old(node.Owned()))
    ensures Coupled(node, Lived(p, Outcome(c, after), []), incoming)
    ensures ret == Lifecycle.Ret(p.view, Outcome(c, after))
    ensures sent == Some(PrintRequest(OpOf(c.purpose), n.kind, n.id))
  {
    hide N.Accepted, N.Sent, N.Drawn, Accepted, Undecided, BodyOf, Slice, PrintRequest, Lifecycle.Next,
         Lifecycle.Ret, HeardAfter, CallRight;
    SentIsPrinted(n, c, g);
    OwnDrawn(c.drawn);
    CallRefines(n, c, g, OwnStream(c.drawn), 0);
    DelistDrops(p.view, Accepted(c) && after);
    ret, sent := node.Delist(LinkOf(c), OwnStream(c.drawn), after);
  }

  lemma SentIsPrinted(n: Name, c: Call, g: Log)
    requires CallRight(n, c, g)
    ensures c.index < |g.published| &&
            EnvelopeOf(g.published[c.index]).body == Some(PrintRequest(OpOf(c.purpose), n.kind, n.id))
  {
    hide BodyOf, PrintRequest, OpOf, AllDiscarded;
  }

  lemma OpenCall(n: Name, p: Peer, g: Log)
    requires PeerRight(n, p, g) && p.call.Some?
    ensures CallRight(n, p.call.value, g) && MayCall(p.view, p.call.value.purpose)
  {
  }

  /** A call on the main connection, on the stream that connection has. */
  lemma MainCall(n: Name, p: Peer, c: Call, e: Lifecycle.Event, g: Log, incoming: nat -> (nat -> Event))
    requires CallRight(n, c, g) && !Undecided(c) && MayCall(p.view, c.purpose) && c.purpose != ToDelist
    requires Feeds(incoming, HeardAfter(p, e, c.drawn)) && (p.view.backend.Some? ==> p.heard != [])
    requires p.view.backend.Some? || Lifecycle.Next(p.view, e).backend.Some?
    ensures var events := if p.view.backend.Some? then incoming(|p.heard| - 1) else incoming(|p.heard|);
            var from := if p.view.backend.Some? then |p.heard[|p.heard| - 1]| else 0;
            && (N.Accepted(LinkOf(c), events, from, OpOf(c.purpose)) <==> Accepted(c))
            && N.Drawn(LinkOf(c), events, from) == |c.drawn|
            && N.Sent(LinkOf(c), OpOf(c.purpose), n.kind, n.id) == EnvelopeOf(g.published[c.index]).body
  {
    hide Accepted, Undecided, CallRight, Slice, N.Accepted, N.Drawn, N.Sent, Feeds, HeardAfter;
    NextDrawn(p, e, c.drawn, incoming);
    if p.view.backend.Some? {
      CallRefines(n, c, g, incoming(|p.heard| - 1), |p.heard[|p.heard| - 1]|);
    } else {
      CallRefines(n, c, g, incoming(|p.heard|), 0);
    }
  }

  lemma MainHasBackend(v: Lifecycle.View, c: Call, after: bool)
    requires MayCall(v, c.purpose) && c.purpose != ToDelist
    ensures Lifecycle.Next(v, Outcome(c, after)).backend.Some?
  {
    hide Accepted;
  }

  lemma HeardNow(p: Peer, e: Lifecycle.Event, drawn: seq<Event>)
    requires p.view.backend.Some? ==> p.heard != []
    ensures var h := HeardAfter(p, e, drawn);
            if p.view.backend.Some? then |h| == |p.heard| && |h[|h| - 1]| == |p.heard[|h| - 1]| + |drawn|
            else Lifecycle.Next(p.view, e).backend.Some? ==> |h| == |p.heard| + 1 && |h[|h| - 1]| == |drawn|
  {
    hide Lifecycle.Next;
  }

  lemma FireRet(v: Lifecycle.View, timer: nat, ok: bool)
    requires v.state == Null && timer < |v.timers|
    ensures Lifecycle.Ret(v, Lifecycle.Fire(timer, ok)) ==
            if Lifecycle.Next(v, Lifecycle.Fire(timer, ok)).state == Enrolled then Ok else Fail
  {
  }

  lemma DelistDrops(v: Lifecycle.View, ok: bool)
    ensures Lifecycle.Next(v, Lifecycle.DelistNow(ok)).backend.None?
  {
  }

  lemma FinishView(s: System, n: Name, after: bool)
    requires Enabled(s, Finish(n, after))
    ensures var c := s.peers[n].call.value;
            var v, e, s' := s.peers[n].view, Outcome(c, after), Step(s, Finish(n, after));
            n in s'.peers && s'.peers[n].view == Lifecycle.Next(v, e) &&
            s'.peers[n].heard == HeardAfter(s.peers[n], e, if c.purpose == ToDelist then [] else c.drawn) &&
            s'.records == s.records + [s'.records[|s.records|]] &&
            s'.records[|s.records|].ret == Lifecycle.Ret(v, e) && s'.records[|s.records|].who == n &&
            s'.records[|s.records|].call == c && s'.log == s.log
  {
    hide Outcome, Lifecycle.Next, Lifecycle.Ret, HeardAfter;
  }

  // ---- events without a call ----

  /** Surroundings that let no request out. */
  const DEAD: N.Link := N.Link(false, Setup(false, false, false, false), "")

  /** Carries out on the object an event that publishes nothing. */
  method PerformAlone(node: N.Node, p: Peer, e: Lifecycle.Event, incoming: nat -> (nat -> Event))
    requires PublishesNothing(e) && Coupled(node, p, incoming)
    modifies node, node.Owned()
    ensures fresh(node.Owned() - old(node.Owned()))
    ensures Coupled(node, Lived(p, e, []), incoming)
  {
    hide Lifecycle.Next, Lifecycle.Ret, HeardAfter, PublishesNothing, N.Sent;
    var next := incoming(|p.heard|);
    HeardNow(p, e, []);
    match e {
      case EnrolNow(ok) =>
        NothingAccepted(e, incoming(if node.backend != null then |p.heard| - 1 else |p.heard|), node.StartOf());
        var ret, sent := node.Enroll(false, 0, 0, DEAD, next);
      case EnrolLazily(now, digit) =>
        LazyKeepsBackend(p.view, e);
        var ret, sent := node.Enroll(true, now, digit, DEAD, next);
      case Fire(timer, ok) =>
        NothingAccepted(e, incoming(if node.backend != null then |p.heard| - 1 else |p.heard|), node.StartOf());
        if timer < |node.timers| {
          var keep, sent := node.Fire(timer, DEAD, next);
        } else {
          NoSuchTimer(p.view, e);
        }
      case DelistNow(ok) =>
        NothingAccepted(e, next, 0);
        DelistDrops(p.view, false);
        var ret, sent := node.Delist(DEAD, next, true);
      case ActivateNow(answered, subscribed) =>
        NothingAsked(node.StreamOf(next), node.StartOf(), answered, subscribed);
        var ret, sent := node.Activate(DEAD.setup, "", subscribed);
      case DeactivateNow =>
        var ret := node.Deactivate();
    }
  }

  lemma NothingAccepted(e: Lifecycle.Event, events: nat -> Event, from: nat)
    requires PublishesNothing(e)
    ensures !N.Accepted(DEAD, events, from, Op.Enroll) && !N.Accepted(DEAD, events, from, Op.Delist)
    ensures N.Drawn(DEAD, events, from) == 0
    ensures (e.EnrolNow? || e.Fire? || e.DelistNow?) ==> !e.ok
  {
  }

  lemma NothingAsked(events: nat -> Event, from: nat, answered: bool, subscribed: bool)
    requires PublishesNothing(Lifecycle.ActivateNow(answered, subscribed))
    ensures !answered && !N.Accepted(N.Link(true, DEAD.setup, ""), events, from, Op.Activate)
    ensures N.Drawn(N.Link(true, DEAD.setup, ""), events, from) == 0
  {
  }

  lemma LazyKeepsBackend(v: Lifecycle.View, e: Lifecycle.Event)
    requires e.EnrolLazily?
    ensures Lifecycle.Next(v, e).backend == v.backend
  {
  }

  lemma NoSuchTimer(v: Lifecycle.View, e: Lifecycle.Event)
    requires e.Fire? && e.timer >= |v.timers|
    ensures Lifecycle.Next(v, e) == v
  {
  }

  // ---- whole runs ----

  /** What node n's calls returned and sent, in order. */
  function CallsOf(records: seq<Record>, n: Name): seq<(Return, string)>
  {
    if records == [] then []
    else
      var r := records[|records| - 1];
      CallsOf(records[..|records| - 1], n) +
      if r.who == n then [(r.ret, PrintRequest(OpOf(r.call.purpose), n.kind, n.id))] else []
  }

  /** What node n's watch posted for each command it served, in order. */
  function PostsOf(services: seq<Service>, n: Name): seq<Option<Posted>>
  {
    if services == [] then []
    else
      var a := services[|services| - 1];
      PostsOf(services[..|services| - 1], n) + if a.who == n then [a.posted] else []
  }

  /** One run goes on where the other stopped. */
  ghost predicate Continues(h: seq<seq<Event>>, h': seq<seq<Event>>)
  {
    |h| <= |h'| && forall c | 0 <= c < |h| :: h[c] <= h'[c]
  }

  lemma FeedsEarlier(incoming: nat -> (nat -> Event), h: seq<seq<Event>>, h': seq<seq<Event>>)
    requires Feeds(incoming, h') && Continues(h, h')
    ensures Feeds(incoming, h)
  {
    forall c: nat | c < |h|
      ensures h[c] == Slice(incoming(c), 0, |h[c]|)
    {
      assert h'[c] == Slice(incoming(c), 0, |h'[c]|);
    }
  }

  lemma HeardContinues(p: Peer, e: Lifecycle.Event, drawn: seq<Event>)
    ensures Continues(p.heard, HeardAfter(p, e, drawn))
  {
    hide Lifecycle.Next;
  }

  lemma StepContinues(s: System, a: Action, n: Name)
    requires Enabled(s, a) && n in s.peers
    ensures n in Step(s, a).peers && Continues(s.peers[n].heard, Step(s, a).peers[n].heard)
  {
    hide Outcome, Undecided, MayCall, QueuesGone, QueuesNew, ConsumersAfter, WithReply, CommandReply, A.ReplyTo,
         EnvelopeOf, CommandEnvelope,
         Lifecycle.Next, Lifecycle.Ret, HeardAfter, Pushed, Popped, AllDiscarded, Fresh, A.EffectFor, Registry.Apply,
           Served;
    if a.Finish? && a.who == n {
      var c := s.peers[n].call.value;
      HeardContinues(s.peers[n], Outcome(c, a.after), if c.purpose == ToDelist then [] else c.drawn);
    } else if a.Alone? && a.who == n {
      HeardContinues(s.peers[n], a.event, []);
    }
  }

  /** The state after the first i actions. */
  lemma {:induction false} PrefixRuns(nodes: set<Name>, actions: seq<Action>, i: nat)
    requires Exec(nodes, actions).Some? && i <= |actions|
    ensures Exec(nodes, actions[..i]).Some?
    ensures i < |actions| ==> Enabled(Exec(nodes, actions[..i]).value, actions[i]) &&
                              Exec(nodes, actions[..i + 1]) == Some(Step(Exec(nodes, actions[..i]).value, actions[i]))
    decreases |actions| - i
  {
    hide Enabled, Step;
    if i == |actions| {
      assert actions[..i] == actions;
    } else {
      PrefixRuns(nodes, actions, i + 1);
      assert actions[..i + 1][..i] == actions[..i];
    }
  }

  lemma {:induction false} RunContinues(nodes: set<Name>, actions: seq<Action>, i: nat, n: Name)
    requires Reachable(nodes, actions) && n in nodes && i <= |actions|
    ensures Exec(nodes, actions[..i]).Some? && n in Final(nodes, actions[..i]).peers && n in Final(nodes, actions).peers
    ensures Continues(Final(nodes, actions[..i]).peers[n].heard, Final(nodes, actions).peers[n].heard)
    decreases |actions| - i
  {
    hide Exec, Enabled, Step, Right;
    PrefixRuns(nodes, actions, i);
    RunRight(nodes, actions[..i]);
    RightNodes(nodes, Final(nodes, actions[..i]));
    if i == |actions| {
      assert actions[..i] == actions;
    } else {
      RunContinues(nodes, actions, i + 1, n);
      StepContinues(Final(nodes, actions[..i]), actions[i], n);
    }
  }

  /** A step that is not node n's finishing, living or watching does not show on its object. */
  lemma OthersUnseen(s: System, a: Action, n: Name)
    requires Enabled(s, a) && n in s.peers && !((a.Finish? || a.Alone? || a.Watch?) && a.who == n)
    ensures var s' := Step(s, a);
            n in s'.peers && s'.peers[n].view == s.peers[n].view && s'.peers[n].heard == s.peers[n].heard &&
            CallsOf(s'.records, n) == CallsOf(s.records, n) && PostsOf(s'.log.services, n) == PostsOf(s.log.services, n)
  {
    hide Outcome, Undecided, MayCall, QueuesGone, QueuesNew, ConsumersAfter, WithReply, CommandReply, A.ReplyTo,
         EnvelopeOf, CommandEnvelope,
         Lifecycle.Next, Lifecycle.Ret, HeardAfter, Pushed, Popped, AllDiscarded, Fresh, A.EffectFor, Registry.Apply,
           Served, PrintRequest;
    if a.Finish? {
      CallsMore(s.records, Step(s, a).records[|s.records|], n);
    } else if a.Watch? && Served(s.boxes[a.queue][0]) {
      PostsMore(s.log.services, Step(s, a).log.services[|s.log.services|], n);
    }
  }

  lemma PostsMore(services: seq<Service>, a: Service, n: Name)
    ensures PostsOf(services + [a], n) == PostsOf(services, n) + if a.who == n then [a.posted] else []
  {
    assert (services + [a])[..|services|] == services;
  }

  lemma CallsMore(records: seq<Record>, r: Record, n: Name)
    ensures CallsOf(records + [r], n) ==
            CallsOf(records, n) + if r.who == n then [(r.ret, PrintRequest(OpOf(r.call.purpose), n.kind, n.id))] else []
  {
    assert (records + [r])[..|records|] == records;
  }

  /** Replays a run of the protocol on a new object for node n: the object goes through the node's
      states, draws from each of its connections what the node heard there, its calls return and
      send what the protocol records, and its watch posts what the protocol posts. */
  method Replay(nodes: set<Name>, actions: seq<Action>, n: Name, incoming: nat -> (nat -> Event))
    returns (node: N.Node, calls: seq<(Return, string)>, posts: seq<Option<Posted>>)
    requires Reachable(nodes, actions) && n in nodes && n in Final(nodes, actions).peers
    requires Feeds(incoming, Final(nodes, actions).peers[n].heard)
    ensures fresh(node) && Coupled(node, Final(nodes, actions).peers[n], incoming)
    ensures calls == CallsOf(Final(nodes, actions).records, n)
    ensures posts == PostsOf(Final(nodes, actions).log.services, n)
  {
    hide Exec, Enabled, Step, Feeds, Right, CallsOf, PostsOf;
    node := new N.Node(n.kind, n.id);
    calls, posts := [], [];
    StartReplayed(nodes, n);
    for i := 0 to |actions|
      invariant fresh(node) && fresh(node.Owned()) && node.kind == n.kind && node.id == n.id
      invariant Exec(nodes, actions[..i]).Some? && n in Final(nodes, actions[..i]).peers
      invariant Coupled(node, Final(nodes, actions[..i]).peers[n], incoming)
      invariant calls == CallsOf(Final(nodes, actions[..i]).records, n)
      invariant posts == PostsOf(Final(nodes, actions[..i]).log.services, n)
    {
      PrefixRuns(nodes, actions, i);
      RunContinues(nodes, actions, i + 1, n);
      FeedsEarlier(incoming, Final(nodes, actions[..i + 1]).peers[n].heard, Final(nodes, actions).peers[n].heard);
      RunRight(nodes, actions[..i]);
      var moreCalls, morePosts := ReplayStep(node, nodes, Exec(nodes, actions[..i]).value, actions[i], n, incoming);
      calls, posts := calls + moreCalls, posts + morePosts;
    }
    assert actions[..|actions|] == actions;
  }

  lemma StartReplayed(nodes: set<Name>, n: Name)
    requires n in nodes
    ensures Exec(nodes, []) == Some(Start(nodes)) && n in Start(nodes).peers
    ensures Start(nodes).peers[n].view == Lifecycle.INITIAL && CallsOf(Start(nodes).records, n) == []
    ensures PostsOf(Start(nodes).log.services, n) == []
  {
  }

  /** Node n's part in one step of the protocol. */
  method ReplayStep(node: N.Node, nodes: set<Name>, s: System, a: Action, n: Name, incoming: nat -> (nat -> Event))
    returns (calls: seq<(Return, string)>, posts: seq<Option<Posted>>)
    requires Right(nodes, s) && Enabled(s, a) && n in s.peers && n in Step(s, a).peers
    requires node.kind == n.kind && node.id == n.id && Coupled(node, s.peers[n], incoming)
    requires Feeds(incoming, Step(s, a).peers[n].heard)
    modifies node, node.Owned()
    ensures fresh(node.Owned() - old(node.Owned()))
    ensures Coupled(node, Step(s, a).peers[n], incoming)
    ensures CallsOf(Step(s, a).records, n) == CallsOf(s.records, n) + calls
    ensures PostsOf(Step(s, a).log.services, n) == PostsOf(s.log.services, n) + posts
  {
    hide Step, Feeds, Right, CallsOf, PostsOf, PrintRequest, PeerRight, CommandReply, Served;
    RightPeer(nodes, s, n);
    calls, posts := [], [];
    if a.Finish? && a.who == n {
      var ret, sent := Perform(node, s, n, a.after, incoming);
      calls := [(ret, sent.value)];
      FinishView(s, n, a.after);
      CallsMore(s.records, Step(s, a).records[|s.records|], n);
    } else if a.Alone? && a.who == n {
      PerformAlone(node, s.peers[n], a.event, incoming);
      AloneView(s, n, a.event);
    } else if a.Watch? && a.who == n {
      WatchView(nodes, s, a, n, incoming);
      var env := s.boxes[a.queue][0];
      var reply := CommandReply(env, a.handled);
      var posted := node.OnMessage(env, a.handled, a.posts && reply.Some? && reply.value.queue in s.boxes);
      WatchServices(s, a, n);
      if Served(env) {
        posts := [posted];
        PostsMore(s.log.services, Service(n, a.queue, env, a.handled, posted), n);
      }
    } else {
      OthersUnseen(s, a, n);
    }
  }

  lemma WatchServices(s: System, a: Action, n: Name)
    requires Enabled(s, a) && a.Watch? && a.who == n
    ensures var env := s.boxes[a.queue][0];
            var posted := Delivered(s.boxes, CommandReply(env, a.handled), a.posts);
            Step(s, a).log.services ==
              if Served(env) then s.log.services + [Service(n, a.queue, env, a.handled, posted)] else s.log.services
  {
    hide CommandReply, Served, WithReply;
  }

  lemma AloneView(s: System, n: Name, e: Lifecycle.Event)
    requires Enabled(s, Alone(n, e))
    ensures var s' := Step(s, Alone(n, e));
            n in s'.peers && s'.peers[n].view == Lifecycle.Next(s.peers[n].view, e) &&
            s'.peers[n].heard == HeardAfter(s.peers[n], e, []) && s'.records == s.records && s'.log == s.log
  {
    hide Lifecycle.Next, HeardAfter;
  }

  /** A node with a watch owns a backend, and its stream gives next what the watch draws. */
  lemma WatchView(nodes: set<Name>, s: System, a: Action, n: Name, incoming: nat -> (nat -> Event))
    requires Right(nodes, s) && Enabled(s, a) && a.Watch? && a.who == n && n in Step(s, a).peers
    requires Feeds(incoming, Step(s, a).peers[n].heard) && (s.peers[n].view.backend.Some? ==> s.peers[n].heard != [])
    ensures s.peers[n].view.backend.Some? && s.peers[n].view.backend.value.activated
    ensures var p, p' := s.peers[n], Step(s, a).peers[n];
            && p'.view == p.view && Step(s, a).records == s.records
            && p.heard != [] && |p'.heard| == |p.heard| && |p'.heard[|p.heard| - 1]| == |p.heard[|p.heard| - 1]| + 1
            && incoming(|p.heard| - 1)(|p.heard[|p.heard| - 1]|) == Arrived(s.boxes[a.queue][0])
  {
    hide Right, WithReply, CommandReply, Popped, PeerRight, Served;
    var p, p' := s.peers[n], Step(s, a).peers[n];
    RightPeer(nodes, s, n);
    WatchedHasBackend(n, p, s.log);
    var last := |p.heard| - 1;
    assert p'.heard[last] == Slice(incoming(last), 0, |p'.heard[last]|);
    assert p'.heard[last] == p.heard[last] + [Arrived(s.boxes[a.queue][0])];
    assert p'.heard[last][|p.heard[last]|] == Arrived(s.boxes[a.queue][0]);
  }

  lemma WatchedHasBackend(n: Name, p: Peer, g: Log)
    requires PeerRight(n, p, g) && p.view.sources != {}
    ensures p.view.backend.Some? && p.view.backend.value.activated
  {
    hide CallRight, MayCall, Standing, Enlisted, ConsumerRight, Lifecycle.Run;
    Lifecycle.WatchInEveryRun(p.life);
  }

  // ---- the arbiter ----

  /** Carries out on the arbiter's objects the protocol's next service: its turn on the message at the
      head of the enrol queue leaves the agent with the protocol's lists and posts the protocol's
      reply. */
  method ServeNext(arbiter: A.Backend, s: System, posts: bool) returns (posted: Option<Posted>)
    requires Enabled(s, Serve(posts)) && arbiter.activated && arbiter.agent.Value() == s.lists
    modifies arbiter.agent
    ensures var s' := Step(s, Serve(posts));
            && arbiter.agent.Value() == s'.lists
            && s'.log.replies == s.log.replies + [posted]
            && (posted.Some? ==>
                  posted.value.queue in s.boxes &&
                  s'.boxes == Pushed(s.boxes, posted.value.queue, posted.value.env))
  {
    hide A.ReplyTo, A.EffectFor, Registry.Apply;
    var env := s.enrolQueue[0];
    var reply := A.ReplyTo(env);
    var keep;
    keep, posted := arbiter.ProcessMessage(Message(env), posts && reply.Some? && reply.value.queue in s.boxes);
  }

  /** Replays a run on a new arbiter: its agent ends with the protocol's lists, and it posted the
      protocol's replies. */
  method ReplayArbiter(nodes: set<Name>, actions: seq<Action>)
    returns (arbiter: A.Backend, posted: seq<Option<Posted>>)
    requires Reachable(nodes, actions)
    ensures fresh(arbiter) && fresh(arbiter.agent) && arbiter.activated
    ensures arbiter.agent.Value() == Final(nodes, actions).lists && posted == Final(nodes, actions).log.replies
  {
    hide Exec, Enabled, Step;
    var agent := new Registry.Agent();
    arbiter := new A.Backend(agent);
    var loop := new MainLoop();
    var ret := arbiter.Activate(loop);
    posted := [];
    StartLists(nodes);
    for i := 0 to |actions|
      invariant fresh(arbiter) && fresh(arbiter.agent) && arbiter.activated
      invariant Exec(nodes, actions[..i]).Some?
      invariant arbiter.agent.Value() == Final(nodes, actions[..i]).lists &&
        posted == Final(nodes, actions[..i]).log.replies
    {
      PrefixRuns(nodes, actions, i);
      PrefixRuns(nodes, actions, i + 1);
      var s := Exec(nodes, actions[..i]).value;
      if actions[i].Serve? {
        var reply := ServeNext(arbiter, s, actions[i].posts);
        posted := posted + [reply];
      } else {
        ListsSame(s, actions[i]);
      }
    }
    assert actions[..|actions|] == actions;
  }

  lemma StartLists(nodes: set<Name>)
    ensures Exec(nodes, []) == Some(Start(nodes)) && Start(nodes).lists == Registry.EMPTY &&
            Start(nodes).log.replies == []
  {
  }

  lemma ListsSame(s: System, a: Action)
    requires Enabled(s, a) && !a.Serve?
    ensures Step(s, a).lists == s.lists && Step(s, a).log.replies == s.log.replies
  {
    hide Outcome, Undecided, MayCall, QueuesGone, QueuesNew, ConsumersAfter, WithReply, CommandReply, EnvelopeOf,
         CommandEnvelope,
         Lifecycle.Next, Lifecycle.Ret, HeardAfter, Pushed, Popped, AllDiscarded, Fresh, Served, Within;
  }
}
