/** What every step of the protocol keeps. */
module Invariant {
  import opened Common
  import opened Requests
  import opened RpcWait
  import opened Registry
  import opened Messages
  import opened Arbiter
  import opened Protocol
  import Lifecycle

  // ---- the log ----

  ghost predicate Grows(g: Log, h: Log)
  {
    g.published <= h.published && g.replies <= h.replies && g.commands <= h.commands && g.services <= h.services &&
    g.cids <= h.cids && g.names <= h.names
  }

  /** An id and a private queue that were issued; no node's own queue has the queue's name. */
  ghost predicate IssuedRight(cid: string, replyTo: string, g: Log, nodes: set<Name>)
  {
    WellFormedCid(cid) && cid in g.cids && replyTo != [] && NulFree(replyTo) && replyTo in g.names &&
    replyTo !in Ids(nodes)
  }

  ghost predicate EntryRight(e: Entry, g: Log, nodes: set<Name>)
  {
    IssuedRight(e.cid, e.replyTo, g, nodes) && (e.Request? ==> e.who in nodes)
  }

  ghost predicate EntriesRight(g: Log, nodes: set<Name>)
  {
    && (forall i | 0 <= i < |g.published| :: EntryRight(g.published[i], g, nodes))
    && (forall i, j | 0 <= i < j < |g.published| ::
          g.published[i].cid != g.published[j].cid && g.published[i].replyTo != g.published[j].replyTo)
  }

  ghost predicate CommandRight(c: Command, g: Log, nodes: set<Name>)
  {
    IssuedRight(c.cid, c.replyTo, g, nodes) && (c.target.QueueOf? ==> c.target.id in Ids(nodes))
  }

  /** The i-th text on the enrol queue is the k-th command. */
  ghost predicate IsStray(g: Log, i: nat, k: nat)
  {
    i < |g.published| && k < |g.commands| && g.commands[k].target == EnrolQueue &&
    g.published[i] == Stray(g.commands[k].text, g.commands[k].replyTo, g.commands[k].cid)
  }

  ghost predicate CommandsRight(g: Log, nodes: set<Name>)
  {
    && (forall k | 0 <= k < |g.commands| :: CommandRight(g.commands[k], g, nodes))
    && (forall k, k' | 0 <= k < k' < |g.commands| ::
          g.commands[k].cid != g.commands[k'].cid && g.commands[k].replyTo != g.commands[k'].replyTo)
    && (forall i, k | 0 <= i < |g.published| && g.published[i].Request? && 0 <= k < |g.commands| ::
         g.published[i].cid != g.commands[k].cid && g.published[i].replyTo != g.commands[k].replyTo)
    && (forall i | 0 <= i < |g.published| && g.published[i].Stray? :: exists k :: IsStray(g, i, k))
  }

  // ---- what the arbiter and the nodes answer ----

  function EntryEffect(e: Entry): Effect
  {
    Dispatch(Printed(e)).effect
  }

  function EffectsOf(entries: seq<Entry>): (r: seq<Effect>)
    ensures |r| == |entries|
  {
    seq(|entries|, i requires 0 <= i < |entries| => EntryEffect(entries[i]))
  }

  function EntryAnswer(e: Entry): string
  {
    Dispatch(Printed(e)).answer
  }

  function Reply(replyTo: string, cid: string, answer: string): Posted
  {
    Posted(replyTo, Envelope(Some(answer), Some(JSON_TYPE), None, Some(cid)))
  }

  /** The arbiter's answer to a text on its queue. */
  function ReplyFor(e: Entry): Posted
  {
    Reply(e.replyTo, e.cid, EntryAnswer(e))
  }

  ghost predicate RepliesRight(g: Log)
  {
    |g.replies| <= |g.published| &&
    forall i | 0 <= i < |g.replies| :: g.replies[i].Some? ==> g.replies[i].value == ReplyFor(g.published[i])
  }

  /** The i-th message served by a node is the k-th command, sent to that node's own queue. */
  ghost predicate IsService(g: Log, i: nat, k: nat)
  {
    i < |g.services| && k < |g.commands| &&
    var a, c := g.services[i], g.commands[k];
    c.target == QueueOf(a.who.id) && a.queue == a.who.id && a.env == CommandEnvelope(c) &&
    (a.posted.Some? ==> a.posted.value == Reply(c.replyTo, c.cid, CommandAnswer(c.text, a.handled)))
  }

  ghost predicate ServicesRight(g: Log, nodes: set<Name>)
  {
    forall i | 0 <= i < |g.services| :: g.services[i].who in nodes && exists k :: IsService(g, i, k)
  }

  ghost predicate LogRight(g: Log, nodes: set<Name>)
  {
    EntriesRight(g, nodes) && CommandsRight(g, nodes) && RepliesRight(g) && ServicesRight(g, nodes) &&
      Ids(nodes) <= g.names
  }

  // ---- queues ----

  /** The texts on the enrol queue are those published and not yet taken. */
  ghost predicate QueueRight(enrolQueue: seq<Envelope>, g: Log)
  {
    |enrolQueue| == |g.published| - |g.replies| &&
    forall i | |g.replies| <= i < |g.published| :: enrolQueue[i - |g.replies|] == EnvelopeOf(g.published[i])
  }

  /** The arbiter's lists are those of the texts it has taken. */
  ghost predicate ListsRight(lists: Lists, g: Log)
  {
    |g.replies| <= |g.published| && lists == After(EffectsOf(g.published[..|g.replies|]))
  }

  ghost predicate IsReply(env: Envelope, q: string, i: nat, g: Log)
  {
    i < |g.replies| && g.replies[i] == Some(Posted(q, env))
  }

  ghost predicate IsCommand(env: Envelope, q: string, k: nat, g: Log)
  {
    k < |g.commands| && g.commands[k].target == QueueOf(q) && env == CommandEnvelope(g.commands[k])
  }

  ghost predicate IsResponse(env: Envelope, q: string, i: nat, g: Log)
  {
    i < |g.services| && g.services[i].posted == Some(Posted(q, env))
  }

  /** A message in a queue other than the enrol queue is the arbiter's reply to a text, a command, or
      a node's response to one, and it is in the queue it was sent to. */
  ghost predicate MessageRight(env: Envelope, q: string, g: Log)
  {
    || (exists i :: IsReply(env, q, i, g))
    || (exists k :: IsCommand(env, q, k, g))
    || (exists i :: IsResponse(env, q, i, g))
  }

  ghost predicate BoxesRight(boxes: map<string, seq<Envelope>>, g: Log)
  {
    && boxes.Keys <= g.names
    && (forall q, k | q in boxes && 0 <= k < |boxes[q]| :: MessageRight(boxes[q][k], q, g))
  }

  // ---- calls ----

  predicate By(e: Entry, n: Name)
  {
    e.Request? && e.who == n
  }

  predicate Asks(e: Entry, n: Name, op: Op)
  {
    e.Request? && e.who == n && e.op == op
  }

  /** The wait ended with its first draw, or has drawn nothing. */
  predicate AtMostOne(cid: string, drawn: seq<Event>)
  {
    drawn == [] || (|drawn| == 1 && Judge(cid, drawn[0]) != Discard)
  }

  /** A call's request is published; a delist, whose connection has one queue, draws at most once; and
      if the last message drawn was accepted it is the arbiter's answer to this very request. */
  ghost predicate CallRight(n: Name, c: Call, g: Log)
  {
    && c.index < |g.published| && g.published[c.index] == Request(n, OpOf(c.purpose), c.replyTo, c.cid)
    && (c.drawn != [] ==> c.consuming && AllDiscarded(c.cid, c.drawn[..|c.drawn| - 1]))
    && |c.drawn| <= BUDGET
    && (c.purpose == ToDelist ==> AtMostOne(c.cid, c.drawn))
    && (BodyOf(c).Some? ==> Answered(c, g))
  }

  ghost predicate Answered(c: Call, g: Log)
    requires c.index < |g.published|
  {
    c.index < |g.replies| && g.replies[c.index] == Some(ReplyFor(g.published[c.index])) &&
    BodyOf(c) == Some(UpToNul(EntryAnswer(g.published[c.index])))
  }

  /** A finished call: its result is what its loop computes from the messages it drew, and it
      reports Ok exactly when the answer was accepted and what follows went well. */
  ghost predicate RecordRight(r: Record, g: Log)
  {
    && CallRight(r.who, r.call, g)
    && r.body == BodyOf(r.call)
    && !Undecided(r.call)
    && (r.ret == Ok <==> Accepted(r.call) && (r.call.purpose in {ToDelist, ToActivate} ==> r.after))
    && r.ret != Async
  }

  ghost predicate RecordsRight(records: seq<Record>, g: Log)
  {
    forall k | 0 <= k < |records| :: RecordRight(records[k], g)
  }

  /** The response to the k-th command with this text was given by the node it was sent to, or by the
      arbiter if it was sent to the enrol queue. */
  ghost predicate Responded(k: nat, body: string, g: Log)
    requires k < |g.commands|
  {
    match g.commands[k].target
    case QueueOf(_) =>
      exists i: nat :: IsService(g, i, k) && g.services[i].posted.Some? &&
                  body == UpToNul(CommandAnswer(g.commands[k].text, g.services[i].handled))
    case EnrolQueue =>
      exists i: nat :: IsStray(g, i, k) && i < |g.replies| && g.replies[i].Some? &&
                  body == UpToNul(Dispatch(g.commands[k].text).answer)
  }

  /** What the sender of the k-th command drew, at most once: nothing was accepted but the response. */
  ghost predicate WaitRight(k: nat, drawn: seq<Event>, g: Log)
    requires k < |g.commands|
  {
    && AtMostOne(g.commands[k].cid, drawn)
    && (LastBody(g.commands[k].cid, drawn).Some? ==> Responded(k, LastBody(g.commands[k].cid, drawn).value, g))
  }

  ghost predicate WaitsRight(waits: seq<seq<Event>>, g: Log)
  {
    |waits| == |g.commands| && forall k | 0 <= k < |waits| :: WaitRight(k, waits[k], g)
  }

  // ---- nodes ----

  /** The i-th request is the arbiter's to keep: an enrolment by n that it has taken, with no delist
      by n published after it. */
  ghost predicate Standing(n: Name, i: nat, g: Log)
  {
    i < |g.replies| <= |g.published| && Asks(g.published[i], n, Enroll) &&
    forall j | i < j < |g.published| :: !Asks(g.published[j], n, Delist)
  }

  /** The i-th request is an enrolment by n that the arbiter has taken, and a delist by n after it
      is the last request of n. */
  ghost predicate Enlisted(n: Name, i: nat, g: Log)
  {
    i < |g.replies| <= |g.published| && Asks(g.published[i], n, Enroll) &&
    forall j | i < j < |g.published| && Asks(g.published[j], n, Delist) :: SilentAfter(n, j, g)
  }

  /** n published nothing after position j. */
  predicate SilentAfter(n: Name, j: nat, g: Log)
  {
    forall k | j < k < |g.published| :: !By(g.published[k], n)
  }

  /** The node believes it is enrolled: it is not in Null, owns a backend, and is not delisting. */
  predicate Believes(p: Peer)
  {
    p.view.state != Null && p.view.backend.Some? && !(p.call.Some? && p.call.value.purpose == ToDelist)
  }

  /** A queue the node's main connection consumes from: its own, or the private queue of a request. */
  ghost predicate ConsumerRight(n: Name, q: string, g: Log)
  {
    q == n.id || exists j | 0 <= j < |g.published| :: By(g.published[j], n) && g.published[j].replyTo == q
  }

  ghost predicate PeerRight(n: Name, p: Peer, g: Log)
  {
    && p.view == Lifecycle.Run(Lifecycle.INITIAL, p.life)
    && (p.call.Some? ==>
          CallRight(n, p.call.value, g) && MayCall(p.view, p.call.value.purpose) &&
            SilentAfter(n, p.call.value.index, g))
    && (forall q | q in p.consumers :: ConsumerRight(n, q, g))
    && (Believes(p) ==> exists i :: Standing(n, i, g))
    && (p.view.state != Null ==> exists i :: Enlisted(n, i, g))
  }

  ghost predicate PeersRight(peers: map<Name, Peer>, g: Log)
  {
    forall n | n in peers :: PeerRight(n, peers[n], g)
  }

  ghost predicate Right(nodes: set<Name>, s: System)
  {
    && s.peers.Keys == nodes
    && LogRight(s.log, nodes)
    && QueueRight(s.enrolQueue, s.log)
    && ListsRight(s.lists, s.log)
    && BoxesRight(s.boxes, s.log)
    && PeersRight(s.peers, s.log)
    && RecordsRight(s.records, s.log)
    && WaitsRight(s.waits, s.log)
  }

  // ---- at the start ----

  lemma StartRight(nodes: set<Name>)
    ensures Right(nodes, Start(nodes))
  {
    var s := Start(nodes);
    assert s.log.published[..0] == [];
    assert EffectsOf([]) == [];
  }

  // ---- what growing history keeps ----

  lemma MessageGrows(env: Envelope, q: string, g: Log, h: Log)
    requires Grows(g, h) && MessageRight(env, q, g)
    ensures MessageRight(env, q, h)
  {
    if i: nat :| IsReply(env, q, i, g) {
      assert IsReply(env, q, i, h);
    } else if k: nat :| IsCommand(env, q, k, g) {
      assert IsCommand(env, q, k, h);
    } else {
      var i: nat :| IsResponse(env, q, i, g);
      assert IsResponse(env, q, i, h);
    }
  }

  lemma BoxesGrow(boxes: map<string, seq<Envelope>>, g: Log, h: Log)
    requires Grows(g, h) && BoxesRight(boxes, g)
    ensures BoxesRight(boxes, h)
  {
    hide MessageRight;
    forall q, k | q in boxes && 0 <= k < |boxes[q]|
      ensures MessageRight(boxes[q][k], q, h)
    {
      MessageGrows(boxes[q][k], q, g, h);
    }
  }

  lemma CallGrows(n: Name, c: Call, g: Log, h: Log)
    requires Grows(g, h) && CallRight(n, c, g)
    ensures CallRight(n, c, h)
  {
    hide ReplyFor, OpOf, BodyOf, Answer, Expected;
  }

  lemma RecordsGrow(records: seq<Record>, g: Log, h: Log)
    requires Grows(g, h) && RecordsRight(records, g)
    ensures RecordsRight(records, h)
  {
    hide CallRight, Accepted, Undecided, Grows;
    forall k | 0 <= k < |records|
      ensures RecordRight(records[k], h)
    {
      assert RecordRight(records[k], g);
      CallGrows(records[k].who, records[k].call, g, h);
    }
  }

  lemma RespondedGrows(k: nat, body: string, g: Log, h: Log)
    requires Grows(g, h) && k < |g.commands| && Responded(k, body, g)
    ensures Responded(k, body, h)
  {
    hide CommandAnswer, Dispatch, UpToNul, CommandEnvelope, Reply;
    match g.commands[k].target
    case QueueOf(_) =>
      var i: nat :| IsService(g, i, k) && g.services[i].posted.Some? &&
               body == UpToNul(CommandAnswer(g.commands[k].text, g.services[i].handled));
      ServiceGrows(g, h, i, k);
    case EnrolQueue =>
      var i: nat :| IsStray(g, i, k) && i < |g.replies| && g.replies[i].Some? &&
               body == UpToNul(Dispatch(g.commands[k].text).answer);
      assert IsStray(h, i, k);
  }

  lemma WaitGrows(k: nat, drawn: seq<Event>, g: Log, h: Log)
    requires Grows(g, h) && k < |g.commands| && WaitRight(k, drawn, g)
    ensures k < |h.commands| && WaitRight(k, drawn, h)
  {
    hide Responded, LastBody;
    if LastBody(g.commands[k].cid, drawn).Some? {
      RespondedGrows(k, LastBody(g.commands[k].cid, drawn).value, g, h);
    }
  }

  lemma WaitsGrow(waits: seq<seq<Event>>, g: Log, h: Log)
    requires Grows(g, h) && WaitsRight(waits, g) && |h.commands| == |g.commands|
    ensures WaitsRight(waits, h)
  {
    hide WaitRight, Grows;
    forall k | 0 <= k < |waits|
      ensures WaitRight(k, waits[k], h)
    {
      WaitGrows(k, waits[k], g, h);
    }
  }

  /** A node that publishes nothing new is as right as it was. */
  lemma PeerGrows(n: Name, p: Peer, g: Log, h: Log)
    requires Grows(g, h) && PeerRight(n, p, g)
    requires forall j | |g.published| <= j < |h.published| :: !By(h.published[j], n)
    requires |h.replies| <= |h.published|
    ensures PeerRight(n, p, h)
  {
    hide CallRight, MayCall, Believes, Lifecycle.Run;
    if p.call.Some? {
      CallGrows(n, p.call.value, g, h);
    }
    forall q | q in p.consumers
      ensures ConsumerRight(n, q, h)
    {
      assert ConsumerRight(n, q, g);
    }
    if Believes(p) {
      var i :| Standing(n, i, g);
      assert Standing(n, i, h);
    }
    if p.view.state != Null {
      var i :| Enlisted(n, i, g);
      assert Enlisted(n, i, h);
    }
  }

  lemma PeersGrow(peers: map<Name, Peer>, g: Log, h: Log)
    requires Grows(g, h) && PeersRight(peers, g) && |h.replies| <= |h.published|
    requires forall j, n | |g.published| <= j < |h.published| && n in peers :: !By(h.published[j], n)
    ensures PeersRight(peers, h)
  {
    hide PeerRight, Grows, By;
    forall n | n in peers
      ensures PeerRight(n, peers[n], h)
    {
      PeerGrows(n, peers[n], g, h);
    }
  }

  // ---- queues that change ----

  lemma PushedRight(boxes: map<string, seq<Envelope>>, q: string, env: Envelope, g: Log)
    requires BoxesRight(boxes, g) && q in boxes && MessageRight(env, q, g)
    ensures BoxesRight(Pushed(boxes, q, env), g)
  {
    hide MessageRight;
    var more := Pushed(boxes, q, env);
    forall q', k | q' in more && 0 <= k < |more[q']|
      ensures MessageRight(more[q'][k], q', g)
    {
      assert q' != q || k < |boxes[q]| ==> more[q'][k] == boxes[q'][k];
    }
  }

  lemma PoppedRight(boxes: map<string, seq<Envelope>>, q: string, g: Log)
    requires BoxesRight(boxes, g) && q in boxes && boxes[q] != []
    ensures BoxesRight(Popped(boxes, q), g) && MessageRight(boxes[q][0], q, g)
  {
    hide MessageRight;
    var fewer := Popped(boxes, q);
    forall q', k | q' in fewer && 0 <= k < |fewer[q']|
      ensures MessageRight(fewer[q'][k], q', g)
    {
      assert fewer[q'][k] == boxes[q'][if q' == q then k + 1 else k];
    }
  }

  /** Queues that appear are empty, and queues that go away take their messages with them. */
  lemma ReshapedRight(boxes: map<string, seq<Envelope>>, boxes': map<string, seq<Envelope>>, g: Log)
    requires BoxesRight(boxes, g) && boxes'.Keys <= g.names
    requires forall q | q in boxes' :: boxes'[q] == [] || (q in boxes && boxes'[q] == boxes[q])
    ensures BoxesRight(boxes', g)
  {
    hide MessageRight;
  }

  // ---- publishing ----

  lemma EntryAdded(g: Log, nodes: set<Name>, e: Entry, h: Log)
    requires EntriesRight(g, nodes) && Ids(nodes) <= g.names && Fresh(g, e.cid, e.replyTo) &&
             (e.Request? ==> e.who in nodes)
    requires Grows(g, h) && h.published == g.published + [e] && e.cid in h.cids && e.replyTo in h.names
    ensures EntriesRight(h, nodes)
  {
    hide Ids;
    forall i | 0 <= i < |h.published|
      ensures EntryRight(h.published[i], h, nodes)
    {
      if i < |g.published| { assert EntryRight(g.published[i], g, nodes); }
    }
    forall i, j | 0 <= i < j < |h.published|
      ensures h.published[i].cid != h.published[j].cid && h.published[i].replyTo != h.published[j].replyTo
    {
      assert EntryRight(g.published[i], g, nodes);
    }
  }

  lemma RequestAdded(g: Log, nodes: set<Name>, e: Entry, h: Log)
    requires LogRight(g, nodes) && Fresh(g, e.cid, e.replyTo) && e.Request? && e.who in nodes
    requires h == g.(published := g.published + [e], cids := g.cids + {e.cid}, names := g.names + {e.replyTo})
    ensures LogRight(h, nodes) && Grows(g, h)
  {
    hide EntriesRight, ReplyFor, Ids, IsService;
    EntryAdded(g, nodes, e, h);
    CommandsBesideRequest(g, nodes, e, h);
    ServicesGrow(g, h, nodes);
  }

  lemma ServiceGrows(g: Log, h: Log, i: nat, k: nat)
    requires Grows(g, h) && IsService(g, i, k)
    ensures IsService(h, i, k)
  {
    hide CommandAnswer, CommandEnvelope, Reply;
    assert h.services[i] == g.services[i] && h.commands[k] == g.commands[k];
  }

  lemma ServicesGrow(g: Log, h: Log, nodes: set<Name>)
    requires ServicesRight(g, nodes) && Grows(g, h) && h.services == g.services
    ensures ServicesRight(h, nodes)
  {
    hide IsService, Grows;
    forall i | 0 <= i < |h.services|
      ensures h.services[i].who in nodes && exists k :: IsService(h, i, k)
    {
      assert g.services[i].who in nodes;
      var k :| IsService(g, i, k);
      ServiceGrows(g, h, i, k);
    }
  }

  lemma CommandsBesideRequest(g: Log, nodes: set<Name>, e: Entry, h: Log)
    requires CommandsRight(g, nodes) && Fresh(g, e.cid, e.replyTo) && e.Request?
    requires h == g.(published := g.published + [e], cids := g.cids + {e.cid}, names := g.names + {e.replyTo})
    ensures CommandsRight(h, nodes)
  {
    hide Ids;
    forall k | 0 <= k < |h.commands|
      ensures CommandRight(h.commands[k], h, nodes)
      ensures e.cid != h.commands[k].cid && e.replyTo != h.commands[k].replyTo
    {
      assert CommandRight(g.commands[k], g, nodes);
    }
    forall i | 0 <= i < |h.published| && h.published[i].Stray?
      ensures exists k :: IsStray(h, i, k)
    {
      var k :| IsStray(g, i, k);
      assert IsStray(h, i, k);
    }
  }

  lemma QueueGrows(s: System, e: Entry, h: Log)
    requires QueueRight(s.enrolQueue, s.log) && ListsRight(s.lists, s.log)
    requires h.published == s.log.published + [e] && h.replies == s.log.replies
    ensures QueueRight(s.enrolQueue + [EnvelopeOf(e)], h) && ListsRight(s.lists, h)
  {
    hide EnvelopeOf, EffectsOf, After;
    assert h.published[..|h.replies|] == s.log.published[..|s.log.replies|];
  }

  lemma PublisherRight(n: Name, p: Peer, purpose: Purpose, e: Entry, g: Log, h: Log)
    requires PeerRight(n, p, g) && p.call.None? && MayCall(p.view, purpose) && Grows(g, h) && RepliesRight(h)
    requires e == Request(n, OpOf(purpose), e.replyTo, e.cid) && h.published == g.published + [e]
    requires h.replies == g.replies
    ensures PeerRight(n, p.(call := Some(Call(purpose, e.cid, e.replyTo, |g.published|, false, []))), h)
  {
    hide Lifecycle.Run, ReplyFor;
    forall q | q in p.consumers
      ensures ConsumerRight(n, q, h)
    {
      assert ConsumerRight(n, q, g);
    }
    if Believes(p) {
      var i :| Standing(n, i, g);
      assert purpose != ToDelist ==> Standing(n, i, h);
      assert Enlisted(n, i, h);
    }
  }

  lemma PublishRight(nodes: set<Name>, s: System, n: Name, p: Purpose, cid: string, q: string)
    requires Right(nodes, s) && Enabled(s, Publish(n, p, cid, q))
    ensures Right(nodes, Step(s, Publish(n, p, cid, q)))
  {
    hide LogRight, QueueRight, ListsRight, BoxesRight, RecordsRight, WaitsRight, PeerRight, EnvelopeOf, MayCall,
         OpOf, Grows, RepliesRight;
    var e := Request(n, OpOf(p), q, cid);
    var s' := Step(s, Publish(n, p, cid, q));
    RequestAdded(s.log, nodes, e, s'.log);
    assert RepliesRight(s'.log) by { LogReplies(s'.log, nodes); }
    QueueGrows(s, e, s'.log);
    BoxesGrow(s.boxes, s.log, s'.log);
    EmptyBoxAdded(s.boxes, q, s'.log);
    RecordsGrow(s.records, s.log, s'.log);
    WaitsGrow(s.waits, s.log, s'.log);
    forall m | m in s'.peers
      ensures PeerRight(m, s'.peers[m], s'.log)
    {
      assert PeerRight(m, s.peers[m], s.log);
      if m == n {
        PublisherRight(n, s.peers[n], p, e, s.log, s'.log);
      } else {
        assert |s'.log.replies| <= |s'.log.published| by { LogReplies(s'.log, nodes); }
        PeerGrows(m, s.peers[m], s.log, s'.log);
      }
    }
  }

  lemma LogReplies(g: Log, nodes: set<Name>)
    requires LogRight(g, nodes)
    ensures RepliesRight(g) && |g.replies| <= |g.published|
  {
  }

  lemma EmptyBoxAdded(boxes: map<string, seq<Envelope>>, q: string, g: Log)
    requires BoxesRight(boxes, g) && q in g.names
    ensures BoxesRight(boxes[q := []], g)
  {
    ReshapedRight(boxes, boxes[q := []], g);
  }

  // ---- steps that change one node ----

  lemma PeerChanged(nodes: set<Name>, s: System, n: Name, p: Peer)
    requires Right(nodes, s) && n in s.peers && PeerRight(n, p, s.log)
    ensures Right(nodes, WithPeer(s, n, p))
  {
    hide PeerRight, LogRight, QueueRight, ListsRight, BoxesRight, RecordsRight, WaitsRight;
    var s' := WithPeer(s, n, p);
    forall m | m in s'.peers
      ensures PeerRight(m, s'.peers[m], s'.log)
    {
      assert m != n ==> PeerRight(m, s.peers[m], s.log);
    }
  }

  lemma RightPeer(nodes: set<Name>, s: System, n: Name)
    requires Right(nodes, s) && n in s.peers
    ensures PeerRight(n, s.peers[n], s.log)
  {
    hide PeerRight, LogRight, QueueRight, ListsRight, BoxesRight, RecordsRight, WaitsRight;
  }

  lemma ConsumeRight(nodes: set<Name>, s: System, n: Name)
    requires Right(nodes, s) && Enabled(s, Consume(n))
    ensures Right(nodes, Step(s, Consume(n)))
  {
    hide Right, Standing, Enlisted, MayCall, Lifecycle.Run;
    RightPeer(nodes, s, n);
    ConsumingRight(n, s.peers[n], s.log);
    PeerChanged(nodes, s, n, AfterConsume(s.peers[n]));
  }

  lemma ConsumingRight(n: Name, p: Peer, g: Log)
    requires PeerRight(n, p, g) && p.call.Some? && !p.call.value.consuming
    ensures PeerRight(n, AfterConsume(p), g)
  {
    hide Standing, Enlisted, MayCall, Lifecycle.Run, SilentAfter;
    var c, p' := p.call.value, AfterConsume(p);
    assert c.drawn == [];
    assert CallRight(n, p'.call.value, g);
    forall q | q in p'.consumers
      ensures ConsumerRight(n, q, g)
    {
      if q !in p.consumers {
        assert By(g.published[c.index], n) && g.published[c.index].replyTo == q;
      }
    }
  }

  // ---- drawing ----

  lemma AnswerNulFree(op: Op)
    ensures NulFree(Answer(Expected(op)))
  {
    var w := Expected(op);
    assert NulFree(w) by { assert forall i | 0 <= i < |w| :: w[i] >= ' '; }
    assert NulFree("result");
  }

  /** A message in any queue whose id passes the comparison with the id of a request is the arbiter's
      reply to that request, in the queue the request named. */
  lemma MatchIsOwnReply(nodes: set<Name>, g: Log, i: nat, q: string, m: Envelope)
    requires LogRight(g, nodes) && i < |g.published| && g.published[i].Request? && MessageRight(m, q, g)
    requires m.cid.Some? && Matches(g.published[i].cid, m.cid.value)
    ensures i < |g.replies| && q == g.published[i].replyTo && g.replies[i] == Some(ReplyFor(g.published[i])) &&
            m == ReplyFor(g.published[i]).env
  {
    hide Matches, EntryAnswer, CommandAnswer, CommandsRight, ServicesRight, CommandEnvelope;
    assert EntryRight(g.published[i], g, nodes);
    MatchesExactly(g.published[i].cid, m.cid.value);
    if j: nat :| IsReply(m, q, j, g) {
      assert EntryRight(g.published[j], g, nodes);
    } else if k: nat :| IsCommand(m, q, k, g) {
      assert m.cid == Some(g.commands[k].cid) by { CommandCid(g.commands[k]); }
      RequestBesideCommand(nodes, g, i, k);
    } else {
      var j: nat :| IsResponse(m, q, j, g);
      var k := ServiceOf(nodes, g, j);
      RequestBesideCommand(nodes, g, i, k);
    }
  }

  lemma CommandCid(c: Command)
    ensures CommandEnvelope(c).cid == Some(c.cid) && CommandEnvelope(c).replyTo == Some(c.replyTo)
  {
  }

  /** Requests and commands never share an id or a private queue, and nobody's private queue is a
      node's own. */
  lemma RequestBesideCommand(nodes: set<Name>, g: Log, i: nat, k: nat)
    requires LogRight(g, nodes) && i < |g.published| && g.published[i].Request? && k < |g.commands|
    ensures g.published[i].cid != g.commands[k].cid && g.published[i].replyTo != g.commands[k].replyTo
    ensures |g.published[i].cid| == |g.commands[k].cid|
  {
    hide EntriesRight, Ids;
    EntryIssued(nodes, g, i);
    CommandIssued(nodes, g, k);
  }

  lemma EntryIssued(nodes: set<Name>, g: Log, i: nat)
    requires LogRight(g, nodes) && i < |g.published|
    ensures EntryRight(g.published[i], g, nodes)
  {
  }

  lemma CommandIssued(nodes: set<Name>, g: Log, k: nat)
    requires LogRight(g, nodes) && k < |g.commands|
    ensures CommandRight(g.commands[k], g, nodes)
  {
  }

  lemma CommandsApart(nodes: set<Name>, g: Log, k: nat, k': nat)
    requires LogRight(g, nodes) && k < |g.commands| && k' < |g.commands|
    requires g.commands[k].replyTo == g.commands[k'].replyTo || g.commands[k].cid == g.commands[k'].cid
    ensures k == k'
  {
  }

  lemma ServiceOf(nodes: set<Name>, g: Log, i: nat) returns (k: nat)
    requires LogRight(g, nodes) && i < |g.services|
    ensures IsService(g, i, k)
  {
    hide EntriesRight, CommandsRight, RepliesRight, IsService;
    assert g.services[i].who in nodes;
    k :| IsService(g, i, k);
  }

  lemma DrewRight(n: Name, p: Peer, e: Event, g: Log)
    requires PeerRight(n, p, g) && p.call.Some? && Undecided(p.call.value)
    requires forall b | Judge(p.call.value.cid, e) == Accept(Some(b)) ::
               var c := p.call.value;
               c.index < |g.replies| && g.replies[c.index] == Some(ReplyFor(g.published[c.index])) &&
               b == UpToNul(EntryAnswer(g.published[c.index]))
    requires p.call.value.purpose == ToDelist ==> Judge(p.call.value.cid, e) != Discard
    ensures PeerRight(n, Drew(p, e), g)
  {
    hide Standing, Enlisted, MayCall, Lifecycle.Run, Undecided, CallRight, ReplyFor, ConsumerRight, SilentAfter;
    CallDrew(n, p.call.value, e, g);
    if Believes(Drew(p, e)) {
      assert Believes(p);
    }
  }

  lemma CallDrew(n: Name, c: Call, e: Event, g: Log)
    requires CallRight(n, c, g) && Undecided(c)
    requires forall b | Judge(c.cid, e) == Accept(Some(b)) ::
               c.index < |g.replies| && g.replies[c.index] == Some(ReplyFor(g.published[c.index])) &&
               b == UpToNul(EntryAnswer(g.published[c.index]))
    requires c.purpose == ToDelist ==> Judge(c.cid, e) != Discard
    ensures CallRight(n, c.(drawn := c.drawn + [e]), g)
    ensures c.index < |g.published| && g.published[c.index].cid == c.cid
  {
    hide Judge, UpToNul, EntryAnswer, OpOf, ReplyFor, AllDiscarded, AtMostOne, LastBody;
    var c' := c.(drawn := c.drawn + [e]);
    LastBodyIs(c.cid, c.drawn, e);
    assert c'.drawn[..|c'.drawn| - 1] == c.drawn;
    if c.purpose == ToDelist {
      NothingYet(c.cid, c.drawn);
      FirstDraw(c.cid, e);
      assert c'.drawn == [e];
    }
  }

  lemma LastBodyIs(cid: string, drawn: seq<Event>, e: Event)
    ensures LastBody(cid, drawn + [e]) == match Judge(cid, e) case Accept(b) => b case _ => None
  {
    hide Judge;
  }

  lemma NothingYet(cid: string, drawn: seq<Event>)
    requires AtMostOne(cid, drawn) && AllDiscarded(cid, drawn)
    ensures drawn == []
  {
    hide Judge;
  }

  lemma FirstDraw(cid: string, e: Event)
    requires Judge(cid, e) != Discard
    ensures AtMostOne(cid, [e])
  {
  }

  /** What a call accepts is the arbiter's answer to its own request. */
  lemma DrawnAnswer(nodes: set<Name>, g: Log, n: Name, c: Call, q: string, m: Envelope)
    requires LogRight(g, nodes) && CallRight(n, c, g) && MessageRight(m, q, g)
    ensures forall b | Judge(c.cid, Arrived(m)) == Accept(Some(b)) ::
              c.index < |g.replies| && g.replies[c.index] == Some(ReplyFor(g.published[c.index])) &&
              b == UpToNul(EntryAnswer(g.published[c.index]))
    ensures q == c.replyTo ==> Judge(c.cid, Arrived(m)) != Discard
  {
    hide UpToNul, EntryAnswer, Matches, MessageRight, LogRight;
    if q == c.replyTo {
      OwnReplyQueue(nodes, g, c.index, m);
      MatchesExactly(c.cid, c.cid);
    }
    if m.cid.Some? && Matches(c.cid, m.cid.value) {
      MatchIsOwnReply(nodes, g, c.index, q, m);
    }
  }

  /** Whatever is in the private queue of a request is the arbiter's reply to that request. */
  lemma OwnReplyQueue(nodes: set<Name>, g: Log, i: nat, m: Envelope)
    requires LogRight(g, nodes) && i < |g.published| && g.published[i].Request?
    requires MessageRight(m, g.published[i].replyTo, g)
    ensures i < |g.replies| && g.replies[i].Some? && m == ReplyFor(g.published[i]).env
  {
    hide LogRight, EntryAnswer, CommandAnswer, CommandEnvelope, Ids;
    var q := g.published[i].replyTo;
    EntryIssued(nodes, g, i);
    if j: nat :| IsReply(m, q, j, g) {
      LogReplies(g, nodes);
      if j != i { EntriesApart(nodes, g, i, j); }
    } else if k: nat :| IsCommand(m, q, k, g) {
      CommandIssued(nodes, g, k);
    } else {
      var j: nat :| IsResponse(m, q, j, g);
      var k := ServiceOf(nodes, g, j);
      RequestBesideCommand(nodes, g, i, k);
    }
  }

  lemma EntriesApart(nodes: set<Name>, g: Log, i: nat, j: nat)
    requires LogRight(g, nodes) && i < |g.published| && j < |g.published| && i != j
    ensures g.published[i].cid != g.published[j].cid && g.published[i].replyTo != g.published[j].replyTo
  {
  }

  lemma BoxesChanged(nodes: set<Name>, s: System, boxes: map<string, seq<Envelope>>, delivered: seq<Handed>,
                     lost: seq<map<string, seq<Envelope>>>)
    requires Right(nodes, s) && BoxesRight(boxes, s.log)
    ensures Right(nodes, s.(boxes := boxes, delivered := delivered, lost := lost))
  {
    hide LogRight, QueueRight, ListsRight, BoxesRight, PeersRight, RecordsRight, WaitsRight;
  }

  lemma DrawRight(nodes: set<Name>, s: System, n: Name, q: string)
    requires Right(nodes, s) && Enabled(s, Draw(n, q))
    ensures Right(nodes, Step(s, Draw(n, q)))
  {
    hide LogRight, QueueRight, ListsRight, RecordsRight, WaitsRight, BoxesRight, PeersRight, AllDiscarded,
         CallRight, MayCall, ReplyFor, UpToNul, EntryAnswer, OpOf, Standing, Enlisted, ConsumerRight, Lifecycle.Run,
           SilentAfter;
    var m, c := s.boxes[q][0], s.peers[n].call.value;
    RightPeer(nodes, s, n);
    PoppedRight(s.boxes, q, s.log);
    DrawnAnswer(nodes, s.log, n, c, q, m);
    DrewRight(n, s.peers[n], Arrived(m), s.log);
    PeerChanged(nodes, s, n, Drew(s.peers[n], Arrived(m)));
    BoxesChanged(nodes, WithPeer(s, n, Drew(s.peers[n], Arrived(m))), Popped(s.boxes, q), Step(s, Draw(n, q)).delivered,
      s.lost);
  }

  lemma BreakRight(nodes: set<Name>, s: System, n: Name, cause: Event)
    requires Right(nodes, s) && Enabled(s, Break(n, cause))
    ensures Right(nodes, Step(s, Break(n, cause)))
  {
    hide Right, AllDiscarded, PeerRight;
    RightPeer(nodes, s, n);
    DrewRight(n, s.peers[n], cause, s.log);
    PeerChanged(nodes, s, n, Drew(s.peers[n], cause));
  }

  // ---- events in a node's life ----

  /** An event that publishes nothing leaves a node believing only if it believed before, and
      outside Null only if it was. */
  lemma BelievedBefore(v: Lifecycle.View, e: Lifecycle.Event)
    requires PublishesNothing(e)
    ensures var v' := Lifecycle.Next(v, e);
            && (v'.state != Null ==> v.state != Null)
            && (v'.state != Null && v'.backend.Some? ==> v.backend.Some?)
  {
  }

  lemma LivedRight(n: Name, p: Peer, e: Lifecycle.Event, drawn: seq<Event>, g: Log)
    requires PeerRight(n, p, g)
    requires var v := Lifecycle.Next(p.view, e);
             && (v.state != Null && v.backend.Some? ==> exists i :: Standing(n, i, g))
             && (v.state != Null ==> exists i :: Enlisted(n, i, g))
    ensures PeerRight(n, Lived(p, e, drawn).(call := None, consumers := ConsumersAfter(n, p, e)), g)
  {
    hide Standing, Enlisted, Lifecycle.Next, HeardAfter;
    Lifecycle.RunLast(Lifecycle.INITIAL, p.life, e);
  }

  lemma LiveBoxesRight(nodes: set<Name>, boxes: map<string, seq<Envelope>>, gone: set<string>,
                       added: map<string, seq<Envelope>>, n: Name, g: Log)
    requires BoxesRight(boxes, g) && LogRight(g, nodes) && n in nodes
    requires added.Keys <= {n.id} && forall q | q in added :: added[q] == []
    ensures BoxesRight((boxes - gone) + added, g)
  {
    hide EntriesRight, CommandsRight, RepliesRight, ServicesRight, MessageRight;
    assert n.id in Ids(nodes);
    ReshapedRight(boxes, (boxes - gone) + added, g);
  }

  lemma LiveRight(nodes: set<Name>, s: System, n: Name, e: Lifecycle.Event, drawn: seq<Event>)
    requires Right(nodes, s) && n in s.peers
    requires var v := Lifecycle.Next(s.peers[n].view, e);
             && (v.state != Null && v.backend.Some? ==> exists i :: Standing(n, i, s.log))
             && (v.state != Null ==> exists i :: Enlisted(n, i, s.log))
    ensures Right(nodes, Live(s, n, e, drawn))
  {
    hide LogRight, QueueRight, ListsRight, RecordsRight, WaitsRight, BoxesRight, PeerRight, Standing, Enlisted,
         Lifecycle.Next,
         Lived, QueuesGone, ConsumersAfter, PeersRight;
    var p := s.peers[n];
    var p' := Lived(p, e, drawn).(call := None, consumers := ConsumersAfter(n, p, e));
    RightPeer(nodes, s, n);
    LivedRight(n, p, e, drawn, s.log);
    PeerChanged(nodes, s, n, p');
    LiveBoxesRight(nodes, s.boxes, QueuesGone(s, n, p, e), QueuesNew(s, n, e), n, s.log);
    BoxesChanged(nodes, WithPeer(s, n, p'), (s.boxes - QueuesGone(s, n, p, e)) + QueuesNew(s, n, e), s.delivered,
      Live(s, n, e, drawn).lost);
  }

  lemma AloneRight(nodes: set<Name>, s: System, n: Name, e: Lifecycle.Event)
    requires Right(nodes, s) && Enabled(s, Alone(n, e))
    ensures Right(nodes, Step(s, Alone(n, e)))
  {
    hide Right, Lifecycle.Next, PublishesNothing, Standing, Enlisted, Live, Lifecycle.Run, ConsumerRight;
    RightPeer(nodes, s, n);
    BelievedBefore(s.peers[n].view, e);
    LiveRight(nodes, s, n, e, []);
  }

  /** After a finished enrolment a node is outside Null only if the answer was accepted; a finished
      delist leaves no backend; an activation starts outside Null, with a backend. */
  lemma OutcomeBelief(v: Lifecycle.View, c: Call, after: bool)
    requires MayCall(v, c.purpose) && Lifecycle.Next(v, Outcome(c, after)).state != Null
    ensures OpOf(c.purpose) == Enroll ==> Accepted(c)
    ensures c.purpose == ToDelist ==> v.state != Null && Lifecycle.Next(v, Outcome(c, after)).backend.None?
    ensures c.purpose == ToActivate ==> v.state != Null && v.backend.Some?
  {
    hide Accepted;
  }

  lemma OutcomeRet(v: Lifecycle.View, c: Call, after: bool)
    requires MayCall(v, c.purpose)
    ensures var ret := Lifecycle.Ret(v, Outcome(c, after));
            ret != Async && (ret == Ok <==> Accepted(c) && (c.purpose in {ToDelist, ToActivate} ==> after))
  {
    hide Accepted;
  }

  /** The accepted enrolment of a node that published nothing since stands. */
  lemma AcceptedStands(n: Name, c: Call, g: Log)
    requires CallRight(n, c, g) && RepliesRight(g) && SilentAfter(n, c.index, g)
    requires OpOf(c.purpose) == Enroll && Accepted(c)
    ensures Standing(n, c.index, g) && Enlisted(n, c.index, g)
  {
    hide UpToNul, EntryAnswer, ReplyFor, BodyOf, OpOf;
    NoBodyRejected(Expected(OpOf(c.purpose)));
  }

  lemma NoBodyRejected(word: string)
    ensures !Validates(None, word)
  {
  }

  lemma FinishStands(n: Name, p: Peer, after: bool, g: Log)
    requires PeerRight(n, p, g) && p.call.Some? && RepliesRight(g)
    ensures var v := Lifecycle.Next(p.view, Outcome(p.call.value, after));
            && (v.state != Null && v.backend.Some? ==> exists i :: Standing(n, i, g))
            && (v.state != Null ==> exists i :: Enlisted(n, i, g))
  {
    hide Lifecycle.Next, Outcome, MayCall, Lifecycle.Run, ReplyFor, Accepted, ConsumerRight, CallRight, Standing,
         Enlisted, SilentAfter;
    var c := p.call.value;
    if Lifecycle.Next(p.view, Outcome(c, after)).state != Null {
      OutcomeBelief(p.view, c, after);
      if OpOf(c.purpose) == Enroll {
        AcceptedStands(n, c, g);
      }
    }
  }

  lemma FinishRight(nodes: set<Name>, s: System, n: Name, after: bool)
    requires Right(nodes, s) && Enabled(s, Finish(n, after))
    ensures Right(nodes, Step(s, Finish(n, after)))
  {
    hide LogRight, QueueRight, ListsRight, BoxesRight, PeersRight, WaitsRight, Standing, Enlisted, Lifecycle.Next,
         RepliesRight,
         Lifecycle.Ret, Outcome, CallRight, Undecided, Accepted, BodyOf, MayCall, Live, ConsumerRight, Lifecycle.Run,
           SilentAfter;
    RightPeer(nodes, s, n);
    LogReplies(s.log, nodes);
    var p := s.peers[n];
    var c := p.call.value;
    var e, drawn := Outcome(c, after), if c.purpose == ToDelist then [] else c.drawn;
    FinishStands(n, p, after, s.log);
    LiveRight(nodes, s, n, e, drawn);
    OutcomeRet(p.view, c, after);
    var r := Record(n, c, after, BodyOf(c), Lifecycle.Ret(p.view, e));
    assert RecordRight(r, s.log);
    LiveHistory(s, n, e, drawn);
    RecordAdded(nodes, Live(s, n, e, drawn), r);
  }

  lemma LiveHistory(s: System, n: Name, e: Lifecycle.Event, drawn: seq<Event>)
    requires n in s.peers
    ensures var s' := Live(s, n, e, drawn);
            s'.records == s.records && s'.log == s.log && s'.delivered == s.delivered && s'.enrolQueue == s.enrolQueue
  {
  }

  lemma RecordAdded(nodes: set<Name>, s: System, r: Record)
    requires Right(nodes, s) && RecordRight(r, s.log)
    ensures Right(nodes, s.(records := s.records + [r]))
  {
    hide LogRight, QueueRight, ListsRight, BoxesRight, PeersRight, WaitsRight, RecordRight;
  }

  // ---- the arbiter ----

  lemma EffectsMore(entries: seq<Entry>, e: Entry)
    ensures After(EffectsOf(entries + [e])) == Apply(After(EffectsOf(entries)), EntryEffect(e))
  {
    var es, x := EffectsOf(entries), EntryEffect(e);
    assert EffectsOf(entries + [e]) == es + [x];
    assert (es + [x])[..|es|] == es;
  }

  /** Every text on the enrol queue is served: it has its own effect, and its own reply. */
  lemma EntryServed(nodes: set<Name>, e: Entry, g: Log)
    requires EntryRight(e, g, nodes)
    ensures EffectFor(EnvelopeOf(e)) == EntryEffect(e) && ReplyTo(EnvelopeOf(e)) == Some(ReplyFor(e))
  {
    hide EffectFor, ReplyTo, Sending, Dispatch, PrintRequest;
    TextServed(Printed(e), e.replyTo, e.cid);
  }

  /** The message at the head of the queue is the next text, and it is served as one. */
  lemma HeadServed(nodes: set<Name>, s: System)
    requires Right(nodes, s) && s.enrolQueue != []
    ensures |s.log.replies| < |s.log.published|
    ensures var e := s.log.published[|s.log.replies|];
            EntryRight(e, s.log, nodes) &&
            s.enrolQueue[0] == EnvelopeOf(e) &&
            EffectFor(s.enrolQueue[0]) == EntryEffect(e) &&
            ReplyTo(s.enrolQueue[0]) == Some(ReplyFor(e))
  {
    hide EffectFor, ReplyTo, ReplyFor, EntryEffect, EnvelopeOf, BoxesRight, PeersRight, RecordsRight, WaitsRight,
         ListsRight,
         CommandsRight, RepliesRight, ServicesRight, EntryRight;
    EntryServed(nodes, s.log.published[|s.log.replies|], s.log);
  }

  lemma ReplyAdded(g: Log, nodes: set<Name>, reply: Option<Posted>)
    requires LogRight(g, nodes) && |g.replies| < |g.published|
    requires reply.Some? ==> reply.value == ReplyFor(g.published[|g.replies|])
    ensures var h := g.(replies := g.replies + [reply]); LogRight(h, nodes) && Grows(g, h)
  {
    hide ReplyFor, EntryRight, CommandRight, IsService, Ids;
    var h := g.(replies := g.replies + [reply]);
    assert forall i | 0 <= i < |g.published| :: EntryRight(g.published[i], g, nodes) ==>
      EntryRight(g.published[i], h, nodes) by {
      forall i | 0 <= i < |g.published| && EntryRight(g.published[i], g, nodes)
        ensures EntryRight(g.published[i], h, nodes)
      {
        IssuedSame(g.published[i], g, h, nodes);
      }
    }
    CommandsGrow(g, h, nodes);
    ServicesGrow(g, h, nodes);
  }

  lemma IssuedSame(e: Entry, g: Log, h: Log, nodes: set<Name>)
    requires EntryRight(e, g, nodes) && g.cids <= h.cids && g.names <= h.names
    ensures EntryRight(e, h, nodes)
  {
  }

  lemma CommandsGrow(g: Log, h: Log, nodes: set<Name>)
    requires CommandsRight(g, nodes) && Grows(g, h) && h.published == g.published && h.commands == g.commands
    ensures CommandsRight(h, nodes)
  {
    hide Ids;
    forall k | 0 <= k < |h.commands|
      ensures CommandRight(h.commands[k], h, nodes)
    {
      assert CommandRight(g.commands[k], g, nodes);
    }
    forall i | 0 <= i < |h.published| && h.published[i].Stray?
      ensures exists k :: IsStray(h, i, k)
    {
      var k :| IsStray(g, i, k);
      assert IsStray(h, i, k);
    }
  }

  lemma ReplyPosted(boxes: map<string, seq<Envelope>>, reply: Option<Posted>, g: Log)
    requires BoxesRight(boxes, g)
    requires reply.Some? ==> reply.value.queue in boxes && MessageRight(reply.value.env, reply.value.queue, g)
    ensures BoxesRight(WithReply(boxes, reply), g)
  {
    hide MessageRight, BoxesRight;
    if reply.Some? {
      PushedRight(boxes, reply.value.queue, reply.value.env, g);
    }
  }

  lemma ServeRight(nodes: set<Name>, s: System, posts: bool)
    requires Right(nodes, s) && Enabled(s, Serve(posts))
    ensures Right(nodes, Step(s, Serve(posts)))
  {
    hide RecordsRight, LogRight, BoxesRight, PeersRight, WaitsRight, EffectFor, ReplyTo, EntryEffect, ReplyFor,
         EnvelopeOf, Apply,
         EffectsOf, After, Grows, WithReply, MessageRight, EntryRight;
    HeadServed(nodes, s);
    var g, s' := s.log, Step(s, Serve(posts));
    var e, posted := g.published[|g.replies|], Delivered(s.boxes, ReplyTo(s.enrolQueue[0]), posts);
    ReplyAdded(g, nodes, posted);
    EffectsMore(g.published[..|g.replies|], e);
    assert g.published[..|g.replies|] + [e] == g.published[..|g.replies| + 1];
    BoxesGrow(s.boxes, g, s'.log);
    if posted.Some? {
      assert IsReply(posted.value.env, posted.value.queue, |g.replies|, s'.log);
      assert MessageRight(posted.value.env, posted.value.queue, s'.log)
        by { ReplyIsRight(posted.value, |g.replies|, s'.log); }
    }
    ReplyPosted(s.boxes, posted, s'.log);
    RecordsGrow(s.records, g, s'.log);
    WaitsGrow(s.waits, g, s'.log);
    PeersGrow(s.peers, g, s'.log);
  }

  lemma ReplyIsRight(posted: Posted, i: nat, g: Log)
    requires IsReply(posted.env, posted.queue, i, g)
    ensures MessageRight(posted.env, posted.queue, g)
  {
  }

  // ---- commands ----

  /** A node's response to a command goes to the queue of the command's sender. */
  lemma ResponseTo(c: Command, handled: Option<string>, g: Log, nodes: set<Name>)
    requires CommandRight(c, g, nodes)
    ensures CommandReply(CommandEnvelope(c), handled) == Some(Reply(c.replyTo, c.cid, CommandAnswer(c.text, handled)))
  {
    hide CommandAnswer, IsJson, Served, ReplyWith;
    SendingServed(c.text, c.replyTo, c.cid, CommandAnswer(c.text, handled));
  }

  /** Of the messages a node's watch can draw, only commands to that node are served. */
  lemma WatchedCommand(nodes: set<Name>, g: Log, n: Name, q: string, env: Envelope) returns (k: nat)
    requires LogRight(g, nodes) && n in nodes && ConsumerRight(n, q, g) && MessageRight(env, q, g) && Served(env)
    ensures IsCommand(env, q, k, g) && q == n.id && CommandRight(g.commands[k], g, nodes)
  {
    hide LogRight, CommandAnswer, EntryAnswer, IsJson, CommandEnvelope, Ids;
    if i: nat :| IsReply(env, q, i, g) {
      assert RepliesRight(g) by { LogReplies(g, nodes); }
      assert false;
    } else if i: nat :| IsResponse(env, q, i, g) {
      k := ServiceOf(nodes, g, i);
      assert false;
    } else {
      k :| IsCommand(env, q, k, g);
      CommandIssued(nodes, g, k);
      if q != n.id {
        var j: nat :| j < |g.published| && By(g.published[j], n) && g.published[j].replyTo == q;
        EntryIssued(nodes, g, j);
      }
    }
  }

  lemma ServiceAdded(g: Log, nodes: set<Name>, a: Service, k: nat)
    requires LogRight(g, nodes) && a.who in nodes && k < |g.commands| && CommandRight(g.commands[k], g, nodes)
    requires IsCommand(a.env, a.queue, k, g) && a.queue == a.who.id
    requires a.posted.Some? ==> a.posted == CommandReply(a.env, a.handled)
    ensures var h := g.(services := g.services + [a]);
            LogRight(h, nodes) && Grows(g, h) && IsService(h, |g.services|, k)
  {
    hide CommandReply, CommandEnvelope, Reply, EntriesRight, RepliesRight, CommandsRight, Ids, CommandRight;
    var h := g.(services := g.services + [a]);
    ResponseTo(g.commands[k], a.handled, g, nodes);
    assert IsService(h, |g.services|, k);
    forall i | 0 <= i < |h.services|
      ensures h.services[i].who in nodes && exists k' :: IsService(h, i, k')
    {
      if i < |g.services| {
        assert g.services[i].who in nodes;
        var k' :| IsService(g, i, k');
        ServiceGrows(g, h, i, k');
      }
    }
    CommandsGrow(g, h, nodes);
    SameEntries(g, h, nodes);
  }

  lemma SameEntries(g: Log, h: Log, nodes: set<Name>)
    requires EntriesRight(g, nodes) && Grows(g, h) && h.published == g.published
    ensures EntriesRight(h, nodes)
    ensures RepliesRight(g) && h.replies == g.replies ==> RepliesRight(h)
  {
    hide ReplyFor;
    forall i | 0 <= i < |h.published|
      ensures EntryRight(h.published[i], h, nodes)
    {
      IssuedSame(g.published[i], g, h, nodes);
    }
  }

  lemma WatchRight(nodes: set<Name>, s: System, n: Name, q: string, handled: Option<string>, posts: bool)
    requires Right(nodes, s) && Enabled(s, Watch(n, q, handled, posts))
    ensures Right(nodes, Step(s, Watch(n, q, handled, posts)))
  {
    hide LogRight, QueueRight, ListsRight, RecordsRight, BoxesRight, PeersRight, WaitsRight, MessageRight, Served,
         CommandReply,
         WithReply, Popped;
    var env, s' := s.boxes[q][0], Step(s, Watch(n, q, handled, posts));
    PoppedRight(s.boxes, q, s.log);
    RightPeer(nodes, s, n);
    var p' := s'.peers[n];
    assert PeerRight(n, p', s.log) by { HeardOnly(n, s.peers[n], p'.heard, s.log); }
    PeerChanged(nodes, s, n, p');
    var t := WithPeer(s, n, p');
    BoxesChanged(nodes, t, Popped(s.boxes, q), s'.delivered, s.lost);
    assert Right(nodes, t.(boxes := Popped(s.boxes, q), delivered := s'.delivered));
    WatchReplies(nodes, t.(boxes := Popped(s.boxes, q), delivered := s'.delivered), n, q, env, handled, posts);
  }

  lemma HeardOnly(n: Name, p: Peer, heard: seq<seq<Event>>, g: Log)
    requires PeerRight(n, p, g)
    ensures PeerRight(n, p.(heard := heard), g)
    ensures forall q | q in p.consumers :: ConsumerRight(n, q, g)
  {
    hide Standing, Enlisted, CallRight, ConsumerRight, MayCall, Lifecycle.Run;
  }

  lemma WatchReplies(nodes: set<Name>, s: System, n: Name, q: string, env: Envelope, handled: Option<string>,
                     posts: bool)
    requires Right(nodes, s) && n in nodes && ConsumerRight(n, q, s.log) && MessageRight(env, q, s.log)
    ensures var posted := Delivered(s.boxes, CommandReply(env, handled), posts);
            Right(nodes, s.(boxes := WithReply(s.boxes, posted),
                            log := if Served(env) then
                                     s.log.(services := s.log.services + [Service(n, q, env, handled, posted)])
                                   else s.log))
  {
    hide LogRight, RecordsRight, BoxesRight, PeersRight, WaitsRight, MessageRight, Served, IsService, Grows,
         ConsumerRight, CommandRight,
         ListsRight, QueueRight, IsCommand;
    var g, posted := s.log, Delivered(s.boxes, CommandReply(env, handled), posts);
    if Served(env) {
      var k := WatchedCommand(nodes, g, n, q, env);
      var a := Service(n, q, env, handled, posted);
      assert k < |g.commands| by { CommandBound(env, q, k, g); }
      ServiceAdded(g, nodes, a, k);
      var h := g.(services := g.services + [a]);
      BoxesGrow(s.boxes, g, h);
      if posted.Some? {
        ResponseIsRight(posted.value, |g.services|, h);
      }
      ReplyPosted(s.boxes, posted, h);
      RecordsGrow(s.records, g, h);
      WaitsGrow(s.waits, g, h);
      LogReplies(g, nodes);
      PeersGrow(s.peers, g, h);
      QueueSame(s, h);
    } else {
      NotServed(env, handled);
    }
  }

  lemma CommandBound(env: Envelope, q: string, k: nat, g: Log)
    requires IsCommand(env, q, k, g)
    ensures k < |g.commands|
  {
  }

  lemma NotServed(env: Envelope, handled: Option<string>)
    requires !Served(env)
    ensures CommandReply(env, handled) == None
  {
  }

  lemma QueueSame(s: System, h: Log)
    requires QueueRight(s.enrolQueue, s.log) && ListsRight(s.lists, s.log)
    requires h.published == s.log.published && h.replies == s.log.replies
    ensures QueueRight(s.enrolQueue, h) && ListsRight(s.lists, h)
  {
    hide After, EffectsOf, EnvelopeOf;
  }

  lemma ResponseIsRight(posted: Posted, i: nat, g: Log)
    requires i < |g.services| && g.services[i].posted == Some(posted)
    ensures MessageRight(posted.env, posted.queue, g)
  {
    assert IsResponse(posted.env, posted.queue, i, g);
  }

  /** The log once a command was sent. */
  function Sent(g: Log, c: Command): Log
  {
    var h := g.(commands := g.commands + [c], cids := g.cids + {c.cid}, names := g.names + {c.replyTo});
    if c.target == EnrolQueue then h.(published := g.published + [Stray(c.text, c.replyTo, c.cid)]) else h
  }

  lemma CommandAdded(g: Log, nodes: set<Name>, c: Command)
    requires LogRight(g, nodes) && Fresh(g, c.cid, c.replyTo) && (c.target.QueueOf? ==> c.target.id in Ids(nodes))
    ensures LogRight(Sent(g, c), nodes) && Grows(g, Sent(g, c))
  {
    hide EntriesRight, IsService, ReplyFor, Ids;
    var h := Sent(g, c);
    if c.target == EnrolQueue {
      EntryAdded(g, nodes, Stray(c.text, c.replyTo, c.cid), h);
    } else {
      SameEntries(g, h, nodes);
    }
    CommandsAfter(g, nodes, c);
    ServicesGrow(g, h, nodes);
  }

  lemma CommandsAfter(g: Log, nodes: set<Name>, c: Command)
    requires CommandsRight(g, nodes) && EntriesRight(g, nodes) && Ids(nodes) <= g.names
    requires Fresh(g, c.cid, c.replyTo) && (c.target.QueueOf? ==> c.target.id in Ids(nodes))
    ensures CommandsRight(Sent(g, c), nodes)
  {
    hide Ids;
    var h := Sent(g, c);
    forall k | 0 <= k < |h.commands|
      ensures CommandRight(h.commands[k], h, nodes)
      ensures k < |g.commands| ==> h.commands[k].cid != c.cid && h.commands[k].replyTo != c.replyTo
    {
      if k < |g.commands| { assert CommandRight(g.commands[k], g, nodes); }
    }
    forall i | 0 <= i < |h.published| && h.published[i].Request?
      ensures h.published[i].cid != c.cid && h.published[i].replyTo != c.replyTo
    {
      assert EntryRight(g.published[i], g, nodes);
    }
    forall i | 0 <= i < |h.published| && h.published[i].Stray?
      ensures exists k :: IsStray(h, i, k)
    {
      if i < |g.published| {
        var k :| IsStray(g, i, k);
        assert IsStray(h, i, k);
      } else {
        assert IsStray(h, i, |g.commands|);
      }
    }
  }

  lemma SendRight(nodes: set<Name>, s: System, c: Command)
    requires Right(nodes, s) && Enabled(s, Send(c))
    ensures Right(nodes, Step(s, Send(c)))
  {
    hide LogRight, RecordsRight, BoxesRight, PeersRight, WaitsRight, MessageRight, Grows, ListsRight, QueueRight,
         CommandEnvelope, EnvelopeOf, Ids, Pushed;
    var g, h, s' := s.log, Sent(s.log, c), Step(s, Send(c));
    assert s'.log == h;
    CommandAdded(g, nodes, c);
    BoxesGrow(s.boxes, g, h);
    EmptyBoxAdded(s.boxes, c.replyTo, h);
    RecordsGrow(s.records, g, h);
    LogReplies(h, nodes);
    PeersGrow(s.peers, g, h);
    WaitAdded(s.waits, g, c);
    match c.target {
      case QueueOf(q) =>
        QueueSame(s, h);
        assert MessageRight(CommandEnvelope(c), q, h) by { SentIsRight(g, c); }
        PushedRight(s.boxes[c.replyTo := []], q, CommandEnvelope(c), h);
      case EnrolQueue => QueueGrows(s, Stray(c.text, c.replyTo, c.cid), h);
    }
  }

  lemma SentIsRight(g: Log, c: Command)
    requires c.target.QueueOf?
    ensures MessageRight(CommandEnvelope(c), c.target.id, Sent(g, c))
  {
    assert IsCommand(CommandEnvelope(c), c.target.id, |g.commands|, Sent(g, c));
  }

  lemma WaitAdded(waits: seq<seq<Event>>, g: Log, c: Command)
    requires WaitsRight(waits, g) && Grows(g, Sent(g, c))
    ensures WaitsRight(waits + [[]], Sent(g, c))
  {
    hide WaitRight, Grows;
    forall k | 0 <= k < |waits| + 1
      ensures WaitRight(k, (waits + [[]])[k], Sent(g, c))
    {
      if k < |waits| {
        WaitGrows(k, waits[k], g, Sent(g, c));
      } else {
        NothingHeard(k, Sent(g, c));
      }
    }
  }

  lemma NothingHeard(k: nat, g: Log)
    requires k < |g.commands|
    ensures WaitRight(k, [], g)
  {
  }

  /** Whatever is in the private queue of a command's sender is the response to that command. */
  lemma OwnResponse(nodes: set<Name>, g: Log, k: nat, m: Envelope) returns (answer: string)
    requires LogRight(g, nodes) && k < |g.commands| && MessageRight(m, g.commands[k].replyTo, g)
    ensures m == Reply(g.commands[k].replyTo, g.commands[k].cid, answer).env && Responded(k, UpToNul(answer), g)
  {
    hide LogRight, CommandAnswer, Dispatch, Answer, Expected, UpToNul, CommandEnvelope, Ids;
    var c, q := g.commands[k], g.commands[k].replyTo;
    CommandIssued(nodes, g, k);
    if i: nat :| IsReply(m, q, i, g) {
      LogReplies(g, nodes);
      if g.published[i].Request? {
        RequestBesideCommand(nodes, g, i, k);
      } else {
        var k' := StrayOf(nodes, g, i);
        CommandsApart(nodes, g, k, k');
        answer := Dispatch(c.text).answer;
      }
    } else if k': nat :| IsCommand(m, q, k', g) {
      CommandIssued(nodes, g, k');
    } else {
      var i: nat :| IsResponse(m, q, i, g);
      var k' := ServiceOf(nodes, g, i);
      CommandsApart(nodes, g, k, k');
      answer := CommandAnswer(c.text, g.services[i].handled);
    }
  }

  lemma StrayOf(nodes: set<Name>, g: Log, i: nat) returns (k: nat)
    requires LogRight(g, nodes) && i < |g.published| && g.published[i].Stray?
    ensures IsStray(g, i, k)
  {
    k :| IsStray(g, i, k);
  }

  lemma ReceiveRight(nodes: set<Name>, s: System, k: nat)
    requires Right(nodes, s) && Enabled(s, Receive(k))
    ensures Right(nodes, Step(s, Receive(k)))
  {
    hide LogRight, QueueRight, ListsRight, RecordsRight, PeersRight, BoxesRight, MessageRight, Responded,
         AllDiscarded, UpToNul, Matches;
    var c, q := s.log.commands[k], s.log.commands[k].replyTo;
    var m, s' := s.boxes[q][0], Step(s, Receive(k));
    PoppedRight(s.boxes, q, s.log);
    BoxesChanged(nodes, s, Popped(s.boxes, q), s'.delivered, s.lost);
    var answer := OwnResponse(nodes, s.log, k, m);
    MatchesExactly(c.cid, c.cid);
    HeardRight(nodes, s.(boxes := Popped(s.boxes, q), delivered := s'.delivered), k, Arrived(m));
  }

  lemma HeardRight(nodes: set<Name>, s: System, k: nat, e: Event)
    requires Right(nodes, s) && Asking(s, k)
    requires Judge(s.log.commands[k].cid, e) != Discard
    requires LastBody(s.log.commands[k].cid, [e]).Some? ==>
             Responded(k, LastBody(s.log.commands[k].cid, [e]).value, s.log)
    ensures Right(nodes, s.(waits := s.waits[k := s.waits[k] + [e]]))
  {
    hide LogRight, QueueRight, ListsRight, RecordsRight, PeersRight, BoxesRight, Responded, Judge, AllDiscarded,
         AtMostOne;
    var drawn := s.waits[k] + [e];
    assert WaitRight(k, s.waits[k], s.log);
    NothingYet(s.log.commands[k].cid, s.waits[k]);
    FirstDraw(s.log.commands[k].cid, e);
    assert drawn == [e];
    assert WaitRight(k, drawn, s.log);
  }

  // ---- every run ----

  lemma StepRight(nodes: set<Name>, s: System, a: Action)
    requires Right(nodes, s) && Enabled(s, a)
    ensures Right(nodes, Step(s, a))
  {
    hide Right, Enabled, Step;
    match a
    case Publish(n, p, cid, q) => PublishRight(nodes, s, n, p, cid, q);
    case Consume(n) => ConsumeRight(nodes, s, n);
    case Draw(n, q) => DrawRight(nodes, s, n, q);
    case Break(n, cause) => BreakRight(nodes, s, n, cause);
    case Finish(n, after) => FinishRight(nodes, s, n, after);
    case Alone(n, e) => AloneRight(nodes, s, n, e);
    case Watch(n, q, handled, posts) => WatchRight(nodes, s, n, q, handled, posts);
    case Serve(posts) => ServeRight(nodes, s, posts);
    case Send(c) => SendRight(nodes, s, c);
    case Receive(k) => ReceiveRight(nodes, s, k);
    case Lose(k, cause) => LoseRight(nodes, s, k, cause);
    case HangUp(k) => HangUpRight(nodes, s, k);
  }

  /** Every step only adds to the log. */
  lemma GrowsAlways(s: System, a: Action)
    requires Enabled(s, a)
    ensures Grows(s.log, Step(s, a).log)
  {
    hide MayCall, Undecided, Outcome, QueuesGone, QueuesNew, ConsumersAfter, Lived, WithReply, CommandReply, ReplyTo,
         EnvelopeOf,
         CommandEnvelope, AllDiscarded, Pushed, Popped, Within;
  }

  lemma LoseRight(nodes: set<Name>, s: System, k: nat, cause: Event)
    requires Right(nodes, s) && Enabled(s, Lose(k, cause))
    ensures Right(nodes, Step(s, Lose(k, cause)))
  {
    hide Right, AllDiscarded, Responded;
    HeardRight(nodes, s, k, cause);
  }

  lemma HangUpRight(nodes: set<Name>, s: System, k: nat)
    requires Right(nodes, s) && Enabled(s, HangUp(k))
    ensures Right(nodes, Step(s, HangUp(k)))
  {
    hide LogRight, QueueRight, ListsRight, RecordsRight, PeersRight, WaitsRight, MessageRight;
    ReshapedRight(s.boxes, s.boxes - {s.log.commands[k].replyTo}, s.log);
    BoxesChanged(nodes, s, s.boxes - {s.log.commands[k].replyTo}, s.delivered, Step(s, HangUp(k)).lost);
  }

  /** Every reachable state is right. */
  lemma {:induction false} RunRight(nodes: set<Name>, actions: seq<Action>)
    ensures Exec(nodes, actions).Some? ==> Right(nodes, Exec(nodes, actions).value)
    decreases |actions|
  {
    hide Right, Enabled, Step;
    if actions == [] {
      StartRight(nodes);
    } else {
      RunRight(nodes, actions[..|actions| - 1]);
      if Exec(nodes, actions).Some? {
        StepRight(nodes, Exec(nodes, actions[..|actions| - 1]).value, actions[|actions| - 1]);
      }
    }
  }
}
