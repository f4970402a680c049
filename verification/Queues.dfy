/** Which queues exist, who consumes from them, and for how long. */
module Queues {
  import opened Common
  import opened Requests
  import opened RpcWait
  import opened Registry
  import opened Messages
  import opened Arbiter
  import opened Protocol
  import opened Invariant
  import opened Theorems
  import Lifecycle

  // ---- why a queue exists ----

  predicate Consumes(s: System, n: Name, q: string)
  {
    n in s.peers && q in s.peers[n].consumers
  }

  /** An open call whose main connection does not consume from its private queue q (yet). */
  predicate CallHolds(s: System, n: Name, q: string)
  {
    n in s.peers && s.peers[n].call.Some? && s.peers[n].call.value.replyTo == q &&
    (s.peers[n].call.value.consuming ==> s.peers[n].call.value.purpose == ToDelist)
  }

  /** A finished call that left its private queue q behind: a delist that failed, or any other call that
      never consumed. */
  predicate RecordHolds(s: System, k: nat, q: string)
  {
    k < |s.records| && s.records[k].call.replyTo == q &&
    if s.records[k].call.purpose == ToDelist then s.records[k].ret != Ok else !s.records[k].call.consuming
  }

  /** The sender of the k-th command has not hung up. */
  predicate SenderHolds(s: System, hung: set<nat>, k: nat, q: string)
  {
    k < |s.log.commands| && k !in hung && s.log.commands[k].replyTo == q
  }

  ghost predicate Held(s: System, hung: set<nat>, q: string)
  {
    || (exists n :: Consumes(s, n, q))
    || (exists n :: CallHolds(s, n, q))
    || (exists k :: RecordHolds(s, k, q))
    || (exists k :: SenderHolds(s, hung, k, q))
  }

  /** The queues that exist are those somebody holds. */
  ghost predicate Existing(s: System, hung: set<nat>)
  {
    (forall k | k in hung :: k < |s.log.commands|) && forall q :: q in s.boxes <==> Held(s, hung, q)
  }

  // ---- what a node consumes from ----

  /** q is the private queue of the j-th request, an enrolment or an activation of n. */
  predicate MainQueue(n: Name, q: string, j: nat, g: Log)
  {
    j < |g.published| && By(g.published[j], n) && g.published[j].op != Delist && g.published[j].replyTo == q
  }

  ghost predicate PeerPlaced(n: Name, p: Peer, g: Log, records: seq<Record>)
  {
    && (p.call.None? && p.view.backend.None? ==> p.consumers == {})
    && (p.view.state == Activated && p.view.backend.Some? ==> n.id in p.consumers)
    && (forall q | q in p.consumers :: q == n.id || exists j :: MainQueue(n, q, j, g))
    && (forall k | 0 <= k < |records| :: p.call.Some? ==> records[k].call.index != p.call.value.index)
    && (forall k | 0 <= k < |records| && records[k].call.replyTo in p.consumers ::
          records[k].call.consuming && records[k].call.purpose != ToDelist)
    && (p.call.Some? && p.call.value.replyTo in p.consumers ==> p.call.value.consuming)
  }

  ghost predicate Placed(s: System)
  {
    forall n | n in s.peers :: PeerPlaced(n, s.peers[n], s.log, s.records)
  }

  // ---- names are apart ----

  /** A name that n consumes from is nobody else's, no delist's and no sender's. */
  lemma ConsumedApart(nodes: set<Name>, s: System, n: Name, q: string)
    requires Right(nodes, s) && Placed(s) && Consumes(s, n, q)
    ensures forall m | m in s.peers && s.peers[m].call.Some? && s.peers[m].call.value.replyTo == q ::
              m == n && s.peers[m].call.value.purpose != ToDelist
    ensures forall k | 0 <= k < |s.log.commands| :: s.log.commands[k].replyTo != q
    ensures forall k | 0 <= k < |s.records| && s.records[k].call.replyTo == q ::
              s.records[k].call.consuming && s.records[k].call.purpose != ToDelist
  {
    hide LogRight, QueueRight, ListsRight, BoxesRight, RecordsRight, WaitsRight, PeerRight, MayCall;
    assert PeerPlaced(n, s.peers[n], s.log, s.records);
    OwnQueueId(nodes, n);
    forall m | m in s.peers && s.peers[m].call.Some? && s.peers[m].call.value.replyTo == q
      ensures m == n && s.peers[m].call.value.purpose != ToDelist
    {
      RightPeer(nodes, s, m);
      CallPublished(m, s.peers[m], s.log);
      EntryIssued(nodes, s.log, s.peers[m].call.value.index);
      if j: nat :| MainQueue(n, q, j, s.log) {
        SameRequest(nodes, s.log, j, s.peers[m].call.value.index);
      }
    }
    forall k | 0 <= k < |s.log.commands|
      ensures s.log.commands[k].replyTo != q
    {
      CommandIssued(nodes, s.log, k);
      if j: nat :| MainQueue(n, q, j, s.log) {
        RequestBesideCommand(nodes, s.log, j, k);
      }
    }
  }

  lemma OwnQueueId(nodes: set<Name>, n: Name)
    ensures n in nodes ==> n.id in Ids(nodes)
  {
  }

  lemma CallPublished(n: Name, p: Peer, g: Log)
    requires PeerRight(n, p, g) && p.call.Some?
    ensures var c := p.call.value;
            c.index < |g.published| && g.published[c.index] == Request(n, OpOf(c.purpose), c.replyTo, c.cid) &&
            MayCall(p.view, c.purpose)
  {
    hide Standing, Enlisted, Answered, AllDiscarded, MayCall, Lifecycle.Run;
  }

  lemma SameRequest(nodes: set<Name>, g: Log, i: nat, j: nat)
    requires LogRight(g, nodes) && i < |g.published| && j < |g.published|
    requires g.published[i].replyTo == g.published[j].replyTo
    ensures i == j
  {
  }

  /** So is the private queue of an open call. */
  lemma OpenApart(nodes: set<Name>, s: System, n: Name)
    requires Right(nodes, s) && Placed(s) && n in s.peers && s.peers[n].call.Some?
    ensures var q := s.peers[n].call.value.replyTo;
            && q !in Ids(nodes)
            && (forall m | m in s.peers && s.peers[m].call.Some? && s.peers[m].call.value.replyTo == q :: m == n)
            && (forall k | 0 <= k < |s.log.commands| :: s.log.commands[k].replyTo != q)
            && (forall k | 0 <= k < |s.records| :: s.records[k].call.replyTo != q)
            && (forall m | m in s.peers && q in s.peers[m].consumers :: m == n)
  {
    hide LogRight, QueueRight, ListsRight, BoxesRight, WaitsRight, PeerRight, MayCall, RecordRight;
    var c := s.peers[n].call.value;
    var q := c.replyTo;
    RightPeer(nodes, s, n);
    CallPublished(n, s.peers[n], s.log);
    EntryIssued(nodes, s.log, c.index);
    forall m | m in s.peers && s.peers[m].call.Some? && s.peers[m].call.value.replyTo == q
      ensures m == n
    {
      RightPeer(nodes, s, m);
      CallPublished(m, s.peers[m], s.log);
      SameRequest(nodes, s.log, c.index, s.peers[m].call.value.index);
    }
    forall k | 0 <= k < |s.log.commands|
      ensures s.log.commands[k].replyTo != q
    {
      RequestBesideCommand(nodes, s.log, c.index, k);
    }
    forall k | 0 <= k < |s.records|
      ensures s.records[k].call.replyTo != q
    {
      assert PeerPlaced(n, s.peers[n], s.log, s.records);
      RecordPublished(s, k);
      if s.records[k].call.replyTo == q {
        SameRequest(nodes, s.log, c.index, s.records[k].call.index);
      }
    }
    forall m | m in s.peers && q in s.peers[m].consumers
      ensures m == n
    {
      ConsumedApart(nodes, s, m, q);
    }
  }

  lemma RecordPublished(s: System, k: nat)
    requires RecordsRight(s.records, s.log) && k < |s.records|
    ensures var c := s.records[k].call;
            c.index < |s.log.published| &&
            s.log.published[c.index] == Request(s.records[k].who, OpOf(c.purpose), c.replyTo, c.cid)
  {
    hide Answered, AllDiscarded, Accepted, Undecided;
    assert RecordRight(s.records[k], s.log);
  }

  /** A name nobody used before is nobody's. */
  lemma FreshApart(nodes: set<Name>, s: System, q: string)
    requires Right(nodes, s) && q !in s.log.names && Placed(s)
    ensures q !in Ids(nodes)
    ensures forall m | m in s.peers :: q !in s.peers[m].consumers
    ensures forall m | m in s.peers && s.peers[m].call.Some? :: s.peers[m].call.value.replyTo != q
    ensures forall k | 0 <= k < |s.records| :: s.records[k].call.replyTo != q
    ensures forall k | 0 <= k < |s.log.commands| :: s.log.commands[k].replyTo != q
  {
    hide QueueRight, ListsRight, BoxesRight, WaitsRight, PeerRight, MayCall, RecordsRight, EntriesRight, CommandsRight,
         RepliesRight, ServicesRight;
    forall m | m in s.peers
      ensures q !in s.peers[m].consumers
      ensures s.peers[m].call.Some? ==> s.peers[m].call.value.replyTo != q
    {
      assert PeerPlaced(m, s.peers[m], s.log, s.records);
      OwnQueueId(nodes, m);
      RightPeer(nodes, s, m);
      if s.peers[m].call.Some? {
        CallPublished(m, s.peers[m], s.log);
        EntryIssued(nodes, s.log, s.peers[m].call.value.index);
      }
      if q in s.peers[m].consumers && q != m.id {
        var j: nat :| MainQueue(m, q, j, s.log);
        EntryIssued(nodes, s.log, j);
      }
    }
    forall k | 0 <= k < |s.records|
      ensures s.records[k].call.replyTo != q
    {
      RecordPublished(s, k);
      EntryIssued(nodes, s.log, s.records[k].call.index);
    }
    forall k | 0 <= k < |s.log.commands|
      ensures s.log.commands[k].replyTo != q
    {
      CommandIssued(nodes, s.log, k);
    }
  }

  // ---- what every step keeps: consumers ----

  lemma PlacedGrows(n: Name, p: Peer, g: Log, h: Log, records: seq<Record>)
    requires PeerPlaced(n, p, g, records) && g.published <= h.published
    ensures PeerPlaced(n, p, h, records)
  {
    forall q | q in p.consumers
      ensures q == n.id || exists j :: MainQueue(n, q, j, h)
    {
      if q != n.id {
        var j: nat :| MainQueue(n, q, j, g);
        assert MainQueue(n, q, j, h);
      }
    }
  }

  lemma PlacedRecord(n: Name, p: Peer, g: Log, records: seq<Record>, r: Record)
    requires PeerPlaced(n, p, g, records)
    requires p.call.Some? ==> r.call.index != p.call.value.index
    requires r.call.replyTo in p.consumers ==> r.call.consuming && r.call.purpose != ToDelist
    ensures PeerPlaced(n, p, g, records + [r])
  {
  }

  lemma PublishPlaced(nodes: set<Name>, s: System, n: Name, p: Purpose, cid: string, q: string)
    requires Right(nodes, s) && Enabled(s, Publish(n, p, cid, q)) && Placed(s)
    ensures Placed(Step(s, Publish(n, p, cid, q)))
  {
    hide Right, MayCall, EnvelopeOf, PeerPlaced;
    FreshApart(nodes, s, q);
    var s' := Step(s, Publish(n, p, cid, q));
    forall m | m in s'.peers
      ensures PeerPlaced(m, s'.peers[m], s'.log, s'.records)
    {
      PlacedGrows(m, s.peers[m], s.log, s'.log, s.records);
      if m == n {
        IndexesBelow(nodes, s);
        CallingPlaced(n, s.peers[n], s'.log, s.records, s'.peers[n].call.value);
      }
    }
  }

  lemma IndexesBelow(nodes: set<Name>, s: System)
    requires Right(nodes, s)
    ensures forall k | 0 <= k < |s.records| :: s.records[k].call.index < |s.log.published|
  {
    hide LogRight, QueueRight, ListsRight, BoxesRight, WaitsRight, PeersRight, RecordsRight;
    forall k | 0 <= k < |s.records|
      ensures s.records[k].call.index < |s.log.published|
    {
      RecordPublished(s, k);
    }
  }

  lemma CallingPlaced(n: Name, p: Peer, g: Log, records: seq<Record>, c: Call)
    requires PeerPlaced(n, p, g, records) && c.replyTo !in p.consumers
    requires forall k | 0 <= k < |records| :: records[k].call.index != c.index
    ensures PeerPlaced(n, p.(call := Some(c)), g, records)
  {
  }

  lemma ConsumePlaced(nodes: set<Name>, s: System, n: Name)
    requires Right(nodes, s) && Enabled(s, Consume(n)) && Placed(s)
    ensures Placed(Step(s, Consume(n)))
  {
    hide Right, PeerPlaced;
    OpenApart(nodes, s, n);
    RightPeer(nodes, s, n);
    CallPublished(n, s.peers[n], s.log);
    ConsumingPlaced(n, s.peers[n], s.log, s.records);
  }

  lemma ConsumingPlaced(n: Name, p: Peer, g: Log, records: seq<Record>)
    requires PeerPlaced(n, p, g, records) && p.call.Some?
    requires var c := p.call.value;
             c.index < |g.published| && g.published[c.index] == Request(n, OpOf(c.purpose), c.replyTo, c.cid)
    requires forall k | 0 <= k < |records| :: records[k].call.replyTo != p.call.value.replyTo
    ensures PeerPlaced(n, AfterConsume(p), g, records)
  {
    var c, p' := p.call.value, AfterConsume(p);
    forall q | q in p'.consumers
      ensures q == n.id || exists j :: MainQueue(n, q, j, g)
    {
      if q !in p.consumers {
        assert MainQueue(n, q, c.index, g);
      }
    }
  }

  /** A node that lives through an event that is not a call's, or that ends its call. */
  lemma LivedPlaced(n: Name, p: Peer, g: Log, records: seq<Record>, e: Lifecycle.Event, drawn: seq<Event>)
    requires PeerPlaced(n, p, g, records)
    requires forall k | 0 <= k < |records| :: records[k].call.replyTo != n.id
    ensures PeerPlaced(n, Lived(p, e, drawn).(call := None, consumers := ConsumersAfter(n, p, e)), g, records)
  {
  }

  lemma RecordsBesideId(nodes: set<Name>, s: System, n: Name)
    requires Right(nodes, s) && n in nodes
    ensures forall k | 0 <= k < |s.records| :: s.records[k].call.replyTo != n.id
  {
    hide LogRight, QueueRight, ListsRight, BoxesRight, WaitsRight, PeersRight, RecordsRight;
    OwnQueueId(nodes, n);
    forall k | 0 <= k < |s.records|
      ensures s.records[k].call.replyTo != n.id
    {
      RecordPublished(s, k);
      EntryIssued(nodes, s.log, s.records[k].call.index);
    }
  }

  lemma AlonePlaced(nodes: set<Name>, s: System, n: Name, e: Lifecycle.Event)
    requires Right(nodes, s) && Enabled(s, Alone(n, e)) && Placed(s)
    ensures Placed(Step(s, Alone(n, e)))
  {
    hide Right, PeerPlaced, PublishesNothing, Lived, ConsumersAfter, QueuesGone, QueuesNew, Within;
    RightNodes(nodes, s);
    RecordsBesideId(nodes, s, n);
    LivedPlaced(n, s.peers[n], s.log, s.records, e, []);
  }

  lemma FinishPlaced(nodes: set<Name>, s: System, n: Name, after: bool)
    requires Right(nodes, s) && Enabled(s, Finish(n, after)) && Placed(s)
    ensures Placed(Step(s, Finish(n, after)))
  {
    hide Right, PeerPlaced, Lived, ConsumersAfter, QueuesGone, QueuesNew, Within, Outcome, Undecided, BodyOf,
         Lifecycle.Ret;
    var s' := Step(s, Finish(n, after));
    var p, c := s.peers[n], s.peers[n].call.value;
    var e, r := Outcome(c, after), s'.records[|s.records|];
    RightNodes(nodes, s);
    RecordsBesideId(nodes, s, n);
    OpenApart(nodes, s, n);
    OwnQueueId(nodes, n);
    LivedPlaced(n, p, s.log, s.records, e, if c.purpose == ToDelist then [] else c.drawn);
    ConsumersFrom(n, p, e);
    forall m | m in s'.peers
      ensures PeerPlaced(m, s'.peers[m], s'.log, s'.records)
    {
      if m == n {
        if c.replyTo in s'.peers[n].consumers {
          CallConsumes(nodes, s, n);
        }
        PlacedRecord(n, s'.peers[n], s.log, s.records, r);
      } else {
        if s.peers[m].call.Some? { CallsApart(nodes, s, m, n); }
        PlacedRecord(m, s.peers[m], s.log, s.records, r);
      }
    }
  }

  lemma ConsumersFrom(n: Name, p: Peer, e: Lifecycle.Event)
    ensures ConsumersAfter(n, p, e) <= p.consumers + {n.id}
  {
  }

  lemma CallConsumes(nodes: set<Name>, s: System, n: Name)
    requires Right(nodes, s) && Placed(s) && Calling(s, n) && s.peers[n].call.value.replyTo in s.peers[n].consumers
    ensures s.peers[n].call.value.consuming && s.peers[n].call.value.purpose != ToDelist
  {
    hide Right;
    ConsumedApart(nodes, s, n, s.peers[n].call.value.replyTo);
    assert PeerPlaced(n, s.peers[n], s.log, s.records);
  }

  lemma CallsApart(nodes: set<Name>, s: System, m: Name, n: Name)
    requires Right(nodes, s) && Calling(s, m) && Calling(s, n) && m != n
    ensures s.peers[m].call.value.index != s.peers[n].call.value.index
  {
    hide Right, MayCall;
    RightPeer(nodes, s, m);
    CallPublished(m, s.peers[m], s.log);
    RightPeer(nodes, s, n);
    CallPublished(n, s.peers[n], s.log);
  }

  /** The step leaves a node's value and consumers alone, and its call but for what it drew. */
  predicate SamePeer(p: Peer, p': Peer)
  {
    && p'.view == p.view && p'.consumers == p.consumers && p'.call.Some? == p.call.Some?
    && (p.call.Some? ==> p'.call.value.(drawn := []) == p.call.value.(drawn := []))
  }

  /** No queue, call, consumer or record comes or goes. */
  ghost predicate Alike(s: System, s': System)
  {
    && s'.peers.Keys == s.peers.Keys && (forall n | n in s.peers :: SamePeer(s.peers[n], s'.peers[n]))
    && s'.records == s.records && s'.log.published == s.log.published && s'.log.commands == s.log.commands
    && s'.boxes.Keys == s.boxes.Keys
  }

  predicate Moves(a: Action)
  {
    a.Draw? || a.Break? || a.Watch? || a.Serve? || a.Receive? || a.Lose?
  }

  lemma MovesAlike(s: System, a: Action)
    requires Enabled(s, a) && Moves(a)
    ensures Alike(s, Step(s, a))
  {
    hide Undecided, AllDiscarded, CommandReply, ReplyTo, Apply, EffectFor, Served;
  }

  lemma AlikePlaced(s: System, s': System)
    requires Alike(s, s') && Placed(s)
    ensures Placed(s')
  {
    forall n | n in s'.peers
      ensures PeerPlaced(n, s'.peers[n], s'.log, s'.records)
    {
      SamePlaced(n, s.peers[n], s'.peers[n], s.log, s'.log, s.records);
    }
  }

  lemma SamePlaced(n: Name, p: Peer, p': Peer, g: Log, h: Log, records: seq<Record>)
    requires SamePeer(p, p') && h.published == g.published && PeerPlaced(n, p, g, records)
    ensures PeerPlaced(n, p', h, records)
  {
    PlacedGrows(n, p, g, h, records);
  }

  lemma SendPlaced(nodes: set<Name>, s: System, c: Command)
    requires Right(nodes, s) && Enabled(s, Send(c)) && Placed(s)
    ensures Placed(Step(s, Send(c)))
  {
    hide Right, PeerPlaced, Fresh, EnvelopeOf, CommandEnvelope, Pushed;
    var s' := Step(s, Send(c));
    forall n | n in s'.peers
      ensures PeerPlaced(n, s'.peers[n], s'.log, s'.records)
    {
      PlacedGrows(n, s.peers[n], s.log, s'.log, s.records);
    }
  }

  lemma StepPlaced(nodes: set<Name>, s: System, a: Action)
    requires Right(nodes, s) && Enabled(s, a) && Placed(s)
    ensures Placed(Step(s, a))
  {
    hide Right, PeerPlaced;
    match a
    case Publish(n, p, cid, q) => PublishPlaced(nodes, s, n, p, cid, q);
    case Consume(n) => ConsumePlaced(nodes, s, n);
    case Finish(n, after) => FinishPlaced(nodes, s, n, after);
    case Alone(n, e) => AlonePlaced(nodes, s, n, e);
    case Send(c) => SendPlaced(nodes, s, c);
    case HangUp(_) =>
    case _ => hide Enabled, Step; MovesAlike(s, a); AlikePlaced(s, Step(s, a));
  }

  // ---- what every step keeps: queues ----

  /** The queue exists exactly if somebody holds it. */
  ghost predicate HeldIff(s: System, hung: set<nat>, q: string)
  {
    q in s.boxes <==> Held(s, hung, q)
  }

  lemma ExistingAt(s: System, hung: set<nat>, q: string)
    requires Existing(s, hung)
    ensures HeldIff(s, hung, q)
  {
  }

  lemma AlikeHeld(s: System, s': System, hung: set<nat>, q: string)
    requires Alike(s, s') && Existing(s, hung)
    ensures HeldIff(s', hung, q)
  {
    forall n
      ensures Consumes(s', n, q) <==> Consumes(s, n, q)
      ensures CallHolds(s', n, q) <==> CallHolds(s, n, q)
    {
    }
    forall k: nat
      ensures RecordHolds(s', k, q) <==> RecordHolds(s, k, q)
      ensures SenderHolds(s', hung, k, q) <==> SenderHolds(s, hung, k, q)
    {
    }
  }

  lemma PublishHeld(nodes: set<Name>, s: System, n: Name, p: Purpose, cid: string, q0: string,
                    hung: set<nat>, q: string)
    requires Right(nodes, s) && Enabled(s, Publish(n, p, cid, q0)) && Placed(s) && Existing(s, hung)
    ensures HeldIff(Step(s, Publish(n, p, cid, q0)), hung, q)
  {
    hide Right, MayCall, EnvelopeOf, Placed;
    var s' := Step(s, Publish(n, p, cid, q0));
    forall m
      ensures Consumes(s', m, q) <==> Consumes(s, m, q)
      ensures CallHolds(s', m, q) <==> CallHolds(s, m, q) || (m == n && q == q0)
    {
    }
    assert CallHolds(s', n, q0);
    forall k: nat
      ensures RecordHolds(s', k, q) <==> RecordHolds(s, k, q)
      ensures SenderHolds(s', hung, k, q) <==> SenderHolds(s, hung, k, q)
    {
    }
  }

  lemma ConsumeHeld(s: System, n: Name, hung: set<nat>, q: string)
    requires Enabled(s, Consume(n)) && Existing(s, hung)
    ensures HeldIff(Step(s, Consume(n)), hung, q)
  {
    var s' := Step(s, Consume(n));
    var c := s.peers[n].call.value;
    forall m
      ensures Consumes(s', m, q) <==> Consumes(s, m, q) || (m == n && q == c.replyTo && c.purpose != ToDelist)
      ensures CallHolds(s', m, q) <==>
              CallHolds(s, m, q) && !(m == n && q == c.replyTo && c.purpose != ToDelist)
    {
    }
    assert CallHolds(s, n, c.replyTo);
    assert c.purpose != ToDelist ==> Consumes(s', n, c.replyTo);
    forall k: nat
      ensures RecordHolds(s', k, q) <==> RecordHolds(s, k, q)
      ensures SenderHolds(s', hung, k, q) <==> SenderHolds(s, hung, k, q)
    {
    }
  }

  lemma SendHeld(s: System, c: Command, hung: set<nat>, q: string)
    requires Enabled(s, Send(c)) && Existing(s, hung)
    ensures HeldIff(Step(s, Send(c)), hung, q)
  {
    hide EnvelopeOf, CommandEnvelope, Fresh;
    var s' := Step(s, Send(c));
    forall m
      ensures Consumes(s', m, q) <==> Consumes(s, m, q)
      ensures CallHolds(s', m, q) <==> CallHolds(s, m, q)
    {
    }
    forall k: nat
      ensures RecordHolds(s', k, q) <==> RecordHolds(s, k, q)
      ensures SenderHolds(s', hung, k, q) <==> SenderHolds(s, hung, k, q) || (k == |s.log.commands| && q == c.replyTo)
    {
    }
    assert SenderHolds(s', hung, |s.log.commands|, c.replyTo);
  }

  /** A sender's private queue is held by nobody else. */
  lemma SenderApart(nodes: set<Name>, s: System, k: nat)
    requires Right(nodes, s) && Placed(s) && k < |s.log.commands|
    ensures var q := s.log.commands[k].replyTo;
            && (forall m :: !Consumes(s, m, q) && !CallHolds(s, m, q))
            && (forall i :: !RecordHolds(s, i, q))
            && (forall k' | 0 <= k' < |s.log.commands| && s.log.commands[k'].replyTo == q :: k' == k)
  {
    hide LogRight, QueueRight, ListsRight, BoxesRight, WaitsRight, PeersRight, RecordsRight, Placed;
    var q := s.log.commands[k].replyTo;
    forall m
      ensures !Consumes(s, m, q) && !CallHolds(s, m, q)
    {
      if Consumes(s, m, q) { ConsumedApart(nodes, s, m, q); }
      if CallHolds(s, m, q) { OpenApart(nodes, s, m); }
    }
    forall i: nat
      ensures !RecordHolds(s, i, q)
    {
      if i < |s.records| {
        RecordPublished(s, i);
        RequestBesideCommand(nodes, s.log, s.records[i].call.index, k);
      }
    }
    forall k': nat | k' < |s.log.commands| && s.log.commands[k'].replyTo == q
      ensures k' == k
    {
      if k' < k { CommandsApart(nodes, s.log, k', k); }
      if k < k' { CommandsApart(nodes, s.log, k, k'); }
    }
  }

  lemma HangUpHeld(nodes: set<Name>, s: System, k: nat, hung: set<nat>, q: string)
    requires Right(nodes, s) && Enabled(s, HangUp(k)) && Placed(s) && Existing(s, hung)
    ensures HeldIff(Step(s, HangUp(k)), hung + {k}, q)
  {
    hide Right, Placed, Within;
    var s' := Step(s, HangUp(k));
    SenderApart(nodes, s, k);
    forall m
      ensures Consumes(s', m, q) <==> Consumes(s, m, q)
      ensures CallHolds(s', m, q) <==> CallHolds(s, m, q)
    {
    }
    forall i: nat
      ensures RecordHolds(s', i, q) <==> RecordHolds(s, i, q)
      ensures SenderHolds(s', hung + {k}, i, q) <==> SenderHolds(s, hung, i, q) && i != k
    {
    }
  }

  /** A queue a node consumes from is held by consumers only. */
  lemma ConsumedHeld(nodes: set<Name>, s: System, n: Name, hung: set<nat>, q: string)
    requires Right(nodes, s) && Placed(s) && Consumes(s, n, q)
    ensures forall m :: !CallHolds(s, m, q)
    ensures forall k :: !RecordHolds(s, k, q) && !SenderHolds(s, hung, k, q)
  {
    hide Right;
    ConsumedApart(nodes, s, n, q);
    assert PeerPlaced(n, s.peers[n], s.log, s.records);
  }

  lemma LiveBoxes(s: System, n: Name, e: Lifecycle.Event, drawn: seq<Event>, q: string)
    requires n in s.peers
    ensures q in Live(s, n, e, drawn).boxes <==>
            || (q in s.boxes && q !in QueuesGone(s, n, s.peers[n], e))
            || (e == Lifecycle.ActivateNow(true, true) && q == n.id &&
                (n.id !in s.boxes || q !in QueuesGone(s, n, s.peers[n], e)))
  {
    hide ConsumersAfter, Lived, Within, QueuesGone;
  }

  /** A queue goes with its last consumer, or with the connection of a delist. */
  lemma GoneExactly(s: System, n: Name, e: Lifecycle.Event, q: string)
    requires n in s.peers
    ensures q in QueuesGone(s, n, s.peers[n], e) <==>
            || (Consumes(s, n, q) && q !in ConsumersAfter(n, s.peers[n], e) && forall m | Consumes(s, m, q) :: m == n)
            || (s.peers[n].call.Some? && e == Lifecycle.DelistNow(true) && q == s.peers[n].call.value.replyTo)
  {
    hide ConsumersAfter;
    if Consumes(s, n, q) && forall m | m in s.peers && m != n :: q !in s.peers[m].consumers {
      forall m | Consumes(s, m, q)
        ensures m == n
      {
      }
    }
    if forall m | Consumes(s, m, q) :: m == n {
      forall m | m in s.peers && m != n
        ensures q !in s.peers[m].consumers
      {
        assert !Consumes(s, m, q);
      }
    }
  }

  /** The consumers after an event of n: those before it, without n's if it lost its backend, and with
      n's own queue if it subscribed. */
  lemma LiveConsumes(s: System, n: Name, e: Lifecycle.Event, drawn: seq<Event>, m: Name, q: string)
    requires n in s.peers
    ensures var kept, s' := Lifecycle.Next(s.peers[n].view, e).backend.Some?, Live(s, n, e, drawn);
            Consumes(s', m, q) <==>
            if m == n then
              kept && (Consumes(s, n, q) || (e == Lifecycle.ActivateNow(true, true) && q == n.id))
            else Consumes(s, m, q)
  {
    hide Lived, Within, QueuesGone, QueuesNew, Lifecycle.Next;
  }

  /** Whether n's losing its consumers makes the queue go is whether somebody else consumes from it. */
  lemma DropHeld(nodes: set<Name>, s: System, n: Name, hung: set<nat>, q: string)
    requires Right(nodes, s) && Placed(s) && Existing(s, hung) && Consumes(s, n, q)
    ensures q in s.boxes
    ensures forall m :: !CallHolds(s, m, q)
    ensures forall k :: !RecordHolds(s, k, q) && !SenderHolds(s, hung, k, q)
  {
    hide Right, Placed, Consumes;
    ConsumedHeld(nodes, s, n, hung, q);
    ExistingAt(s, hung, q);
    assert Held(s, hung, q);
  }

  /** The node is not calling, and its event makes or drops no more than the backend. */
  lemma AloneHeld(nodes: set<Name>, s: System, n: Name, e: Lifecycle.Event, hung: set<nat>, q: string)
    requires Right(nodes, s) && Enabled(s, Alone(n, e)) && Placed(s) && Existing(s, hung)
    ensures HeldIff(Step(s, Alone(n, e)), hung, q)
  {
    hide Right, Placed, Lived, Within, Lifecycle.Next, Consumes, QueuesGone, QueuesNew;
    var s' := Step(s, Alone(n, e));
    var kept := Lifecycle.Next(s.peers[n].view, e).backend.Some?;
    LiveBoxes(s, n, e, [], q);
    GoneExactly(s, n, e, q);
    assert kept ==> ConsumersAfter(n, s.peers[n], e) == s.peers[n].consumers;
    forall m
      ensures Consumes(s', m, q) <==> Consumes(s, m, q) && (m != n || kept)
      ensures CallHolds(s', m, q) <==> CallHolds(s, m, q)
    {
      LiveConsumes(s, n, e, [], m, q);
    }
    OthersHold(s, s', hung, q);
    if Consumes(s, n, q) {
      DropHeld(nodes, s, n, hung, q);
      AmongConsumers(s, n, q);
    } else {
      ExistingAt(s, hung, q);
    }
  }

  lemma OthersHold(s: System, s': System, hung: set<nat>, q: string)
    requires s'.records == s.records && s'.log.commands == s.log.commands
    ensures forall k :: (RecordHolds(s', k, q) <==> RecordHolds(s, k, q)) &&
                        (SenderHolds(s', hung, k, q) <==> SenderHolds(s, hung, k, q))
  {
  }

  lemma AmongConsumers(s: System, n: Name, q: string)
    requires Consumes(s, n, q)
    ensures n in s.peers && q in s.peers[n].consumers
  {
  }

  /** What the end of a call leaves held, besides consumers. */
  lemma FinishHolds(s: System, n: Name, after: bool, hung: set<nat>, q: string)
    requires Enabled(s, Finish(n, after))
    ensures var s', c := Step(s, Finish(n, after)), s.peers[n].call.value;
            && (forall m :: CallHolds(s', m, q) <==> CallHolds(s, m, q) && m != n)
            && (forall k :: SenderHolds(s', hung, k, q) <==> SenderHolds(s, hung, k, q))
            && !RecordHolds(s, |s.records|, q)
            && (forall k :: k != |s.records| ==> (RecordHolds(s', k, q) <==> RecordHolds(s, k, q)))
            && (RecordHolds(s', |s.records|, q) <==>
                  q == c.replyTo &&
                  if c.purpose == ToDelist then Lifecycle.Ret(s.peers[n].view, Outcome(c, after)) != Ok
                  else !c.consuming)
            && (forall m :: Consumes(s', m, q) <==>
                 Consumes(Live(s, n, Outcome(c, after), if c.purpose == ToDelist then [] else c.drawn), m, q))
            && s'.boxes == Live(s, n, Outcome(c, after), if c.purpose == ToDelist then [] else c.drawn).boxes
  {
    hide Outcome, Undecided, BodyOf, Lifecycle.Ret, ConsumersAfter, QueuesGone, QueuesNew, Within, Lived;
  }

  /** A call that is not a delist leaves the connection and what it consumes from. */
  lemma FinishMainHeld(nodes: set<Name>, s: System, n: Name, after: bool, hung: set<nat>, q: string)
    requires Enabled(s, Finish(n, after)) && s.peers[n].call.value.purpose != ToDelist
    requires Right(nodes, s) && Placed(s) && Existing(s, hung)
    ensures HeldIff(Step(s, Finish(n, after)), hung, q)
  {
    hide Right, Placed, Live, Lifecycle.Next, Consumes, CallHolds, RecordHolds, SenderHolds, QueuesGone,
         QueuesNew, Undecided, Outcome, ConsumersAfter, Step;
    var s', c := Step(s, Finish(n, after)), s.peers[n].call.value;
    var e := Outcome(c, after);
    RightPeer(nodes, s, n);
    CallPublished(n, s.peers[n], s.log);
    FinishHolds(s, n, after, hung, q);
    LiveBoxes(s, n, e, c.drawn, q);
    GoneExactly(s, n, e, q);
    MainOutcome(s, n, after);
    OpenHolds(s, n, q);
    forall m
      ensures Consumes(s', m, q) <==>
              Consumes(s, m, q) || (m == n && e == Lifecycle.ActivateNow(true, true) && q == n.id)
    {
      LiveConsumes(s, n, e, c.drawn, m, q);
    }
    assert e == Lifecycle.ActivateNow(true, true) ==> Consumes(s', n, n.id) by {
      LiveConsumes(s, n, e, c.drawn, n, n.id);
      FinishHolds(s, n, after, hung, n.id);
    }
    if Consumes(s, n, q) { AmongConsumers(s, n, q); }
    ExistingAt(s, hung, q);
  }

  lemma OpenHolds(s: System, n: Name, q: string)
    requires Calling(s, n)
    ensures var c := s.peers[n].call.value;
            CallHolds(s, n, q) <==> q == c.replyTo && (c.consuming ==> c.purpose == ToDelist)
  {
  }

  lemma MainOutcome(s: System, n: Name, after: bool)
    requires Calling(s, n) && s.peers[n].call.value.purpose != ToDelist
    requires MayCall(s.peers[n].view, s.peers[n].call.value.purpose)
    ensures var e := Outcome(s.peers[n].call.value, after);
            && Lifecycle.Next(s.peers[n].view, e).backend.Some? && !e.DelistNow?
            && s.peers[n].consumers <= ConsumersAfter(n, s.peers[n], e)
  {
    hide Accepted;
  }

  lemma DelistOutcome(s: System, n: Name, after: bool)
    requires Calling(s, n) && s.peers[n].call.value.purpose == ToDelist
    requires MayCall(s.peers[n].view, ToDelist)
    ensures var e := Outcome(s.peers[n].call.value, after);
            && Lifecycle.Next(s.peers[n].view, e).backend.None? && e.DelistNow?
            && (Lifecycle.Ret(s.peers[n].view, e) == Ok <==> e == Lifecycle.DelistNow(true))
            && ConsumersAfter(n, s.peers[n], e) == {}
  {
    hide Accepted;
  }

  /** A delist drops the connection; its private queue goes if it returned Ok. */
  lemma FinishDelistHeld(nodes: set<Name>, s: System, n: Name, after: bool, hung: set<nat>, q: string)
    requires Enabled(s, Finish(n, after)) && s.peers[n].call.value.purpose == ToDelist
    requires Right(nodes, s) && Placed(s) && Existing(s, hung)
    ensures HeldIff(Step(s, Finish(n, after)), hung, q)
  {
    hide Right, Placed, Live, Lifecycle.Next, Lifecycle.Ret, Consumes, CallHolds, RecordHolds, SenderHolds, QueuesGone,
         QueuesNew, Undecided, Outcome, ConsumersAfter, Step, MayCall;
    var s', c := Step(s, Finish(n, after)), s.peers[n].call.value;
    var e := Outcome(c, after);
    RightPeer(nodes, s, n);
    CallPublished(n, s.peers[n], s.log);
    FinishHolds(s, n, after, hung, q);
    LiveBoxes(s, n, e, [], q);
    GoneExactly(s, n, e, q);
    DelistOutcome(s, n, after);
    OpenHolds(s, n, q);
    forall m
      ensures Consumes(s', m, q) <==> Consumes(s, m, q) && m != n
    {
      LiveConsumes(s, n, e, [], m, q);
    }
    ExistingAt(s, hung, q);
    if Consumes(s, n, q) {
      DropHeld(nodes, s, n, hung, q);
      AmongConsumers(s, n, q);
    }
    if q == c.replyTo {
      DelistQueueApart(nodes, s, n, hung);
    }
  }

  /** Only a delist itself holds its private queue. */
  lemma DelistQueueApart(nodes: set<Name>, s: System, n: Name, hung: set<nat>)
    requires Right(nodes, s) && Placed(s) && Calling(s, n) && s.peers[n].call.value.purpose == ToDelist
    ensures var q := s.peers[n].call.value.replyTo;
            && (forall m :: !Consumes(s, m, q)) && (forall m :: CallHolds(s, m, q) ==> m == n)
            && (forall k :: !RecordHolds(s, k, q) && !SenderHolds(s, hung, k, q))
  {
    hide Right, Placed;
    var q := s.peers[n].call.value.replyTo;
    OpenApart(nodes, s, n);
    forall m
      ensures !Consumes(s, m, q)
    {
      if Consumes(s, m, q) { ConsumedApart(nodes, s, m, q); }
    }
  }

  /** Every step keeps it that the queues that exist are those somebody holds. */
  lemma StepHeld(nodes: set<Name>, s: System, a: Action, hung: set<nat>, q: string)
    requires Right(nodes, s) && Enabled(s, a) && Placed(s) && Existing(s, hung)
    ensures HeldIff(Step(s, a), if a.HangUp? then hung + {a.k} else hung, q)
  {
    hide Right, Placed, Existing, HeldIff;
    match a
    case Publish(n, p, cid, q0) => PublishHeld(nodes, s, n, p, cid, q0, hung, q);
    case Consume(n) => ConsumeHeld(s, n, hung, q);
    case Finish(n, after) =>
      if s.peers[n].call.value.purpose == ToDelist {
        FinishDelistHeld(nodes, s, n, after, hung, q);
      } else {
        FinishMainHeld(nodes, s, n, after, hung, q);
      }
    case Alone(n, e) => AloneHeld(nodes, s, n, e, hung, q);
    case Send(c) => SendHeld(s, c, hung, q);
    case HangUp(k) => HangUpHeld(nodes, s, k, hung, q);
    case _ =>
      hide Enabled, Step;
      MovesAlike(s, a);
      AlikeHeld(s, Step(s, a), hung, q);
  }

  lemma StepExisting(nodes: set<Name>, s: System, a: Action, hung: set<nat>)
    requires Right(nodes, s) && Enabled(s, a) && Placed(s) && Existing(s, hung)
    ensures Existing(Step(s, a), if a.HangUp? then hung + {a.k} else hung)
  {
    hide Right, Placed, Held, Step;
    CommandsOnlyGrow(s, a);
    forall q
      ensures q in Step(s, a).boxes <==> Held(Step(s, a), if a.HangUp? then hung + {a.k} else hung, q)
    {
      StepHeld(nodes, s, a, hung, q);
    }
  }

  lemma CommandsOnlyGrow(s: System, a: Action)
    requires Enabled(s, a)
    ensures |s.log.commands| <= |Step(s, a).log.commands|
  {
    GrowsAlways(s, a);
  }

  // ---- in every reachable state ----

  /** The commands whose senders hung up. */
  function Hung(actions: seq<Action>): set<nat>
  {
    set a | a in actions && a.HangUp? :: a.k
  }

  lemma {:induction false} RunPlaced(nodes: set<Name>, actions: seq<Action>)
    requires Reachable(nodes, actions)
    ensures Placed(Final(nodes, actions)) && Existing(Final(nodes, actions), Hung(actions))
    decreases |actions|
  {
    hide Placed, Existing, Enabled, Step, Right;
    if actions == [] {
      StartPlaced(nodes);
    } else {
      var front, a := actions[..|actions| - 1], actions[|actions| - 1];
      RunPlaced(nodes, front);
      RunRight(nodes, front);
      StepPlaced(nodes, Final(nodes, front), a);
      StepExisting(nodes, Final(nodes, front), a, Hung(front));
      assert actions == front + [a];
      assert Hung(actions) == if a.HangUp? then Hung(front) + {a.k} else Hung(front);
    }
  }

  lemma StartPlaced(nodes: set<Name>)
    ensures Placed(Start(nodes)) && Existing(Start(nodes), {}) && Hung([]) == {}
  {
    forall q
      ensures !Held(Start(nodes), {}, q)
    {
    }
  }

  /** In every reachable state a queue other than the enrol queue exists exactly if a node's main
      connection consumes from it, or it is the private queue of a call that does not consume from it
      through that connection, open or left behind, or of a command whose sender has not hung up. */
  lemma QueuesExactly(nodes: set<Name>, actions: seq<Action>, q: string)
    requires Reachable(nodes, actions)
    ensures var s := Final(nodes, actions);
            q in s.boxes <==>
            || (exists n :: Consumes(s, n, q))
            || (exists n :: CallHolds(s, n, q))
            || (exists k :: RecordHolds(s, k, q))
            || (exists k: nat :: k < |s.log.commands| && s.log.commands[k].replyTo == q && HangUp(k) !in actions)
  {
    hide Exec, Consumes, CallHolds, RecordHolds, Placed;
    RunPlaced(nodes, actions);
    var s := Final(nodes, actions);
    forall k: nat
      ensures k in Hung(actions) <==> HangUp(k) in actions
    {
      assert HangUp(k).HangUp?;
    }
    assert Held(s, Hung(actions), q) <==> q in s.boxes;
    if k: nat :| k < |s.log.commands| && s.log.commands[k].replyTo == q && HangUp(k) !in actions {
      assert SenderHolds(s, Hung(actions), k, q);
    }
    if k: nat :| SenderHolds(s, Hung(actions), k, q) {
      assert k < |s.log.commands| && s.log.commands[k].replyTo == q && HangUp(k) !in actions;
    }
  }

  /** In every reachable state a node whose message watch is attached consumes from its own queue, and
      that queue exists; so does every other queue it consumes from. */
  lemma WatchedConsumes(nodes: set<Name>, actions: seq<Action>, n: Name)
    requires Reachable(nodes, actions) && n in nodes
    ensures var s := Final(nodes, actions);
            && n in s.peers && (s.peers[n].view.sources != {} ==> n.id in s.peers[n].consumers && n.id in s.boxes)
            && forall q | q in s.peers[n].consumers :: q in s.boxes
  {
    hide Exec, Right, Held, Lifecycle.Run;
    RunPlaced(nodes, actions);
    RunRight(nodes, actions);
    NodesLive(nodes, actions, n);
    var s := Final(nodes, actions);
    assert PeerPlaced(n, s.peers[n], s.log, s.records);
    forall q | q in s.peers[n].consumers
      ensures q in s.boxes
    {
      HolderExists(s, Hung(actions), n, q);
    }
  }

  lemma HolderExists(s: System, hung: set<nat>, n: Name, q: string)
    requires Existing(s, hung) && n in s.peers && q in s.peers[n].consumers
    ensures q in s.boxes
  {
    assert Consumes(s, n, q);
  }

  // ---- for how long a node consumes ----

  /** The step makes n's main connection consume from q: from the private queue of a request that is no
      delist, or, once an activation was answered and the subscription worked, from its own queue. */
  predicate Subscribes(s: System, a: Action, n: Name, q: string)
  {
    Calling(s, n) && var c := s.peers[n].call.value;
    || (a == Consume(n) && c.purpose != ToDelist && q == c.replyTo)
    || (a == Finish(n, true) && c.purpose == ToActivate && c.consuming && Validates(BodyOf(c), "activated") &&
        q == n.id)
  }

  /** The step ends a delist of n, whatever came of it. */
  predicate Delists(s: System, a: Action, n: Name)
  {
    || (a.Alone? && a.who == n && a.event.DelistNow?)
    || (a.Finish? && a.who == n && Calling(s, n) && s.peers[n].call.value.purpose == ToDelist)
  }

  ghost predicate SubscribedAt(nodes: set<Name>, actions: seq<Action>, n: Name, i: nat, q: string)
  {
    i < |actions| && Exec(nodes, actions[..i]).Some? && Subscribes(Exec(nodes, actions[..i]).value, actions[i], n, q)
  }

  ghost predicate DelistedAt(nodes: set<Name>, actions: seq<Action>, n: Name, j: nat)
  {
    j < |actions| && Exec(nodes, actions[..j]).Some? && Delists(Exec(nodes, actions[..j]).value, actions[j], n)
  }

  /** The i-th step made n consume from q, and no delist of n ended after it. */
  ghost predicate SubscribedSince(nodes: set<Name>, actions: seq<Action>, n: Name, i: nat, q: string)
  {
    SubscribedAt(nodes, actions, n, i, q) && forall j | i < j < |actions| :: !DelistedAt(nodes, actions, n, j)
  }

  /** One step and what n consumes from. */
  lemma StepConsumes(nodes: set<Name>, s: System, a: Action, n: Name, q: string)
    requires Enabled(s, a) && n in s.peers && Right(nodes, s) && Placed(s)
    ensures Consumes(Step(s, a), n, q) <==> Subscribes(s, a, n, q) || (Consumes(s, n, q) && !Delists(s, a, n))
  {
    hide Right, PeerPlaced, Lifecycle.Next, Consumes, Enabled, Step;
    match a
    case Consume(m) => ConsumeConsumes(s, m, n, q);
    case Finish(m, after) => FinishConsumes(nodes, s, m, after, n, q);
    case Alone(m, e) =>
      assert PeerPlaced(n, s.peers[n], s.log, s.records);
      AloneConsumes(s, m, e, n, q);
    case _ => QuietConsumes(s, a, n, q);
  }

  lemma ConsumeConsumes(s: System, m: Name, n: Name, q: string)
    requires Enabled(s, Consume(m)) && n in s.peers
    ensures Consumes(Step(s, Consume(m)), n, q) <==> Subscribes(s, Consume(m), n, q) || Consumes(s, n, q)
  {
    hide Validates, BodyOf;
  }

  lemma QuietConsumes(s: System, a: Action, n: Name, q: string)
    requires Enabled(s, a) && n in s.peers && !a.Consume? && !a.Finish? && !a.Alone?
    ensures Consumes(Step(s, a), n, q) <==> Consumes(s, n, q)
    ensures !Subscribes(s, a, n, q) && !Delists(s, a, n)
  {
    hide Undecided, AllDiscarded, CommandReply, ReplyTo, Apply, EffectFor, Served, MayCall, Fresh, EnvelopeOf,
         CommandEnvelope, Delivered, WithReply, Popped, Pushed;
  }

  lemma AloneConsumes(s: System, m: Name, e: Lifecycle.Event, n: Name, q: string)
    requires Enabled(s, Alone(m, e)) && n in s.peers && PeerPlaced(n, s.peers[n], s.log, s.records)
    ensures var a := Alone(m, e);
            Consumes(Step(s, a), n, q) <==> Subscribes(s, a, n, q) || (Consumes(s, n, q) && !Delists(s, a, n))
  {
    hide Lived, Within, QueuesGone, QueuesNew, Live;
    LiveConsumes(s, m, e, [], n, q);
  }

  lemma FinishConsumes(nodes: set<Name>, s: System, m: Name, after: bool, n: Name, q: string)
    requires Enabled(s, Finish(m, after)) && n in s.peers && Right(nodes, s)
    ensures var a := Finish(m, after);
            Consumes(Step(s, a), n, q) <==> Subscribes(s, a, n, q) || (Consumes(s, n, q) && !Delists(s, a, n))
  {
    hide Right, Lifecycle.Next, Lifecycle.Ret, Consumes, Undecided, Outcome, ConsumersAfter, Step, Live, MayCall,
         Validates, BodyOf;
    var c := s.peers[m].call.value;
    var e := Outcome(c, after);
    RightPeer(nodes, s, m);
    CallPublished(m, s.peers[m], s.log);
    FinishHolds(s, m, after, {}, q);
    LiveConsumes(s, m, e, if c.purpose == ToDelist then [] else c.drawn, n, q);
    if c.purpose == ToDelist {
      DelistOutcome(s, m, after);
    } else {
      MainOutcome(s, m, after);
      ActivatesIf(c, after);
    }
  }

  lemma ActivatesIf(c: Call, after: bool)
    ensures Outcome(c, after) == Lifecycle.ActivateNow(true, true) <==>
            after && c.purpose == ToActivate && c.consuming && Validates(BodyOf(c), "activated")
  {
    hide Validates, BodyOf;
  }

  /** In every reachable state a node's main connection consumes from exactly the queues it was made to
      consume from since its last delist: nothing is ever cancelled, and only a delist, successful or
      not, ends it. */
  lemma {:induction false} ConsumersExactly(nodes: set<Name>, actions: seq<Action>, n: Name, q: string)
    requires Reachable(nodes, actions) && n in nodes
    ensures Consumes(Final(nodes, actions), n, q) <==> exists i :: SubscribedSince(nodes, actions, n, i, q)
    decreases |actions|
  {
    hide Enabled, Step, Right, Placed, Consumes, SubscribedSince, Subscribes, Delists, Exec;
    if actions == [] {
      NoneConsumed(nodes, n, q);
    } else {
      var front, a := actions[..|actions| - 1], actions[|actions| - 1];
      assert actions == front + [a];
      RunUp(nodes, front, a);
      var s := Final(nodes, front);
      ConsumersExactly(nodes, front, n, q);
      RunRight(nodes, front);
      RightNodes(nodes, s);
      RunPlaced(nodes, front);
      StepConsumes(nodes, s, a, n, q);
      SubscribedNow(nodes, front, a, n, q);
      if i: nat :| SubscribedSince(nodes, front, n, i, q) {
        SubscribedStep(nodes, front, a, n, i, q);
      }
      if i: nat :| SubscribedSince(nodes, actions, n, i, q) {
        SubscribedStep(nodes, front, a, n, i, q);
      }
    }
  }

  lemma RunUp(nodes: set<Name>, front: seq<Action>, a: Action)
    requires Reachable(nodes, front + [a])
    ensures Reachable(nodes, front) && Enabled(Final(nodes, front), a)
    ensures Final(nodes, front + [a]) == Step(Final(nodes, front), a)
  {
    hide Enabled, Step;
    assert (front + [a])[..|front|] == front;
  }

  lemma NoneConsumed(nodes: set<Name>, n: Name, q: string)
    requires Reachable(nodes, [])
    ensures !Consumes(Final(nodes, []), n, q) && !exists i :: SubscribedSince(nodes, [], n, i, q)
  {
  }

  lemma SubscribedNow(nodes: set<Name>, front: seq<Action>, a: Action, n: Name, q: string)
    requires Reachable(nodes, front)
    ensures SubscribedSince(nodes, front + [a], n, |front|, q) <==> Subscribes(Final(nodes, front), a, n, q)
  {
    hide Exec, Subscribes;
    assert (front + [a])[..|front|] == front;
  }

  lemma SubscribedStep(nodes: set<Name>, front: seq<Action>, a: Action, n: Name, i: nat, q: string)
    requires Reachable(nodes, front)
    requires SubscribedSince(nodes, front, n, i, q) || SubscribedSince(nodes, front + [a], n, i, q)
    ensures i <= |front| && (SubscribedSince(nodes, front, n, i, q) ==> i < |front|)
    ensures i < |front| ==> (SubscribedSince(nodes, front + [a], n, i, q) <==>
                             SubscribedSince(nodes, front, n, i, q) && !Delists(Final(nodes, front), a, n))
  {
    hide Exec, Subscribes, Delists;
    var actions := front + [a];
    assert actions[..|front|] == front;
    if i < |front| {
      assert actions[..i] == front[..i];
      forall j: nat | j < |front|
        ensures DelistedAt(nodes, actions, n, j) <==> DelistedAt(nodes, front, n, j)
      {
        assert actions[..j] == front[..j];
      }
      assert DelistedAt(nodes, actions, n, |front|) <==> Delists(Final(nodes, front), a, n);
    }
  }
}
