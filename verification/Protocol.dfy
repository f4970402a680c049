/** The whole system: nodes, the enrol queue, reply queues, senders of user commands and one arbiter,
    each taking steps in any order. A run is a sequence of actions; the history fields record what
    happened.

    The broker keeps each queue in order and a delivery removes the message (section 4.7 of the
    AMQP 0-9-1 specification; every consumer here is without acknowledgements). Correlation ids
    and the names of private queues are fresh, and correlation ids are 64 bytes without NUL. The
    requests of one node reach the enrol queue in the order it sent them. A user command may go to
    any node's queue and to the enrol queue, with any text. */
module Protocol {
  import opened Common
  import opened Requests
  import opened RpcWait
  import opened Registry
  import opened Messages
  import opened Arbiter
  import Lifecycle

  // ---- state ----

  /** A node is known to the arbiter by its kind and id. */
  datatype Name = Name(kind: Kind, id: string)

  /** What a node's call to the arbiter is made for. */
  datatype Purpose = ToEnroll | ToEnrollLazily(timer: nat) | ToDelist | ToActivate

  function OpOf(p: Purpose): Op
  {
    match p
    case ToEnroll => Enroll
    case ToEnrollLazily(_) => Enroll
    case ToDelist => Delist
    case ToActivate => Activate
  }

  /** A call in progress: its request is the index-th published; `drawn` is what it drew so far. */
  datatype Call = Call(purpose: Purpose, cid: string, replyTo: string, index: nat,
                       consuming: bool, drawn: seq<Event>)

  /** A node: its life so far, its present value, its call in progress, the queues its main
      connection consumes from, and what it drew from each main connection it had. */
  datatype Peer = Peer(life: seq<Lifecycle.Event>, view: Lifecycle.View, call: Option<Call>,
                       consumers: set<string>, heard: seq<seq<Event>>)

  /** A text put on the enrol queue: a node's request, or a user command that was sent there. */
  datatype Entry = Request(who: Name, op: Op, replyTo: string, cid: string)
                 | Stray(text: string, replyTo: string, cid: string)

  function Printed(e: Entry): string
  {
    match e
    case Request(who, op, _, _) => PrintRequest(op, who.kind, who.id)
    case Stray(text, _, _) => text
  }

  function EnvelopeOf(e: Entry): Envelope
  {
    Sending(Printed(e), e.replyTo, e.cid)
  }

  datatype Target = EnrolQueue | QueueOf(id: string)

  /** A user command, with the private queue its sender waits on. */
  datatype Command = Command(target: Target, text: string, replyTo: string, cid: string)

  function CommandEnvelope(c: Command): Envelope
  {
    Sending(c.text, c.replyTo, c.cid)
  }

  /** A message a node's handler served, and the reply it posted if it did. */
  datatype Service = Service(who: Name, queue: string, env: Envelope, handled: Option<string>, posted: Option<Posted>)

  /** Who drew a message: the d-th draw of the call of the index-th request, a node's watch, or the
      d-th draw of the sender of the k-th command. */
  datatype Reader = ByCall(index: nat, d: nat) | ByWatch(who: Name) | BySender(k: nat, d: nat)

  datatype Handed = Handed(env: Envelope, queue: string, reader: Reader)

  /** A finished call and what it came to. */
  datatype Record = Record(who: Name, call: Call, after: bool, body: Option<string>, ret: Return)

  /** History that only grows: texts put on the enrol queue, the reply the arbiter posted for each
      one it has taken, user commands, messages served by nodes, and the names used up. */
  datatype Log = Log(published: seq<Entry>, replies: seq<Option<Posted>>, commands: seq<Command>,
                     services: seq<Service>, cids: set<string>, names: set<string>)

  datatype System = System(
    peers: map<Name, Peer>,
    enrolQueue: seq<Envelope>,
    boxes: map<string, seq<Envelope>>,
    lists: Lists,
    waits: seq<seq<Event>>, // what the sender of each command drew
    log: Log,
    delivered: seq<Handed>,
    lost: seq<map<string, seq<Envelope>>>, // what was in queues when they went away
    records: seq<Record>)

  const CID_LENGTH: nat := 64

  predicate WellFormedCid(cid: string)
  {
    |cid| == CID_LENGTH && NulFree(cid)
  }

  function Ids(nodes: set<Name>): set<string>
  {
    set n | n in nodes :: n.id
  }

  /** No node has a call open, nothing is queued, and nobody is enrolled. */
  function Start(nodes: set<Name>): System
  {
    System(map n | n in nodes :: Peer([], Lifecycle.INITIAL, None, {}, []),
           [], map[], EMPTY, [], Log([], [], [], [], {}, Ids(nodes)), [], [], [])
  }

  // ---- actions ----

  datatype Action =
    | Publish(who: Name, purpose: Purpose, cid: string, replyTo: string)
    | Consume(who: Name)
    | Draw(who: Name, queue: string)
    | Break(who: Name, cause: Event)
    | Finish(who: Name, after: bool)
    | Alone(who: Name, event: Lifecycle.Event)
    | Watch(who: Name, queue: string, handled: Option<string>, posts: bool)
    | Serve(posts: bool)
    | Send(command: Command)
    | Receive(k: nat)
    | Lose(k: nat, cause: Event)
    | HangUp(k: nat)

  /** The guards of node.c and of the absent-backend test, for operations that call the arbiter. */
  predicate MayCall(v: Lifecycle.View, p: Purpose)
  {
    match p
    case ToEnroll => v.state == Null
    case ToEnrollLazily(timer) => v.state == Null && timer < |v.timers|
    case ToDelist => v.backend.Some?
    case ToActivate => v.state == Enrolled && v.backend.Some?
  }

  /** Operations that publish nothing: lazy requests, deactivation, and calls that fail before
      they publish or are turned away by a guard. */
  predicate PublishesNothing(e: Lifecycle.Event)
  {
    match e
    case EnrolNow(ok) => !ok
    case EnrolLazily(_, _) => true
    case Fire(_, ok) => !ok
    case DelistNow(ok) => !ok
    case ActivateNow(answered, _) => !answered
    case DeactivateNow => true
  }

  /** The wait of this call is still going on. */
  predicate Undecided(c: Call)
  {
    c.consuming && |c.drawn| < BUDGET && AllDiscarded(c.cid, c.drawn)
  }

  /** Queues a waiting call draws from: delisting has a connection of its own. */
  function Sources(p: Peer): set<string>
    requires p.call.Some?
  {
    if p.call.value.purpose == ToDelist then {p.call.value.replyTo} else p.consumers
  }

  predicate Calling(s: System, n: Name)
  {
    n in s.peers && s.peers[n].call.Some?
  }

  predicate Resting(s: System, n: Name)
  {
    n in s.peers && s.peers[n].call.None?
  }

  predicate Holding(s: System, queue: string)
  {
    queue in s.boxes && s.boxes[queue] != []
  }

  /** A correlation id and a queue name nobody used before. */
  predicate Fresh(g: Log, cid: string, q: string)
  {
    WellFormedCid(cid) && cid !in g.cids && q != [] && NulFree(q) && q !in g.names
  }

  /** The sender of the k-th command is still waiting. */
  predicate Asking(s: System, k: nat)
  {
    k < |s.waits| && k < |s.log.commands| && AllDiscarded(s.log.commands[k].cid, s.waits[k])
  }

  predicate IsBreak(cause: Event)
  {
    cause == Timeout || cause == Failure
  }

  predicate Enabled(s: System, a: Action)
  {
    match a
    case Publish(n, p, cid, q) => Resting(s, n) && MayCall(s.peers[n].view, p) && Fresh(s.log, cid, q)
    case Consume(n) => Calling(s, n) && !s.peers[n].call.value.consuming
    case Draw(n, q) =>
      Calling(s, n) && Undecided(s.peers[n].call.value) && q in Sources(s.peers[n]) && Holding(s, q)
    case Break(n, cause) => Calling(s, n) && Undecided(s.peers[n].call.value) && IsBreak(cause)
    case Finish(n, _) => Calling(s, n) && !Undecided(s.peers[n].call.value)
    case Alone(n, e) => Resting(s, n) && PublishesNothing(e)
    case Watch(n, q, _, _) =>
      Resting(s, n) && s.peers[n].view.sources != {} && q in s.peers[n].consumers && Holding(s, q)
    case Serve(_) => s.enrolQueue != []
    case Send(c) =>
      Fresh(s.log, c.cid, c.replyTo) &&
      (c.target.QueueOf? ==> c.target.id in s.boxes && c.target.id in Ids(s.peers.Keys))
    case Receive(k) => Asking(s, k) && Holding(s, s.log.commands[k].replyTo)
    case Lose(k, cause) => Asking(s, k) && IsBreak(cause)
    case HangUp(k) => k < |s.log.commands|
  }

  // ---- steps ----

  function WithPeer(s: System, n: Name, p: Peer): System
  {
    s.(peers := s.peers[n := p])
  }

  /** What a node that lives through an event has heard, if it drew these messages from its main
      connection meanwhile. A backend that is made comes with a connection of its own. */
  function HeardAfter(p: Peer, e: Lifecycle.Event, drawn: seq<Event>): (h: seq<seq<Event>>)
  {
    var h := if p.view.backend.None? && Lifecycle.Next(p.view, e).backend.Some? then p.heard + [[]] else p.heard;
    if h == [] then h else h[|h| - 1 := h[|h| - 1] + drawn]
  }

  function Lived(p: Peer, e: Lifecycle.Event, drawn: seq<Event>): Peer
  {
    p.(life := p.life + [e], view := Lifecycle.Next(p.view, e), heard := HeardAfter(p, e, drawn))
  }

  function Arrived(env: Envelope): Event
  {
    Delivery(env.cid, env.body)
  }

  function Drew(p: Peer, e: Event): Peer
    requires p.call.Some?
  {
    p.(call := Some(p.call.value.(drawn := p.call.value.drawn + [e])))
  }

  function Pushed(boxes: map<string, seq<Envelope>>, q: string, env: Envelope): map<string, seq<Envelope>>
    requires q in boxes
  {
    boxes[q := boxes[q] + [env]]
  }

  function Popped(boxes: map<string, seq<Envelope>>, q: string): map<string, seq<Envelope>>
    requires q in boxes && boxes[q] != []
  {
    boxes[q := boxes[q][1..]]
  }

  /** A reply is published to a queue that exists, or not at all. */
  function Delivered(boxes: map<string, seq<Envelope>>, reply: Option<Posted>, posts: bool): Option<Posted>
  {
    if posts && reply.Some? && reply.value.queue in boxes then reply else None
  }

  function WithReply(boxes: map<string, seq<Envelope>>, posted: Option<Posted>): map<string, seq<Envelope>>
    requires posted.Some? ==> posted.value.queue in boxes
  {
    if posted.Some? then Pushed(boxes, posted.value.queue, posted.value.env) else boxes
  }

  /** The response body a wait is left with: that of an accepted last message, or none. */
  function LastBody(cid: string, drawn: seq<Event>): Option<string>
  {
    if drawn == [] then None
    else
      match Judge(cid, drawn[|drawn| - 1])
      case Accept(b) => b
      case _ => None
  }

  function BodyOf(c: Call): Option<string>
  {
    LastBody(c.cid, c.drawn)
  }

  predicate Accepted(c: Call)
  {
    c.consuming && Validates(BodyOf(c), Expected(OpOf(c.purpose)))
  }

  /** What the finished call does to the node; `after` says whether what follows the answer (the
      subscription of an activation, the closing of a delist's connection) went well. */
  function Outcome(c: Call, after: bool): Lifecycle.Event
  {
    match c.purpose
    case ToEnroll => Lifecycle.EnrolNow(Accepted(c))
    case ToEnrollLazily(timer) => Lifecycle.Fire(timer, Accepted(c))
    case ToDelist => Lifecycle.DelistNow(Accepted(c) && after)
    case ToActivate => Lifecycle.ActivateNow(Accepted(c), after)
  }

  /** Queues the main connection consumes from after the event; subscribing adds the node's own. */
  function ConsumersAfter(n: Name, p: Peer, e: Lifecycle.Event): set<string>
  {
    if Lifecycle.Next(p.view, e).backend.None? then {}
    else if e == Lifecycle.ActivateNow(true, true) then p.consumers + {n.id}
    else p.consumers
  }

  /** Queues that go away with the event: those that lose their last consumer, and the private queue
      of a delist whose connection is closed. */
  function QueuesGone(s: System, n: Name, p: Peer, e: Lifecycle.Event): set<string>
  {
    (set q | q in p.consumers && q !in ConsumersAfter(n, p, e) &&
             forall m | m in s.peers && m != n :: q !in s.peers[m].consumers) +
    (if p.call.Some? && e == Lifecycle.DelistNow(true) then {p.call.value.replyTo} else {})
  }

  /** Queues that come with the event: the node's own, when it subscribes. */
  function QueuesNew(s: System, n: Name, e: Lifecycle.Event): map<string, seq<Envelope>>
  {
    if e == Lifecycle.ActivateNow(true, true) && n.id !in s.boxes then map[n.id := []] else map[]
  }

  /** These of the queues, with what is in them. */
  function Within(boxes: map<string, seq<Envelope>>, queues: set<string>): map<string, seq<Envelope>>
  {
    map q | q in boxes && q in queues :: boxes[q]
  }

  /** One event in the life of a node that is not (or no longer) calling. */
  function Live(s: System, n: Name, e: Lifecycle.Event, drawn: seq<Event>): System
    requires n in s.peers
  {
    var p := s.peers[n];
    WithPeer(s, n, Lived(p, e, drawn).(call := None, consumers := ConsumersAfter(n, p, e)))
      .(boxes := (s.boxes - QueuesGone(s, n, p, e)) + QueuesNew(s, n, e),
        lost := s.lost + [Within(s.boxes, QueuesGone(s, n, p, e))])
  }

  function AfterFinish(s: System, n: Name, after: bool): System
    requires Calling(s, n)
  {
    var p := s.peers[n];
    var c := p.call.value;
    var e := Outcome(c, after);
    Live(s, n, e, if c.purpose == ToDelist then [] else c.drawn)
      .(records := s.records + [Record(n, c, after, BodyOf(c), Lifecycle.Ret(p.view, e))])
  }

  function AfterPublish(s: System, n: Name, p: Purpose, cid: string, q: string): System
    requires n in s.peers
  {
    var entry := Request(n, OpOf(p), q, cid);
    var call := Call(p, cid, q, |s.log.published|, false, []);
    WithPeer(s, n, s.peers[n].(call := Some(call)))
      .(enrolQueue := s.enrolQueue + [EnvelopeOf(entry)], boxes := s.boxes[q := []],
        log := s.log.(published := s.log.published + [entry], cids := s.log.cids + {cid}, names := s.log.names + {q}))
  }

  function AfterConsume(p: Peer): Peer
    requires p.call.Some?
  {
    var c := p.call.value;
    p.(call := Some(c.(consuming := true)),
       consumers := if c.purpose == ToDelist then p.consumers else p.consumers + {c.replyTo})
  }

  function AfterServe(s: System, posts: bool): System
    requires s.enrolQueue != []
  {
    var env := s.enrolQueue[0];
    var posted := Delivered(s.boxes, ReplyTo(env), posts);
    s.(enrolQueue := s.enrolQueue[1..],
       lists := Apply(s.lists, EffectFor(env)),
       log := s.log.(replies := s.log.replies + [posted]),
       boxes := WithReply(s.boxes, posted))
  }

  function AfterWatch(s: System, n: Name, q: string, handled: Option<string>, posts: bool): System
    requires n in s.peers && Holding(s, q)
  {
    var env, p := s.boxes[q][0], s.peers[n];
    var boxes := Popped(s.boxes, q);
    var posted := Delivered(boxes, CommandReply(env, handled), posts);
    var heard := if p.heard == [] then [] else p.heard[|p.heard| - 1 := p.heard[|p.heard| - 1] + [Arrived(env)]];
    WithPeer(s, n, p.(heard := heard))
      .(boxes := WithReply(boxes, posted),
        delivered := s.delivered + [Handed(env, q, ByWatch(n))],
        log := if Served(env) then s.log.(services := s.log.services + [Service(n, q, env, handled, posted)])
               else s.log)
  }

  function AfterSend(s: System, c: Command): System
    requires c.target.QueueOf? ==> c.target.id in s.boxes
  {
    var boxes := s.boxes[c.replyTo := []];
    var log := s.log.(commands := s.log.commands + [c], cids := s.log.cids + {c.cid},
      names := s.log.names + {c.replyTo});
    match c.target
    case QueueOf(q) => s.(boxes := Pushed(boxes, q, CommandEnvelope(c)), waits := s.waits + [[]], log := log)
    case EnrolQueue =>
      var entry := Stray(c.text, c.replyTo, c.cid);
      s.(boxes := boxes, waits := s.waits + [[]], enrolQueue := s.enrolQueue + [EnvelopeOf(entry)],
         log := log.(published := log.published + [entry]))
  }

  function Step(s: System, a: Action): System
    requires Enabled(s, a)
  {
    match a
    case Publish(n, p, cid, q) => AfterPublish(s, n, p, cid, q)
    case Consume(n) => WithPeer(s, n, AfterConsume(s.peers[n]))
    case Draw(n, q) =>
      var c := s.peers[n].call.value;
      WithPeer(s, n, Drew(s.peers[n], Arrived(s.boxes[q][0])))
        .(boxes := Popped(s.boxes, q),
          delivered := s.delivered + [Handed(s.boxes[q][0], q, ByCall(c.index, |c.drawn|))])
    case Break(n, cause) => WithPeer(s, n, Drew(s.peers[n], cause))
    case Finish(n, after) => AfterFinish(s, n, after)
    case Alone(n, e) => Live(s, n, e, [])
    case Watch(n, q, handled, posts) => AfterWatch(s, n, q, handled, posts)
    case Serve(posts) => AfterServe(s, posts)
    case Send(c) => AfterSend(s, c)
    case Receive(k) =>
      var q := s.log.commands[k].replyTo;
      s.(boxes := Popped(s.boxes, q), waits := s.waits[k := s.waits[k] + [Arrived(s.boxes[q][0])]],
         delivered := s.delivered + [Handed(s.boxes[q][0], q, BySender(k, |s.waits[k]|))])
    case Lose(k, cause) => s.(waits := s.waits[k := s.waits[k] + [cause]])
    case HangUp(k) =>
      var q := s.log.commands[k].replyTo;
      s.(boxes := s.boxes - {q}, lost := s.lost + [Within(s.boxes, {q})])
  }

  // ---- runs ----

  /** Where a run leads, if every action of it was enabled. */
  function Exec(nodes: set<Name>, actions: seq<Action>): Option<System>
    decreases |actions|
  {
    if actions == [] then Some(Start(nodes))
    else
      match Exec(nodes, actions[..|actions| - 1])
      case None => None
      case Some(s) =>
        var a := actions[|actions| - 1];
        if Enabled(s, a) then Some(Step(s, a)) else None
  }
}
