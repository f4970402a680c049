/** A node and its AMQP backend as objects, each operation proved to be the step of Lifecycle that
    the exchange with the arbiter decides (chamge/node.c, chamge/edge.c, chamge/edge-backend.c,
    chamge/amqp-edge-backend.c and the hub's copies of the last three). */
module Node {
  import opened Common
  import opened Requests
  import opened RpcWait
  import opened Messages
  import opened Loop
  import Json
  import LazyEnrol
  import Lifecycle

  // ---- what the surroundings decide ----

  /** One call as its surroundings let it go: whether the connection logs in, how far the request
      gets, and its correlation id. */
  datatype Link = Link(login: bool, setup: Setup, cid: string)

  predicate Sends(link: Link)
  {
    link.login && link.setup.queueExists && link.setup.replyDeclared && link.setup.published
  }

  /** The arbiter's answer to op came within the wait and is the expected one. */
  predicate Accepted(link: Link, events: nat -> Event, from: nat, op: Op)
  {
    Sends(link) && link.setup.consuming && Validates(WaitBody(link.cid, events, from), Expected(op))
  }

  /** How many messages the call draws. */
  function Drawn(link: Link, events: nat -> Event, from: nat): nat
  {
    if Sends(link) && link.setup.consuming then WaitDraws(link.cid, events, from) else 0
  }

  function Sent(link: Link, op: Op, kind: Kind, id: string): Option<string>
  {
    if Sends(link) then Some(PrintRequest(op, kind, id)) else None
  }

  // ---- objects ----

  class AmqpBackend {
    const kind: Kind
    const id: string
    const conn: Connection
    var activated: bool
    var processId: nat

    constructor (kind: Kind, id: string, incoming: nat -> Event)
      ensures this.kind == kind && this.id == id && !activated && processId == 0
      ensures fresh(conn) && conn.incoming == incoming && conn.taken == 0 && !conn.destroyed
    {
      this.kind, this.id := kind, id;
      activated, processId := false, 0;
      conn := new Connection(incoming);
    }

    method Enroll(link: Link) returns (ret: Return, sent: Option<string>)
      requires !conn.destroyed
      modifies conn`taken
      ensures conn.taken == old(conn.taken) + Drawn(link, conn.incoming, old(conn.taken))
      ensures ret == if Accepted(link, conn.incoming, old(conn.taken), Op.Enroll) then Ok else Fail
      ensures sent == Sent(link, Op.Enroll, kind, id)
    {
      if !link.login {
        return Fail, None;
      }
      var rpc, body, error, published := conn.RpcRequest(link.setup, link.cid);
      sent := if published then Some(PrintRequest(Op.Enroll, kind, id)) else None;
      if rpc != Ok {
        return Fail, sent;
      }
      ResultOfWait(link.cid, conn.incoming, old(conn.taken), conn.taken - old(conn.taken), body, error);
      if !Validates(body, Expected(Op.Enroll)) {
        return Fail, sent;
      }
      ret := Ok;
    }

    /** Delisting opens a connection of its own; failing to close it again fails the call. */
    method Delist(link: Link, incoming: nat -> Event, closes: bool) returns (ret: Return, sent: Option<string>)
      ensures ret == if Accepted(link, incoming, 0, Op.Delist) && closes then Ok else Fail
      ensures sent == Sent(link, Op.Delist, kind, id)
    {
      if !link.login {
        return Fail, None;
      }
      var own := new Connection(incoming);
      var rpc, body, error, published := own.RpcRequest(link.setup, link.cid);
      sent := if published then Some(PrintRequest(Op.Delist, kind, id)) else None;
      if rpc != Ok {
        return Fail, sent;
      }
      ResultOfWait(link.cid, incoming, 0, own.taken, body, error);
      if !Validates(body, Expected(Op.Delist)) {
        return Fail, sent;
      }
      if !closes {
        return Fail, sent;
      }
      ret := Ok;
    }

    /** Activation uses the connection made by the enrolment. The flag is set once the arbiter has
        answered, also when the subscription then fails. */
    method Activate(setup: Setup, cid: string, subscribes: bool, loop: MainLoop)
      returns (ret: Return, sent: Option<string>)
      requires !conn.destroyed
      modifies conn`taken, this`activated, this`processId, loop
      ensures conn.taken == old(conn.taken) + Drawn(Link(true, setup, cid), conn.incoming, old(conn.taken))
      ensures var answered := Accepted(Link(true, setup, cid), conn.incoming, old(conn.taken), Op.Activate);
              && ret == (if answered && subscribes then Ok else Fail)
              && activated == (answered || old(activated))
              && processId == (if answered && subscribes then old(loop.next) else old(processId))
              && loop.sources == old(loop.sources) + (if answered && subscribes then {old(loop.next)} else {})
              && loop.next == old(loop.next) + (if answered && subscribes then 1 else 0)
      ensures sent == Sent(Link(true, setup, cid), Op.Activate, kind, id)
    {
      var rpc, body, error, published := conn.RpcRequest(setup, cid);
      sent := if published then Some(PrintRequest(Op.Activate, kind, id)) else None;
      if rpc != Ok {
        return Fail, sent;
      }
      ResultOfWait(cid, conn.incoming, old(conn.taken), conn.taken - old(conn.taken), body, error);
      if !Validates(body, Expected(Op.Activate)) {
        return Fail, sent;
      }
      activated := true;
      if !subscribes {
        return Fail, sent;
      }
      processId := loop.Attach();
      ret := Ok;
    }

    /** The handler of the message watch. It is removed if the backend was never activated; otherwise
        it serves what was drawn and publishes at most one reply, to a reply queue that exists. */
    method ProcessMessage(drawn: Arrival, handled: Option<string>, replyQueueExists: bool)
      returns (keep: bool, posted: Option<Posted>)
      ensures keep == activated
      ensures posted == if activated && drawn.Message? && replyQueueExists then CommandReply(drawn.env, handled)
                        else None
      ensures posted.Some? <==> activated && drawn.Message? && replyQueueExists && Served(drawn.env)
      ensures posted.Some? ==>
                var answer := if Json.ReadObject(drawn.env.body.value).None? then Answer("failed to parse body")
                              else if handled.None? then Answer("not ok")
                              else handled.value;
                AnswersTo(drawn.env, answer, posted.value)
    {
      posted := None;
      if !activated {
        return false, None;
      }
      keep := true;
      if drawn.Quiet? || drawn.Abnormal? {
        return;
      }
      var env := drawn.env;
      if env.body.None? {
        return;
      }
      if env.contentType.None? || |JSON_TYPE| != |env.contentType.value| || !IsJson(env.contentType) {
        return;
      }
      if !Usable(env.replyTo) {
        return;
      }
      var cid := if Usable(env.cid) then env.cid else None;
      var response;
      if Json.ReadObject(env.body.value).None? {
        response := Some(Answer("failed to parse body"));
      } else {
        response := handled;
        if response.None? {
          response := Some(Answer("not ok"));
        }
      }
      if !replyQueueExists {
        return;
      }
      posted := Some(Posted(env.replyTo.value, Envelope(response, Some(JSON_TYPE), None, cid)));
    }

    method Deactivate(loop: MainLoop) returns (ret: Return)
      modifies this`processId, loop`sources
      ensures ret == Ok && processId == 0
      ensures loop.sources == if old(processId) != 0 then old(loop.sources) - {old(processId)} else old(loop.sources)
    {
      if processId != 0 {
        loop.Remove(processId);
        processId := 0;
      }
      ret := Ok;
    }

    method Dispose(loop: MainLoop)
      modifies this`processId, loop`sources, conn`destroyed
      ensures processId == 0
      ensures loop.sources == if old(processId) != 0 then old(loop.sources) - {old(processId)} else old(loop.sources)
      ensures conn.destroyed
    {
      if processId != 0 {
        loop.Remove(processId);
        processId := 0;
      }
      if !conn.destroyed {
        conn.Destroy();
      }
    }
  }

  class Node {
    const kind: Kind
    const id: string
    const loop: MainLoop
    var state: NodeState
    var backend: AmqpBackend?
    var timers: seq<int>
    var emitted: seq<NodeState>

    /** The backend is this node's, its connection is there, and watch ids start at 1. */
    ghost predicate Valid()
      reads this, loop, backend, if backend == null then {} else {backend.conn}
    {
      (backend != null ==> backend.kind == kind && backend.id == id && !backend.conn.destroyed) &&
      0 !in loop.sources && loop.next > 0
    }

    ghost function Value(): Lifecycle.View
      reads this, backend, loop
    {
      Lifecycle.View(state,
                     if backend == null then None
                     else Some(Lifecycle.BackendView(backend.activated, backend.processId)),
                     loop.sources, loop.next, timers, emitted)
    }

    /** The objects a call may change besides the node itself. */
    ghost function Owned(): set<object>
      reads this
    {
      {loop} + if backend == null then {} else {backend as object, backend.conn}
    }

    /** The stream an enrolment or activation draws from, and the position it starts at. A backend
        made by the call starts a connection of its own. */
    ghost function StreamOf(incoming: nat -> Event): nat -> Event
      reads this
    {
      if backend == null then incoming else backend.conn.incoming
    }

    ghost function StartOf(): nat
      reads this, if backend == null then {} else {backend.conn}
    {
      if backend == null then 0 else backend.conn.taken
    }

    constructor (kind: Kind, id: string)
      ensures Valid() && Value() == Lifecycle.INITIAL && this.kind == kind && this.id == id && fresh(Owned())
    {
      this.kind, this.id := kind, id;
      loop := new MainLoop();
      state, backend, timers, emitted := Null, null, [], [];
    }

    /** chamge_edge_enroll and chamge_hub_enroll: make the backend if there is none, then enrol. */
    method EnrollBackend(link: Link, incoming: nat -> Event) returns (ret: Return, sent: Option<string>)
      requires Valid()
      modifies this`backend, Owned()
      ensures Valid() && Value() == Lifecycle.WithBackend(old(Value())) && fresh(Owned() - old(Owned()))
      ensures backend != null && (old(backend) != null ==> backend == old(backend))
      ensures backend.conn.incoming == old(StreamOf(incoming))
      ensures backend.conn.taken == old(StartOf()) + Drawn(link, old(StreamOf(incoming)), old(StartOf()))
      ensures ret == if Accepted(link, old(StreamOf(incoming)), old(StartOf()), Op.Enroll) then Ok else Fail
      ensures sent == Sent(link, Op.Enroll, kind, id)
    {
      hide Accepted, Sent;
      if backend == null {
        backend := new AmqpBackend(kind, id, incoming);
      }
      ret, sent := backend.Enroll(link);
    }

    method Enroll(lazy: bool, now: int, digit: LazyEnrol.Digit, link: Link, incoming: nat -> Event)
      returns (ret: Return, sent: Option<string>)
      requires Valid()
      modifies this, Owned()
      ensures Valid() && fresh(Owned() - old(Owned()))
      ensures var accepted := Accepted(link, old(StreamOf(incoming)), old(StartOf()), Op.Enroll);
              var e := if lazy then Lifecycle.EnrolLazily(now, digit) else Lifecycle.EnrolNow(accepted);
              Value() == Lifecycle.Next(old(Value()), e) && ret == Lifecycle.Ret(old(Value()), e)
      ensures sent == if !lazy && old(state) == Null then Sent(link, Op.Enroll, kind, id) else None
      ensures old(backend) != null ==> backend == old(backend)
      ensures backend != null ==>
                backend.conn.incoming == old(StreamOf(incoming)) &&
                backend.conn.taken == old(StartOf()) +
                  if !lazy && old(state) == Null then Drawn(link, old(StreamOf(incoming)), old(StartOf())) else 0
    {
      hide Accepted, Sent, Drawn;
      if state != Null {
        return Fail, None;
      }
      if lazy {
        timers := timers + [LazyEnrol.Delay(now, digit)];
        return Async, None;
      }
      ret, sent := EnrollBackend(link, incoming);
      if ret == Ok {
        state := NodeState.Enrolled;
        emitted := emitted + [state];
      }
    }

    /** A lazy timer fires. It is kept when the node is not in Null. */
    method Fire(timer: nat, link: Link, incoming: nat -> Event) returns (keep: bool, sent: Option<string>)
      requires Valid() && timer < |timers|
      modifies this, Owned()
      ensures Valid() && fresh(Owned() - old(Owned()))
      ensures keep == (old(state) != Null)
      ensures var accepted := Accepted(link, old(StreamOf(incoming)), old(StartOf()), Op.Enroll);
              Value() == Lifecycle.Next(old(Value()), Lifecycle.Fire(timer, accepted))
      ensures sent == if old(state) == Null then Sent(link, Op.Enroll, kind, id) else None
      ensures old(backend) != null ==> backend == old(backend)
      ensures backend != null ==>
                backend.conn.incoming == old(StreamOf(incoming)) &&
                backend.conn.taken == old(StartOf()) +
                  if old(state) == Null then Drawn(link, old(StreamOf(incoming)), old(StartOf())) else 0
    {
      hide Accepted, Sent, Drawn;
      if state != Null {
        return true, None;
      }
      var ret;
      ret, sent := EnrollBackend(link, incoming);
      if ret == Ok {
        state := NodeState.Enrolled;
        emitted := emitted + [state];
      }
      timers := timers[..timer] + timers[timer + 1..];
      keep := false;
    }

    /** Delisting has no state guard, and the backend is dropped whatever came of it. */
    method Delist(link: Link, incoming: nat -> Event, closes: bool) returns (ret: Return, sent: Option<string>)
      requires Valid()
      modifies this, Owned()
      ensures Valid() && fresh(Owned() - old(Owned()))
      ensures var e := Lifecycle.DelistNow(Accepted(link, incoming, 0, Op.Delist) && closes);
              Value() == Lifecycle.Next(old(Value()), e) && ret == Lifecycle.Ret(old(Value()), e)
      ensures sent == if old(backend) != null then Sent(link, Op.Delist, kind, id) else None
      ensures backend == null && (old(backend) != null ==> old(backend).conn.destroyed)
    {
      hide Accepted, Sent;
      ret, sent := Fail, None;
      if backend != null {
        ret, sent := backend.Delist(link, incoming, closes);
        backend.Dispose(loop);
        backend := null;
      }
      if ret == Ok {
        state := Null;
        emitted := emitted + [state];
      }
    }

    method Activate(setup: Setup, cid: string, subscribes: bool) returns (ret: Return, sent: Option<string>)
      requires Valid()
      modifies this, Owned()
      ensures Valid() && fresh(Owned() - old(Owned()))
      ensures var answered := backend != null &&
              Accepted(Link(true, setup, cid), backend.conn.incoming, old(StartOf()), Op.Activate);
              var e := Lifecycle.ActivateNow(answered, subscribes);
              backend == old(backend) &&
              Value() == Lifecycle.Next(old(Value()), e) && ret == Lifecycle.Ret(old(Value()), e)
      ensures sent == if old(state) == NodeState.Enrolled && old(backend) != null then
                        Sent(Link(true, setup, cid), Op.Activate, kind, id)
                      else None
      ensures backend != null ==>
                backend.conn.taken == old(StartOf()) +
                  if old(state) == NodeState.Enrolled then Drawn(Link(true, setup, cid), backend.conn.incoming,
                    old(StartOf())) else 0
    {
      hide Accepted, Sent, Drawn;
      if state != NodeState.Enrolled {
        return Fail, None;
      }
      if backend == null {
        return Fail, None;
      }
      ret, sent := backend.Activate(setup, cid, subscribes, loop);
      if ret == Ok {
        state := Activated;
        emitted := emitted + [state];
      }
    }

    method Deactivate() returns (ret: Return)
      requires Valid()
      modifies this, Owned()
      ensures Valid() && fresh(Owned() - old(Owned()))
      ensures Value() == Lifecycle.Next(old(Value()), Lifecycle.DeactivateNow)
      ensures ret == Lifecycle.Ret(old(Value()), Lifecycle.DeactivateNow)
      ensures backend == old(backend) && StartOf() == old(StartOf())
    {
      if state != Activated {
        return Fail;
      }
      if backend == null {
        return Fail;
      }
      ret := backend.Deactivate(loop);
      if ret == Ok {
        state := NodeState.Enrolled;
        emitted := emitted + [state];
      }
    }

    /** One turn of the message watch on a message that has arrived: it is drawn from the connection
        the calls share and handed to the backend's handler. */
    method OnMessage(env: Envelope, handled: Option<string>, replyQueueExists: bool) returns (posted: Option<Posted>)
      requires Valid() && backend != null && StreamOf(backend.conn.incoming)(StartOf()) == Delivery(env.cid, env.body)
      modifies backend.conn`taken
      ensures Valid() && Value() == old(Value()) && StartOf() == old(StartOf()) + 1
      ensures posted == if backend.activated && replyQueueExists then CommandReply(env, handled) else None
    {
      var e := backend.conn.Draw();
      var keep;
      keep, posted := backend.ProcessMessage(Message(env), handled, replyQueueExists);
    }
  }
}
