/** User commands: the agent checks the recipient against its lists, and the arbiter's backend sends
    the command and waits for the answer (agent/arbiter-agent.c, chamge/node.c,
    chamge/amqp-arbiter-backend.c). */
module UserCommands {
  import opened Common
  import opened Json
  import opened Requests
  import opened RpcWait
  import opened Registry
  import opened Messages
  import opened Protocol
  import opened Invariant
  import opened Theorems

  /** Why a command was not carried out; `detail` is what the AMQP library adds to the message. */
  datatype Trouble = Trouble(what: string, detail: string) {
    function Text(): string {
      what + detail
    }
  }

  function TroubleOf(reason: Reason, detail: string): Trouble
  {
    match reason
    case NoQueue => Trouble("passive queue declare failure >> ", detail)
    case NoReplyQueue => Trouble("declare queue failure >> ", detail)
    case NotPublished => Trouble("publish failure >> ", detail)
    case NotConsuming => Trouble("basic consume failure >> ", detail)
    case TimedOut => Trouble("consume msg timeout", "")
    case ConsumeFailed => Trouble("consume msg failure >> ", detail)
    case NoAnswer => Trouble("no response to the request in 10 messages", "")
  }

  function TroubleOpt(reason: Option<Reason>, detail: string): Option<Trouble>
  {
    match reason
    case None => None
    case Some(r) => Some(TroubleOf(r, detail))
  }

  /** An error that is set is not overwritten by a later one. */
  function FirstOf(first: Option<Trouble>, later: Option<Trouble>): Option<Trouble>
  {
    if first.Some? then first else later
  }

  /** What is reported back to the caller of the command. */
  datatype Completion = Completion(ret: Return, response: Option<string>)

  /** How far the surroundings let a command get, and what the library says where they stop it. For a
      connection that is not made or not closed, that is the whole message. */
  datatype Route = Route(connected: bool, setup: Setup, cid: string, closes: bool, detail: string)

  // ---- who a command may go to ----

  predicate HasMember(cmd: string, key: string)
  {
    ReadObject(cmd).Some? && Lookup(ReadObject(cmd).value, key).Some?
  }

  function MemberText(cmd: string, key: string): Option<string>
  {
    match ReadObject(cmd)
    case None => None
    case Some(ms) => TextOf(ms, key)
  }

  /** The queue a command is sent to: its recipient's. */
  function QueueName(cmd: string): Option<string>
  {
    MemberText(cmd, "to")
  }

  predicate ForEdges(verb: Option<string>)
  {
    verb == Some("streamingStart") || verb == Some("streamingStop") || verb == Some("getUrl")
  }

  /** The kind of node whose list the recipient is looked up in. */
  function RecipientKind(cmd: string): Kind
  {
    if ForEdges(MemberText(cmd, "method")) then Edge else Hub
  }

  /** The command passes the agent's check. */
  predicate Admitted(lists: Lists, cmd: string)
  {
    ReadObject(cmd).Some? &&
    (HasMember(cmd, "method") && HasMember(cmd, "to") ==>
       QueueName(cmd).Some? && QueueName(cmd).value in lists.Of(RecipientKind(cmd)))
  }

  /** A null string as printf shows it. */
  function Shown(s: Option<string>): string
  {
    match s
    case None => "(null)"
    case Some(t) => t
  }

  /** What a command that is not admitted is told. */
  function RefusalText(cmd: string): string
  {
    if ReadObject(cmd).None? then "failed to parse body"
    else if RecipientKind(cmd) == Edge then "no edge is enrolled with edge id " + Shown(QueueName(cmd))
    else "no hub is enrolled with hub id " + Shown(QueueName(cmd))
  }

  /** The command is put on a queue. */
  predicate Dispatched(route: Route, cmd: string)
  {
    route.connected && QueueName(cmd).Some? &&
    route.setup.queueExists && route.setup.replyDeclared && route.setup.published
  }

  /** What stops the arbiter's sender before its wait. */
  function BeforeWait(route: Route, cmd: string): Option<Trouble>
  {
    if !route.connected then Some(Trouble("", route.detail))
    else if QueueName(cmd).None? then Some(Trouble("json parsing failure to get \"to\"", ""))
    else TroubleOpt(EarlyTrouble(route.setup), route.detail)
  }

  /** Closing the connection again. */
  function AtClose(route: Route): Option<Trouble>
  {
    if route.closes then None else Some(Trouble("", route.detail))
  }

  predicate Says(error: Option<Trouble>, text: string)
  {
    error.Some? && error.value.Text() == text
  }

  /** What the event that ended a wait leaves a sender with. An error of the wait stays, whether or
      not the connection closes; only without one is failing to close the error. */
  predicate Leaves(e: Event, closes: bool, detail: string, out: Option<string>, error: Option<Trouble>)
  {
    match e
    case Timeout => out == None && Says(error, "consume msg timeout")
    case Failure => out == None && Says(error, "consume msg failure >> " + detail)
    case Delivery(_, _) => EndedBy(e, out, None) && if closes then error == None else Says(error, detail)
  }

  lemma WaitLeaves(e: Event, route: Route, out: Option<string>, reason: Option<Reason>)
    requires EndedBy(e, out, reason)
    ensures Leaves(e, route.closes, route.detail, out, FirstOf(TroubleOpt(reason, route.detail), AtClose(route)))
  {
    assert Trouble("", route.detail).Text() == route.detail;
  }

  /** If the arbiter gets as far as waiting for the response, something ends the wait. */
  ghost predicate WaitEnds(route: Route, cmd: string, incoming: nat -> Event)
  {
    BeforeWait(route, cmd).None? ==> exists k: nat :: !PassedAt(route.cid, incoming, 0, k)
  }

  lemma BeforeWaitIff(route: Route, cmd: string)
    ensures BeforeWait(route, cmd).None? <==> Dispatched(route, cmd) && route.setup.consuming
  {
  }

  /** What a command that is not put on a queue and waited for is told: of several reasons, the
      first one met. */
  lemma EarlyTexts(route: Route, cmd: string)
    ensures var named := ReadObject(cmd).Some? && TextOf(ReadObject(cmd).value, "to").Some?;
            && (!route.connected ==> Says(BeforeWait(route, cmd), route.detail))
            && (route.connected && !named ==> Says(BeforeWait(route, cmd), "json parsing failure to get \"to\""))
            && (route.connected && named ==>
                  match route.setup
                  case Setup(false, _, _, _) =>
                    Says(BeforeWait(route, cmd), "passive queue declare failure >> " + route.detail)
                  case Setup(true, false, _, _) =>
                    Says(BeforeWait(route, cmd), "declare queue failure >> " + route.detail)
                  case Setup(true, true, false, _) =>
                    Says(BeforeWait(route, cmd), "publish failure >> " + route.detail)
                  case Setup(true, true, true, false) =>
                    Says(BeforeWait(route, cmd), "basic consume failure >> " + route.detail)
                  case Setup(true, true, true, true) => BeforeWait(route, cmd) == None)
  {
    hide ReadObject, Lookup;
    assert Trouble("", route.detail).Text() == route.detail;
  }

  // ---- the arbiter's backend ----

  /** The response and the error of a send that got as far as its wait: those of the first event that
      ends it. */
  ghost predicate Waited(route: Route, incoming: nat -> Event, out: Option<string>, error: Option<Trouble>)
  {
    exists k: nat ::
      EndsAt(route.cid, incoming, 0, k) && Leaves(incoming(k), route.closes, route.detail, out, error)
  }

  method SendUserCommand(cmd: string, route: Route, incoming: nat -> Event)
    returns (ret: Return, out: Option<string>, error: Option<Trouble>, sentTo: Option<string>)
    requires WaitEnds(route, cmd, incoming)
    ensures sentTo == if route.connected && route.setup.queueExists && route.setup.replyDeclared &&
                         route.setup.published
                      then MemberText(cmd, "to") else None
    ensures ret == if BeforeWait(route, cmd).None? && route.closes then Ok else Fail
    ensures if BeforeWait(route, cmd).Some? then out == None && error == BeforeWait(route, cmd)
            else Waited(route, incoming, out, error)
  {
    hide TroubleOf, MemberText;
    BeforeWaitIff(route, cmd);
    ret, out, error, sentTo := Fail, None, None, None;
    if !route.connected {
      error := Some(Trouble("", route.detail));
      return;
    }
    var queue := QueueName(cmd);
    if queue.None? {
      error := Some(Trouble("json parsing failure to get \"to\"", ""));
      return;
    }
    if !route.setup.queueExists {
      error := Some(TroubleOf(NoQueue, route.detail));
      return;
    }
    if !route.setup.replyDeclared {
      error := Some(TroubleOf(NoReplyQueue, route.detail));
      return;
    }
    if !route.setup.published {
      error := Some(TroubleOf(NotPublished, route.detail));
      return;
    }
    sentTo := queue;
    if !route.setup.consuming {
      error := Some(TroubleOf(NotConsuming, route.detail));
      return;
    }
    var conn := new Connection(incoming);
    var reason;
    StreamEnds(route.cid, incoming);
    out, reason := conn.WaitUnbounded(route.cid);
    error := TroubleOpt(reason, route.detail);
    WaitLeaves(incoming(conn.taken - 1), route, out, reason);
    assert EndsAt(route.cid, incoming, 0, conn.taken - 1);
    ret := Ok;
    if !route.closes {
      ret, error := Fail, FirstOf(error, Some(Trouble("", route.detail)));
    }
  }

  lemma StreamEnds(cid: string, incoming: nat -> Event)
    ensures (exists k: nat :: !PassedAt(cid, incoming, 0, k)) ==> exists k: nat :: Decisive(cid, incoming, 0, k)
  {
    if k: nat :| !PassedAt(cid, incoming, 0, k) {
      JudgeExactly(cid, incoming(k));
      assert Decisive(cid, incoming, 0, k);
    }
  }

  // ---- the hub's backend ----

  /** A hub sends a command over a connection of its own, with the bounded wait. Without a recipient
      it fails before it touches any queue, and sets no error for it. */
  method HubSendUserCommand(cmd: string, route: Route, incoming: nat -> Event)
    returns (ret: Return, out: Option<string>, error: Option<Trouble>, sentTo: Option<string>)
    ensures sentTo == if route.connected && route.setup.queueExists && route.setup.replyDeclared &&
                         route.setup.published
                      then MemberText(cmd, "to") else None
    ensures ret == if BeforeWait(route, cmd).None? && route.closes then Ok else Fail
    ensures BeforeWait(route, cmd).Some? ==>
              out == None &&
              error == if route.connected && QueueName(cmd).None? then AtClose(route) else BeforeWait(route, cmd)
    ensures BeforeWait(route, cmd).None? ==>
              && (forall k: nat | EndsAt(route.cid, incoming, 0, k) && k <= 10 ::
                    Leaves(incoming(k), route.closes, route.detail, out, error))
              && ((forall i | 0 <= i < 11 :: PassedAt(route.cid, incoming, 0, i)) ==>
                    out == None && Says(error, "no response to the request in 10 messages"))
  {
    hide TroubleOf, MemberText;
    BeforeWaitIff(route, cmd);
    ret, out, error, sentTo := Fail, None, None, None;
    if !route.connected {
      error := Some(Trouble("", route.detail));
      return;
    }
    var queue := QueueName(cmd);
    if queue.Some? {
      var conn := new Connection(incoming);
      var reason, sent;
      ret, out, reason, sent := conn.RpcRequest(route.setup, route.cid);
      error := TroubleOpt(reason, route.detail);
      sentTo := if sent then queue else None;
      if ret != Ok {
        return;
      }
      HubWaitLeaves(route, incoming, conn.taken, out, reason);
    }
    if !route.closes {
      ret, error := Fail, FirstOf(error, Some(Trouble("", route.detail)));
    }
  }

  /** A send that got as far as its wait is left with what the first event that ends it says, and with
      nothing else. */
  lemma WaitedOneWay(route: Route, incoming: nat -> Event, k: nat, out: Option<string>, error: Option<Trouble>)
    requires EndsAt(route.cid, incoming, 0, k) && Waited(route, incoming, out, error)
    ensures Leaves(incoming(k), route.closes, route.detail, out, error)
    ensures incoming(k) == Timeout ==> out == None && error.Some? && error.value.Text() == "consume msg timeout"
  {
    hide EndedBy, PassedOver;
    var k': nat :| EndsAt(route.cid, incoming, 0, k') && Leaves(incoming(k'), route.closes, route.detail, out, error);
    assert k' == k;
  }

  /** What a hub's wait leaves it with. */
  lemma HubWaitLeaves(route: Route, incoming: nat -> Event, n: nat, out: Option<string>, reason: Option<Reason>)
    requires Bounded(route.cid, Slice(incoming, 0, n), out, reason)
    ensures var error := FirstOf(TroubleOpt(reason, route.detail), AtClose(route));
            && (forall k: nat | EndsAt(route.cid, incoming, 0, k) && k <= 10 ::
                  Leaves(incoming(k), route.closes, route.detail, out, error))
            && ((forall i | 0 <= i < 11 :: PassedAt(route.cid, incoming, 0, i)) ==>
                  out == None && Says(error, "no response to the request in 10 messages"))
  {
    hide Bounded, Leaves, EndedBy;
    BoundedSays(route.cid, incoming, 0, n, out, reason);
    forall k: nat | EndsAt(route.cid, incoming, 0, k) && k <= 10
      ensures Leaves(incoming(k), route.closes, route.detail, out,
                     FirstOf(TroubleOpt(reason, route.detail), AtClose(route)))
    {
      WaitLeaves(incoming(k), route, out, reason);
    }
  }

  /** A hub and the arbiter get the same response and the same error on every stream that answers,
      times out or fails within a hub's eleven draws; on the others the hub gives up without a
      response. */
  lemma SendersAgree(cid: string, incoming: nat -> Event, k: nat, out: Option<string>, reason: Option<Reason>)
    requires EndsAt(cid, incoming, 0, k) && EndedBy(incoming(k), out, reason)
    ensures if k <= 10 then WaitBody(cid, incoming, 0) == out && WaitError(cid, incoming, 0) == reason
            else WaitBody(cid, incoming, 0) == None && WaitError(cid, incoming, 0) == Some(NoAnswer)
  {
    hide EndedBy;
    var first := FirstDecisive(cid, incoming, 0, 11);
    forall i
      ensures PassedAt(cid, incoming, 0, i) <==> !Decisive(cid, incoming, 0, i)
    {
      JudgeExactly(cid, incoming(i));
    }
    JudgeExactly(cid, incoming(k));
    assert Decisive(cid, incoming, 0, k);
    assert k <= 10 ==> first == Some(k);
    assert EndedBy(incoming(0 + k), out, reason);
  }

  // ---- the agent ----

  class CommandDesk {
    const agent: Agent
    var arbiterState: NodeState
    var completions: seq<Completion>

    constructor (agent: Agent)
      ensures this.agent == agent && arbiterState == Null && completions == []
    {
      this.agent := agent;
      arbiterState, completions := Null, [];
    }

    /** chamge_node_user_command on the arbiter: refused without an error unless it is activated. */
    method NodeUserCommand(cmd: string, route: Route, incoming: nat -> Event)
      returns (ret: Return, out: Option<string>, error: Option<Trouble>, sentTo: Option<string>)
      requires arbiterState == Activated ==> WaitEnds(route, cmd, incoming)
      ensures sentTo == if arbiterState == Activated && Dispatched(route, cmd) then QueueName(cmd) else None
      ensures ret == if arbiterState == Activated && BeforeWait(route, cmd).None? && route.closes then Ok else Fail
      ensures if arbiterState != Activated then out == None && error == None
              else if BeforeWait(route, cmd).Some? then out == None && error == BeforeWait(route, cmd)
              else Waited(route, incoming, out, error)
    {
      if arbiterState != Activated {
        return Fail, None, None, None;
      }
      ret, out, error, sentTo := SendUserCommand(cmd, route, incoming);
    }

    /** The agent's check of a command before it is forwarded. */
    method Check(cmd: string) returns (refusal: Option<string>)
      ensures refusal == if Admitted(agent.Value(), cmd) then None else Some(Answer(RefusalText(cmd)))
      ensures ReadObject(cmd).None? ==> refusal == Some(Answer("failed to parse body"))
      ensures ReadObject(cmd).Some? ==>
                var ms := ReadObject(cmd).value;
                var verb, to := TextOf(ms, "method"), TextOf(ms, "to");
                var shown := if to.Some? then to.value else "(null)";
                if Lookup(ms, "method").None? || Lookup(ms, "to").None? then refusal == None
                else if verb == Some("streamingStart") || verb == Some("streamingStop") || verb == Some("getUrl") then
                  if to.Some? && to.value in agent.edges then refusal == None
                  else refusal == Some(Answer("no edge is enrolled with edge id " + shown))
                else
                  if to.Some? && to.value in agent.hubs then refusal == None
                  else refusal == Some(Answer("no hub is enrolled with hub id " + shown))
    {
      hide ReadObject, Lookup, Answer;
      var root := ReadObject(cmd);
      if root.None? {
        return Some(Answer("failed to parse body"));
      }
      if Lookup(root.value, "method").Some? {
        var verb := TextOf(root.value, "method");
        if verb == Some("streamingStart") || verb == Some("streamingStop") || verb == Some("getUrl") {
          if Lookup(root.value, "to").Some? {
            var id := TextOf(root.value, "to");
            var enrolled := Agent.IsEnrolled(agent.edges, id);
            if !enrolled {
              return Some(Answer("no edge is enrolled with edge id " + Shown(id)));
            }
          }
        } else {
          if Lookup(root.value, "to").Some? {
            var id := TextOf(root.value, "to");
            var enrolled := Agent.IsEnrolled(agent.hubs, id);
            if !enrolled {
              return Some(Answer("no hub is enrolled with hub id " + Shown(id)));
            }
          }
        }
      }
      refusal := None;
    }

    /** A command is completed exactly once, and a completion that is not Ok carries a response. It
        is sent exactly when it is admitted and the arbiter can send it, to the queue it names. */
    method HandleUserCommand(cmd: string, route: Route, incoming: nat -> Event) returns (sentTo: Option<string>)
      requires Admitted(agent.Value(), cmd) && arbiterState == Activated ==> WaitEnds(route, cmd, incoming)
      modifies this`completions
      ensures |completions| == |old(completions)| + 1 && old(completions) <= completions
      ensures sentTo == if Admitted(agent.Value(), cmd) && arbiterState == Activated && Dispatched(route, cmd)
                        then QueueName(cmd) else None
      ensures var done := completions[|old(completions)|];
              && done.ret == (if sentTo.Some? && BeforeWait(route, cmd).None? && route.closes then Ok else Fail)
              && (done.ret != Ok ==> done.response.Some?)
              && (if !Admitted(agent.Value(), cmd) then done.response == Some(Answer(RefusalText(cmd)))
                  else if arbiterState != Activated then done.response == Some(Answer("nok"))
                  else if BeforeWait(route, cmd).Some? then
                    done.response == Some(Answer(BeforeWait(route, cmd).value.Text()))
                  else exists out, error :: Waited(route, incoming, out, error) &&
                         done.response == if done.ret != Ok && out.None? &&
                           error.Some? then Some(Answer(error.value.Text())) else out)
    {
      hide Admitted, Dispatched, QueueName, Answer, RefusalText, Waited, WaitEnds, BeforeWait;
      BeforeWaitIff(route, cmd);
      var refusal := Check(cmd);
      if refusal.Some? {
        completions := completions + [Completion(Fail, refusal)];
        return None;
      }
      var ret, response, error;
      ret, response, error, sentTo := NodeUserCommand(cmd, route, incoming);
      ghost var out := response;
      if ret != Ok {
        CloseTrouble(route, incoming, out, error);
        if response.None? {
          response := Some(Answer(if error.Some? then error.value.Text() else "nok"));
        }
      }
      completions := completions + [Completion(ret, response)];
      DispatchedHasQueue(route, cmd);
      assert arbiterState == Activated && BeforeWait(route, cmd).None? ==> Waited(route, incoming, out, error);
    }
  }

  lemma CloseTrouble(route: Route, incoming: nat -> Event, out: Option<string>, error: Option<Trouble>)
    ensures Waited(route, incoming, out, error) && !route.closes ==> error.Some?
  {
  }

  lemma DispatchedHasQueue(route: Route, cmd: string)
    ensures Dispatched(route, cmd) ==> QueueName(cmd).Some?
  {
  }

  // ---- commands answered ----

  /** The response a node's handler gives to a command is the response the sender is left with, once
      the node's reply is the first thing that ends the sender's wait: for the arbiter, and for a hub
      if that happens within its eleven draws. */
  lemma CommandRoundTrip(cmd: string, route: Route, replyTo: string, handled: Option<string>,
                         incoming: nat -> Event, k: nat)
    requires QueueName(cmd).Some? && replyTo != [] && NulFree(replyTo) && WellFormedCid(route.cid)
    requires handled.Some? ==> NulFree(handled.value)
    ensures var response := if handled.Some? then handled.value else Answer("not ok");
            var reply := Posted(replyTo, Envelope(Some(response), Some("application/json"), None, Some(route.cid)));
            && CommandReply(Sending(cmd, replyTo, route.cid), handled) == Some(reply)
            && (incoming(k) == Arrived(reply.env) && (forall i | 0 <= i < k :: PassedAt(route.cid, incoming, 0, i)) ==>
                 (forall out, error | Waited(route, incoming, out, error) :: out == Some(response)) &&
                  (k <= 10 ==> WaitBody(route.cid, incoming, 0) == Some(response)))
  {
    hide ReadObject, Lookup, Answer, IsJson, Served, ReplyWith, WaitBody, PassedAt, Waited;
    NotOkNulFree();
    var response := if handled.Some? then handled.value else Answer("not ok");
    SendingServed(cmd, replyTo, route.cid, response);
    if incoming(k) == Delivery(Some(route.cid), Some(response)) &&
       forall i | 0 <= i < k :: PassedAt(route.cid, incoming, 0, i)
    {
      FirstAnswer(route, response, incoming, k);
    }
  }

  /** A message with the expected id ends the wait with its body, if nothing ended it before. */
  lemma FirstAnswer(route: Route, response: string, incoming: nat -> Event, k: nat)
    requires NulFree(response) && incoming(k) == Delivery(Some(route.cid), Some(response))
    requires forall i | 0 <= i < k :: PassedAt(route.cid, incoming, 0, i)
    ensures forall out, error | Waited(route, incoming, out, error) :: out == Some(response)
    ensures k <= 10 ==> WaitBody(route.cid, incoming, 0) == Some(response)
  {
    hide WaitBody, EndedBy;
    assert EndsAt(route.cid, incoming, 0, k);
    CleanEnd(route.cid, response);
    SendersAgree(route.cid, incoming, k, Some(response), None);
    forall out, error | Waited(route, incoming, out, error)
      ensures out == Some(response)
    {
      var k': nat :| EndsAt(route.cid, incoming, 0, k') && Leaves(incoming(k'), route.closes, route.detail, out, error);
      assert k' == k;
      EndedOneWay(route.cid, incoming(k), out, None, Some(response), None);
    }
  }

  lemma CleanEnd(cid: string, response: string)
    requires NulFree(response)
    ensures EndedBy(Delivery(Some(cid), Some(response)), Some(response), None)
    ensures !PassedOver(cid, Delivery(Some(cid), Some(response)))
  {
  }

  lemma NotOkNulFree()
    ensures NulFree(Answer("not ok"))
  {
    var w := "not ok";
    assert NulFree(w) && NulFree("result");
  }

  // ---- who receives commands ----

  /** Which list a command's recipient is looked up in, in the command's own words. */
  lemma AdmittedExactly(lists: Lists, cmd: string, id: string)
    requires ReadObject(cmd).Some? && TextOf(ReadObject(cmd).value, "to") == Some(id)
    ensures var ms := ReadObject(cmd).value;
            if Lookup(ms, "method").None? then Admitted(lists, cmd)
            else if TextOf(ms, "method") in {Some("streamingStart"), Some("streamingStop"), Some("getUrl")} then
              Admitted(lists, cmd) <==> id in lists.edges
            else Admitted(lists, cmd) <==> id in lists.hubs
  {
    hide ReadObject;
  }

  /** In every reachable state of the whole system, of the commands the arbiter can send those that
      name a method are admitted exactly when the node they are sent to is one whose enrolment the
      arbiter has taken and no delist since. A command that names no method is always admitted. */
  lemma SentToEnrolled(nodes: set<Name>, actions: seq<Action>, cmd: string, route: Route)
    requires Reachable(nodes, actions) && Dispatched(route, cmd)
    ensures ReadObject(cmd).Some? && TextOf(ReadObject(cmd).value, "to").Some?
    ensures var s, ms := Final(nodes, actions), ReadObject(cmd).value;
            var id := TextOf(ms, "to").value;
            if Lookup(ms, "method").None? then Admitted(s.lists, cmd)
            else if TextOf(ms, "method") in {Some("streamingStart"), Some("streamingStop"), Some("getUrl")} then
              Admitted(s.lists, cmd) <==> exists i :: TakenAndKept(s, Name(Edge, id), i)
            else Admitted(s.lists, cmd) <==> exists i :: TakenAndKept(s, Name(Hub, id), i)
  {
    hide ReadObject, Lookup, Exec, Admitted, TakenAndKept;
    DispatchedNames(route, cmd);
    var id := TextOf(ReadObject(cmd).value, "to").value;
    AdmittedExactly(Final(nodes, actions).lists, cmd, id);
    ListedIff(nodes, actions, Name(Edge, id));
    ListedIff(nodes, actions, Name(Hub, id));
  }

  lemma DispatchedNames(route: Route, cmd: string)
    requires Dispatched(route, cmd)
    ensures ReadObject(cmd).Some? && TextOf(ReadObject(cmd).value, "to").Some?
  {
    hide ReadObject, Lookup;
  }

  // ---- the senders inside the whole system ----

  /** In every reachable state the sender of a command has drawn at most one message, and that one
      ended its wait: its private queue holds nothing but its own response, so a hub's budget never
      matters. */
  lemma SenderDrawsOnce(nodes: set<Name>, actions: seq<Action>, k: nat)
    requires Reachable(nodes, actions)
    requires k < |Final(nodes, actions).log.commands|
    ensures var s := Final(nodes, actions);
            k < |s.waits| && |s.waits[k]| <= 1 &&
            (s.waits[k] != [] ==> Judge(s.log.commands[k].cid, s.waits[k][0]) != Discard)
  {
    hide Exec, LogRight, BoxesRight, PeersRight, QueueRight, ListsRight, RecordsRight, Responded, LastBody, Judge;
    RunRight(nodes, actions);
    assert WaitRight(k, Final(nodes, actions).waits[k], Final(nodes, actions).log);
  }

  /** The command names the queue it was sent to. */
  predicate NamesTarget(c: Command)
  {
    QueueName(c.text).Some? && (c.target.QueueOf? ==> QueueName(c.text) == Some(c.target.id))
  }

  /** The surroundings of a command that was sent and is being waited for. */
  function RouteOf(c: Command, closes: bool, detail: string): Route
  {
    Route(true, Setup(true, true, true, true), c.cid, closes, detail)
  }

  /** A wait that its first message ends, at a sender. */
  lemma FirstDecides(route: Route, incoming: nat -> Event, drawn: seq<Event>)
    requires |drawn| == 1 && incoming(0) == drawn[0] && Judge(route.cid, drawn[0]) != Discard
    ensures EndsAt(route.cid, incoming, 0, 0)
    ensures forall out, error | Leaves(drawn[0], route.closes, route.detail, out, error) ::
              out == LastBody(route.cid, drawn)
    ensures forall out, error | Waited(route, incoming, out, error) ::
              Leaves(drawn[0], route.closes, route.detail, out, error)
  {
    JudgeExactly(route.cid, drawn[0]);
    assert !PassedAt(route.cid, incoming, 0, 0);
  }

  /** Carries out on the arbiter's sender the k-th command of a run, once its wait is over: it leaves
      the response the protocol's wait is left with, and the error that goes with what it drew. */
  method ReplaySend(nodes: set<Name>, actions: seq<Action>, k: nat, closes: bool, detail: string,
                    incoming: nat -> Event)
    returns (ret: Return, out: Option<string>, error: Option<Trouble>, sentTo: Option<string>)
    requires Reachable(nodes, actions) && k < |Final(nodes, actions).log.commands| && k < |Final(nodes, actions).waits|
    requires NamesTarget(Final(nodes, actions).log.commands[k])
    requires Final(nodes, actions).waits[k] != [] && incoming(0) == Final(nodes, actions).waits[k][0]
    ensures var c, drawn := Final(nodes, actions).log.commands[k], Final(nodes, actions).waits[k];
            && sentTo == QueueName(c.text) && ret == (if closes then Ok else Fail) && out == LastBody(c.cid, drawn)
            && Leaves(drawn[0], closes, detail, out, error)
  {
    hide Exec, MemberText, Judge, LastBody, Leaves, Waited, TroubleOf;
    var c, drawn := Exec(nodes, actions).value.log.commands[k], Exec(nodes, actions).value.waits[k];
    SenderDrawsOnce(nodes, actions, k);
    FirstDecides(RouteOf(c, closes, detail), incoming, drawn);
    ret, out, error, sentTo := SendUserCommand(c.text, RouteOf(c, closes, detail), incoming);
  }

  /** The same on the hub's sender. */
  method ReplayHubSend(nodes: set<Name>, actions: seq<Action>, k: nat, closes: bool, detail: string,
                       incoming: nat -> Event)
    returns (ret: Return, out: Option<string>, error: Option<Trouble>, sentTo: Option<string>)
    requires Reachable(nodes, actions) && k < |Final(nodes, actions).log.commands| && k < |Final(nodes, actions).waits|
    requires NamesTarget(Final(nodes, actions).log.commands[k])
    requires Final(nodes, actions).waits[k] != [] && incoming(0) == Final(nodes, actions).waits[k][0]
    ensures var c, drawn := Final(nodes, actions).log.commands[k], Final(nodes, actions).waits[k];
            && sentTo == QueueName(c.text) && ret == (if closes then Ok else Fail) && out == LastBody(c.cid, drawn)
            && Leaves(drawn[0], closes, detail, out, error)
  {
    hide Exec, MemberText, Judge, LastBody, Leaves, TroubleOf;
    var c, drawn := Exec(nodes, actions).value.log.commands[k], Exec(nodes, actions).value.waits[k];
    SenderDrawsOnce(nodes, actions, k);
    FirstDecides(RouteOf(c, closes, detail), incoming, drawn);
    ret, out, error, sentTo := HubSendUserCommand(c.text, RouteOf(c, closes, detail), incoming);
  }
}
