# Chamge: the enrolment protocol, modelled and proved

Chamge connects edges and hubs to an arbiter through an AMQP broker. This project models how a
node enrols, activates, deactivates and delists, how its requests travel to the arbiter and the
answers back, what the arbiter's agent records, and how user commands reach nodes and are answered.
It proves what holds in every reachable state of the whole system and what each piece of sequential
code guarantees.

`dafny verify dfyconfig.toml` checks the project.

## How it is laid out

| file | what it models |
|---|---|
| `Json.dfy` | a reader for JSON texts (RFC 8259) and the unescaped writing the program does with `printf` |
| `Documents.dfy` | JSON texts as trees, after the grammar of RFC 8259, and that the reader reads exactly those |
| `Requests.dfy` | the requests nodes print, the arbiter's dispatcher, the check a node makes on the answer |
| `Answers.dfy` | what a node makes of the arbiter's answer to any text |
| `RpcWait.dfy` | the comparison of correlation ids, the bounded wait of edges and hubs, the arbiter's unbounded wait |
| `Messages.dfy`, `Loop.dfy` | messages with their properties, and the sources attached to a main loop |
| `Registry.dfy` | the agent's two lists as an object with four callbacks, and the order of enrolments they stand for |
| `Arbiter.dfy` | the arbiter's backend: one message taken, dispatched, answered |
| `LazyEnrol.dfy` | the delay of a lazy enrolment |
| `Lifecycle.dfy` | one node's life as values, and what holds over every run |
| `Node.dfy` | the node and its backend as objects; each operation is a step of `Lifecycle` |
| `Protocol.dfy` | the whole system as a state machine: many nodes, one enrol queue, other queues, senders of commands, one arbiter |
| `Invariant.dfy` | what every step of the protocol keeps |
| `Theorems.dfy`, `Delivery.dfy`, `Budget.dfy`, `Fates.dfy`, `Order.dfy` | what holds in every reachable state: lists, answers, deliveries, why a call gets no answer, what becomes of commands, and in what order |
| `Divergence.dfy` | runs in which a node's state and the arbiter's lists part, and when a node can come back by itself |
| `Queues.dfy` | which queues exist, and what a node's connection consumes from for how long, in every reachable state |
| `Runs.dfy`, `Late.dfy` | what can happen: every life of a node, the end of every wait, a command answered from any state, and calls that meet late answers |
| `Refinement.dfy` | every run of `Protocol.dfy` replayed on the objects of `Node.dfy` and `Arbiter.dfy` |
| `UserCommands.dfy` | the agent's check of a command, the arbiter and the hub as senders, the round trip, and both senders in a run of `Protocol.dfy` |

The sequential code that changes fields in place is modelled by classes (`Registry.Agent`,
`Arbiter.Backend`, `RpcWait.Connection`, `Loop.MainLoop`, `Node.AmqpBackend`, `Node.Node`,
`UserCommands.CommandDesk`). Their methods are proved against functions; the theorems are about
those functions and about the state machine, which uses the same ones.

## What is assumed

- **The broker.** A queue is first in, first out (section 4.7 of the AMQP 0-9-1 specification), and a
  delivery removes the message: every consumer is without acknowledgements
  (chamge/amqp-edge-backend.c:294-295, chamge/amqp-arbiter-backend.c:172-173). A queue goes away with
  its last consumer (chamge/amqp-edge-backend.c:178-183); `Queues.QueuesExactly` says which exist.
- **One node's requests reach the enrol queue in the order it sent them.** Calls of one node block, but
  a delist uses a second connection (chamge/amqp-edge-backend.c:586-587), for which the broker alone
  does not promise this order.
- **Fresh names.** Correlation ids are new each time, 64 bytes long and free of NUL (a SHA-256 digest
  in hex); the names of private queues are new each time, and nobody publishes to a private queue but
  who answers its owner.
- **Nodes** are distinct as pairs of kind and id, and one caller at a time uses a node. Their ids may
  hold any characters; what is said of one node's place in the lists asks for that node's id to be plain
  (no quote, backslash or control character), which is exactly what its printed requests need
  (`Requests.RequestReadsBack`, `Requests.RequestServed`). No node's id is the name of the enrol queue.
- **User commands** are sent by anybody at any time, with any text, to the queue of any node or to the
  enrol queue itself, which the hub's sender does not rule out (chamge/hub.c:140-147,
  chamge/amqp-hub-backend.c:1020-1022). What else is on the enrol queue is nodes' requests.
- **The arbiter** is one activated process whose lists start empty.
- Everything else the surroundings decide is a parameter or a step that may happen at any point:
  logins and sockets that fail, queues that do not exist, publishing that fails, timeouts, broken
  connections, replies that cannot be posted, late messages, and the order in which a connection
  with several consumers hands out its messages.

## Where the code differs from its documentation, or from what one would expect

- README.md:56 lets a node be delisted from the enrolled state only. The code has no guard.
  `Lifecycle.DelistUnguarded` says exactly when a delist succeeds, and `Lifecycle.DelistsOutsideEnrolled`
  gives runs in which an activated node and one that never enrolled are delisted.
- A delist drops the backend even when it fails (chamge/edge.c:111-113). The node then keeps its old
  state for good and never sends anything again (`Lifecycle.StuckForever`, `Theorems.StuckForGood`),
  and this is the only way to get there (`Lifecycle.StuckExactly`). The arbiter may have removed it
  already: `Divergence.EnrolledYetUnlisted` is such a run, and `Theorems.UnlistedExactly` and
  `Theorems.UnlistedByItself` say exactly when a node outside the null state is missing from its list.
- A lazy timer that fires outside the null state is kept and fires again (chamge/node.c:222-223), so it
  may enrol the node after a later delist: `Lifecycle.ReturnsAfterDelist` and `Divergence.ReturnsByItself`
  are such runs. A delist is final exactly when no timer was pending before it
  (`Lifecycle.DelistIsFinal`, `Divergence.NullStaysExactly`), and lazy enrolments never outnumber the calls
  that asked for them (`Lifecycle.TimersConserved`).
- A user command sent to the enrol queue is served as a request (chamge/amqp-arbiter-backend.c:453), so it
  may delist a node that believes it is enrolled: `Divergence.DelistedByCommand`. So may a request of a node
  whose id closes the string it is printed in and goes on with another id: `Answers.RedirectingServed`,
  `Divergence.DelistedByNode`. Nothing else does: `Theorems.BelieverIsListed`; and if every node's id is plain,
  only commands do: `Theorems.OnlyCommandsMeddle`.
- An unknown method name or device type is put back into the answer unescaped
  (chamge/amqp-arbiter-backend.c:311-314, 342-345), so a refusal can read as an agreement:
  `Answers.QuotedVerbMisreads`, `Answers.QuotedDeviceMisreads`. `Answers.AnswerTells` says exactly for which
  texts; names without a quote never do it (`Answers.QuoteFreeStaysIn`).
- A request call reports success even when its wait failed (chamge/amqp-edge-backend.c:375); only the
  check of the answer decides (`RpcWait.Connection.RpcRequest`, `Theorems.OkIffAnswered`).

## Model

| member | source | states |
|---|---|---|
| Theorems.EnrolledIsListed | chamge/amqp-edge-backend.c:462-534 | in every reachable state, a node with a plain id whose enrolment returned Ok and that has published no delist since is in the arbiter's list of its kind if and only if no later delist of it sent by somebody else, a node or a command, was the last word the arbiter took; earlier calls that timed out cannot undo it |
| Theorems.DelistedIsUnlisted | chamge/amqp-edge-backend.c:536-661 | in every reachable state, a node with a plain id whose delist returned Ok and that has published no enrolment since is in its list if and only if somebody else sent a later enrolment of it that was kept |
| Theorems.BelieverIsListed | chamge/node.c:237-370 | in every reachable state, a node with a plain id that is outside the null state, owns a backend and is not delisting is in its list if and only if no delist of it sent by somebody else was the last word |
| Theorems.OnlyCommandsMeddle | chamge/amqp-arbiter-backend.c:290-341 | if every node's id is plain, only user commands can do that |
| Theorems.UnlistedExactly | chamge/edge.c:104-116 | in every reachable state, a node with a plain id outside the null state is missing from its list if and only if the last word the arbiter took on it is a delist that is the node's own last request or was sent by somebody else |
| Theorems.UnlistedByItself | chamge/edge.c:104-116 | a node outside the null state that nobody else enrolled or delisted is missing from its list if and only if its last request is a delist the arbiter has taken |
| Theorems.ListedIff | agent/arbiter-agent.c:503-562 | a name is listed if and only if the arbiter took an enrolment of it and no later delist |
| Theorems.UnlistedIff | agent/arbiter-agent.c:503-562 | a name the arbiter once enrolled is missing if and only if the last word it took on it is a delist |
| Theorems.BodyIsOwnAnswer | chamge/amqp-edge-backend.c:303-375 | the body any finished call returns is the arbiter's answer to that very request, which it took from the queue and answered into the call's own reply queue; for a node with a plain id it is the expected answer |
| Theorems.OkIffAnswered | chamge/amqp-edge-backend.c:431-460 | a call returns Ok if and only if an answer that is accepted arrived within the wait and what follows it succeeded; for a node with a plain id, if and only if its answer arrived at all |
| Theorems.StrangersDiscarded | chamge/amqp-edge-backend.c:341-354 | a drawn message with the correlation id of any other request or of a command, however late, was discarded |
| Theorems.RequestsConserved | chamge/amqp-arbiter-backend.c:377-497 | every text put on the enrol queue is still queued, in order, or was taken exactly once; the lists are the effects of the taken ones in order; each has at most one reply, under its own id and to the queue it named |
| Theorems.ResponseIsOwn | chamge/amqp-arbiter-backend.c:644-709 | in every reachable state, what the sender of a command takes for its response is the response to that very command, of the node it was sent to or of the arbiter |
| Theorems.NodesLive | chamge/node.c:212-370 | inside the whole system every node lives a life of Lifecycle, so the watch, stuck-node, emission and timer theorems hold of every node in every reachable state |
| Theorems.NullStaysInside | chamge/node.c:212-235 | a node in the null state that has no timer pending and is not enrolling stays so in every continuation of the system in which it starts no enrolment |
| Divergence.NullStaysExactly | chamge/node.c:212-235 | in every reachable state, a resting node in the null state stays there in every continuation in which it starts no enrolment if and only if it has no timer pending |
| Divergence.TimerEnrols | chamge/node.c:212-235 | with a timer pending there is a continuation that enrols it |
| Theorems.StuckForGood | chamge/edge.c:104-116 | a node that lost its backend outside the null state never changes and never publishes again, whatever the rest of the system does |
| Delivery.DeliveredOnce | chamge/amqp-edge-backend.c:294-295 | of the questions and of the answers under one correlation id at most one is ever delivered, and none of that kind still waits then, so each request and each command is answered at most once |
| Delivery.ServedOnce | chamge/amqp-edge-backend.c:690-798 | no command is served twice, by the same node or by two |
| Budget.NoAnswerExactly | chamge/amqp-edge-backend.c:303-375 | a call ends without an answer if and only if it never consumed, was interrupted by a timeout or a failure, or spent its budget on discarded messages |
| Budget.DrewStrangers | chamge/amqp-edge-backend.c:294-354 | each message a call spent its budget on is a late answer to an earlier call of the same node that got none, or a command to that node |
| Budget.BudgetSpent | chamge/amqp-edge-backend.c:309-314 | a call can spend its budget only if at least eleven earlier calls of its node went without an answer or commands were sent to the node, counted together |
| Late.LateAnswers | chamge/amqp-edge-backend.c:303-374 | for every plain node and every number m there is a run in which m enrolments of it time out and one more meets their late answers: it returns Ok if m is at most ten; if m is eleven or more it spends its budget on eleven of them and fails, while its own answer waits and the arbiter lists the node |
| Budget.DelistDrawsOnce | chamge/amqp-edge-backend.c:586-622 | in every reachable state a delist, which has a connection of its own, has drawn at most one message, and that one ended its wait; so it never spends its budget |
| Queues.WatchedConsumes | chamge/amqp-edge-backend.c:417-419 | in every reachable state, a node whose message watch is attached consumes from its own queue, and that queue exists, like every other it consumes from |
| Queues.ConsumersExactly | chamge/amqp-edge-backend.c:294-300 | in every reachable state, a node's main connection consumes from a queue if and only if a step made it so (the consume of an enrolment or activation, or the subscription of an answered activation) and no delist of the node ended since |
| Queues.QueuesExactly | chamge/amqp-edge-backend.c:167-202 | in every reachable state, a queue exists if and only if a main connection consumes from it, or it is the private queue of a call that does not consume through that connection, open or left behind, or of a sender that has not hung up |
| Fates.CommandFate | chamge/amqp-edge-backend.c:690-798 | in every reachable state a command to a node's queue is in exactly one of four places: it waits there, a call drew it, the node served it, or it went away with the queue |
| Order.NoOvertaking | chamge/amqp-edge-backend.c:417-419 | in every reachable state no command to a node overtakes another: behind a command that waits in the node's queue wait all those sent to it later |
| Runs.CommandAnswered | chamge/amqp-edge-backend.c:690-798 | from every reachable state, a command can be sent to any resting node whose watch is attached, is served after what waits before it, and the node's response is what its sender takes for the response |
| Runs.ActivatesAndServes | chamge/amqp-edge-backend.c:800-873 | for every plain node there is a run in which it enrols, activates, is sent a command and serves it, and the response reaches the sender |
| Runs.Emptied | chamge/amqp-source.c:50-79 | from every reachable state, the watch of a resting node can draw everything that waits in any queue the node consumes from |
| Runs.CallsCanEnd | chamge/amqp-edge-backend.c:322-337 | an open call can always come to its end: a wait that goes on by a timeout or a failure, one that is over at once |
| Runs.WaitsCanEnd | chamge/amqp-arbiter-backend.c:655-671 | so can the wait of a sender that has drawn nothing; a queued text can always be taken, whether or not its reply can be posted |
| Runs.LivesHappen | chamge/node.c:212-370 | the converse of NodesLive: every life of Lifecycle happens inside the whole system, for every node with a plain id |
| Runs.MayCallExactly | chamge/node.c:237-343 | a node asks the arbiter exactly for the operations that would succeed if the arbiter agreed |
| Divergence.EnrolledYetUnlisted | chamge/edge.c:104-116 | for every node there is a run, every call of it answered, that leaves the node enrolled in its own eyes and absent from the arbiter's list |
| Divergence.ReturnsByItself | chamge/node.c:212-235 | for every node there is a run in which it is enrolled and listed again after its delist, by a lazy timer set before its first enrolment |
| Divergence.DelistedByCommand | chamge/amqp-hub-backend.c:1020-1022 | for every node and every plain name of the enrol queue there is a run in which a user command sent to that queue delists a node that believes it is enrolled |
| Divergence.DelistedByNode | chamge/amqp-edge-backend.c:616-619 | for every node with a plain id there is a run without any command in which another node's delist, by its id, delists a node that believes it is enrolled |
| Invariant.RunRight | chamge/amqp-arbiter-backend.c:377-497 | the invariant of the whole system holds in every reachable state |
| Invariant.StepRight | chamge/amqp-edge-backend.c:230-380 | each of the twelve kinds of step keeps the invariant of the whole system |
| Invariant.MatchIsOwnReply | chamge/amqp-edge-backend.c:347-354 | a message in any queue whose id passes the byte comparison with a request's is the arbiter's reply to that request, in the queue the request named |
| Invariant.OwnReplyQueue | chamge/amqp-edge-backend.c:253-300 | whatever is in the private queue of a request is the arbiter's reply to that request |
| Invariant.OwnResponse | chamge/amqp-arbiter-backend.c:634-689 | whatever is in the private queue of a command's sender is the response to that command |
| Invariant.WatchedCommand | chamge/amqp-edge-backend.c:717-740 | of all the messages a node's watch can draw, only commands sent to that node are served |
| Refinement.CallRefines | chamge/amqp-edge-backend.c:230-380 | the node object accepts an answer exactly when the protocol's call does, draws as many messages, and sends the body of the request the protocol published |
| Refinement.Perform | chamge/node.c:212-343 | performing an operation on the node object leaves the node, its connection and the position on it as the protocol's step leaves them, and returns and sends what the protocol records |
| Refinement.PerformAlone | chamge/node.c:237-370 | so does every operation that publishes nothing |
| Refinement.Replay | chamge/node.c:202-370 | every run of the protocol can be replayed on one new node object: it goes through the node's states, draws from each of its connections what the node heard there, its calls return and send what the protocol records, and its watch posts what the protocol posts |
| Refinement.ServeNext | chamge/amqp-arbiter-backend.c:377-497 | one turn of the arbiter object on the head of the enrol queue leaves the protocol's lists and posts the protocol's reply |
| Refinement.ReplayArbiter | chamge/amqp-arbiter-backend.c:377-511 | every run can be replayed on one new arbiter: its agent ends with the protocol's lists and it posted the protocol's replies |
| Refinement.UnsentIsAlone | chamge/amqp-edge-backend.c:247-292 | a call that fails before it publishes is not accepted, draws nothing, and is one of the protocol's steps that publish nothing |
| RpcWait.MatchesExactly | chamge/amqp-edge-backend.c:347-349 | the comparison accepts exactly the prefixes of the expected id and its continuations after a NUL; without NUL exactly the prefixes, the empty id among them; for equal lengths exactly equality |
| RpcWait.Connection.WaitBounded | chamge/amqp-edge-backend.c:303-374 | for every stream: if one of the first eleven events ends the wait, that is a timeout, a failure or a message whose id is a prefix of the expected one or continues it after a NUL, the loop draws up to the first such event and is left with what it says; otherwise it draws exactly eleven and gives up |
| RpcWait.Connection.WaitUnbounded | chamge/amqp-arbiter-backend.c:644-709 | the loop draws up to the first event that is a timeout, a failure or a message with a matching id, and is left with what that event says |
| RpcWait.Connection.RpcRequest | chamge/amqp-edge-backend.c:230-380 | a request is published if and only if the queue exists, the reply queue is declared and publishing works; the call fails exactly when a step before the wait fails and then draws nothing; otherwise it returns Ok however the wait ends |
| RpcWait.BoundedResult | chamge/amqp-hub-backend.c:336-408 | every stream determines one number of draws and one result of the bounded wait: that of the first decisive event among eleven, or the budget error |
| RpcWait.BoundedSays | chamge/amqp-edge-backend.c:309-374 | whatever a bounded wait comes to is told by the stream: by the first event among eleven that ends it, or by all eleven being passed over |
| RpcWait.JudgeExactly | chamge/amqp-edge-backend.c:318-371 | what one event does to a wait, told from the event alone; an accepted body is the delivered bytes up to the first NUL |
| RpcWait.OneOfBodyAndError | chamge/amqp-edge-backend.c:303-375 | a wait never leaves both a body and an error, and leaves neither exactly when it matched a message whose body is a null pointer |
| RpcWait.LoopsAgree | chamge/amqp-arbiter-backend.c:644-709 | when the first decisive event is among the first eleven, the bounded and the unbounded loop draw the same messages and give the same result |
| RpcWait.UnboundedEnds | chamge/amqp-arbiter-backend.c:644-709 | the unbounded loop ends if and only if the stream holds a match, a timeout or a failure |
| Requests.PrintedText | chamge/amqp-edge-backend.c:514-517 | the printed request is the format string with the method, the kind and the id put in, for edges and hubs, written out |
| Requests.AnswerText | chamge/amqp-arbiter-backend.c:300-345 | so is an answer |
| Requests.RequestReadsBack | chamge/amqp-hub-backend.c:544-547 | reading the printed request gives back method, device type and id if and only if the id has no quote, backslash or control character; any other id is itself never given back |
| Requests.PrintedApart | chamge/amqp-edge-backend.c:835-838 | distinct requests print distinct texts, whatever the ids contain |
| Requests.RequestServed | chamge/amqp-arbiter-backend.c:251-348 | with a plain id the dispatcher answers the expected word and has exactly the operation's effect; an enrolment or delist has the effect it was sent for if and only if the id is plain |
| Requests.EffectExactly | chamge/amqp-arbiter-backend.c:266-341 | for every text, told from its members: which name it enters in or takes out of which list, if and only if; an activation or a deactivation touches neither |
| Requests.RefusalExactly | chamge/amqp-arbiter-backend.c:259-345 | what every text that is refused is told, and that a deactivation is answered |
| Messages.ServedExactly | chamge/amqp-edge-backend.c:707-740 | a message is served if and only if it has a body, the content type application/json in letters of either case, and a reply queue that is neither empty nor cut short by a NUL |
| Messages.SendingServed | chamge/amqp-edge-backend.c:257-281 | a request or command as it is sent has those properties, and its reply goes to the queue it names under its id |
| Requests.AnswerAccepted | chamge/amqp-edge-backend.c:431-460 | print, dispatch, check: the answer to a request is accepted by a caller expecting op if and only if op was requested, and a missing answer never |
| Answers.AnswerTells | chamge/amqp-arbiter-backend.c:251-348 | for every text, the answer is accepted as op's if and only if the text asks for op or misleads, never both; so the answer tells what was asked if and only if the text does not mislead |
| Answers.QuotedBack | chamge/amqp-arbiter-backend.c:342-345 | a refusal that quotes a name is accepted as op's answer if and only if the name closes the string it is put in and goes on with members, the last result of which is op's word |
| Answers.QuoteFreeStaysIn | chamge/amqp-arbiter-backend.c:311-314 | a name without a quote never does that |
| Answers.QuotedVerbMisreads | chamge/amqp-arbiter-backend.c:311-314 | for every operation, kind and plain id there is a text with an unknown method that does not ask for the operation and has no effect, and whose answer is accepted as that operation's |
| Answers.QuotedDeviceMisreads | chamge/amqp-arbiter-backend.c:342-345 | so there is one with an unknown device type, for every operation and every plain method |
| Answers.AddressedServed | chamge/amqp-arbiter-backend.c:529-552 | a request's text with a recipient in front names that recipient and is served as the request |
| Answers.RedirectingServed | chamge/amqp-arbiter-backend.c:290-341 | for every operation, kind and plain a and b, a request printed with the id that ends as a and goes on as a second member b is answered as accepted and has its effect on b |
| Documents.ReadsExactly | chamge/amqp-arbiter-backend.c:259-266 | a text is read if and only if it is a value of the grammar of RFC 8259 between white space, and what is read is its members in order, with the characters of their strings and not their spelling |
| Documents.LastStored | chamge/amqp-arbiter-backend.c:266-294 | the string found under a key is that of the last member with the key, if and only if that is a string |
| Json.LastMemberReadsBack | chamge/amqp-edge-backend.c:616-619 | a string written unescaped as the last member of an object reads back as itself if and only if it is plain |
| Json.ReadPlain | chamge/amqp-arbiter-backend.c:266-294 | a plain string followed by a quote reads back as itself, and reading stops right after the quote |
| Json.ReadStringExact | chamge/amqp-arbiter-backend.c:266-294 | reading consumes exactly one character more than it gives back only if the text was that plain string and its quote |
| Registry.ListIsJoinOrder | agent/arbiter-agent.c:503-562 | after every run of callbacks each list is the surviving ids in the order of the enrolments their memberships date from |
| Registry.JoinOrderUnique | agent/arbiter-agent.c:503-562 | only one list is in that order for a given run |
| Registry.MemberIff | agent/arbiter-agent.c:503-562 | an id is listed if and only if some callback enrolled it and none delisted it later; callbacks of the other kind do not matter |
| Registry.NoDuplicates | agent/arbiter-agent.c:503-562 | no id is ever listed twice |
| Registry.Agent.FindList | agent/arbiter-agent.c:487-501 | finds a link if and only if the id is listed, and then the first one |
| Registry.Agent.IsEnrolled | agent/arbiter-agent.c:326-338 | decides membership; an absent id is never enrolled |
| Registry.Agent.EdgeEnrolled | agent/arbiter-agent.c:503-515 | the lists become those after one more enrolment of an edge; the hub list is untouched |
| Registry.Agent.EdgeDelisted | agent/arbiter-agent.c:517-531 | the lists become those after one more delist of an edge; the hub list is untouched |
| Registry.Agent.HubEnrolled | agent/arbiter-agent.c:533-546 | the lists become those after one more enrolment of a hub; the edge list is untouched |
| Registry.Agent.HubDelisted | agent/arbiter-agent.c:548-562 | the lists become those after one more delist of a hub; the edge list is untouched |
| Arbiter.Backend.ProcessJson | chamge/amqp-arbiter-backend.c:251-348 | for every text, the answer and the change of the agent's lists are those of the dispatcher that the request theorems are about |
| Arbiter.Backend.ProcessMessage | chamge/amqp-arbiter-backend.c:377-497 | a message is served only if it has a body, the JSON content type and a usable reply queue; it changes the lists once and gets at most one reply, also when the reply queue is gone |
| Arbiter.Backend.Activate | chamge/amqp-arbiter-backend.c:499-511 | one more handler is attached to the main loop, its id is kept, and the backend serves |
| Arbiter.Backend.Deactivate | chamge/amqp-arbiter-backend.c:513-527 | the backend stops serving; the handler it attached last, and no other, is removed |
| Arbiter.NodeRequestServed | chamge/amqp-edge-backend.c:260-283 | a node's request, with the properties it is sent with, has its operation's effect, and its one reply goes to the queue it named under the id it carried |
| Arbiter.TextServed | chamge/amqp-arbiter-backend.c:377-497 | so does any other text sent to the enrol queue with those properties, with the effect and the answer of the dispatcher |
| LazyEnrol.DueAtPhase | chamge/node.c:263-274 | for every clock value the timer is due 6250 ms times the group's digit after a full 100000 ms |
| LazyEnrol.LeastDelay | chamge/node.c:269-272 | the delay is below 100 seconds, and no shorter one reaches the group's place, if and only if the clock's remainder is not so far below zero that a turn is wasted; every clock that is not negative qualifies |
| LazyEnrol.GroupsApart | chamge/node.c:263-272 | nodes of one group are due whole turns apart, nodes of different groups at least 6250 ms apart |
| LazyEnrol.RemainderIsC | chamge/node.c:269-272 | the clock's remainder is C's: congruent, smaller than 100000, never of the other sign |
| Lifecycle.WatchInEveryRun | chamge/amqp-edge-backend.c:800-908 | over every run the message watch is attached exactly when the node is activated and owns its backend, it is the only one attached, and its handler is live |
| Lifecycle.StuckForever | chamge/edge-backend.c:173-231 | no sequence of operations and timers changes a node outside the null state that has no backend |
| Lifecycle.StuckExactly | chamge/edge.c:104-116 | a run leaves such a node if and only if it contains a failed delist of a node outside the null state that owned a backend |
| Lifecycle.TimersConserved | chamge/node.c:212-279 | over every run, pending lazy timers plus lazy enrolment attempts equal the calls that returned Async |
| Lifecycle.NullStays | chamge/node.c:212-235 | a node in the null state stays there, as long as only its timers act, if and only if it has none pending |
| Lifecycle.DelistIsFinal | chamge/node.c:212-235 | after every run, a delist that succeeds is the last word, as long as only the node's timers act, if and only if no timer was pending before it |
| Lifecycle.ReturnsAfterDelist | chamge/node.c:222-223 | the run that shows it: a timer set before a direct enrolment is kept when it fires meanwhile, and enrols the node again after its delist |
| Lifecycle.EmissionsWalk | chamge/node.c:226-367 | over every run the emitted states, started at null, walk along the state diagram and end at the present state, with one emission for each successful operation |
| Lifecycle.EmitsOnSuccess | chamge/node.c:283-287 | an operation that succeeds emits its new state once and moves along the diagram; one that does not leaves state and emissions alone |
| Lifecycle.BackendLeft | chamge/edge.c:87-102 | after every run, a node in the null state owns a backend if and only if an enrolment attempt failed and neither an enrolment nor a delist followed |
| Lifecycle.DelistUnguarded | chamge/node.c:293-316 | after every run, a delist succeeds if and only if the backend delists and the node owns one, told from the run: in the null state a failed enrolment attempt left it, outside it no delist failed before |
| Lifecycle.SucceedsExactly | chamge/node.c:212-370 | after every run, when each operation succeeds, told from the states announced, the failed delists before and what the arbiter said; what it then announces; and that only a lazy enrolment in the null state returns Async |
| Lifecycle.TimersExactly | chamge/node.c:212-279 | after every run, what each operation does to the pending timers |
| Lifecycle.FlagExactly | chamge/amqp-edge-backend.c:854-886 | over every run, a backend's flag is set if and only if the arbiter agreed to an activation since the backend was made, also if the subscription failed or the node was deactivated |
| Lifecycle.DelistsOutsideEnrolled | README.md:53-56 | runs in which an activated node, and a node that never enrolled, are delisted, with their emissions |
| Node.AmqpBackend.Enroll | chamge/amqp-edge-backend.c:462-534 | returns Ok if and only if the node logs in, the request is sent and consumed for, and the first decisive message within the wait carries the expected answer; says what was sent and how far the connection was drawn |
| Node.AmqpBackend.Delist | chamge/amqp-edge-backend.c:536-661 | the same over a connection of its own, and the connection must also close |
| Node.AmqpBackend.Activate | chamge/amqp-edge-backend.c:800-873 | Ok if and only if the answer was accepted and the subscription works; the flag is set by the answer alone, the watch is attached only on success; says how far the connection was drawn |
| Node.AmqpBackend.Deactivate | chamge/amqp-edge-backend.c:875-886 | the watch this backend attached, and no other, is removed |
| Node.AmqpBackend.Dispose | chamge/amqp-edge-backend.c:900-916 | disposing of the backend removes its watch if it has one, and destroys its connection |
| Node.AmqpBackend.ProcessMessage | chamge/amqp-edge-backend.c:690-798 | a command is answered only if it has a body, the JSON content type and a usable reply queue, at most once, under its own id; without a response from the user's handler the answer is not ok |
| Node.Node.EnrollBackend | chamge/edge.c:87-102 | a backend, with a new connection, is made only if the node has none, and outlives a failed enrolment |
| Node.Node.Enroll | chamge/node.c:237-291 | the node object takes the step of Lifecycle decided by the exchange with the arbiter, keeps a backend it has, and draws on its connection; something is sent only by a direct call in the null state |
| Node.Node.Fire | chamge/node.c:212-235 | the timer is kept exactly when the node is outside the null state; otherwise it is used up by one enrolment attempt |
| Node.Node.Delist | chamge/node.c:293-316 | the node object takes the delist step of Lifecycle: no state guard, and the backend is gone and its connection destroyed whatever came of it |
| Node.Node.Activate | chamge/node.c:318-343 | the node object takes the activation step of Lifecycle, keeps its backend and draws on its connection |
| Node.Node.Deactivate | chamge/node.c:345-370 | the node object takes the deactivation step of Lifecycle and keeps its backend |
| Node.Node.OnMessage | chamge/amqp-source.c:50-79 | a turn of the watch draws one message from the connection the calls share and answers it if it is a command |
| UserCommands.SentToEnrolled | agent/arbiter-agent.c:369-413 | in every reachable state, a sendable command that names a method is admitted if and only if it goes to an edge (for streamingStart, streamingStop and getUrl) or a hub (for any other) whose enrolment the arbiter took with no delist since |
| UserCommands.CommandDesk.Check | agent/arbiter-agent.c:363-409 | a command is refused if and only if it does not parse, or names a method and a recipient that is not in the list of edges (for streamingStart, streamingStop and getUrl) or of hubs (for any other); the text of every refusal is given |
| UserCommands.AdmittedExactly | agent/arbiter-agent.c:369-409 | which list the recipient of a command is looked up in, in the command's own words |
| UserCommands.EarlyTexts | chamge/amqp-arbiter-backend.c:571-635 | what a command that is not waited for is told, of several reasons the first met |
| UserCommands.WaitedOneWay | chamge/amqp-arbiter-backend.c:644-820 | the first event that ends a sender's wait decides its response and its error; a timeout is reported as such whether or not the connection closes |
| UserCommands.CommandDesk.HandleUserCommand | agent/arbiter-agent.c:340-430 | every command is completed exactly once, every completion that is not Ok carries a response, and which one is said in every case; the command is sent exactly when it is admitted and the arbiter can send it |
| UserCommands.CommandDesk.NodeUserCommand | chamge/node.c:390-410 | a command is refused without an error, and nothing sent, unless the arbiter is activated |
| UserCommands.SendUserCommand | chamge/amqp-arbiter-backend.c:554-820 | the command is sent to the queue it names or to none; Ok if and only if it was sent, consumed for and the connection closed; response and error are what the first event that ends the wait says, and only if that is no error is a failure to close one |
| UserCommands.HubSendUserCommand | chamge/amqp-hub-backend.c:956-1059 | the hub's sender: without a recipient it fails, without an error, before it touches any queue; its response and its error are what the bounded wait gives |
| UserCommands.SendersAgree | chamge/amqp-hub-backend.c:1020-1022 | a hub and the arbiter get the same response and error on every stream decided within the hub's budget; on the others the hub gets the budget error |
| UserCommands.CommandRoundTrip | chamge/amqp-hub-backend.c:720-840 | the response of a node's handler is the response the sender is left with once the node's reply is the first thing that ends its wait, for the arbiter and, within the budget, for a hub |
| UserCommands.SenderDrawsOnce | chamge/amqp-arbiter-backend.c:644-709 | in every reachable state the sender of a command has drawn at most one message, and that one ended its wait, so a hub's budget never matters to it |
| UserCommands.ReplaySend | chamge/amqp-arbiter-backend.c:716-820 | the arbiter's sender, on a command of a run whose wait is over, leaves the response and the error the protocol's wait is left with |
| UserCommands.ReplayHubSend | chamge/amqp-hub-backend.c:956-1059 | so does the hub's sender |

## Left out

- RpcWait.Connection.WaitUnbounded: needs a stream that holds a deciding event, because the loop otherwise
  runs for ever; `RpcWait.UnboundedEnds` shows that this is exactly when it ends. The same holds of the members
  of `UserCommands` that wait, and only when they reach the wait.
- UserCommands.SendUserCommand: what the AMQP library says in an error is a parameter, and for a connection
  that is not made or not closed that is the whole text. The same holds of the hub's sender.
- Documents.ReadsExactly: the reader follows RFC 8259; leniencies of json-glib beyond it, blank texts, and escapes
  that name NUL or a surrogate (refused here) are not modelled. A text whose top value is not an object is
  read as having no members.
- Node.AmqpBackend.ProcessMessage: what the user's handler does; its response is a parameter. The
  closures that connect the handler are not modelled.
- The inside of rabbitmq-c: sockets, logins, channels, frames and buffers. A step of it succeeds or fails.
- The queue a failed subscription may leave declared without a consumer.
- The readiness of the AMQP event source (chamge/amqp-source.c): its handler is called once for each message drawn.
- MD5, SHA-256 and UUIDs: the group digit is a parameter and correlation ids are fresh.
- GObject properties, signals and reference counts. The notifications that pass from the arbiter's backend
  through chamge/arbiter-backend.c and chamge/arbiter.c to the agent are direct calls.
- Threads and the mutex inside a node. The direct paths emit while they hold the mutex, the lazy path does
  not (chamge/node.c:227-231, 284-286).
- The hub's check of a null response: chamge/amqp-hub-backend.c:474 has no guard for it and reads through the
  null pointer. The edge's check, which has one, stands for both.
- Failures that stop the process (`g_error`, `g_assert`), such as a node without an id.
- The arbiter's own enrolment, delist and restart, after which its queue and lists are new.
- Mock backends, D-Bus, the edge agent, command-line options, settings, and `request_target_uri`.
