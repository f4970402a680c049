/** What becomes of user commands: in every reachable state, a command to a node's queue is in exactly
    one of four places. */
module Fates {
  import opened Common
  import opened RpcWait
  import opened Registry
  import opened Messages
  import opened Arbiter
  import opened Protocol
  import opened Invariant
  import opened Theorems
  import opened Delivery
  import Lifecycle

  // ---- where messages were ----

  /** Who drew the message had a right to: the sender of a command from its private queue; and what a
      watch drew and could serve was served. */
  ghost predicate ReaderRight(h: Handed, g: Log)
  {
    && MessageRight(h.env, h.queue, g)
    && (h.reader.BySender? ==> h.reader.k < |g.commands| && h.queue == g.commands[h.reader.k].replyTo)
    && (h.reader.ByWatch? && Served(h.env) ==> exists i | 0 <= i < |g.services| :: g.services[i].env == h.env)
  }

  ghost predicate PastRight(past: Past, g: Log)
  {
    && (forall i | 0 <= i < |past.delivered| :: ReaderRight(past.delivered[i], g))
    && (forall r | 0 <= r < |past.lost| :: BoxesRight(past.lost[r], g))
  }

  /** Every command to a node's queue is somewhere. */
  ghost predicate Kept(boxes: map<string, seq<Envelope>>, past: Past, g: Log)
  {
    forall k | 0 <= k < |g.commands| && g.commands[k].target.QueueOf? :: Somewhere(boxes, past,
      Key(g.commands[k].cid, true))
  }

  ghost predicate FateRight(boxes: map<string, seq<Envelope>>, past: Past, g: Log)
  {
    PastRight(past, g) && Kept(boxes, past, g)
  }

  // ---- what keeps them ----

  lemma ReaderGrows(h: Handed, g: Log, g': Log)
    requires Grows(g, g') && ReaderRight(h, g)
    ensures ReaderRight(h, g')
  {
    hide MessageRight, Served;
    MessageGrows(h.env, h.queue, g, g');
    if h.reader.ByWatch? && Served(h.env) {
      var i: nat :| i < |g.services| && g.services[i].env == h.env;
      assert g'.services[i].env == h.env;
    }
  }

  lemma PastGrows(past: Past, g: Log, g': Log)
    requires Grows(g, g') && PastRight(past, g)
    ensures PastRight(past, g')
  {
    hide ReaderRight, BoxesRight, Grows;
    forall i | 0 <= i < |past.delivered|
      ensures ReaderRight(past.delivered[i], g')
    {
      ReaderGrows(past.delivered[i], g, g');
    }
    forall r | 0 <= r < |past.lost|
      ensures BoxesRight(past.lost[r], g')
    {
      BoxesGrow(past.lost[r], g, g');
    }
  }

  lemma PoppedKeeps(boxes: map<string, seq<Envelope>>, past: Past, q: string, h: Handed, key: Key)
    requires q in boxes && boxes[q] != [] && h.env == boxes[q][0] && Somewhere(boxes, past, key)
    ensures Somewhere(Popped(boxes, q), past.Reading(h), key)
  {
    var fewer, more := Popped(boxes, q), past.Reading(h);
    if q', k: nat :| Waits(boxes, q', k, key) {
      if q' == q && k == 0 {
        assert Came(more, Read(|past.delivered|), key);
      } else {
        assert Waits(fewer, q', if q' == q then k - 1 else k, key);
      }
    } else {
      var place :| Came(past, place, key);
      assert Came(more, place, key);
    }
  }

  lemma PushedKeeps(boxes: map<string, seq<Envelope>>, past: Past, posted: Option<Posted>, key: Key)
    requires (posted.Some? ==> posted.value.queue in boxes) && Somewhere(boxes, past, key)
    ensures Somewhere(WithReply(boxes, posted), past, key)
  {
    if q, k :| Waits(boxes, q, k, key) {
      assert Waits(WithReply(boxes, posted), q, k, key);
    }
  }

  lemma AppearedKeeps(boxes: map<string, seq<Envelope>>, past: Past, q: string, key: Key)
    requires q !in boxes && Somewhere(boxes, past, key)
    ensures Somewhere(boxes[q := []], past, key)
  {
    if q', k :| Waits(boxes, q', k, key) {
      assert Waits(boxes[q := []], q', k, key);
    }
  }

  lemma ReshapedKeeps(boxes: map<string, seq<Envelope>>, gone: set<string>, boxes': map<string, seq<Envelope>>,
                      past: Past, key: Key)
    requires Reshaped(boxes, gone, boxes') && Somewhere(boxes, past, key)
    ensures Somewhere(boxes', past.Dropping(Within(boxes, gone)), key)
  {
    var more := past.Dropping(Within(boxes, gone));
    if q, k :| Waits(boxes, q, k, key) {
      if q in gone {
        assert Came(more, Dropped(|past.lost|, q, k), key);
      } else {
        assert Waits(boxes', q, k, key);
      }
    } else {
      var place :| Came(past, place, key);
      assert Came(more, place, key);
    }
  }

  // ---- every step ----

  lemma DrawnFate(boxes: map<string, seq<Envelope>>, past: Past, q: string, h: Handed, g: Log)
    requires FateRight(boxes, past, g) && q in boxes && boxes[q] != [] && h.env == boxes[q][0] && ReaderRight(h, g)
    ensures FateRight(Popped(boxes, q), past.Reading(h), g)
  {
    hide Somewhere, ReaderRight, BoxesRight, Popped;
    forall k | 0 <= k < |g.commands| && g.commands[k].target.QueueOf?
      ensures Somewhere(Popped(boxes, q), past.Reading(h), Key(g.commands[k].cid, true))
    {
      PoppedKeeps(boxes, past, q, h, Key(g.commands[k].cid, true));
    }
  }

  lemma ReshapedFate(boxes: map<string, seq<Envelope>>, gone: set<string>, boxes': map<string, seq<Envelope>>,
                     past: Past, g: Log)
    requires FateRight(boxes, past, g) && Reshaped(boxes, gone, boxes') && BoxesRight(boxes, g)
    ensures FateRight(boxes', past.Dropping(Within(boxes, gone)), g)
  {
    hide Somewhere, ReaderRight, Reshaped, MessageRight;
    assert BoxesRight(Within(boxes, gone), g);
    hide BoxesRight, Within;
    forall k | 0 <= k < |g.commands| && g.commands[k].target.QueueOf?
      ensures Somewhere(boxes', past.Dropping(Within(boxes, gone)), Key(g.commands[k].cid, true))
    {
      ReshapedKeeps(boxes, gone, boxes', past, Key(g.commands[k].cid, true));
    }
  }

  /** The log grows by no command, and a reply may be posted. */
  lemma RepliedFate(boxes: map<string, seq<Envelope>>, past: Past, posted: Option<Posted>, g: Log, g': Log)
    requires FateRight(boxes, past, g) && Grows(g, g') && g'.commands == g.commands
    requires posted.Some? ==> posted.value.queue in boxes
    ensures FateRight(WithReply(boxes, posted), past, g')
  {
    hide Somewhere, PastRight, Grows, WithReply;
    PastGrows(past, g, g');
    forall k | 0 <= k < |g'.commands| && g'.commands[k].target.QueueOf?
      ensures Somewhere(WithReply(boxes, posted), past, Key(g'.commands[k].cid, true))
    {
      PushedKeeps(boxes, past, posted, Key(g.commands[k].cid, true));
    }
  }

  lemma PublishFate(nodes: set<Name>, s: System, n: Name, p: Purpose, cid: string, q: string)
    requires Right(nodes, s) && Enabled(s, Publish(n, p, cid, q)) && FateRight(s.boxes, PastOf(s), s.log)
    ensures var s' := Step(s, Publish(n, p, cid, q)); FateRight(s'.boxes, PastOf(s'), s'.log)
  {
    hide Right, Somewhere, PastRight, MayCall, EnvelopeOf, Fresh;
    var s' := Step(s, Publish(n, p, cid, q));
    FreshQueue(nodes, s, cid, q);
    PastGrows(PastOf(s), s.log, s'.log);
    assert PastOf(s') == PastOf(s) && s'.boxes == s.boxes[q := []];
    forall k | 0 <= k < |s.log.commands| && s.log.commands[k].target.QueueOf?
      ensures Somewhere(s'.boxes, PastOf(s'), Key(s.log.commands[k].cid, true))
    {
      AppearedKeeps(s.boxes, PastOf(s), q, Key(s.log.commands[k].cid, true));
    }
  }

  lemma SendFate(nodes: set<Name>, s: System, c: Command)
    requires Right(nodes, s) && Enabled(s, Send(c)) && FateRight(s.boxes, PastOf(s), s.log)
    ensures var s' := Step(s, Send(c)); FateRight(s'.boxes, PastOf(s'), s'.log)
  {
    hide Right, Somewhere, PastRight, CommandEnvelope, EnvelopeOf, Fresh, Pushed, Grows, FateRight, WithReply;
    var s', boxes := Step(s, Send(c)), s.boxes[c.replyTo := []];
    var posted := if c.target.QueueOf? then Some(Posted(c.target.id, CommandEnvelope(c))) else None;
    FreshQueue(nodes, s, c.cid, c.replyTo);
    assert s'.log == Sent(s.log, c) && PastOf(s') == PastOf(s);
    assert Grows(s.log, s'.log) by { SentGrows(s.log, c); }
    assert s'.boxes == WithReply(boxes, posted) by { PostedIs(boxes, posted); }
    SentFate(s.boxes, PastOf(s), c, s.log, posted);
  }

  lemma SentGrows(g: Log, c: Command)
    ensures Grows(g, Sent(g, c)) && Sent(g, c).commands == g.commands + [c]
  {
  }

  lemma PostedIs(boxes: map<string, seq<Envelope>>, posted: Option<Posted>)
    requires posted.Some? ==> posted.value.queue in boxes
    ensures WithReply(boxes, posted) == if posted.Some? then Pushed(boxes, posted.value.queue,
            posted.value.env) else boxes
  {
  }

  lemma SentFate(boxes: map<string, seq<Envelope>>, past: Past, c: Command, g: Log, posted: Option<Posted>)
    requires FateRight(boxes, past, g) && c.replyTo !in boxes
    requires posted == if c.target.QueueOf? then Some(Posted(c.target.id, CommandEnvelope(c))) else None
    requires c.target.QueueOf? ==> c.target.id in boxes
    ensures FateRight(WithReply(boxes[c.replyTo := []], posted), past, Sent(g, c))
  {
    hide Somewhere, PastRight, CommandEnvelope, Grows, WithReply, Sent;
    var more, h := WithReply(boxes[c.replyTo := []], posted), Sent(g, c);
    SentGrows(g, c);
    PastGrows(past, g, h);
    forall k | 0 <= k < |h.commands| && h.commands[k].target.QueueOf?
      ensures Somewhere(more, past, Key(h.commands[k].cid, true))
    {
      if k < |g.commands| {
        AppearedKeeps(boxes, past, c.replyTo, Key(g.commands[k].cid, true));
        PushedKeeps(boxes[c.replyTo := []], past, posted, Key(g.commands[k].cid, true));
      } else {
        SentSomewhere(boxes[c.replyTo := []], past, c);
      }
    }
  }

  lemma SentSomewhere(boxes: map<string, seq<Envelope>>, past: Past, c: Command)
    requires c.target.QueueOf? && c.target.id in boxes
    ensures Somewhere(WithReply(boxes, Some(Posted(c.target.id, CommandEnvelope(c)))), past, Key(c.cid, true))
  {
    var more := WithReply(boxes, Some(Posted(c.target.id, CommandEnvelope(c))));
    assert Waits(more, c.target.id, |boxes[c.target.id]|, Key(c.cid, true));
  }

  lemma WatchFate(nodes: set<Name>, s: System, n: Name, q: string, handled: Option<string>, posts: bool)
    requires Right(nodes, s) && Enabled(s, Watch(n, q, handled, posts)) && FateRight(s.boxes, PastOf(s), s.log)
    ensures var s' := Step(s, Watch(n, q, handled, posts)); FateRight(s'.boxes, PastOf(s'), s'.log)
  {
    hide Right, FateRight, Popped, WithReply, Served, CommandReply, Grows, ReaderRight;
    var env, s' := s.boxes[q][0], Step(s, Watch(n, q, handled, posts));
    var h := Handed(env, q, ByWatch(n));
    var posted := Delivered(Popped(s.boxes, q), CommandReply(env, handled), posts);
    HeadRight(nodes, s, q);
    GrowsAlways(s, Watch(n, q, handled, posts));
    PastFate(s.boxes, PastOf(s), s.log, s'.log);
    assert ReaderRight(h, s'.log) by { WatchReader(h, s.log, s'.log, handled, posted); }
    DrawnFate(s.boxes, PastOf(s), q, h, s'.log);
    RepliedFate(Popped(s.boxes, q), PastOf(s).Reading(h), posted, s'.log, s'.log) by { GrowsSelf(s'.log); }
  }

  lemma GrowsSelf(g: Log)
    ensures Grows(g, g)
  {
  }

  lemma PastFate(boxes: map<string, seq<Envelope>>, past: Past, g: Log, g': Log)
    requires FateRight(boxes, past, g) && Grows(g, g') && g'.commands == g.commands
    ensures FateRight(boxes, past, g')
  {
    RepliedFate(boxes, past, None, g, g');
  }

  lemma HeadRight(nodes: set<Name>, s: System, q: string)
    requires Right(nodes, s) && Holding(s, q)
    ensures MessageRight(s.boxes[q][0], q, s.log)
  {
    hide LogRight, MessageRight, PeersRight, RecordsRight, WaitsRight, QueueRight, ListsRight;
  }

  lemma WatchReader(h: Handed, g: Log, g': Log, handled: Option<string>, posted: Option<Posted>)
    requires h.reader.ByWatch? && MessageRight(h.env, h.queue, g) && Grows(g, g')
    requires Served(h.env) ==> g'.services == g.services + [Service(h.reader.who, h.queue, h.env, handled, posted)]
    ensures ReaderRight(h, g')
  {
    hide MessageRight, Served;
    MessageGrows(h.env, h.queue, g, g');
    if Served(h.env) {
      assert g'.services[|g.services|].env == h.env;
    }
  }

  lemma StepFate(nodes: set<Name>, s: System, a: Action)
    requires Right(nodes, s) && Enabled(s, a) && FateRight(s.boxes, PastOf(s), s.log)
    ensures var s' := Step(s, a); FateRight(s'.boxes, PastOf(s'), s'.log)
  {
    hide Right, FateRight, Pushed, Popped, EnvelopeOf, Outcome, QueuesGone, ConsumersAfter, Undecided, Sources,
         MayCall, Lived, AfterWatch,
         AfterSend, AfterPublish, AllDiscarded, ReaderRight, Apply, EffectFor, ReplyTo, WithReply;
    match a
    case Publish(n, p, cid, q) => PublishFate(nodes, s, n, p, cid, q);
    case Consume(_) =>
    case Draw(_, q) =>
      HeadRight(nodes, s, q);
      PlainReader(Step(s, a).delivered[|s.delivered|], s.log);
      DrawnFate(s.boxes, PastOf(s), q, Step(s, a).delivered[|s.delivered|], s.log);
    case Break(_, _) =>
    case Finish(n, after) => LiveFate(nodes, s, n, Outcome(s.peers[n].call.value, after), Step(s, a));
    case Alone(n, e) => LiveFate(nodes, s, n, e, Step(s, a));
    case Watch(n, q, handled, posts) => WatchFate(nodes, s, n, q, handled, posts);
    case Serve(posts) =>
      GrowsAlways(s, a);
      RepliedFate(s.boxes, PastOf(s), Delivered(s.boxes, ReplyTo(s.enrolQueue[0]), posts), s.log, Step(s, a).log);
    case Send(c) => SendFate(nodes, s, c);
    case Receive(k) =>
      HeadRight(nodes, s, s.log.commands[k].replyTo);
      PlainReader(Step(s, a).delivered[|s.delivered|], s.log);
      DrawnFate(s.boxes, PastOf(s), s.log.commands[k].replyTo, Step(s, a).delivered[|s.delivered|], s.log);
    case Lose(_, _) =>
    case HangUp(k) =>
      BoxesOf(nodes, s);
      ReshapedFate(s.boxes, {s.log.commands[k].replyTo}, Step(s, a).boxes, PastOf(s), s.log);
  }

  lemma PlainReader(h: Handed, g: Log)
    requires MessageRight(h.env, h.queue, g) && !h.reader.ByWatch?
    requires h.reader.BySender? ==> h.reader.k < |g.commands| && h.queue == g.commands[h.reader.k].replyTo
    ensures ReaderRight(h, g)
  {
  }

  lemma BoxesOf(nodes: set<Name>, s: System)
    requires Right(nodes, s)
    ensures BoxesRight(s.boxes, s.log)
  {
  }

  lemma LiveFate(nodes: set<Name>, s: System, n: Name, e: Lifecycle.Event, s': System)
    requires Right(nodes, s) && FateRight(s.boxes, PastOf(s), s.log) && n in s.peers && s'.log == s.log &&
             s'.delivered == s.delivered
    requires var gone := QueuesGone(s, n, s.peers[n], e);
             s'.boxes == (s.boxes - gone) + QueuesNew(s, n, e) && s'.lost == s.lost + [Within(s.boxes, gone)]
    ensures FateRight(s'.boxes, PastOf(s'), s'.log)
  {
    hide Right, FateRight, QueuesGone, Within, BoxesRight;
    BoxesOf(nodes, s);
    ReshapedFate(s.boxes, QueuesGone(s, n, s.peers[n], e), s'.boxes, PastOf(s), s.log);
  }

  lemma StartFate(nodes: set<Name>)
    ensures FateRight(Start(nodes).boxes, PastOf(Start(nodes)), Start(nodes).log)
  {
  }

  lemma {:induction false} RunFate(nodes: set<Name>, actions: seq<Action>)
    ensures Exec(nodes, actions).Some? ==>
              var s := Exec(nodes, actions).value; FateRight(s.boxes, PastOf(s), s.log)
    decreases |actions|
  {
    hide Right, Enabled, Step, FateRight;
    if actions == [] {
      StartFate(nodes);
    } else {
      RunFate(nodes, actions[..|actions| - 1]);
      RunRight(nodes, actions[..|actions| - 1]);
      if Exec(nodes, actions).Some? {
        StepFate(nodes, Exec(nodes, actions[..|actions| - 1]).value, actions[|actions| - 1]);
      }
    }
  }

  // ---- result ----

  /** The k-th command waits in the queue it was sent to. */
  ghost predicate Waiting(s: System, k: nat)
  {
    k < |s.log.commands| && s.log.commands[k].target.QueueOf? &&
    exists idx: nat :: WaitsAs(s.boxes, s.log.commands[k], idx)
  }

  predicate WaitsAs(boxes: map<string, seq<Envelope>>, c: Command, idx: nat)
    requires c.target.QueueOf?
  {
    c.target.id in boxes && idx < |boxes[c.target.id]| && boxes[c.target.id][idx] == CommandEnvelope(c)
  }

  /** It went away with that queue. */
  ghost predicate GoneWithQueue(s: System, k: nat)
  {
    k < |s.log.commands| && s.log.commands[k].target.QueueOf? &&
    exists r: nat, idx: nat :: r < |s.lost| && WaitsAs(s.lost[r], s.log.commands[k], idx)
  }

  /** A call of some node drew it, and discarded it. */
  ghost predicate DrawnByCall(s: System, k: nat)
  {
    k < |s.log.commands| && exists i: nat :: CallDrew(s, s.log.commands[k], i)
  }

  predicate CallDrew(s: System, c: Command, i: nat)
  {
    i < |s.delivered| && s.delivered[i].reader.ByCall? && s.delivered[i].env == CommandEnvelope(c)
  }

  ghost predicate ServedByNode(s: System, k: nat)
  {
    exists i: nat :: IsService(s.log, i, k)
  }

  /** What carries a command's id and asks is that command, in the queue it was sent to. */
  lemma CommandByKey(nodes: set<Name>, g: Log, env: Envelope, q: string, k: nat)
    requires LogRight(g, nodes) && MessageRight(env, q, g) && k < |g.commands| &&
             Carries(env, Key(g.commands[k].cid, true))
    ensures g.commands[k].target == QueueOf(q) && env == CommandEnvelope(g.commands[k])
  {
    hide LogRight, EntryAnswer, CommandEnvelope;
    if i: nat :| IsReply(env, q, i, g) {
      LogReplies(g, nodes);
    } else if k': nat :| IsCommand(env, q, k', g) {
      CommandCid(g.commands[k']);
      CommandsApart(nodes, g, k, k');
    } else {
      var i: nat :| IsResponse(env, q, i, g);
      var k' := ServiceOf(nodes, g, i);
    }
  }

  /** Where a message of a command's key waits or was, the command waits, went, or was drawn. */
  lemma Located(nodes: set<Name>, s: System, k: nat)
    requires Right(nodes, s) && FateRight(s.boxes, PastOf(s), s.log)
    requires k < |s.log.commands| && s.log.commands[k].target.QueueOf?
    ensures Waiting(s, k) || GoneWithQueue(s, k) || DrawnByCall(s, k) || ServedByNode(s, k)
  {
    hide LogRight, PeersRight, RecordsRight, WaitsRight, QueueRight, ListsRight, ReaderRight, CommandEnvelope,
         MessageRight, Carries, IsService;
    var c, key, g := s.log.commands[k], Key(s.log.commands[k].cid, true), s.log;
    assert Somewhere(s.boxes, PastOf(s), key);
    if q, i: nat :| Waits(s.boxes, q, i, key) {
      CommandByKey(nodes, g, s.boxes[q][i], q, k);
      assert WaitsAs(s.boxes, c, i);
    } else {
      var place :| Came(PastOf(s), place, key);
      match place
      case Read(i) => ReadBy(nodes, s, k, i);
      case Dropped(r, q, i) =>
        CommandByKey(nodes, g, s.lost[r][q][i], q, k);
        assert WaitsAs(s.lost[r], c, i);
    }
  }

  lemma ReadBy(nodes: set<Name>, s: System, k: nat, i: nat)
    requires Right(nodes, s) && PastRight(PastOf(s), s.log)
    requires k < |s.log.commands| && s.log.commands[k].target.QueueOf?
    requires i < |s.delivered| && Carries(s.delivered[i].env, Key(s.log.commands[k].cid, true))
    ensures DrawnByCall(s, k) || ServedByNode(s, k)
  {
    hide LogRight, BoxesRight, PeersRight, RecordsRight, WaitsRight, QueueRight, ListsRight, CommandEnvelope,
         MessageRight, Carries, Served,
         IsService, Ids;
    var h, c, g := s.delivered[i], s.log.commands[k], s.log;
    assert ReaderRight(h, g);
    CommandByKey(nodes, g, h.env, h.queue, k);
    match h.reader {
      case ByCall(_, _) => assert CallDrew(s, c, i);
      case ByWatch(_) =>
        CommandServed(nodes, g, k);
        var j: nat :| j < |g.services| && g.services[j].env == h.env;
        ServiceByEnv(nodes, g, j, k);
      case BySender(k', _) =>
        CommandIssued(nodes, g, k);
        CommandIssued(nodes, g, k');
    }
  }

  lemma CommandServed(nodes: set<Name>, g: Log, k: nat)
    requires LogRight(g, nodes) && k < |g.commands|
    ensures Served(CommandEnvelope(g.commands[k]))
  {
    hide LogRight, IsJson;
    CommandIssued(nodes, g, k);
    SendingServed(g.commands[k].text, g.commands[k].replyTo, g.commands[k].cid, "");
  }

  lemma ServiceByEnv(nodes: set<Name>, g: Log, j: nat, k: nat)
    requires LogRight(g, nodes) && j < |g.services| && k < |g.commands| &&
             g.services[j].env == CommandEnvelope(g.commands[k])
    ensures IsService(g, j, k)
  {
    hide LogRight, CommandEnvelope, CommandAnswer, Reply;
    var k' := ServiceOf(nodes, g, j);
    CommandCid(g.commands[k]);
    CommandCid(g.commands[k']);
    CommandsApart(nodes, g, k, k');
  }

  /** The place of each fate, under the command's key. */
  lemma FatePlaces(s: System, k: nat)
    requires k < |s.log.commands| && s.log.commands[k].target.QueueOf? && ServedRight(PastOf(s), s.log)
    ensures var key := Key(s.log.commands[k].cid, true);
            && (Waiting(s, k) ==> exists q, i :: Waits(s.boxes, q, i, key))
            && (GoneWithQueue(s, k) ==> exists r, q, i :: Came(PastOf(s), Dropped(r, q, i), key))
            && (DrawnByCall(s, k) ==>
                  exists i: nat ::
                    i < |s.delivered| && s.delivered[i].reader.ByCall? && Came(PastOf(s), Read(i), key))
            && (ServedByNode(s, k) ==>
                  exists i: nat ::
                    i < |s.delivered| && s.delivered[i].reader.ByWatch? && Came(PastOf(s), Read(i), key))
  {
    hide CommandEnvelope, IsService;
    var c, key := s.log.commands[k], Key(s.log.commands[k].cid, true);
    CommandCid(c);
    if Waiting(s, k) {
      var i: nat :| WaitsAs(s.boxes, c, i);
      assert Waits(s.boxes, c.target.id, i, key);
    }
    if GoneWithQueue(s, k) {
      var r: nat, i: nat :| r < |s.lost| && WaitsAs(s.lost[r], c, i);
      assert Came(PastOf(s), Dropped(r, c.target.id, i), key);
    }
    if DrawnByCall(s, k) {
      var i: nat :| CallDrew(s, c, i);
      assert Came(PastOf(s), Read(i), key);
    }
    if ServedByNode(s, k) {
      var j: nat :| IsService(s.log, j, k);
      ServiceEnv(s.log, j, k);
      var i :| WatchedAt(PastOf(s), i, s.log.services[j].env);
      assert Came(PastOf(s), Read(i), key);
    }
  }

  lemma ServiceEnv(g: Log, j: nat, k: nat)
    requires IsService(g, j, k)
    ensures j < |g.services| && k < |g.commands| && g.services[j].env == CommandEnvelope(g.commands[k])
  {
  }

  /** In every reachable state a command to a node's queue is in exactly one of four places: it still
      waits there, it was discarded by a call's wait, it was served by the node, or it went away with
      the queue. */
  lemma CommandFate(nodes: set<Name>, actions: seq<Action>, k: nat)
    requires Reachable(nodes, actions)
    requires k < |Final(nodes, actions).log.commands|
    ensures var s := Final(nodes, actions);
            s.log.commands[k].target.QueueOf? ==>
              && (Waiting(s, k) || GoneWithQueue(s, k) || DrawnByCall(s, k) || ServedByNode(s, k))
              && !(Waiting(s, k) && (GoneWithQueue(s, k) || DrawnByCall(s, k) || ServedByNode(s, k)))
              && !(GoneWithQueue(s, k) && (DrawnByCall(s, k) || ServedByNode(s, k)))
              && !(DrawnByCall(s, k) && ServedByNode(s, k))
  {
    hide Exec, Right, FateRight, SeenRight, ServedRight, Waits, Came, Waiting, GoneWithQueue, DrawnByCall, ServedByNode;
    RunRight(nodes, actions);
    RunOnce(nodes, actions);
    RunFate(nodes, actions);
    var s := Final(nodes, actions);
    if s.log.commands[k].target.QueueOf? {
      Located(nodes, s, k);
      FatePlaces(s, k);
    }
  }
}
