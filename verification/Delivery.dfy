/** No message is delivered twice: over every run, at most one question and at most one answer carry
    a correlation id, waiting in one place or already delivered. */
module Delivery {
  import opened Common
  import opened RpcWait
  import opened Messages
  import opened Arbiter
  import opened Protocol
  import opened Invariant
  import opened Registry
  import opened Theorems
  import Lifecycle

  /** A correlation id, and whether the message asks for a reply. */
  datatype Key = Key(cid: string, asks: bool)

  predicate Carries(env: Envelope, key: Key)
  {
    env.cid == Some(key.cid) && env.replyTo.Some? == key.asks
  }

  /** The k-th message waiting in queue q is of this key. */
  predicate Waits(boxes: map<string, seq<Envelope>>, q: string, k: nat, key: Key)
  {
    q in boxes && k < |boxes[q]| && Carries(boxes[q][k], key)
  }

  /** What became of messages that wait no more: delivered, or lost with their queue. */
  datatype Past = Past(delivered: seq<Handed>, lost: seq<map<string, seq<Envelope>>>) {
    function Reading(h: Handed): Past {
      this.(delivered := delivered + [h])
    }

    function Dropping(boxes: map<string, seq<Envelope>>): Past {
      this.(lost := lost + [boxes])
    }
  }

  function PastOf(s: System): Past
  {
    Past(s.delivered, s.lost)
  }

  /** The i-th message delivered, or the k-th in queue q when that was lost. */
  datatype Place = Read(i: nat) | Dropped(r: nat, q: string, k: nat)

  /** The message at this place was of this key. */
  predicate Came(past: Past, place: Place, key: Key)
  {
    match place
    case Read(i) => i < |past.delivered| && Carries(past.delivered[i].env, key)
    case Dropped(r, q, k) => r < |past.lost| && Waits(past.lost[r], q, k, key)
  }

  ghost predicate Somewhere(boxes: map<string, seq<Envelope>>, past: Past, key: Key)
  {
    (exists q, k :: Waits(boxes, q, k, key)) || (exists i :: Came(past, i, key))
  }

  ghost predicate Once(boxes: map<string, seq<Envelope>>, past: Past)
  {
    && (forall key, q, k, q', k' | Waits(boxes, q, k, key) && Waits(boxes, q', k', key) :: q == q' && k == k')
    && (forall key, i, i' | Came(past, i, key) && Came(past, i', key) :: i == i')
    && (forall key, q, k, i | Waits(boxes, q, k, key) && Came(past, i, key) :: false)
  }

  ghost predicate Unseen(boxes: map<string, seq<Envelope>>, past: Past, cid: string)
  {
    !Somewhere(boxes, past, Key(cid, true)) && !Somewhere(boxes, past, Key(cid, false))
  }

  /** Ids seen anywhere were issued; the id of a text on the enrol queue is seen only once the text is
      taken; and nothing answers a question that still waits. */
  ghost predicate SeenRight(boxes: map<string, seq<Envelope>>, past: Past, g: Log)
  {
    && (forall key | Somewhere(boxes, past, key) :: key.cid in g.cids)
    && (forall i | |g.replies| <= i < |g.published| :: Unseen(boxes, past, g.published[i].cid))
    && (forall q, k, cid | Waits(boxes, q, k, Key(cid, true)) :: !Somewhere(boxes, past, Key(cid, false)))
  }

  /** The i-th message delivered is this one, drawn by a node's watch. */
  predicate WatchedAt(past: Past, i: nat, env: Envelope)
  {
    i < |past.delivered| && past.delivered[i].env == env && past.delivered[i].reader.ByWatch?
  }

  ghost predicate WasAsked(past: Past, env: Envelope)
  {
    env.cid.Some? && env.replyTo.Some? && exists i :: WatchedAt(past, i, env)
  }

  /** Messages served by nodes were delivered to their watches, and have different ids. */
  ghost predicate ServedRight(past: Past, g: Log)
  {
    && (forall i | 0 <= i < |g.services| ::
          WasAsked(past, g.services[i].env))
    && (forall i, j | 0 <= i < j < |g.services| :: g.services[i].env.cid != g.services[j].env.cid)
  }

  ghost predicate AllOnce(boxes: map<string, seq<Envelope>>, past: Past, g: Log)
  {
    Once(boxes, past) && SeenRight(boxes, past, g) && ServedRight(past, g)
  }

  // ---- how queues change ----

  lemma PushedOnce(boxes: map<string, seq<Envelope>>, past: Past, q: string, env: Envelope, key: Key)
    requires Once(boxes, past) && q in boxes
    requires Carries(env, key) && !Somewhere(boxes, past, key)
    ensures Once(Pushed(boxes, q, env), past)
    ensures forall key' | Somewhere(Pushed(boxes, q, env), past, key') :: Somewhere(boxes, past, key') || key' == key
    ensures forall q', k, key' | Waits(Pushed(boxes, q, env), q', k, key') :: Waits(boxes, q', k, key') || key' == key
  {
    var more := Pushed(boxes, q, env);
    forall key', q', k: nat | Waits(more, q', k, key')
      ensures Waits(boxes, q', k, key') || (q' == q && k == |boxes[q]| && key' == key)
    {
    }
  }

  lemma PoppedOnce(boxes: map<string, seq<Envelope>>, past: Past, q: string, h: Handed)
    requires Once(boxes, past) && q in boxes && boxes[q] != [] && h.env == boxes[q][0]
    ensures Once(Popped(boxes, q), past.Reading(h))
    ensures forall key | Somewhere(Popped(boxes, q), past.Reading(h), key) :: Somewhere(boxes, past, key)
    ensures forall q', k, key | Waits(Popped(boxes, q), q', k, key) ::
              Somewhere(boxes, past, key) && !Carries(h.env, key) && exists k' :: Waits(boxes, q', k', key)
  {
    var fewer, more := Popped(boxes, q), past.Reading(h);
    forall key, q', k: nat | Waits(fewer, q', k, key)
      ensures Waits(boxes, q', if q' == q then k + 1 else k, key) && !Carries(h.env, key)
    {
      assert Waits(boxes, q', if q' == q then k + 1 else k, key);
      if Carries(h.env, key) { FirstWaits(boxes, q, key); }
    }
    forall key, place | Came(more, place, key)
      ensures Came(past, place, key) || (place == Read(|past.delivered|) && Waits(boxes, q, 0, key))
    {
    }
  }

  /** Queues that appear are empty. */
  lemma AppearedOnce(boxes: map<string, seq<Envelope>>, q: string, past: Past)
    requires Once(boxes, past) && q !in boxes
    ensures Once(boxes[q := []], past)
    ensures forall key | Somewhere(boxes[q := []], past, key) :: Somewhere(boxes, past, key)
    ensures forall q', k, key | Waits(boxes[q := []], q', k, key) :: Waits(boxes, q', k, key)
  {
    hide Came, Carries;
    var more := boxes[q := []];
    forall key, q', k: nat | Waits(more, q', k, key)
      ensures Waits(boxes, q', k, key)
    {
    }
  }

  lemma AppearedSeen(boxes: map<string, seq<Envelope>>, q: string, past: Past, g: Log)
    requires Once(boxes, past) && SeenRight(boxes, past, g) && q !in boxes
    ensures SeenRight(boxes[q := []], past, g)
  {
    hide Somewhere, Once, Waits;
    AppearedOnce(boxes, q, past);
    var more := boxes[q := []];
    forall q', k, cid | Waits(more, q', k, Key(cid, true))
      ensures !Somewhere(more, past, Key(cid, false))
    {
      assert Waits(boxes, q', k, Key(cid, true));
    }
  }

  /** Queues may go away with what is in them, and others appear that are empty. */
  ghost predicate Reshaped(boxes: map<string, seq<Envelope>>, gone: set<string>, boxes': map<string, seq<Envelope>>)
  {
    && (forall q | q in boxes' :: boxes'[q] == [] || (q in boxes && q !in gone && boxes'[q] == boxes[q]))
    && (forall q | q in boxes && q !in gone :: q in boxes' && boxes'[q] == boxes[q])
  }

  lemma ReshapedOnce(boxes: map<string, seq<Envelope>>, gone: set<string>, boxes': map<string, seq<Envelope>>,
                     past: Past)
    requires Once(boxes, past) && Reshaped(boxes, gone, boxes')
    ensures Once(boxes', past.Dropping(Within(boxes, gone)))
    ensures forall key | Somewhere(boxes', past.Dropping(Within(boxes, gone)), key) :: Somewhere(boxes, past, key)
    ensures forall q, k, key | Waits(boxes', q, k, key) :: Waits(boxes, q, k, key)
  {
    var more := past.Dropping(Within(boxes, gone));
    forall key, q, k: nat | Waits(boxes', q, k, key)
      ensures Waits(boxes, q, k, key) && q !in gone
    {
    }
    forall key, place | Came(more, place, key)
      ensures Came(past, place, key) || (place.Dropped? && place.r == |past.lost| && place.q in gone &&
              Waits(boxes, place.q, place.k, key))
    {
    }
  }

  lemma ReshapedAllOnce(boxes: map<string, seq<Envelope>>, gone: set<string>, boxes': map<string, seq<Envelope>>,
                        past: Past, g: Log)
    requires AllOnce(boxes, past, g) && Reshaped(boxes, gone, boxes')
    ensures AllOnce(boxes', past.Dropping(Within(boxes, gone)), g)
  {
    hide Somewhere, Waits, Came, Once, Reshaped, Within, WasAsked;
    ReshapedOnce(boxes, gone, boxes', past);
    forall i | 0 <= i < |g.services|
      ensures WasAsked(past.Dropping(Within(boxes, gone)), g.services[i].env)
    {
      AskedDropping(past, Within(boxes, gone), g.services[i].env);
    }
  }

  lemma AskedDropping(past: Past, boxes: map<string, seq<Envelope>>, env: Envelope)
    requires WasAsked(past, env)
    ensures WasAsked(past.Dropping(boxes), env)
  {
    var i :| WatchedAt(past, i, env);
    assert WatchedAt(past.Dropping(boxes), i, env);
  }

  lemma DrawnOnce(boxes: map<string, seq<Envelope>>, past: Past, q: string, h: Handed, g: Log)
    requires AllOnce(boxes, past, g) && q in boxes && boxes[q] != [] && h.env == boxes[q][0]
    ensures AllOnce(Popped(boxes, q), past.Reading(h), g)
  {
    hide Somewhere, Once, SeenRight, ServedRight;
    PoppedOnce(boxes, past, q, h);
    SeenTaken(boxes, past, q, h, g);
    ServedStill(past, h, g);
  }

  lemma SeenTaken(boxes: map<string, seq<Envelope>>, past: Past, q: string, h: Handed, g: Log)
    requires Once(boxes, past) && SeenRight(boxes, past, g) && q in boxes && boxes[q] != [] && h.env == boxes[q][0]
    ensures SeenRight(Popped(boxes, q), past.Reading(h), g)
  {
    hide Somewhere, Once, Waits, Carries, Popped;
    PoppedOnce(boxes, past, q, h);
    forall q', k, cid | Waits(Popped(boxes, q), q', k, Key(cid, true))
      ensures !Somewhere(Popped(boxes, q), past.Reading(h), Key(cid, false))
    {
      var k' :| Waits(boxes, q', k', Key(cid, true));
    }
  }

  lemma ServedStill(past: Past, h: Handed, g: Log)
    requires ServedRight(past, g)
    ensures ServedRight(past.Reading(h), g)
  {
    hide WasAsked;
    forall i | 0 <= i < |g.services|
      ensures WasAsked(past.Reading(h), g.services[i].env)
    {
      AskedStill(past, h, g.services[i].env);
    }
  }

  lemma AskedStill(past: Past, h: Handed, env: Envelope)
    requires WasAsked(past, env)
    ensures WasAsked(past.Reading(h), env)
  {
    var i :| WatchedAt(past, i, env);
    assert WatchedAt(past.Reading(h), i, env);
  }

  /** An answer is put in a queue. */
  lemma AnswerOnce(boxes: map<string, seq<Envelope>>, past: Past, g: Log, posted: Option<Posted>, cid: string)
    requires Once(boxes, past) && SeenRight(boxes, past, g)
    requires posted.Some? ==> posted.value.queue in boxes && Carries(posted.value.env, Key(cid, false))
    requires !Somewhere(boxes, past, Key(cid, false)) && cid in g.cids
    requires forall q, k :: !Waits(boxes, q, k, Key(cid, true))
    requires forall i | |g.replies| <= i < |g.published| :: g.published[i].cid != cid
    ensures Once(WithReply(boxes, posted), past) && SeenRight(WithReply(boxes, posted), past, g)
  {
    hide Somewhere, Once, Waits, Carries;
    if posted.Some? {
      PushedOnce(boxes, past, posted.value.queue, posted.value.env, Key(cid, false));
    }
  }

  // ---- every step ----

  lemma ServeOnce(nodes: set<Name>, s: System, posts: bool)
    requires Right(nodes, s) && Enabled(s, Serve(posts)) && AllOnce(s.boxes, PastOf(s), s.log)
    ensures var s' := Step(s, Serve(posts)); AllOnce(s'.boxes, PastOf(s'), s'.log)
  {
    hide Right, Somewhere, Once, Waits, Carries, WasAsked, EffectFor, ReplyTo, ReplyFor, EnvelopeOf, WithReply,
         EntryEffect, Apply;
    HeadServed(nodes, s);
    var g, s' := s.log, Step(s, Serve(posts));
    var e := g.published[|g.replies|];
    var posted := Delivered(s.boxes, ReplyTo(s.enrolQueue[0]), posts);
    ReplyForKey(e);
    NothingWaits(s.boxes, PastOf(s), e.cid);
    NextTaken(nodes, s);
    assert SeenRight(s.boxes, PastOf(s), s'.log);
    AnswerOnce(s.boxes, PastOf(s), s'.log, posted, e.cid);
  }

  /** The ids of the texts still queued are all different. */
  lemma NextTaken(nodes: set<Name>, s: System)
    requires Right(nodes, s)
    ensures |s.log.replies| <= |s.log.published|
    ensures forall i, j | 0 <= i < j < |s.log.published| :: s.log.published[i].cid != s.log.published[j].cid
  {
    hide BoxesRight, PeersRight, RecordsRight, WaitsRight, QueueRight, ListsRight;
  }

  lemma ReplyForKey(e: Entry)
    ensures Carries(ReplyFor(e).env, Key(e.cid, false))
  {
  }

  lemma NothingWaits(boxes: map<string, seq<Envelope>>, past: Past, cid: string)
    requires Unseen(boxes, past, cid)
    ensures forall q, k :: !Waits(boxes, q, k, Key(cid, true))
  {
  }

  lemma WatchOnce(nodes: set<Name>, s: System, n: Name, q: string, handled: Option<string>, posts: bool)
    requires Right(nodes, s) && Enabled(s, Watch(n, q, handled, posts)) && AllOnce(s.boxes, PastOf(s), s.log)
    ensures var s' := Step(s, Watch(n, q, handled, posts)); AllOnce(s'.boxes, PastOf(s'), s'.log)
  {
    hide Right, AllOnce, Popped, WithReply, Served, CommandReply, LogRight, BoxesRight, PeerRight, ConsumerRight,
         MessageRight, Waits, Carries;
    var env, g := s.boxes[q][0], s.log;
    var h := Handed(env, q, ByWatch(n));
    DrawnOnce(s.boxes, PastOf(s), q, h, g);
    if Served(env) {
      var k := WatchedHere(nodes, s, n, q);
      ServiceOnce(nodes, s, n, q, handled, posts, k);
    } else {
      NotServed(env, handled);
      NoReply(Popped(s.boxes, q));
    }
  }

  lemma NoReply(boxes: map<string, seq<Envelope>>)
    ensures WithReply(boxes, None) == boxes
  {
  }

  lemma WatchedHere(nodes: set<Name>, s: System, n: Name, q: string) returns (k: nat)
    requires Right(nodes, s) && n in s.peers && q in s.peers[n].consumers && Holding(s, q) && Served(s.boxes[q][0])
    ensures k < |s.log.commands| && s.boxes[q][0] == CommandEnvelope(s.log.commands[k]) &&
            CommandRight(s.log.commands[k], s.log, nodes)
    ensures LogRight(s.log, nodes)
  {
    hide LogRight, PeerRight, MessageRight, Served, CommandEnvelope, CommandRight, ConsumerRight, WaitsRight,
         RecordsRight, ListsRight, QueueRight;
    RightPeer(nodes, s, n);
    ConsumerOf(n, s.peers[n], q, s.log);
    k := WatchedCommand(nodes, s.log, n, q, s.boxes[q][0]);
  }

  lemma ConsumerOf(n: Name, p: Peer, q: string, g: Log)
    requires PeerRight(n, p, g) && q in p.consumers
    ensures ConsumerRight(n, q, g)
  {
  }

  /** Serving a command: it had been neither served nor answered before. */
  lemma ServiceOnce(nodes: set<Name>, s: System, n: Name, q: string, handled: Option<string>, posts: bool, k: nat)
    requires LogRight(s.log, nodes) && Holding(s, q) && AllOnce(s.boxes, PastOf(s), s.log)
    requires k < |s.log.commands| && s.boxes[q][0] == CommandEnvelope(s.log.commands[k]) &&
             CommandRight(s.log.commands[k], s.log, nodes)
    ensures var env, boxes := s.boxes[q][0], Popped(s.boxes, q);
            var posted := Delivered(boxes, CommandReply(env, handled), posts);
            AllOnce(WithReply(boxes, posted), PastOf(s).Reading(Handed(env, q, ByWatch(n))),
                    s.log.(services := s.log.services + [Service(n, q, env, handled, posted)]))
  {
    hide LogRight, Somewhere, Once, Popped, WithReply, CommandAnswer, CommandReply, CommandEnvelope, CommandRight,
         SeenRight, ServedRight,
         Waits, Carries;
    var g, env, boxes, c := s.log, s.boxes[q][0], Popped(s.boxes, q), s.log.commands[k];
    var h, posted := Handed(env, q, ByWatch(n)), Delivered(boxes, CommandReply(env, handled), posts);
    CommandKeys(c, handled, g, nodes);
    FirstWaits(s.boxes, q, Key(c.cid, true));
    PoppedOnce(s.boxes, PastOf(s), q, h);
    SeenTaken(s.boxes, PastOf(s), q, h, g);
    NothingAnswered(s.boxes, PastOf(s), q, h, c.cid, g);
    AnswerOnce(boxes, PastOf(s).Reading(h), g, posted, c.cid);
    ServedMore(s.boxes, PastOf(s), q, h, g, Service(n, q, env, handled, posted), c.cid);
    SeenSame(WithReply(boxes, posted), PastOf(s).Reading(h), g,
      g.(services := g.services + [Service(n, q, env, handled, posted)]));
  }

  lemma FirstWaits(boxes: map<string, seq<Envelope>>, q: string, key: Key)
    requires q in boxes && boxes[q] != [] && Carries(boxes[q][0], key)
    ensures Waits(boxes, q, 0, key)
  {
  }

  lemma SeenSame(boxes: map<string, seq<Envelope>>, past: Past, g: Log, h: Log)
    requires SeenRight(boxes, past, g) && h.cids == g.cids && h.published == g.published && h.replies == g.replies
    ensures SeenRight(boxes, past, h)
  {
  }

  /** Once the question is drawn, neither it nor its answer is in any queue. */
  lemma NothingAnswered(boxes: map<string, seq<Envelope>>, past: Past, q: string, h: Handed, cid: string, g: Log)
    requires Once(boxes, past) && SeenRight(boxes, past, g)
    requires q in boxes && boxes[q] != [] && h.env == boxes[q][0] && Carries(h.env, Key(cid, true))
    ensures !Somewhere(Popped(boxes, q), past.Reading(h), Key(cid, false))
    ensures forall q', k :: !Waits(Popped(boxes, q), q', k, Key(cid, true))
    ensures forall i | |g.replies| <= i < |g.published| :: g.published[i].cid != cid
  {
    hide Somewhere, Once, Carries, Popped;
    assert Waits(boxes, q, 0, Key(cid, true)) by { FirstWaits(boxes, q, Key(cid, true)); }
    hide Waits;
    PoppedOnce(boxes, past, q, h);
    WaitingNotQueued(boxes, past, g, q, cid);
  }

  lemma ServedMore(boxes: map<string, seq<Envelope>>, past: Past, q: string, h: Handed, g: Log, a: Service, cid: string)
    requires Once(boxes, past) && ServedRight(past, g)
    requires q in boxes && boxes[q] != [] && h.env == boxes[q][0] && Carries(h.env, Key(cid, true)) && a.env == h.env
    requires h.reader.ByWatch?
    ensures ServedRight(past.Reading(h), g.(services := g.services + [a]))
  {
    hide Once, WasAsked, Waits;
    FirstWaits(boxes, q, Key(cid, true));
    WaitingApart(boxes, past, q, Key(cid, true));
    ServedStill(past, h, g);
    assert WasAsked(past.Reading(h), a.env) by { LastAsked(past, h, cid); }
    forall i | 0 <= i < |g.services|
      ensures g.services[i].env.cid != Some(cid)
    {
      NotAsked(past, g.services[i].env, cid);
    }
  }

  lemma LastAsked(past: Past, h: Handed, cid: string)
    requires Carries(h.env, Key(cid, true)) && h.reader.ByWatch?
    ensures WasAsked(past.Reading(h), h.env)
  {
    assert WatchedAt(past.Reading(h), |past.delivered|, h.env);
  }

  lemma NotAsked(past: Past, env: Envelope, cid: string)
    requires WasAsked(past, env) && forall place :: !Came(past, place, Key(cid, true))
    ensures env.cid != Some(cid)
  {
    var i :| WatchedAt(past, i, env);
    assert env.cid == Some(cid) ==> Came(past, Read(i), Key(cid, true));
  }

  lemma CommandKeys(c: Command, handled: Option<string>, g: Log, nodes: set<Name>)
    requires CommandRight(c, g, nodes)
    ensures Carries(CommandEnvelope(c), Key(c.cid, true)) && CommandEnvelope(c).cid == Some(c.cid) && c.cid in g.cids
    ensures CommandReply(CommandEnvelope(c), handled).Some?
    ensures Carries(CommandReply(CommandEnvelope(c), handled).value.env, Key(c.cid, false))
  {
    hide CommandReply, CommandAnswer;
    ResponseTo(c, handled, g, nodes);
  }

  lemma WaitingApart(boxes: map<string, seq<Envelope>>, past: Past, q: string, key: Key)
    requires Once(boxes, past) && Waits(boxes, q, 0, key)
    ensures forall place :: !Came(past, place, key)
    ensures Somewhere(boxes, past, key)
  {
  }

  lemma WaitingNotQueued(boxes: map<string, seq<Envelope>>, past: Past, g: Log, q: string, cid: string)
    requires SeenRight(boxes, past, g) && Waits(boxes, q, 0, Key(cid, true))
    ensures forall i | |g.replies| <= i < |g.published| :: g.published[i].cid != cid
  {
    assert Somewhere(boxes, past, Key(cid, true));
  }

  lemma FreshUnseen(boxes: map<string, seq<Envelope>>, past: Past, g: Log, cid: string)
    requires SeenRight(boxes, past, g) && cid !in g.cids
    ensures Unseen(boxes, past, cid)
  {
  }

  lemma FreshQueue(nodes: set<Name>, s: System, cid: string, q: string)
    requires Right(nodes, s) && Fresh(s.log, cid, q)
    ensures q !in s.boxes
  {
  }

  lemma PublishOnce(nodes: set<Name>, s: System, n: Name, p: Purpose, cid: string, q: string)
    requires Right(nodes, s) && Enabled(s, Publish(n, p, cid, q)) && AllOnce(s.boxes, PastOf(s), s.log)
    ensures var s' := Step(s, Publish(n, p, cid, q)); AllOnce(s'.boxes, PastOf(s'), s'.log)
  {
    hide Right, Somewhere, Once, Waits, WasAsked, EnvelopeOf, MayCall;
    var s' := Step(s, Publish(n, p, cid, q));
    assert s'.boxes == s.boxes[q := []] && PastOf(s') == PastOf(s);
    FreshUnseen(s.boxes, PastOf(s), s.log, cid);
    FreshQueue(nodes, s, cid, q);
    AppearedOnce(s.boxes, q, PastOf(s));
    AppearedSeen(s.boxes, q, PastOf(s), s.log);
  }

  lemma SendOnce(nodes: set<Name>, s: System, c: Command)
    requires Right(nodes, s) && Enabled(s, Send(c)) && AllOnce(s.boxes, PastOf(s), s.log)
    ensures var s' := Step(s, Send(c)); AllOnce(s'.boxes, PastOf(s'), s'.log)
  {
    hide Somewhere, Once, Waits, WasAsked, Carries, EnvelopeOf, CommandEnvelope, Pushed, BoxesRight, PeersRight,
         RecordsRight, WaitsRight,
         ListsRight, QueueRight, CommandsRight, RepliesRight, ServicesRight;
    var boxes := s.boxes[c.replyTo := []];
    FreshUnseen(s.boxes, PastOf(s), s.log, c.cid);
    FreshQueue(nodes, s, c.cid, c.replyTo);
    AppearedOnce(s.boxes, c.replyTo, PastOf(s));
    AppearedSeen(s.boxes, c.replyTo, PastOf(s), s.log);
    assert PastOf(Step(s, Send(c))) == PastOf(s);
    if c.target.QueueOf? {
      SentKey(c);
      PushedOnce(boxes, PastOf(s), c.target.id, CommandEnvelope(c), Key(c.cid, true));
      forall i | |s.log.replies| <= i < |s.log.published|
        ensures s.log.published[i].cid != c.cid
      {
        assert EntryRight(s.log.published[i], s.log, nodes);
      }
    }
  }

  lemma SentKey(c: Command)
    ensures Carries(CommandEnvelope(c), Key(c.cid, true))
  {
  }

  lemma StepOnce(nodes: set<Name>, s: System, a: Action)
    requires Right(nodes, s) && Enabled(s, a) && AllOnce(s.boxes, PastOf(s), s.log)
    ensures var s' := Step(s, a); AllOnce(s'.boxes, PastOf(s'), s'.log)
  {
    hide Right, AllOnce, Pushed, Popped, EnvelopeOf, Outcome, QueuesGone, ConsumersAfter, Undecided, Sources,
         MayCall, Lived, AfterWatch,
         AfterServe, AfterSend, AfterPublish, AllDiscarded;
    match a
    case Publish(n, p, cid, q) => PublishOnce(nodes, s, n, p, cid, q);
    case Consume(_) =>
    case Draw(_, q) => DrawnOnce(s.boxes, PastOf(s), q, Step(s, a).delivered[|s.delivered|], s.log);
    case Break(_, _) =>
    case Finish(n, after) => LiveOnce(s, n, Outcome(s.peers[n].call.value, after), Step(s, a));
    case Alone(n, e) => LiveOnce(s, n, e, Step(s, a));
    case Watch(n, q, handled, posts) => WatchOnce(nodes, s, n, q, handled, posts);
    case Serve(posts) => ServeOnce(nodes, s, posts);
    case Send(c) => SendOnce(nodes, s, c);
    case Receive(k) => DrawnOnce(s.boxes, PastOf(s), s.log.commands[k].replyTo, Step(s, a).delivered[|s.delivered|],
      s.log);
    case Lose(_, _) =>
    case HangUp(k) => ReshapedAllOnce(s.boxes, {s.log.commands[k].replyTo}, Step(s, a).boxes, PastOf(s), s.log);
  }

  lemma LiveOnce(s: System, n: Name, e: Lifecycle.Event, s': System)
    requires AllOnce(s.boxes, PastOf(s), s.log) && n in s.peers && s'.log == s.log && s'.delivered == s.delivered
    requires var gone := QueuesGone(s, n, s.peers[n], e);
             s'.boxes == (s.boxes - gone) + QueuesNew(s, n, e) && s'.lost == s.lost + [Within(s.boxes, gone)]
    ensures AllOnce(s'.boxes, PastOf(s'), s'.log)
  {
    hide AllOnce, QueuesGone, Within;
    ReshapedAllOnce(s.boxes, QueuesGone(s, n, s.peers[n], e), s'.boxes, PastOf(s), s.log);
  }

  lemma StartOnce(nodes: set<Name>)
    ensures AllOnce(Start(nodes).boxes, PastOf(Start(nodes)), Start(nodes).log)
  {
  }

  lemma {:induction false} RunOnce(nodes: set<Name>, actions: seq<Action>)
    ensures Exec(nodes, actions).Some? ==>
              var s := Exec(nodes, actions).value; AllOnce(s.boxes, PastOf(s), s.log)
    decreases |actions|
  {
    hide Right, Enabled, Step, AllOnce;
    if actions == [] {
      StartOnce(nodes);
    } else {
      RunOnce(nodes, actions[..|actions| - 1]);
      RunRight(nodes, actions[..|actions| - 1]);
      if Exec(nodes, actions).Some? {
        StepOnce(nodes, Exec(nodes, actions[..|actions| - 1]).value, actions[|actions| - 1]);
      }
    }
  }

  // ---- results ----

  /** Both messages carry the same id, and both ask or both answer. */
  predicate SameKey(a: Envelope, b: Envelope)
  {
    a.cid.Some? && a.cid == b.cid && a.replyTo.Some? == b.replyTo.Some?
  }

  /** In every reachable state, of the questions and of the answers under one correlation id at most
      one was delivered, and then none of its kind waits anywhere: each request and each command is
      answered at most once. */
  lemma DeliveredOnce(nodes: set<Name>, actions: seq<Action>)
    requires Reachable(nodes, actions)
    ensures var s := Final(nodes, actions);
            && (forall i, j | 0 <= i < j < |s.delivered| :: !SameKey(s.delivered[i].env, s.delivered[j].env))
            && (forall i, q, k | 0 <= i < |s.delivered| && q in s.boxes && 0 <= k < |s.boxes[q]| ::
                 !SameKey(s.delivered[i].env, s.boxes[q][k]))
  {
    hide Exec, SeenRight, ServedRight;
    RunOnce(nodes, actions);
    var s := Final(nodes, actions);
    forall i, j | 0 <= i < j < |s.delivered|
      ensures !SameKey(s.delivered[i].env, s.delivered[j].env)
    {
      CameAt(PastOf(s), i);
      CameAt(PastOf(s), j);
    }
    forall i, q, k | 0 <= i < |s.delivered| && q in s.boxes && 0 <= k < |s.boxes[q]|
      ensures !SameKey(s.delivered[i].env, s.boxes[q][k])
    {
      CameAt(PastOf(s), i);
      WaitsAt(s.boxes, q, k);
    }
  }

  lemma CameAt(past: Past, i: nat)
    requires i < |past.delivered|
    ensures past.delivered[i].env.cid.Some? ==> Came(past, Read(i), KeyOf(past.delivered[i].env))
  {
  }

  lemma WaitsAt(boxes: map<string, seq<Envelope>>, q: string, k: nat)
    requires q in boxes && k < |boxes[q]|
    ensures boxes[q][k].cid.Some? ==> Waits(boxes, q, k, KeyOf(boxes[q][k]))
  {
  }

  function KeyOf(env: Envelope): Key
  {
    Key(if env.cid.Some? then env.cid.value else "", env.replyTo.Some?)
  }

  /** No command is served twice, by the same node or by two. */
  lemma ServedOnce(nodes: set<Name>, actions: seq<Action>, i: nat, j: nat, k: nat)
    requires Reachable(nodes, actions)
    requires IsService(Final(nodes, actions).log, i, k) && IsService(Final(nodes, actions).log, j, k)
    ensures i == j
  {
    hide Exec, SeenRight, Once, CommandEnvelope, Reply, CommandAnswer;
    RunOnce(nodes, actions);
  }
}
