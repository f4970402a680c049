/** What holds in every reachable state of the whole system. */
module Theorems {
  import opened Common
  import opened Json
  import opened Requests
  import opened RpcWait
  import opened Registry
  import opened Messages
  import opened Protocol
  import opened Invariant
  import Lifecycle

  predicate Reachable(nodes: set<Name>, actions: seq<Action>)
  {
    Exec(nodes, actions).Some?
  }

  function Final(nodes: set<Name>, actions: seq<Action>): System
    requires Exec(nodes, actions).Some?
  {
    Exec(nodes, actions).value
  }

  /** How many texts the arbiter has taken from the enrol queue. */
  function Taken(s: System): nat
  {
    |s.log.replies|
  }

  lemma RightTaken(nodes: set<Name>, s: System)
    requires Right(nodes, s)
    ensures Taken(s) <= |s.log.published|
  {
  }

  /** The i-th text the arbiter took has this effect. */
  predicate TookEffect(s: System, i: nat, e: Effect)
  {
    i < Taken(s) && i < |s.log.published| && EntryEffect(s.log.published[i]) == e
  }

  // ---- the registry ----

  predicate Listed(s: System, n: Name)
  {
    n.id in s.lists.Of(n.kind)
  }

  /** The i-th text the arbiter took enrols n, and no later one it took delists n. */
  predicate TakenAndKept(s: System, n: Name, i: nat)
  {
    TookEffect(s, i, Joined(n.kind, n.id)) && forall j | i < j < Taken(s) :: !TookEffect(s, j, Left(n.kind, n.id))
  }

  /** The j-th text the arbiter took delists n, and no later one it took enrols n. */
  predicate TakenAndGone(s: System, n: Name, j: nat)
  {
    TookEffect(s, j, Left(n.kind, n.id)) && forall k | j < k < Taken(s) :: !TookEffect(s, k, Joined(n.kind, n.id))
  }

  /** A name is in its list exactly when the arbiter has taken an enrolment of it and no later delist. */
  lemma ListedIff(nodes: set<Name>, actions: seq<Action>, n: Name)
    requires Reachable(nodes, actions)
    ensures var s := Final(nodes, actions);
            Listed(s, n) <==> exists i :: TakenAndKept(s, n, i)
  {
    hide Exec, Holds, LogRight, BoxesRight, PeersRight, RecordsRight, WaitsRight, QueueRight, After, EffectsOf,
         TakenAndKept;
    RunRight(nodes, actions);
    var s := Final(nodes, actions);
    MemberIff(EffectsOf(s.log.published[..Taken(s)]), n.kind, n.id);
    forall i: nat
      ensures Holds(EffectsOf(s.log.published[..Taken(s)]), n.kind, n.id, i) <==> TakenAndKept(s, n, i)
    {
      HoldsTaken(s, n, i);
    }
  }

  lemma HoldsTaken(s: System, n: Name, i: nat)
    requires Taken(s) <= |s.log.published|
    ensures Holds(EffectsOf(s.log.published[..Taken(s)]), n.kind, n.id, i) <==> TakenAndKept(s, n, i)
  {
    hide EffectsOf, TookEffect;
    var effects := EffectsOf(s.log.published[..Taken(s)]);
    assert |effects| == Taken(s);
    var joined, left := Joined(n.kind, n.id), Left(n.kind, n.id);
    EffectAt(s, i, joined);
    forall j: nat | j < Taken(s)
      ensures effects[j] == left <==> TookEffect(s, j, left)
    {
      EffectAt(s, j, left);
    }
  }

  lemma EffectAt(s: System, j: nat, e: Effect)
    requires Taken(s) <= |s.log.published|
    ensures TookEffect(s, j, e) <==> j < Taken(s) && EffectsOf(s.log.published[..Taken(s)])[j] == e
  {
    hide EntryEffect;
  }

  /** Of a plain node's own requests, exactly its enrolments and delists change its membership. */
  lemma OwnEffect(e: Entry, n: Name)
    requires By(e, n) && Plain(n.id)
    ensures EntryEffect(e) == Joined(n.kind, n.id) <==> Asks(e, n, Enroll)
    ensures EntryEffect(e) == Left(n.kind, n.id) <==> Asks(e, n, Delist)
  {
    hide Dispatch, PrintRequest, Plain;
    RequestServed(e.op, n.kind, n.id);
  }

  /** Once n was enrolled, the last text that changes its membership either keeps it or removes it. */
  lemma {:induction false} LastChange(s: System, n: Name, i: nat, m: nat) returns (j: nat)
    requires i < m <= Taken(s) && TookEffect(s, i, Joined(n.kind, n.id))
    requires forall k | m <= k < Taken(s) ::
               !TookEffect(s, k, Joined(n.kind, n.id)) && !TookEffect(s, k, Left(n.kind, n.id))
    ensures i <= j && (TakenAndKept(s, n, j) || (i < j && TakenAndGone(s, n, j)))
  {
    hide EntryEffect;
    j := m - 1;
    if !TookEffect(s, j, Joined(n.kind, n.id)) && !TookEffect(s, j, Left(n.kind, n.id)) {
      j := LastChange(s, n, i, m - 1);
    }
  }

  /** A name the arbiter once enrolled is missing exactly when a delist of it was the last word. */
  lemma UnlistedIff(nodes: set<Name>, actions: seq<Action>, n: Name, i: nat)
    requires Reachable(nodes, actions) && TookEffect(Final(nodes, actions), i, Joined(n.kind, n.id))
    ensures var s := Final(nodes, actions);
            !Listed(s, n) <==> exists j :: TakenAndGone(s, n, j)
    ensures var s := Final(nodes, actions);
            !Listed(s, n) <==> exists j :: i < j && TakenAndGone(s, n, j)
  {
    hide Exec, EntryEffect;
    var s := Final(nodes, actions);
    ListedIff(nodes, actions, n);
    var j := LastChange(s, n, i, Taken(s));
  }

  /** The last word the arbiter took on n is a delist, and that is n's own last request or was sent
      by somebody else. */
  predicate GoneForAReason(s: System, n: Name, j: nat)
  {
    TakenAndGone(s, n, j) && (!By(s.log.published[j], n) || OwnLastDelist(s, n, j))
  }

  /** The j-th text is a delist by n, and n published nothing after it. */
  predicate OwnLastDelist(s: System, n: Name, j: nat)
  {
    j < |s.log.published| && Asks(s.log.published[j], n, Delist) && SilentAfter(n, j, s.log)
  }

  predicate OutsideNull(s: System, n: Name)
  {
    n in s.peers && s.peers[n].view.state != Null
  }

  /** A node outside Null is missing from its list exactly when the last word the arbiter took on it
      is a delist that is the node's own last request or was sent by somebody else. */
  lemma UnlistedExactly(nodes: set<Name>, actions: seq<Action>, n: Name)
    requires Reachable(nodes, actions) && n in nodes && Plain(n.id)
    ensures var s := Final(nodes, actions);
            OutsideNull(s, n) ==> (!Listed(s, n) <==> exists j :: GoneForAReason(s, n, j))
  {
    hide Exec, EntryEffect, Right, PeerRight, SilentAfter, TakenAndGone, OwnLastDelist;
    RunRight(nodes, actions);
    var s := Final(nodes, actions);
    RightTaken(nodes, s);
    if OutsideNull(s, n) {
      RightPeer(nodes, s, n);
      var i := OnceEnlisted(n, s.peers[n], s.log);
      OwnEffect(s.log.published[i], n);
      UnlistedIff(nodes, actions, n, i);
      forall j | i < j && TakenAndGone(s, n, j)
        ensures GoneForAReason(s, n, j)
      {
        EnlistedGone(n, s, i, j);
      }
    }
  }

  lemma EnlistedGone(n: Name, s: System, i: nat, j: nat)
    requires Enlisted(n, i, s.log) && i < j && TakenAndGone(s, n, j) && Plain(n.id)
    ensures GoneForAReason(s, n, j)
  {
    hide EntryEffect;
    if By(s.log.published[j], n) { OwnEffect(s.log.published[j], n); }
  }

  lemma OnceEnlisted(n: Name, p: Peer, g: Log) returns (i: nat)
    requires PeerRight(n, p, g) && p.view.state != Null
    ensures Enlisted(n, i, g)
  {
    i :| Enlisted(n, i, g);
  }

  /** Nobody but the node itself asked the arbiter to enrol or delist it. */
  predicate Undisturbed(s: System, n: Name)
  {
    forall j | 0 <= j < Taken(s) && j < |s.log.published| && !By(s.log.published[j], n) ::
      !TookEffect(s, j, Joined(n.kind, n.id)) && !TookEffect(s, j, Left(n.kind, n.id))
  }

  /** A node outside Null that nobody else meddled with is missing from its list exactly when its
      last request is a delist the arbiter has taken. */
  lemma UnlistedByItself(nodes: set<Name>, actions: seq<Action>, n: Name)
    requires Reachable(nodes, actions) && n in nodes && Plain(n.id)
    ensures var s := Final(nodes, actions);
            OutsideNull(s, n) && Undisturbed(s, n) ==>
              (!Listed(s, n) <==> exists j: nat :: j < Taken(s) && OwnLastDelist(s, n, j))
  {
    hide Exec, OwnLastDelist, Undisturbed, OutsideNull;
    UnlistedExactly(nodes, actions, n);
    var s := Final(nodes, actions);
    if Undisturbed(s, n) {
      forall j: nat | j < Taken(s) && OwnLastDelist(s, n, j)
        ensures GoneForAReason(s, n, j)
      {
        LastDelistGone(s, n, j);
      }
      forall j: nat | GoneForAReason(s, n, j)
        ensures j < Taken(s) && OwnLastDelist(s, n, j)
      {
        GoneUndisturbed(s, n, j);
      }
    }
  }

  lemma GoneUndisturbed(s: System, n: Name, j: nat)
    requires GoneForAReason(s, n, j) && Undisturbed(s, n)
    ensures j < Taken(s) && OwnLastDelist(s, n, j)
  {
  }

  lemma LastDelistGone(s: System, n: Name, j: nat)
    requires j < Taken(s) && OwnLastDelist(s, n, j) && Undisturbed(s, n) && Plain(n.id)
    ensures TakenAndGone(s, n, j)
  {
    hide EntryEffect;
    OwnEffect(s.log.published[j], n);
    forall k | j < k < Taken(s)
      ensures !TookEffect(s, k, Joined(n.kind, n.id))
    {
      assert k < |s.log.published| ==> !By(s.log.published[k], n);
    }
  }

  /** A delist of n that somebody else sent is the last word the arbiter took on n. */
  predicate GoneByOthers(s: System, n: Name, j: nat)
  {
    TakenAndGone(s, n, j) && !By(s.log.published[j], n)
  }

  predicate Believing(s: System, n: Name)
  {
    n in s.peers && Believes(s.peers[n])
  }

  /** A node that believes it is enrolled is in the arbiter's list of its kind, unless somebody else
      sent a delist of it that was the last word. */
  lemma BelieverIsListed(nodes: set<Name>, actions: seq<Action>, n: Name)
    requires Reachable(nodes, actions) && n in nodes && Plain(n.id)
    ensures var s := Final(nodes, actions);
            Believing(s, n) ==> (Listed(s, n) <==> !exists j :: GoneByOthers(s, n, j))
  {
    hide Exec, EntryEffect, Right, PeerRight, Believes;
    RunRight(nodes, actions);
    var s := Final(nodes, actions);
    if Believing(s, n) {
      RightPeer(nodes, s, n);
      var i := OnceStanding(n, s.peers[n], s.log);
      StandingUnlisted(nodes, actions, n, i);
    }
  }

  lemma OnceStanding(n: Name, p: Peer, g: Log) returns (i: nat)
    requires PeerRight(n, p, g) && Believes(p)
    ensures Standing(n, i, g)
  {
    i :| Standing(n, i, g);
  }

  lemma StandingUnlisted(nodes: set<Name>, actions: seq<Action>, n: Name, i: nat)
    requires Reachable(nodes, actions) && Standing(n, i, Final(nodes, actions).log) && Plain(n.id)
    ensures var s := Final(nodes, actions); Listed(s, n) <==> !exists j :: GoneByOthers(s, n, j)
    ensures var s := Final(nodes, actions); Listed(s, n) <==> !exists j :: i < j && GoneByOthers(s, n, j)
  {
    hide Exec, EntryEffect;
    var s := Final(nodes, actions);
    OwnEffect(s.log.published[i], n);
    assert TookEffect(s, i, Joined(n.kind, n.id));
    UnlistedIff(nodes, actions, n, i);
    forall j: nat | TakenAndGone(s, n, j)
      ensures i < j && GoneByOthers(s, n, j)
    {
      GoneAfter(s, n, i, j);
      if By(s.log.published[j], n) { OwnEffect(s.log.published[j], n); }
    }
  }

  lemma GoneAfter(s: System, n: Name, i: nat, j: nat)
    requires TookEffect(s, i, Joined(n.kind, n.id)) && TakenAndGone(s, n, j)
    ensures i < j
  {
  }

  /** If every node's id is plain, only user commands meddle: no node's request changes another node's
      membership. */
  lemma OnlyCommandsMeddle(nodes: set<Name>, actions: seq<Action>, n: Name, j: nat)
    requires Reachable(nodes, actions) && forall m | m in nodes :: Plain(m.id)
    ensures var s := Final(nodes, actions);
            (GoneByOthers(s, n, j) ==> s.log.published[j].Stray?) && (KeptByOthers(s, n, j) ==>
              s.log.published[j].Stray?)
  {
    hide Exec, BoxesRight, PeersRight, RecordsRight, WaitsRight, QueueRight, ListsRight, Dispatch, PrintRequest, Plain;
    RunRight(nodes, actions);
    var s := Final(nodes, actions);
    if j < |s.log.published| && s.log.published[j].Request? {
      EntryIssued(nodes, s.log, j);
      var e := s.log.published[j];
      RequestServed(e.op, e.who.kind, e.who.id);
    }
  }

  /** No request of this kind by n was published after position i. */
  predicate NoneAfter(s: System, n: Name, op: Op, i: nat)
  {
    forall j | i < j < |s.log.published| :: !Asks(s.log.published[j], n, op)
  }

  /** Once an enrolment has returned Ok, and until the node publishes a delist, the node is in its list
      unless somebody else sent a later delist of it that was the last word; earlier enrolments and
      delists that timed out cannot undo it. */
  lemma EnrolledIsListed(nodes: set<Name>, actions: seq<Action>, k: nat)
    requires Reachable(nodes, actions)
    requires k < |Final(nodes, actions).records|
    requires var r := Final(nodes, actions).records[k]; OpOf(r.call.purpose) == Enroll && r.ret == Ok && Plain(r.who.id)
    ensures var s, r := Final(nodes, actions), Final(nodes, actions).records[k];
            NoneAfter(s, r.who, Delist, r.call.index) ==>
              (Listed(s, r.who) <==> !exists j :: r.call.index < j && GoneByOthers(s, r.who, j))
  {
    hide Exec, LogRight, BoxesRight, PeersRight, QueueRight, ListsRight, WaitsRight, Answer, Expected, Validates,
         EntryEffect,
         EntryAnswer, UpToNul, Plain;
    RunRight(nodes, actions);
    var s, r := Final(nodes, actions), Final(nodes, actions).records[k];
    assert RecordRight(r, s.log);
    OkIsAnswered(r, s.log);
    RightTaken(nodes, s);
    if NoneAfter(s, r.who, Delist, r.call.index) {
      assert Standing(r.who, r.call.index, s.log);
      StandingUnlisted(nodes, actions, r.who, r.call.index);
    }
  }

  lemma OkIsAnswered(r: Record, g: Log)
    requires RecordRight(r, g) && r.ret == Ok
    ensures Answered(r.call, g)
  {
    hide UpToNul, EntryAnswer, Expected, BodyOf, ReplyFor;
    NoBodyRejected(Expected(OpOf(r.call.purpose)));
  }

  /** An enrolment of n that somebody else sent was taken, and no later delist of n. */
  predicate KeptByOthers(s: System, n: Name, i: nat)
  {
    TakenAndKept(s, n, i) && !By(s.log.published[i], n)
  }

  /** Once a delist has returned Ok, and until the node publishes an enrolment, the node is out of its
      list unless somebody else sent a later enrolment of it that was kept. */
  lemma DelistedIsUnlisted(nodes: set<Name>, actions: seq<Action>, k: nat)
    requires Reachable(nodes, actions)
    requires k < |Final(nodes, actions).records|
    ensures var s, r := Final(nodes, actions), Final(nodes, actions).records[k];
            r.call.purpose == ToDelist && r.ret == Ok && Plain(r.who.id) &&
              NoneAfter(s, r.who, Enroll, r.call.index) ==>
              (Listed(s, r.who) <==> exists i :: r.call.index < i && KeptByOthers(s, r.who, i))
  {
    hide Exec, LogRight, BoxesRight, PeersRight, QueueRight, ListsRight, WaitsRight, Answer, Expected, Validates,
         EntryEffect,
         EntryAnswer, UpToNul, Plain;
    RunRight(nodes, actions);
    var s, r := Final(nodes, actions), Final(nodes, actions).records[k];
    assert RecordRight(r, s.log);
    RightTaken(nodes, s);
    ListedIff(nodes, actions, r.who);
    if r.call.purpose == ToDelist && r.ret == Ok && Plain(r.who.id) && NoneAfter(s, r.who, Enroll, r.call.index) {
      OkIsAnswered(r, s.log);
      OwnEffect(s.log.published[r.call.index], r.who);
      assert TookEffect(s, r.call.index, Left(r.who.kind, r.who.id));
      forall i: nat | TakenAndKept(s, r.who, i)
        ensures r.call.index < i && KeptByOthers(s, r.who, i)
      {
        KeptAfter(s, r.who, r.call.index, i);
        if By(s.log.published[i], r.who) { OwnEffect(s.log.published[i], r.who); }
      }
    }
  }

  lemma KeptAfter(s: System, n: Name, j: nat, i: nat)
    requires TookEffect(s, j, Left(n.kind, n.id)) && TakenAndKept(s, n, i)
    ensures j < i
  {
  }

  // ---- requests and replies ----

  /** Every text put on the enrol queue is either still queued, in order, or was taken exactly once;
      the lists are the effects of the taken ones; and each taken one has at most one reply, which
      carries its correlation id and was posted to the queue it named. */
  lemma RequestsConserved(nodes: set<Name>, actions: seq<Action>)
    requires Reachable(nodes, actions)
    ensures var s := Final(nodes, actions);
            && Taken(s) <= |s.log.published|
            && s.enrolQueue == Envelopes(s.log.published[Taken(s)..])
            && s.lists == After(EffectsOf(s.log.published[..Taken(s)]))
            && (forall i | 0 <= i < |s.log.published| :: |s.log.published[i].cid| == 64)
            && (forall i, j | 0 <= i < j < |s.log.published| :: s.log.published[i].cid != s.log.published[j].cid)
            && (forall i | 0 <= i < Taken(s) && s.log.replies[i].Some? ::
                  s.log.replies[i].value.queue == s.log.published[i].replyTo &&
                  s.log.replies[i].value.env.cid == Some(s.log.published[i].cid))
  {
    hide Exec, PeersRight, RecordsRight, BoxesRight, WaitsRight, EntryRight, EffectsOf, After, Envelopes, CommandsRight,
         ServicesRight, EntryAnswer, EnvelopeOf, QueueRight;
    RunRight(nodes, actions);
    QueueIsRest(Final(nodes, actions));
    forall i | 0 <= i < |Final(nodes, actions).log.published|
      ensures |Final(nodes, actions).log.published[i].cid| == 64
    {
      CidLength(nodes, Final(nodes, actions).log, i);
    }
  }

  /** A SHA-256 digest in hex. */
  lemma CidLength(nodes: set<Name>, g: Log, i: nat)
    requires EntriesRight(g, nodes) && i < |g.published|
    ensures |g.published[i].cid| == 64
  {
    assert EntryRight(g.published[i], g, nodes);
  }

  function Envelopes(entries: seq<Entry>): seq<Envelope>
  {
    seq(|entries|, i requires 0 <= i < |entries| => EnvelopeOf(entries[i]))
  }

  lemma QueueIsRest(s: System)
    requires QueueRight(s.enrolQueue, s.log) && Taken(s) <= |s.log.published|
    ensures s.enrolQueue == Envelopes(s.log.published[Taken(s)..])
  {
    hide EnvelopeOf;
    assert forall i | 0 <= i < |s.log.published| - Taken(s) ::
      s.enrolQueue[i] == EnvelopeOf(s.log.published[Taken(s)..][i]);
  }

  /** The response body of every finished call is the arbiter's answer to that call's own request, as
      a C string, taken from the enrol queue and posted to the call's own reply queue. */
  lemma BodyIsOwnAnswer(nodes: set<Name>, actions: seq<Action>, k: nat)
    requires Reachable(nodes, actions)
    requires k < |Final(nodes, actions).records|
    ensures var s, r := Final(nodes, actions), Final(nodes, actions).records[k];
            r.body.Some? ==>
              && r.call.index < Taken(s) <= |s.log.published|
              && s.log.published[r.call.index] == Request(r.who, OpOf(r.call.purpose), r.call.replyTo, r.call.cid)
              && r.body == Some(UpToNul(Dispatch(PrintRequest(OpOf(r.call.purpose), r.who.kind, r.who.id)).answer))
              && s.log.replies[r.call.index] == Some(ReplyFor(s.log.published[r.call.index]))
              && (Plain(r.who.id) ==> r.body == Some(Answer(Expected(OpOf(r.call.purpose)))))
  {
    hide Exec, LogRight, BoxesRight, PeersRight, QueueRight, ListsRight, WaitsRight, Dispatch, PrintRequest, Answer,
         Expected,
         UpToNul, Plain;
    RunRight(nodes, actions);
    var s, r := Final(nodes, actions), Final(nodes, actions).records[k];
    assert RecordRight(r, s.log);
    RightTaken(nodes, s);
    RequestServed(OpOf(r.call.purpose), r.who.kind, r.who.id);
    AnswerNulFree(OpOf(r.call.purpose));
  }

  /** A call reports Ok exactly when an answer that is accepted arrived within the wait (and, for an
      activation or a delist, what follows the answer went well); for a plain node, exactly when any
      answer did. */
  lemma OkIffAnswered(nodes: set<Name>, actions: seq<Action>, k: nat)
    requires Reachable(nodes, actions)
    requires k < |Final(nodes, actions).records|
    ensures var r := Final(nodes, actions).records[k];
            && (r.ret == Ok <==>
                  Validates(r.body, Expected(OpOf(r.call.purpose))) && (OpOf(r.call.purpose) != Enroll ==> r.after))
            && (Plain(r.who.id) ==> (r.ret == Ok <==> r.body.Some? && (OpOf(r.call.purpose) != Enroll ==> r.after)))
  {
    hide Exec, LogRight, BoxesRight, PeersRight, QueueRight, ListsRight, WaitsRight, Answer, Expected, Validates,
         Dispatch, Plain, Answered;
    RunRight(nodes, actions);
    var s, r := Final(nodes, actions), Final(nodes, actions).records[k];
    assert RecordRight(r, s.log);
    BodyIsOwnAnswer(nodes, actions, k);
    OpWordsPlain(OpOf(r.call.purpose));
    PlainAnswer(Expected(OpOf(r.call.purpose)), Expected(OpOf(r.call.purpose)));
    NoBodyRejected(Expected(OpOf(r.call.purpose)));
  }

  /** A message for somebody else never ends a wait: a drawn message that carries the correlation id
      of any other request or of a command, late or not, was discarded. */
  lemma StrangersDiscarded(nodes: set<Name>, actions: seq<Action>, k: nat, d: nat, cid: string)
    requires Reachable(nodes, actions)
    requires k < |Final(nodes, actions).records| && d < |Final(nodes, actions).records[k].call.drawn|
    requires var s := Final(nodes, actions);
             || (exists j | 0 <= j < |s.log.published| && j != s.records[k].call.index :: s.log.published[j].cid == cid)
             || (exists j | 0 <= j < |s.log.commands| :: s.log.commands[j].cid == cid)
    requires var e := Final(nodes, actions).records[k].call.drawn[d]; e.Delivery? && e.cid == Some(cid)
    ensures var c := Final(nodes, actions).records[k].call; Judge(c.cid, c.drawn[d]) == Discard
  {
    hide Exec, LogRight, BoxesRight, PeersRight, QueueRight, ListsRight, WaitsRight, Answered, Undecided, Accepted,
         Matches;
    RunRight(nodes, actions);
    var s := Final(nodes, actions);
    var c := s.records[k].call;
    assert RecordRight(s.records[k], s.log);
    EntryIssued(nodes, s.log, c.index);
    MatchesExactly(c.cid, cid);
    if j: nat :| j < |s.log.published| && j != c.index && s.log.published[j].cid == cid {
      EntryIssued(nodes, s.log, j);
      EntriesApart(nodes, s.log, c.index, j);
    } else {
      var j: nat :| j < |s.log.commands| && s.log.commands[j].cid == cid;
      RequestBesideCommand(nodes, s.log, c.index, j);
    }
  }

  // ---- nodes ----

  /** Inside the whole system every node lives one of the lives that Lifecycle describes, so its
      theorems hold of every node in every reachable state. */
  lemma NodesLive(nodes: set<Name>, actions: seq<Action>, n: Name)
    requires Reachable(nodes, actions) && n in nodes
    ensures var s := Final(nodes, actions);
            n in s.peers &&
            var p := s.peers[n];
            && p.view == Lifecycle.Run(Lifecycle.INITIAL, p.life)
            && Lifecycle.WatchRight(p.view)
            && (Lifecycle.Stuck(p.view) <==> exists k :: Lifecycle.FailedDelistAt(p.life, k))
            && Lifecycle.Walk([Null] + p.view.emitted)
            && |p.view.timers| + Lifecycle.LazyAttempts(Lifecycle.INITIAL,
              p.life) == Lifecycle.AsyncCalls(Lifecycle.INITIAL, p.life)
  {
    hide Exec, LogRight, BoxesRight, RecordsRight, QueueRight, ListsRight, WaitsRight, Lifecycle.Run, Lifecycle.Walk,
         Lifecycle.WatchRight, Lifecycle.FailedDelistAt, Standing, Enlisted, CallRight;
    RunRight(nodes, actions);
    var s := Final(nodes, actions);
    RightPeer(nodes, s, n);
    Lifecycle.WatchInEveryRun(s.peers[n].life);
    Lifecycle.StuckExactly(s.peers[n].life);
    Lifecycle.EmissionsWalk(s.peers[n].life);
    Lifecycle.TimersConserved(s.peers[n].life);
  }

  /** The step starts an enrolment of n that is not its timers' doing. */
  predicate StartsEnrolment(a: Action, n: Name)
  {
    (a.Publish? && a.who == n && a.purpose == ToEnroll) || (a.Alone? && a.who == n && a.event.EnrolLazily?)
  }

  /** In Null without a pending timer, and not enrolling. */
  predicate Idle(p: Peer)
  {
    p.view.state == Null && p.view.timers == [] && (p.call.Some? ==> p.call.value.purpose == ToDelist)
  }

  lemma IdleStep(s: System, a: Action, n: Name)
    requires Enabled(s, a) && n in s.peers && Idle(s.peers[n]) && !StartsEnrolment(a, n)
    ensures n in Step(s, a).peers && Idle(Step(s, a).peers[n])
  {
    hide EnvelopeOf, ConsumersAfter, QueuesGone, QueuesNew, Undecided, Lifecycle.Ret, WithReply, Delivered, Served,
         CommandReply, Fresh,
         Accepted, AllDiscarded, HeardAfter, Pushed, Popped, CommandEnvelope, Within;
  }

  /** A node in Null without a pending timer stays there as long as it starts no enrolment, whatever
      anybody does. */
  lemma {:induction false} NullStaysInside(nodes: set<Name>, actions: seq<Action>, more: seq<Action>, n: Name)
    requires Reachable(nodes, actions + more) && n in nodes
    requires forall i | 0 <= i < |more| :: !StartsEnrolment(more[i], n)
    ensures Reachable(nodes, actions)
    ensures var s, s' := Final(nodes, actions), Final(nodes, actions + more);
            n in s.peers && n in s'.peers && (Idle(s.peers[n]) ==> Idle(s'.peers[n]))
    decreases |more|
  {
    hide Right, Enabled, Step, Idle, StartsEnrolment;
    RunRight(nodes, actions + more);
    RightNodes(nodes, Final(nodes, actions + more));
    if more == [] {
      assert actions + more == actions;
    } else {
      var front, a := more[..|more| - 1], more[|more| - 1];
      assert (actions + more)[..|actions + more| - 1] == actions + front;
      NullStaysInside(nodes, actions, front, n);
      if Idle(Final(nodes, actions).peers[n]) {
        IdleStep(Final(nodes, actions + front), a, n);
      }
    }
  }

  lemma StuckStep(nodes: set<Name>, s: System, a: Action, n: Name)
    requires Right(nodes, s) && Enabled(s, a) && n in s.peers && Lifecycle.Stuck(s.peers[n].view)
    ensures var s' := Step(s, a);
            n in s'.peers && s'.peers[n].view == s.peers[n].view && s.log.published <= s'.log.published &&
            forall j | |s.log.published| <= j < |s'.log.published| :: !By(s'.log.published[j], n)
  {
    hide Right, Outcome, EnvelopeOf, ConsumersAfter, QueuesGone, QueuesNew, Undecided, Lifecycle.Run, Lifecycle.Ret,
         CallRight,
         Standing, Enlisted, WithReply, Delivered, Served, CommandReply, Fresh, ConsumerRight;
    RightPeer(nodes, s, n);
    assert s.peers[n].call.None?;
    if a.Alone? && a.who == n {
      assert Lifecycle.Next(s.peers[n].view, a.event) == s.peers[n].view;
    }
  }

  /** A node that got stuck stays as it is and never publishes again, whatever anybody does. */
  lemma {:induction false} StuckForGood(nodes: set<Name>, actions: seq<Action>, more: seq<Action>, n: Name)
    requires Reachable(nodes, actions + more) && n in nodes
    ensures Reachable(nodes, actions)
    ensures var s, s' := Final(nodes, actions), Final(nodes, actions + more);
            n in s.peers && n in s'.peers &&
            (Lifecycle.Stuck(s.peers[n].view) ==>
               s'.peers[n].view == s.peers[n].view && s.log.published <= s'.log.published &&
               forall j | |s.log.published| <= j < |s'.log.published| :: !By(s'.log.published[j], n))
    decreases |more|
  {
    hide Right, Enabled, Step, Lifecycle.Stuck, By;
    if more == [] {
      assert actions + more == actions;
      RunRight(nodes, actions);
      RightNodes(nodes, Final(nodes, actions));
    } else {
      var front, a := more[..|more| - 1], more[|more| - 1];
      assert (actions + more)[..|actions + more| - 1] == actions + front;
      StuckForGood(nodes, actions, front, n);
      RunRight(nodes, actions + front);
      RunRight(nodes, actions + more);
      RightNodes(nodes, Final(nodes, actions + more));
      if Lifecycle.Stuck(Final(nodes, actions).peers[n].view) {
        StuckStep(nodes, Final(nodes, actions + front), a, n);
      }
    }
  }

  lemma RightNodes(nodes: set<Name>, s: System)
    requires Right(nodes, s)
    ensures s.peers.Keys == nodes
  {
  }

  // ---- user commands ----

  /** Whatever the sender of a command takes for its response is the response to that very command:
      of the node it was sent to, or of the arbiter if it was sent to the enrol queue. */
  lemma ResponseIsOwn(nodes: set<Name>, actions: seq<Action>, k: nat)
    requires Reachable(nodes, actions)
    requires k < |Final(nodes, actions).log.commands|
    ensures var s := Final(nodes, actions);
            |s.waits| == |s.log.commands| &&
            var body := LastBody(s.log.commands[k].cid, s.waits[k]);
            body.Some? ==> Responded(k, body.value, s.log)
  {
    hide Exec, LogRight, BoxesRight, PeersRight, QueueRight, ListsRight, RecordsRight, Responded, LastBody,
         AllDiscarded;
    RunRight(nodes, actions);
    assert WaitRight(k, Final(nodes, actions).waits[k], Final(nodes, actions).log);
  }
}
