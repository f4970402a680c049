/** The life of one edge or hub node with an AMQP backend, as values: what each operation makes of
    the node, and what holds over every run (chamge/node.c, chamge/edge.c, chamge/hub.c). */
module Lifecycle {
  import opened Common
  import LazyEnrol

  /** The backend a node owns: its `activated` flag and the id of its message watch (0 for none). */
  datatype BackendView = BackendView(activated: bool, processId: nat)

  /** A node: its state, its backend if it owns one, the message watches attached to its main loop
      (and the id the next one will get), the pending lazy timers, and the states it emitted. */
  datatype View = View(state: NodeState, backend: Option<BackendView>,
                       sources: set<nat>, nextSource: nat,
                       timers: seq<int>, emitted: seq<NodeState>)

  const INITIAL: View := View(Null, None, {}, 1, [], [])

  /** The operations and the timer, with what the backend's exchange with the arbiter came to. */
  datatype Event =
    | EnrolNow(ok: bool)
    | EnrolLazily(now: int, digit: LazyEnrol.Digit)
    | Fire(timer: nat, ok: bool)
    | DelistNow(ok: bool)
    | ActivateNow(answered: bool, subscribed: bool)
    | DeactivateNow

  // ---- one operation ----

  function WithBackend(v: View): View
  {
    if v.backend.None? then v.(backend := Some(BackendView(false, 0))) else v
  }

  function Emit(v: View, state: NodeState): View
  {
    v.(state := state, emitted := v.emitted + [state])
  }

  /** Dropping the backend disposes of it, and its watch with it. */
  function Dropped(v: View): View
  {
    match v.backend
    case None => v
    case Some(b) => v.(backend := None, sources := v.sources - {b.processId})
  }

  function Unwatched(v: View): View
  {
    match v.backend
    case None => v
    case Some(b) => v.(backend := Some(b.(processId := 0)), sources := v.sources - {b.processId})
  }

  function Watched(v: View): View
  {
    v.(backend := Some(BackendView(true, v.nextSource)),
       sources := v.sources + {v.nextSource}, nextSource := v.nextSource + 1)
  }

  function Next(v: View, e: Event): View
  {
    match e
    case EnrolNow(ok) =>
      if v.state != Null then v
      else if ok then Emit(WithBackend(v), Enrolled)
      else WithBackend(v)
    case EnrolLazily(now, digit) =>
      if v.state != Null then v else v.(timers := v.timers + [LazyEnrol.Delay(now, digit)])
    case Fire(timer, ok) =>
      // A timer that finds the node outside Null is kept.
      if timer >= |v.timers| || v.state != Null then v
      else
        var v' := WithBackend(v.(timers := v.timers[..timer] + v.timers[timer + 1..]));
        if ok then Emit(v', Enrolled) else v'
    case DelistNow(ok) =>
      if v.backend.None? then v
      else if ok then Emit(Dropped(v), Null)
      else Dropped(v)
    case ActivateNow(answered, subscribed) =>
      if v.state != Enrolled || v.backend.None? || !answered then v
      else if !subscribed then v.(backend := Some(v.backend.value.(activated := true)))
      else Emit(Watched(v), Activated)
    case DeactivateNow =>
      if v.state != Activated || v.backend.None? then v
      else Emit(Unwatched(v), Enrolled)
  }

  /** What the call reports; a timer reports Ok when it enrolled the node. */
  function Ret(v: View, e: Event): Return
  {
    match e
    case EnrolNow(ok) => if v.state == Null && ok then Ok else Fail
    case EnrolLazily(_, _) => if v.state == Null then Async else Fail
    case Fire(timer, ok) => if timer < |v.timers| && v.state == Null && ok then Ok else Fail
    case DelistNow(ok) => if v.backend.Some? && ok then Ok else Fail
    case ActivateNow(answered, subscribed) =>
      if v.state == Enrolled && v.backend.Some? && answered && subscribed then Ok else Fail
    case DeactivateNow => if v.state == Activated && v.backend.Some? then Ok else Fail
  }

  // ---- runs ----

  function Run(v: View, events: seq<Event>): View
    decreases |events|
  {
    if events == [] then v
    else Next(Run(v, events[..|events| - 1]), events[|events| - 1])
  }

  lemma {:induction false} RunSplit(v: View, front: seq<Event>, back: seq<Event>)
    ensures Run(v, front + back) == Run(Run(v, front), back)
    decreases |back|
  {
    if back == [] {
      assert front + back == front;
    } else {
      var n := |front + back| - 1;
      assert (front + back)[..n] == front + back[..|back| - 1];
      RunSplit(v, front, back[..|back| - 1]);
    }
  }

  lemma RunLast(v: View, front: seq<Event>, e: Event)
    ensures Run(v, front + [e]) == Next(Run(v, front), e)
  {
    assert (front + [e])[..|front|] == front;
  }

  // ---- the message watch ----

  /** The watch is attached exactly when the node is activated and owns its backend, it is the only
      one attached, and its handler's `activated` test never removes it. */
  predicate WatchRight(v: View)
  {
    && v.nextSource > 0
    && (forall s | s in v.sources :: s < v.nextSource)
    && (if v.state == Activated && v.backend.Some? then
          v.backend.value.processId != 0 && v.backend.value.activated && v.sources == {v.backend.value.processId}
        else
          v.sources == {} && (v.backend.Some? ==> v.backend.value.processId == 0))
  }

  lemma WatchStep(v: View, e: Event)
    requires WatchRight(v)
    ensures WatchRight(Next(v, e))
  {
  }

  lemma {:induction false} WatchInEveryRun(events: seq<Event>)
    ensures WatchRight(Run(INITIAL, events))
    decreases |events|
  {
    if events != [] {
      WatchInEveryRun(events[..|events| - 1]);
      WatchStep(Run(INITIAL, events[..|events| - 1]), events[|events| - 1]);
    }
  }

  // ---- nodes whose delist failed ----

  /** Not in Null, and without a backend. */
  predicate Stuck(v: View)
  {
    v.state != Null && v.backend.None?
  }

  /** No operation and no timer ever changes a stuck node again. */
  lemma {:induction false} StuckForever(v: View, events: seq<Event>)
    requires Stuck(v)
    ensures Run(v, events) == v
    decreases |events|
  {
    if events != [] {
      StuckForever(v, events[..|events| - 1]);
    }
  }

  /** The k-th event is a failed delist of a node that is not in Null and owns a backend. */
  predicate FailedDelistAt(events: seq<Event>, k: nat)
  {
    k < |events| && events[k] == DelistNow(false) &&
    var v := Run(INITIAL, events[..k]);
    v.state != Null && v.backend.Some?
  }

  /** Nodes get stuck by a failed delist and by nothing else: in every other run a node that is not
      in Null owns a backend. */
  lemma {:induction false} StuckExactly(events: seq<Event>)
    ensures Stuck(Run(INITIAL, events)) <==> exists k :: FailedDelistAt(events, k)
    decreases |events|
  {
    if events != [] {
      var front, e := events[..|events| - 1], events[|events| - 1];
      StuckExactly(front);
      forall k: nat | k < |front|
        ensures FailedDelistAt(front, k) <==> FailedDelistAt(events, k)
      {
        assert front[..k] == events[..k];
      }
      var v := Run(INITIAL, front);
      assert FailedDelistAt(events, |front|) <==> e == DelistNow(false) && v.state != Null && v.backend.Some?;
      if Stuck(v) {
        StuckForever(v, [e]);
      }
    }
  }

  // ---- lazy enrolments ----

  /** How many calls of a run returned Async. */
  function AsyncCalls(v: View, events: seq<Event>): nat
    decreases |events|
  {
    if events == [] then 0
    else
      var front := events[..|events| - 1];
      AsyncCalls(v, front) + if Ret(Run(v, front), events[|events| - 1]) == Async then 1 else 0
  }

  /** A timer that fires in Null asks the backend to enrol. */
  predicate LazyAttempt(v: View, e: Event)
  {
    e.Fire? && e.timer < |v.timers| && v.state == Null
  }

  function LazyAttempts(v: View, events: seq<Event>): nat
    decreases |events|
  {
    if events == [] then 0
    else
      var front := events[..|events| - 1];
      LazyAttempts(v, front) + if LazyAttempt(Run(v, front), events[|events| - 1]) then 1 else 0
  }

  /** Timers pending and lazy attempts made account for exactly the calls that returned Async. */
  lemma {:induction false} TimersConserved(events: seq<Event>)
    ensures |Run(INITIAL, events).timers| + LazyAttempts(INITIAL, events) == AsyncCalls(INITIAL, events)
    decreases |events|
  {
    if events != [] {
      TimersConserved(events[..|events| - 1]);
    }
  }

  // ---- emissions ----

  predicate MayFollow(from: NodeState, to: NodeState)
  {
    || to == Null
    || (from == Null && to == Enrolled)
    || (from == Enrolled && to == Activated)
    || (from == Activated && to == Enrolled)
  }

  predicate Walk(states: seq<NodeState>)
  {
    forall i | 0 < i < |states| :: MayFollow(states[i - 1], states[i])
  }

  function Successes(v: View, events: seq<Event>): nat
    decreases |events|
  {
    if events == [] then 0
    else
      var front := events[..|events| - 1];
      Successes(v, front) + if Ret(Run(v, front), events[|events| - 1]) == Ok then 1 else 0
  }

  /** Emissions, prefixed by Null, walk along the state diagram and end at the present state; there
      is one for every operation that succeeded. */
  lemma {:induction false} EmissionsWalk(events: seq<Event>)
    ensures var v := Run(INITIAL, events);
            Walk([Null] + v.emitted) && ([Null] + v.emitted)[|v.emitted|] == v.state &&
            |v.emitted| == Successes(INITIAL, events)
    decreases |events|
  {
    if events != [] {
      var front, e := events[..|events| - 1], events[|events| - 1];
      EmissionsWalk(front);
      var v, v' := Run(INITIAL, front), Run(INITIAL, events);
      EmitsOnSuccess(v, e);
      if v'.emitted != v.emitted {
        assert [Null] + v'.emitted == [Null] + v.emitted + [v'.state];
      }
    }
  }

  lemma EmitsOnSuccess(v: View, e: Event)
    ensures Ret(v, e) == Ok ==>
              Next(v, e).emitted == v.emitted + [Next(v, e).state] && MayFollow(v.state, Next(v, e).state)
    ensures Ret(v, e) != Ok ==> Next(v, e).emitted == v.emitted && Next(v, e).state == v.state
  {
  }

  // ---- what each operation comes to, told from the run before it ----

  /** The state a run has announced last. */
  function Announced(events: seq<Event>): NodeState
  {
    var emitted := Run(INITIAL, events).emitted;
    if emitted == [] then Null else emitted[|emitted| - 1]
  }

  lemma AnnouncedIsState(events: seq<Event>)
    ensures Announced(events) == Run(INITIAL, events).state
  {
    EmissionsWalk(events);
    var emitted := Run(INITIAL, events).emitted;
    assert emitted != [] ==> ([Null] + emitted)[|emitted|] == emitted[|emitted| - 1];
  }

  /** After every run, when each operation succeeds and what it then announces, in terms of the states
      announced before, the failed delists before, and what the exchange with the arbiter came to. */
  lemma SucceedsExactly(events: seq<Event>, e: Event)
    ensures var v, stuck := Run(INITIAL, events), exists k :: FailedDelistAt(events, k);
            Ret(v, e) == Ok <==>
            match e
            case EnrolNow(ok) => Announced(events) == Null && ok
            case EnrolLazily(_, _) => false
            case Fire(timer, ok) => Announced(events) == Null && timer < |v.timers| && ok
            case DelistNow(ok) =>
              ok && if Announced(events) == Null then exists k :: LeftBackendAt(events, k) else !stuck
            case ActivateNow(answered, subscribed) =>
              Announced(events) == Enrolled && !stuck && answered && subscribed
            case DeactivateNow => Announced(events) == Activated && !stuck
    ensures Ret(Run(INITIAL, events), e) == Async <==> e.EnrolLazily? && Announced(events) == Null
    ensures Run(INITIAL, events + [e]).emitted ==
            Run(INITIAL, events).emitted +
            if Ret(Run(INITIAL, events), e) != Ok then []
            else match e
              case DelistNow(_) => [Null]
              case ActivateNow(_, _) => [Activated]
              case _ => [Enrolled]
  {
    hide Run, FailedDelistAt, LeftBackendAt;
    AnnouncedIsState(events);
    StuckExactly(events);
    BackendLeft(events);
    RunLast(INITIAL, events, e);
  }

  /** Timers are set by lazy enrolments and used up by firing, in Null only; nothing else changes them. */
  lemma TimersExactly(events: seq<Event>, e: Event)
    ensures var timers, timers' := Run(INITIAL, events).timers, Run(INITIAL, events + [e]).timers;
            if Announced(events) == Null && e.EnrolLazily? then timers' == timers + [LazyEnrol.Delay(e.now, e.digit)]
            else if Announced(events) == Null && e.Fire? && e.timer < |timers| then
              timers == timers'[..e.timer] + [timers[e.timer]] + timers'[e.timer..]
            else timers' == timers
  {
    hide Run;
    AnnouncedIsState(events);
    RunLast(INITIAL, events, e);
  }

  /** The k-th event is an activation the arbiter agreed to, and no delist followed. */
  predicate AgreedAt(events: seq<Event>, k: nat)
  {
    k < |events| && events[k].ActivateNow? && events[k].answered &&
    Run(INITIAL, events[..k]).state == Enrolled && forall j | k < j < |events| :: !events[j].DelistNow?
  }

  /** A backend carries its flag exactly when the arbiter once agreed to an activation of it, whether or
      not the subscription worked and whether or not it was deactivated since. */
  lemma {:induction false} FlagExactly(events: seq<Event>)
    ensures var v := Run(INITIAL, events);
            v.backend.Some? ==> (v.backend.value.activated <==> exists k :: AgreedAt(events, k))
    ensures (exists k :: AgreedAt(events, k)) ==> Run(INITIAL, events).backend.Some? || Stuck(Run(INITIAL, events))
    decreases |events|
  {
    hide Next, AgreedAt;
    if events == [] {
      NoneAgreed();
    } else {
      var front, e := events[..|events| - 1], events[|events| - 1];
      assert events == front + [e];
      FlagExactly(front);
      FlagStep(Run(INITIAL, front), e);
      AgreedNow(front, e);
      if k: nat :| AgreedAt(front, k) {
        AgreedStep(front, e, k);
      }
      if k: nat :| AgreedAt(events, k) {
        AgreedStep(front, e, k);
      }
    }
  }

  lemma NoneAgreed()
    ensures Run(INITIAL, []) == INITIAL && !exists k :: AgreedAt([], k)
  {
  }

  predicate AgreesNow(v: View, e: Event)
  {
    e.ActivateNow? && e.answered && v.state == Enrolled
  }

  /** One operation and the flag. */
  lemma FlagStep(v: View, e: Event)
    ensures var v' := Next(v, e);
            && (v'.backend.Some? ==> !e.DelistNow?)
            && (v'.backend.Some? && v.backend.None? ==> v.state == Null && !v'.backend.value.activated)
            && (v'.backend.Some? && v.backend.Some? ==>
                  (v'.backend.value.activated <==> v.backend.value.activated || AgreesNow(v, e)))
            && (!e.DelistNow? && (v.backend.Some? || Stuck(v)) ==> v'.backend.Some? || Stuck(v'))
            && (AgreesNow(v, e) ==> v'.backend.Some? || Stuck(v'))
  {
  }

  lemma AgreedNow(front: seq<Event>, e: Event)
    ensures AgreedAt(front + [e], |front|) <==> AgreesNow(Run(INITIAL, front), e)
  {
    assert (front + [e])[..|front|] == front;
  }

  lemma AgreedStep(front: seq<Event>, e: Event, k: nat)
    requires AgreedAt(front, k) || AgreedAt(front + [e], k)
    ensures k <= |front|
    ensures k < |front| ==> (AgreedAt(front + [e], k) <==> AgreedAt(front, k) && !e.DelistNow?)
    ensures AgreedAt(front, k) ==> k < |front|
  {
    hide Run;
    if k < |front| {
      assert (front + [e])[..k] == front[..k];
      assert forall j | k < j < |front| :: (front + [e])[j] == front[j];
      assert (front + [e])[|front|] == e;
    }
  }

  // ---- timers after a delist ----

  predicate OnlyFires(events: seq<Event>)
  {
    forall i | 0 <= i < |events| :: events[i].Fire?
  }

  /** A node in Null stays there, as long as nobody but its timers acts, exactly when it has no
      timer pending. */
  lemma NullStays(v: View)
    requires v.state == Null
    ensures (forall es | OnlyFires(es) :: Run(v, es).state == Null) <==> v.timers == []
  {
    if v.timers == [] {
      forall es | OnlyFires(es)
        ensures Run(v, es).state == Null
      {
        NoTimersNoChange(v, es);
      }
    } else {
      var es := [Fire(0, true)];
      assert es[..0] == [];
      assert OnlyFires(es) && Run(v, es).state == Enrolled;
    }
  }

  lemma {:induction false} NoTimersNoChange(v: View, es: seq<Event>)
    requires v.timers == [] && OnlyFires(es)
    ensures Run(v, es) == v
    decreases |es|
  {
    if es != [] {
      NoTimersNoChange(v, es[..|es| - 1]);
    }
  }

  /** A delist that succeeds is the last word, as long as nobody but the node's timers acts, exactly
      when no lazy timer was pending before it. */
  lemma DelistIsFinal(events: seq<Event>)
    requires Ret(Run(INITIAL, events), DelistNow(true)) == Ok
    ensures (forall es | OnlyFires(es) :: Run(INITIAL, events + [DelistNow(true)] + es).state == Null) <==>
            Run(INITIAL, events).timers == []
  {
    var v, v' := Run(INITIAL, events), Run(INITIAL, events + [DelistNow(true)]);
    RunLast(INITIAL, events, DelistNow(true));
    NullStays(v');
    forall es
      ensures Run(INITIAL, events + [DelistNow(true)] + es) == Run(v', es)
    {
      RunSplit(INITIAL, events + [DelistNow(true)], es);
    }
  }

  /** The run that shows it: a timer set before a direct enrolment is kept while the node is
      enrolled, and enrols it again after it was delisted. */
  lemma ReturnsAfterDelist(now: int, digit: LazyEnrol.Digit) returns (events: seq<Event>)
    ensures events == [EnrolLazily(now, digit), EnrolNow(true), Fire(0, true), DelistNow(true), Fire(0, true)]
    ensures var v := Run(INITIAL, events);
            v.state == Enrolled && v.emitted == [Enrolled, Null, Enrolled] && v.timers == []
    ensures Run(INITIAL, events[..3]) == Run(INITIAL, events[..2])
  {
    hide Run;
    events := [EnrolLazily(now, digit), EnrolNow(true), Fire(0, true), DelistNow(true), Fire(0, true)];
    RunFirst(INITIAL, events);
    var v := INITIAL;
    v := Next(v, events[0]);
    RunFirst(v, events[1..]);
    v := Next(v, events[1]);
    assert events[..2] == [events[0], events[1]] && events[..3] == events[..2] + [events[2]];
    RunTwo(INITIAL, events[0], events[1]);
    RunLast(INITIAL, events[..2], events[2]);
    RunFirst(v, events[2..]);
    v := Next(v, events[2]);
    RunFirst(v, events[3..]);
    v := Next(v, events[3]);
    RunFirst(v, events[4..]);
    v := Next(v, events[4]);
    RunNone(v, events[5..]);
  }

  lemma RunNone(v: View, es: seq<Event>)
    requires es == []
    ensures Run(v, es) == v
  {
  }

  lemma RunFirst(v: View, es: seq<Event>)
    requires es != []
    ensures Run(v, es) == Run(Next(v, es[0]), es[1..])
  {
    hide Next;
    RunSplit(v, [es[0]], es[1..]);
    assert [es[0]] + es[1..] == es;
    assert [es[0]][..0] == [];
  }

  lemma RunTwo(v: View, a: Event, b: Event)
    ensures Run(v, [a, b]) == Next(Next(v, a), b)
  {
    hide Run, Next;
    RunFirst(v, [a, b]);
    RunFirst(Next(v, a), [b]);
    RunNone(Next(Next(v, a), b), [b][1..]);
  }

  // ---- when a delist succeeds ----

  /** An enrolment attempt that fails. */
  predicate FailedAttempt(v: View, e: Event)
  {
    v.state == Null && (e == EnrolNow(false) || (LazyAttempt(v, e) && !e.ok))
  }

  /** The j-th event is no delist and does not enrol. */
  predicate KeepsBackend(events: seq<Event>, j: nat)
    requires j < |events|
  {
    !events[j].DelistNow? && Ret(Run(INITIAL, events[..j]), events[j]) != Ok
  }

  /** The k-th event is an enrolment attempt that failed, and no enrolment and no delist followed. */
  predicate LeftBackendAt(events: seq<Event>, k: nat)
  {
    k < |events| && FailedAttempt(Run(INITIAL, events[..k]), events[k]) &&
    forall j | k < j < |events| :: KeepsBackend(events, j)
  }

  /** The event leaves a node in Null with a backend: it owned one and neither enrolled nor was
      delisted, or an enrolment attempt failed. */
  lemma BackendInNull(v: View, e: Event)
    ensures Next(v, e).state == Null && Next(v, e).backend.Some? <==>
            || (v.state == Null && v.backend.Some? && !e.DelistNow? && Ret(v, e) != Ok)
            || FailedAttempt(v, e)
  {
  }

  /** A node in Null owns a backend exactly when a failed enrolment attempt left it one. */
  lemma {:induction false} BackendLeft(events: seq<Event>)
    ensures var v := Run(INITIAL, events);
            v.state == Null && v.backend.Some? <==> exists k :: LeftBackendAt(events, k)
    decreases |events|
  {
    hide LeftBackendAt, FailedAttempt, Next, Ret;
    if events == [] {
      NoneLeft();
    } else {
      var front, e := events[..|events| - 1], events[|events| - 1];
      var v := Run(INITIAL, front);
      assert events == front + [e];
      BackendLeft(front);
      BackendInNull(v, e);
      RunLast(INITIAL, front, e);
      LeftBackendNow(front, e);
      if k: nat :| LeftBackendAt(front, k) {
        LeftBackendStep(front, e, k);
      }
      if k: nat :| LeftBackendAt(events, k) {
        LeftBackendBound(events, k);
        if k < |front| { LeftBackendStep(front, e, k); }
      }
    }
  }

  lemma NoneLeft()
    ensures Run(INITIAL, []) == INITIAL && !exists k :: LeftBackendAt([], k)
  {
  }

  lemma LeftBackendBound(events: seq<Event>, k: nat)
    requires LeftBackendAt(events, k)
    ensures k < |events|
  {
  }

  lemma LeftBackendNow(front: seq<Event>, e: Event)
    ensures LeftBackendAt(front + [e], |front|) <==> FailedAttempt(Run(INITIAL, front), e)
  {
    assert (front + [e])[..|front|] == front;
  }

  lemma LeftBackendStep(front: seq<Event>, e: Event, k: nat)
    requires LeftBackendAt(front, k) || (k < |front| && LeftBackendAt(front + [e], k))
    ensures k < |front|
    ensures LeftBackendAt(front + [e], k) <==>
            LeftBackendAt(front, k) && !e.DelistNow? && Ret(Run(INITIAL, front), e) != Ok
  {
    hide Run, Ret, FailedAttempt, KeepsBackend;
    var events := front + [e];
    assert events[..k] == front[..k];
    forall j | 0 <= j < |front|
      ensures KeepsBackend(events, j) == KeepsBackend(front, j)
    {
      KeepsBackendBefore(front, e, j);
    }
    KeepsBackendLast(front, e);
  }

  lemma KeepsBackendBefore(front: seq<Event>, e: Event, j: nat)
    requires j < |front|
    ensures KeepsBackend(front + [e], j) == KeepsBackend(front, j)
  {
    assert (front + [e])[..j] == front[..j];
  }

  lemma KeepsBackendLast(front: seq<Event>, e: Event)
    ensures KeepsBackend(front + [e], |front|) <==> !e.DelistNow? && Ret(Run(INITIAL, front), e) != Ok
  {
    assert (front + [e])[..|front|] == front;
  }

  /** README.md lets a node be delisted from the enrolled state only. The code asks for no state: a
      delist succeeds exactly when the backend delists and the node owns one, and it owns one in
      Null exactly when a failed enrolment attempt left it, and outside Null exactly when no delist
      failed before. */
  lemma DelistUnguarded(events: seq<Event>, ok: bool)
    ensures var v := Run(INITIAL, events);
            Ret(v, DelistNow(ok)) == Ok <==>
            ok && if v.state == Null then exists k :: LeftBackendAt(events, k) else !exists k ::
              FailedDelistAt(events, k)
  {
    BackendLeft(events);
    StuckExactly(events);
  }

  /** Both departures from README.md happen: an activated node and one in Null are delisted. */
  lemma DelistsOutsideEnrolled() returns (activated: seq<Event>, unenrolled: seq<Event>)
    ensures Run(INITIAL, activated).state == Activated && Ret(Run(INITIAL, activated), DelistNow(true)) == Ok
    ensures Run(INITIAL, activated + [DelistNow(true)]).emitted == [Enrolled, Activated, Null]
    ensures Run(INITIAL, unenrolled).state == Null && Ret(Run(INITIAL, unenrolled), DelistNow(true)) == Ok
    ensures Run(INITIAL, unenrolled + [DelistNow(true)]).emitted == [Null]
  {
    activated, unenrolled := [EnrolNow(true), ActivateNow(true, true)], [EnrolNow(false)];
    RunLast(INITIAL, [], EnrolNow(true));
    assert [] + [EnrolNow(true)] == [EnrolNow(true)];
    RunLast(INITIAL, [EnrolNow(true)], ActivateNow(true, true));
    assert [EnrolNow(true)] + [ActivateNow(true, true)] == activated;
    RunLast(INITIAL, activated, DelistNow(true));
    RunLast(INITIAL, [], EnrolNow(false));
    assert [] + [EnrolNow(false)] == unenrolled;
    RunLast(INITIAL, unenrolled, DelistNow(true));
  }
}
