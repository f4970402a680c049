/** The arbiter agent's lists of enrolled edges and hubs (agent/arbiter-agent.c). */
module Registry {
  import opened Common
  import opened Requests

  datatype Lists = Lists(edges: seq<string>, hubs: seq<string>) {
    function Of(kind: Kind): seq<string> {
      if kind == Edge then edges else hubs
    }

    function With(kind: Kind, l: seq<string>): Lists {
      if kind == Edge then this.(edges := l) else this.(hubs := l)
    }
  }

  const EMPTY: Lists := Lists([], [])

  /** Position of the first element equal to id. */
  function Find(l: seq<string>, id: string): (k: Option<nat>)
    ensures k.Some? ==> k.value < |l| && l[k.value] == id && id !in l[..k.value]
    ensures k.None? ==> id !in l
  {
    if l == [] then None
    else if l[0] == id then Some(0)
    else
      match Find(l[1..], id)
      case None => None
      case Some(k) =>
        assert l[..k + 1] == [l[0]] + l[1..][..k];
        Some(k + 1)
  }

  function Entered(l: seq<string>, id: string): seq<string>
  {
    if id in l then l else l + [id]
  }

  function Removed(l: seq<string>, id: string): seq<string>
  {
    match Find(l, id)
    case None => l
    case Some(k) => Without(l, k)
  }

  function Apply(lists: Lists, e: Effect): Lists
  {
    match e
    case NoEffect => lists
    case Joined(kind, id) => lists.With(kind, Entered(lists.Of(kind), id))
    case Left(kind, id) => lists.With(kind, Removed(lists.Of(kind), id))
  }

  /** The lists after a run of callbacks. */
  function After(effects: seq<Effect>): Lists
  {
    if effects == [] then EMPTY
    else Apply(After(effects[..|effects| - 1]), effects[|effects| - 1])
  }

  /** The lists as the agent holds them, and the callbacks that change them in place. */
  class Agent {
    var edges: seq<string>
    var hubs: seq<string>

    function Value(): Lists
      reads this
    {
      Lists(edges, hubs)
    }

    constructor ()
      ensures Value() == EMPTY
    {
      edges, hubs := [], [];
    }

    static method FindList(list: seq<string>, id: string) returns (link: Option<nat>)
      ensures link.Some? <==> id in list
      ensures link.Some? ==> link.value < |list| && list[link.value] == id && id !in list[..link.value]
    {
      for i := 0 to |list|
        invariant id !in list[..i]
      {
        if list[i] == id {
          return Some(i);
        }
      }
      return None;
    }

    /** An absent id is never found. */
    static method IsEnrolled(list: seq<string>, id: Option<string>) returns (found: bool)
      ensures found <==> id.Some? && id.value in list
    {
      for i := 0 to |list|
        invariant id.Some? ==> id.value !in list[..i]
      {
        if id == Some(list[i]) {
          return true;
        }
      }
      return false;
    }

    method EdgeEnrolled(id: string)
      modifies this`edges
      ensures Value() == Apply(old(Value()), Joined(Edge, id))
    {
      var link := FindList(edges, id);
      if link.None? {
        edges := edges + [id];
      }
    }

    method EdgeDelisted(id: string)
      modifies this`edges
      ensures Value() == Apply(old(Value()), Left(Edge, id))
    {
      var link := FindList(edges, id);
      if link.Some? {
        FindUnique(edges, id, link.value);
        edges := edges[..link.value] + edges[link.value + 1..];
      }
    }

    method HubEnrolled(id: string)
      modifies this`hubs
      ensures Value() == Apply(old(Value()), Joined(Hub, id))
    {
      var link := FindList(hubs, id);
      if link.None? {
        hubs := hubs + [id];
      }
    }

    method HubDelisted(id: string)
      modifies this`hubs
      ensures Value() == Apply(old(Value()), Left(Hub, id))
    {
      var link := FindList(hubs, id);
      if link.Some? {
        FindUnique(hubs, id, link.value);
        hubs := hubs[..link.value] + hubs[link.value + 1..];
      }
    }
  }

  lemma FindUnique(l: seq<string>, id: string, k: nat)
    requires k < |l| && l[k] == id && id !in l[..k]
    ensures Find(l, id) == Some(k)
  {
    var found := Find(l, id);
    assert found.Some?;
    assert found.value >= k;
    assert found.value <= k;
  }

  // ---- the lists and the events they stand for ----

  /** Event j enrols the id and no later event delists it. */
  predicate Holds(effects: seq<Effect>, kind: Kind, id: string, j: nat)
  {
    j < |effects| && effects[j] == Joined(kind, id) &&
    forall i | j < i < |effects| :: effects[i] != Left(kind, id)
  }

  /** Event j is the enrolment the id's present membership dates from. */
  predicate Since(effects: seq<Effect>, kind: Kind, id: string, j: nat)
  {
    Holds(effects, kind, id, j) && forall i | 0 <= i < j :: !Holds(effects, kind, id, i)
  }

  /** The list l is the ids that are enrolled after the events, in the order of the enrolments
      at positions js that their memberships date from. */
  ghost predicate JoinOrder(effects: seq<Effect>, kind: Kind, l: seq<string>, js: seq<nat>)
  {
    && |js| == |l|
    && (forall i | 0 <= i < |l| :: Since(effects, kind, l[i], js[i]))
    && (forall i, i' | 0 <= i < i' < |l| :: js[i] < js[i'])
    && (forall id, j | Holds(effects, kind, id, j) :: id in l)
  }

  lemma HoldsStep(effects: seq<Effect>, e: Effect, kind: Kind, id: string, j: nat)
    ensures j < |effects| ==>
              (Holds(effects + [e], kind, id, j) <==> Holds(effects, kind, id, j) && e != Left(kind, id))
    ensures j == |effects| ==> (Holds(effects + [e], kind, id, j) <==> e == Joined(kind, id))
  {
    var more := effects + [e];
    assert forall i | 0 <= i < |effects| :: more[i] == effects[i];
    assert more[|effects|] == e;
  }

  lemma SinceStep(effects: seq<Effect>, e: Effect, kind: Kind, id: string, j: nat)
    requires e != Left(kind, id)
    requires Since(effects, kind, id, j)
    ensures Since(effects + [e], kind, id, j) && j < |effects|
  {
    HoldsStep(effects, e, kind, id, j);
    forall i | 0 <= i < j
      ensures !Holds(effects + [e], kind, id, i)
    {
      HoldsStep(effects, e, kind, id, i);
    }
  }

  /** Duplicate-free follows from JoinOrder: one id has one Since position. */
  lemma JoinOrderDistinct(effects: seq<Effect>, kind: Kind, l: seq<string>, js: seq<nat>)
    requires JoinOrder(effects, kind, l, js)
    ensures forall i, i' | 0 <= i < i' < |l| :: l[i] != l[i']
  {
    forall i, i' | 0 <= i < i' < |l|
      ensures l[i] != l[i']
    {
      assert Since(effects, kind, l[i], js[i]) && Since(effects, kind, l[i'], js[i']);
    }
  }

  lemma OrderJoined(effects: seq<Effect>, kind: Kind, l: seq<string>, js: seq<nat>, id: string)
    returns (js': seq<nat>)
    requires JoinOrder(effects, kind, l, js)
    ensures JoinOrder(effects + [Joined(kind, id)], kind, Entered(l, id), js')
  {
    hide Holds, Since;
    var e := Joined(kind, id);
    var more, n := effects + [e], |effects|;
    var l' := Entered(l, id);
    js' := if id in l then js else js + [n];
    forall i | 0 <= i < |l'|
      ensures Since(more, kind, l'[i], js'[i])
    {
      if i < |l| {
        SinceStep(effects, e, kind, l[i], js[i]);
      } else {
        SinceNew(effects, kind, id);
      }
    }
    forall id', j | Holds(more, kind, id', j)
      ensures id' in l'
    {
      HoldsStep(effects, e, kind, id', j);
      HoldsBound(more, kind, id', j);
    }
    forall i, i' | 0 <= i < i' < |l'|
      ensures js'[i] < js'[i']
    {
      SinceBound(effects, kind, l[i], js[i]);
    }
  }

  lemma SinceNew(effects: seq<Effect>, kind: Kind, id: string)
    requires forall j: nat :: !Holds(effects, kind, id, j)
    ensures Since(effects + [Joined(kind, id)], kind, id, |effects|)
  {
    HoldsStep(effects, Joined(kind, id), kind, id, |effects|);
    forall k | 0 <= k < |effects|
      ensures !Holds(effects + [Joined(kind, id)], kind, id, k)
    {
      HoldsStep(effects, Joined(kind, id), kind, id, k);
    }
  }

  lemma HoldsBound(effects: seq<Effect>, kind: Kind, id: string, j: nat)
    requires Holds(effects, kind, id, j)
    ensures j < |effects|
  {
  }

  lemma SinceBound(effects: seq<Effect>, kind: Kind, id: string, j: nat)
    requires Since(effects, kind, id, j)
    ensures j < |effects|
  {
  }

  lemma OrderLeft(effects: seq<Effect>, kind: Kind, l: seq<string>, js: seq<nat>, id: string)
    returns (js': seq<nat>)
    requires JoinOrder(effects, kind, l, js)
    ensures JoinOrder(effects + [Left(kind, id)], kind, Removed(l, id), js')
  {
    match Find(l, id)
    case None =>
      js' := js;
      LeftAbsent(effects, kind, l, js, id);
    case Some(k) =>
      js' := Without(js, k);
      LeftPresent(effects, kind, l, js, id, k);
  }

  lemma LeftAbsent(effects: seq<Effect>, kind: Kind, l: seq<string>, js: seq<nat>, id: string)
    requires JoinOrder(effects, kind, l, js) && id !in l
    ensures JoinOrder(effects + [Left(kind, id)], kind, l, js)
  {
    hide Holds, Since;
    var e := Left(kind, id);
    forall i | 0 <= i < |l|
      ensures Since(effects + [e], kind, l[i], js[i])
    {
      assert l[i] in l;
      SinceStep(effects, e, kind, l[i], js[i]);
    }
    forall id', j | Holds(effects + [e], kind, id', j)
      ensures id' in l
    {
      HoldsBound(effects + [e], kind, id', j);
      HoldsStep(effects, e, kind, id', j);
    }
  }

  function Without<T>(s: seq<T>, at: nat): (r: seq<T>)
    requires at < |s|
    ensures |r| == |s| - 1
    ensures forall i | 0 <= i < |r| :: r[i] == s[Skip(at, i)]
  {
    s[..at] + s[at + 1..]
  }

  /** Where the i-th element was before the one at this place was taken out. */
  function Skip(at: nat, i: nat): nat
  {
    if i < at then i else i + 1
  }

  lemma LeftPresent(effects: seq<Effect>, kind: Kind, l: seq<string>, js: seq<nat>, id: string, at: nat)
    requires JoinOrder(effects, kind, l, js) && at < |l| && l[at] == id
    ensures JoinOrder(effects + [Left(kind, id)], kind, Without(l, at), Without(js, at))
  {
    hide Holds, Since, Without;
    var e, l', js' := Left(kind, id), Without(l, at), Without(js, at);
    JoinOrderDistinct(effects, kind, l, js);
    forall i | 0 <= i < |l'|
      ensures Since(effects + [e], kind, l'[i], js'[i])
    {
      assert l[Skip(at, i)] != id;
      SinceStep(effects, e, kind, l[Skip(at, i)], js[Skip(at, i)]);
    }
    forall i, i' | 0 <= i < i' < |l'|
      ensures js'[i] < js'[i']
    {
      assert js[Skip(at, i)] < js[Skip(at, i')];
    }
    forall id', j | Holds(effects + [e], kind, id', j)
      ensures id' in l'
    {
      HoldsBound(effects + [e], kind, id', j);
      HoldsStep(effects, e, kind, id', j);
      var k :| 0 <= k < |l| && l[k] == id';
      var i := if k < at then k else k - 1;
      assert l'[i] == l[Skip(at, i)] == id';
    }
  }

  lemma OrderOther(effects: seq<Effect>, kind: Kind, l: seq<string>, js: seq<nat>, e: Effect)
    requires JoinOrder(effects, kind, l, js)
    requires e.NoEffect? || e.kind != kind
    ensures JoinOrder(effects + [e], kind, l, js)
  {
    forall i | 0 <= i < |l|
      ensures Since(effects + [e], kind, l[i], js[i])
    {
      SinceStep(effects, e, kind, l[i], js[i]);
    }
    forall id, j | Holds(effects + [e], kind, id, j)
      ensures id in l
    {
      HoldsStep(effects, e, kind, id, j);
    }
  }

  /** After every run of callbacks each list is exactly the surviving ids in the order of their
      enrolments; events of one kind do not touch the other kind's list. */
  lemma {:induction false} ListIsJoinOrder(effects: seq<Effect>, kind: Kind) returns (js: seq<nat>)
    ensures JoinOrder(effects, kind, After(effects).Of(kind), js)
    decreases |effects|
  {
    if effects == [] {
      js := [];
    } else {
      var front, e := effects[..|effects| - 1], effects[|effects| - 1];
      assert effects == front + [e];
      var l := After(front).Of(kind);
      js := ListIsJoinOrder(front, kind);
      if e == NoEffect || e.kind != kind {
        OrderOther(front, kind, l, js, e);
      } else if e.Joined? {
        js := OrderJoined(front, kind, l, js, e.id);
      } else {
        js := OrderLeft(front, kind, l, js, e.id);
      }
    }
  }

  /** Two lists in join order of the same events are the same list. */
  lemma JoinOrderUnique(effects: seq<Effect>, kind: Kind, l: seq<string>, js: seq<nat>, l': seq<string>, js': seq<nat>)
    requires JoinOrder(effects, kind, l, js) && JoinOrder(effects, kind, l', js')
    ensures l == l' && js == js'
  {
    PositionsShared(effects, kind, l, js, l', js');
    PositionsShared(effects, kind, l', js', l, js);
    IncreasingPrefix(js, js', |js|);
    IncreasingPrefix(js', js, |js'|);
    assert js == js[..|js|] == js'[..|js|] == js';
    forall i | 0 <= i < |l|
      ensures l[i] == l'[i]
    {
      assert Since(effects, kind, l[i], js[i]) && Since(effects, kind, l'[i], js'[i]);
    }
  }

  lemma PositionsShared(effects: seq<Effect>, kind: Kind, l: seq<string>, js: seq<nat>, l': seq<string>, js': seq<nat>)
    requires JoinOrder(effects, kind, l, js) && JoinOrder(effects, kind, l', js')
    ensures forall j | j in js :: j in js'
  {
    forall j | j in js
      ensures j in js'
    {
      var i :| 0 <= i < |js| && js[i] == j;
      assert Since(effects, kind, l[i], j);
      var p :| 0 <= p < |l'| && l'[p] == l[i];
      assert Since(effects, kind, l'[p], js'[p]);
      assert js'[p] == j;
    }
  }

  lemma {:induction false} IncreasingPrefix(a: seq<nat>, b: seq<nat>, n: nat)
    requires forall i, i' | 0 <= i < i' < |a| :: a[i] < a[i']
    requires forall i, i' | 0 <= i < i' < |b| :: b[i] < b[i']
    requires (forall x | x in a :: x in b) && (forall x | x in b :: x in a)
    requires n <= |a|
    ensures n <= |b| && a[..n] == b[..n]
  {
    if n > 0 {
      var k := n - 1;
      IncreasingPrefix(a, b, k);
      assert forall i | 0 <= i < k :: a[i] == a[..k][i] == b[..k][i] == b[i];
      assert a[k] in b;
      var p :| 0 <= p < |b| && b[p] == a[k];
      assert p >= k;
      assert b[k] in a;
      var q :| 0 <= q < |a| && a[q] == b[k];
      assert q >= k;
      assert a[k] == b[k];
    }
  }

  /** Membership: an id is in its list exactly when some event enrols it and none later delists it. */
  lemma MemberIff(effects: seq<Effect>, kind: Kind, id: string)
    ensures id in After(effects).Of(kind) <==> exists j :: Holds(effects, kind, id, j)
  {
    var js := ListIsJoinOrder(effects, kind);
    var l := After(effects).Of(kind);
    if id in l {
      var i :| 0 <= i < |l| && l[i] == id;
      assert Since(effects, kind, id, js[i]);
    }
  }

  /** No id is listed twice. */
  lemma NoDuplicates(effects: seq<Effect>, kind: Kind)
    ensures var l := After(effects).Of(kind); forall i, i' | 0 <= i < i' < |l| :: l[i] != l[i']
  {
    var js := ListIsJoinOrder(effects, kind);
    JoinOrderDistinct(effects, kind, After(effects).Of(kind), js);
  }
}
