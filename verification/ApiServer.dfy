/**
 The API servers as the manager sees them: one store of objects across all clusters, a
 namespace rule, and an environment that decides the fate of every call.
*/
module ApiServer {
  import opened Basics
  import opened Pods

  datatype Kind =
    | Namespace | ServiceAccount | Secret | CustomResourceDefinition | ClusterRoleBinding | Deployment

  /** Where an object lives; `ns` is empty for cluster-scoped objects. */
  datatype Loc = Loc(cluster: nat, kind: Kind, ns: string, name: string) {
    predicate Namespaced() {
      ns != ""
    }

    /** The namespace object this object lives in. */
    function House(): Loc {
      NamespaceLoc(cluster, ns)
    }

    predicate LivesIn(house: Loc) {
      Namespaced() && House() == house
    }
  }

  function NamespaceLoc(cluster: nat, name: string): Loc {
    Loc(cluster, Namespace, "", name)
  }

  datatype Spec =
    | NoSpec
    | CrdSpec(schema: string)
    | BindingSpec(account: string, ns: string, role: string)
    | DeploymentSpec(replicas: int, podLabels: map<string, string>, pod: Pod)

  /**
   `uid` is 0 until the server has stored the object. `expires` is the parsed token expiration
   annotation in seconds, None when it is absent or does not parse. `ready` is written by the cluster only.
  */
  datatype Obj = Obj(
    uid: nat, terminating: bool, labels: map<string, string>, secretType: string,
    data: map<string, string>, expires: Option<int>, spec: Spec, ready: int)

  const BLANK := Obj(0, false, map[], "", map[], None, NoSpec, 0)

  /** A stored object without any content. */
  const STORED := BLANK.(uid := 1)

  type Objects = map<Loc, Obj>

  datatype World = World(objs: Objects, calls: nat)

  /** An issued service account token; `expiry` is the real expiry in nanoseconds. */
  datatype Token = Token(text: string, expiry: int)

  /** A call is served, rejected without effect, or takes effect while its reply is lost. */
  datatype Fate = Served | Rejected | Lost

  /**
   What the environment contributes to one call: its fate, terminating objects that vanish just
   before it, objects whose deletion lingers because of finalizers, and the token it would issue.
  */
  datatype Event = Event(fate: Fate, vanishing: set<Loc>, lingering: set<Loc>, token: Token)

  ghost predicate Enumerates(s: seq<Loc>, locs: set<Loc>) {
    && (forall l :: l in s <==> l in locs)
    && (forall i, j :: 0 <= i < j < |s| ==> s[i] != s[j])
  }

  ghost predicate IsListing(order: set<Loc> -> seq<Loc>) {
    forall locs :: Enumerates(order(locs), locs)
  }

  ghost function SomeOrder(locs: set<Loc>): (s: seq<Loc>)
    ensures Enumerates(s, locs)
  {
    if locs == {} then []
    else
      var l :| l in locs;
      [l] + SomeOrder(locs - {l})
  }

  /** An order in which a server lists objects. */
  type Listing = order: set<Loc> -> seq<Loc> | IsListing(order)
    ghost witness (locs: set<Loc>) => SomeOrder(locs)

  datatype Env = Env(event: nat -> Event, order: Listing)

  datatype Reply = Found(obj: Obj) | Missing | Failed

  // ----- the effect of calls -----

  /** Removes objects; a removed namespace takes its contents with it. */
  function Without(objs: Objects, gone: set<Loc>): Objects {
    map l | l in objs && l !in gone && !(l.Namespaced() && l.House() in gone) :: objs[l]
  }

  /** The object, or the namespace it lives in, is terminating: it may vanish at any time. */
  predicate Doomed(objs: Objects, l: Loc) {
    && l in objs
    && (objs[l].terminating || (l.Namespaced() && l.House() in objs && objs[l.House()].terminating))
  }

  /** The object exists and nothing is about to take it away. */
  predicate Firm(objs: Objects, l: Loc) {
    l in objs && !Doomed(objs, l)
  }

  function Vanish(objs: Objects, request: set<Loc>): Objects {
    Without(objs, set l | l in request && Doomed(objs, l))
  }

  /** Every call starts with the environment's move. */
  function Tick(env: Env, w: World): World {
    World(Vanish(w.objs, env.event(w.calls).vanishing), w.calls + 1)
  }

  function Served(env: Env, w: World): bool {
    env.event(w.calls).fate.Served?
  }

  function Get(env: Env, w: World, l: Loc): (World, Reply) {
    var w1 := Tick(env, w);
    (w1, if !Served(env, w) then Failed else if l in w1.objs then Found(w1.objs[l]) else Missing)
  }

  function Marked(objs: Objects, l: Loc): Objects
    requires l in objs
  {
    objs[l := objs[l].(terminating := true)]
  }

  function Delete(env: Env, w: World, l: Loc): (World, Reply) {
    var e, w1 := env.event(w.calls), Tick(env, w);
    if e.fate.Rejected? then (w1, Failed)
    else if l !in w1.objs then (w1, if e.fate.Lost? then Failed else Missing)
    else
      (w1.(objs := if l in e.lingering then Marked(w1.objs, l) else Without(w1.objs, {l})),
       if e.fate.Lost? then Failed else Found(w1.objs[l]))
  }

  /** The namespace, if any, exists and is not terminating. */
  predicate Open(objs: Objects, l: Loc) {
    l.Namespaced() ==> l.House() in objs && !objs[l.House()].terminating
  }

  /** Objects are created only into open namespaces. */
  predicate Admitted(objs: Objects, l: Loc) {
    l !in objs && Open(objs, l)
  }

  function Create(env: Env, w: World, l: Loc, obj: Obj): (World, Reply) {
    var e, w1 := env.event(w.calls), Tick(env, w);
    var stored := obj.(uid := w1.calls, terminating := false, ready := 0);
    if e.fate.Rejected? || !Admitted(w1.objs, l) then (w1, Failed)
    else (w1.(objs := w1.objs[l := stored]), if e.fate.Lost? then Failed else Found(stored))
  }

  function Update(env: Env, w: World, l: Loc, obj: Obj): (World, Reply) {
    var e, w1 := env.event(w.calls), Tick(env, w);
    if e.fate.Rejected? || l !in w1.objs then (w1, Failed)
    else
      var current := w1.objs[l];
      var stored := obj.(uid := current.uid, terminating := current.terminating, ready := current.ready);
      (w1.(objs := w1.objs[l := stored]), if e.fate.Lost? then Failed else Found(stored))
  }

  /** A token request; it needs the service account. */
  function IssueToken(env: Env, w: World, account: Loc): (World, Option<Token>) {
    var w1 := Tick(env, w);
    (w1, if Served(env, w) && account in w1.objs then Some(env.event(w.calls).token) else None)
  }

  const MANAGED_BY := "app.kubernetes.io/managed-by"
  const MANAGED_BY_VALUE := "service-provider-velero"

  predicate ManagedLabel(obj: Obj) {
    MANAGED_BY in obj.labels && obj.labels[MANAGED_BY] == MANAGED_BY_VALUE
  }

  /** The managed secrets of a namespace: what the cleaner's list call selects. */
  function ManagedSecrets(objs: Objects, cluster: nat, ns: string): set<Loc> {
    set l | l in objs && l.kind == Secret && l.cluster == cluster && l.ns == ns && ManagedLabel(objs[l])
  }

  function List(env: Env, w: World, cluster: nat, ns: string): (World, Option<seq<Loc>>) {
    var w1 := Tick(env, w);
    (w1, if Served(env, w) then Some(env.order(ManagedSecrets(w1.objs, cluster, ns))) else None)
  }

  // ----- facts about the effects -----

  /** A store that has only lost objects, namespaces with their contents, or seen objects marked terminating. */
  ghost predicate Fades(a: Objects, b: Objects) {
    forall l :: l in b ==>
      && l in a && (b[l] == a[l] || b[l] == a[l].(terminating := true))
      && (l.Namespaced() && l.House() in a ==> l.House() in b)
  }

  /** From call `from` on every call is served. */
  ghost predicate Prompt(env: Env, from: nat) {
    forall n: nat :: n >= from ==> env.event(n).fate.Served?
  }

  /** From call `from` on deletions do not linger. */
  ghost predicate Brisk(env: Env, from: nat) {
    forall n: nat :: n >= from ==> env.event(n).lingering == {}
  }

  /** Nothing is terminating. */
  ghost predicate Calm(objs: Objects) {
    forall l :: l in objs ==> !objs[l].terminating
  }

  lemma VanishKeepsFirm(objs: Objects, request: set<Loc>, l: Loc)
    requires Firm(objs, l)
    ensures Firm(Vanish(objs, request), l) && Vanish(objs, request)[l] == objs[l]
  {
  }

  lemma VanishWhenCalm(objs: Objects, request: set<Loc>)
    requires Calm(objs)
    ensures Vanish(objs, request) == objs
  {
    var gone := set l | l in request && Doomed(objs, l);
    assert gone == {};
    assert Without(objs, {}) == objs;
  }

  lemma TickFades(env: Env, w: World)
    ensures Fades(w.objs, Tick(env, w).objs)
  {
  }

  lemma DeleteFades(env: Env, w: World, l: Loc)
    ensures Fades(w.objs, Delete(env, w, l).0.objs)
  {
  }

  /** A deletion spares every firm object other than its target and the contents of its target. */
  lemma DeleteSpares(env: Env, w: World, l: Loc, x: Loc)
    requires Firm(w.objs, x) && x != l && !x.LivesIn(l)
    ensures var b := Delete(env, w, l).0.objs; Firm(b, x) && b[x] == w.objs[x]
  {
    VanishKeepsFirm(w.objs, env.event(w.calls).vanishing, x);
  }

  lemma CreateSpares(env: Env, w: World, l: Loc, obj: Obj, x: Loc)
    requires Firm(w.objs, x)
    ensures var b := Create(env, w, l, obj).0.objs; Firm(b, x) && b[x] == w.objs[x]
  {
    VanishKeepsFirm(w.objs, env.event(w.calls).vanishing, x);
  }

  lemma UpdateSpares(env: Env, w: World, l: Loc, obj: Obj, x: Loc)
    requires Firm(w.objs, x)
    ensures var b := Update(env, w, l, obj).0.objs; Firm(b, x) && (x != l ==> b[x] == w.objs[x])
  {
    VanishKeepsFirm(w.objs, env.event(w.calls).vanishing, x);
  }

  // ----- namespaces -----

  /** Every namespaced object lives in an existing namespace. */
  ghost predicate Housed(objs: Objects) {
    forall l :: l in objs && l.Namespaced() ==> l.House() in objs
  }

  lemma WithoutKeepsHoused(objs: Objects, gone: set<Loc>)
    requires Housed(objs)
    ensures Housed(Without(objs, gone))
  {
  }

  lemma TickKeepsHoused(env: Env, w: World)
    requires Housed(w.objs)
    ensures Housed(Tick(env, w).objs)
  {
  }

  lemma DeleteKeepsHoused(env: Env, w: World, l: Loc)
    requires Housed(w.objs)
    ensures Housed(Delete(env, w, l).0.objs)
  {
    var w1 := Tick(env, w);
    WithoutKeepsHoused(w1.objs, {l});
  }

  lemma WriteKeepsHoused(env: Env, w: World, l: Loc, obj: Obj)
    requires Housed(w.objs)
    ensures Housed(Create(env, w, l, obj).0.objs) && Housed(Update(env, w, l, obj).0.objs)
  {
    TickKeepsHoused(env, w);
  }
}

/** The store as the mutable object behind the cluster clients. */
module ApiClient {
  import opened Basics
  import opened ApiServer

  class Servers {
    var world: World
    const env: Env

    constructor (world: World, env: Env)
      ensures this.world == world && this.env == env
    {
      this.world, this.env := world, env;
    }

    method Get(l: Loc) returns (r: Reply)
      modifies this
      ensures (world, r) == ApiServer.Get(env, old(world), l)
    {
      var p := ApiServer.Get(env, world, l);
      world, r := p.0, p.1;
    }

    method Delete(l: Loc) returns (r: Reply)
      modifies this
      ensures (world, r) == ApiServer.Delete(env, old(world), l)
    {
      var p := ApiServer.Delete(env, world, l);
      world, r := p.0, p.1;
    }

    method Create(l: Loc, obj: Obj) returns (r: Reply)
      modifies this
      ensures (world, r) == ApiServer.Create(env, old(world), l, obj)
    {
      var p := ApiServer.Create(env, world, l, obj);
      world, r := p.0, p.1;
    }

    method Update(l: Loc, obj: Obj) returns (r: Reply)
      modifies this
      ensures (world, r) == ApiServer.Update(env, old(world), l, obj)
    {
      var p := ApiServer.Update(env, world, l, obj);
      world, r := p.0, p.1;
    }

    method IssueToken(account: Loc) returns (r: Option<Token>)
      modifies this
      ensures (world, r) == ApiServer.IssueToken(env, old(world), account)
    {
      var p := ApiServer.IssueToken(env, world, account);
      world, r := p.0, p.1;
    }

    method List(cluster: nat, ns: string) returns (r: Option<seq<Loc>>)
      modifies this
      ensures (world, r) == ApiServer.List(env, old(world), cluster, ns)
    {
      var p := ApiServer.List(env, world, cluster, ns);
      world, r := p.0, p.1;
    }
  }
}
