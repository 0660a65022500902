/** What passes do to the token secret: when its token is replaced, and what the record says about it. */
module TokenRefresh {
  import opened Basics
  import opened ApiServer
  import opened Passes
  import opened Deletion
  import opened Sparing
  import opened Wiring

  // ----- tokens and their records -----

  /**
   The secret carries this token where a pod looks for it, beside the certificate and the namespace and
   nothing else, and its expiration cut down to whole seconds.
  */
  ghost predicate Records(obj: Obj, token: Token, ca: string) {
    && obj.data.Keys == {"token", "namespace", "ca.crt"}
    && obj.data["token"] == token.text && obj.data["namespace"] == "velero" && obj.data["ca.crt"] == ca
    && obj.expires == Some(Stamp(token.expiry))
  }

  lemma TokenDataRecords(obj: Obj, token: Token, ca: string)
    requires obj.data == TokenData(token.text, MCP_NAMESPACE, ca) && obj.expires == Some(Stamp(token.expiry))
    ensures Records(obj, token, ca)
  {
    assert |"token"| == 5 && |"namespace"| == 9 && |"ca.crt"| == 6;
  }

  /** Tokens that were issued, each with the certificate that goes with it. */
  type Tokens = set<(Token, string)>

  ghost predicate Carries(known: Tokens, obj: Obj, bound: int) {
    exists token, ca :: (token, ca) in known && Records(obj, token, ca) && token.expiry >= bound
  }

  /** The secret, if it exists, carries a known token that does not expire before `bound`. */
  ghost predicate HoldsUntil(known: Tokens, objs: Objects, l: Loc, bound: int) {
    l in objs ==> Carries(known, objs[l], bound)
  }

  /** If the secret has a record, it is that of a known token. */
  ghost predicate Truthful(known: Tokens, objs: Objects, l: Loc) {
    l in objs && objs[l].expires.Some? ==>
      exists token, ca :: (token, ca) in known && Records(objs[l], token, ca)
  }

  function RecordOf(objs: Objects, l: Loc): Option<int> {
    if l in objs then objs[l].expires else None
  }

  lemma StampIsEarlier(expiry: int)
    ensures expiry - SECOND < Stamp(expiry) * SECOND <= expiry
  {
  }

  /** If the object exists it stays. */
  ghost predicate Steady(objs: Objects, l: Loc) {
    l in objs ==> !Doomed(objs, l)
  }

  /** The object is gone, or has the content it had. */
  ghost predicate Kept(a: Objects, b: Objects, l: Loc) {
    l in b ==> l in a && b[l].data == a[l].data && b[l].expires == a[l].expires
  }

  /** The object is where it was, or is not, and stays so. */
  ghost predicate SteadilyKept(a: Objects, b: Objects, l: Loc) {
    Kept(a, b, l) && (Steady(a, l) ==> Steady(b, l) && (l in a ==> l in b))
  }

  lemma KeptKeepsRecords(known: Tokens, more: Tokens, a: Objects, b: Objects, l: Loc, bound: int)
    requires Kept(a, b, l) && known <= more
    ensures HoldsUntil(known, a, l, bound) ==> HoldsUntil(more, b, l, bound)
    ensures Truthful(known, a, l) ==> Truthful(more, b, l)
  {
    if HoldsUntil(known, a, l, bound) && l in b {
      var token, ca :| (token, ca) in known && Records(a[l], token, ca) && token.expiry >= bound;
      assert (token, ca) in more && Records(b[l], token, ca);
    }
    if Truthful(known, a, l) && l in b && b[l].expires.Some? {
      var token, ca :| (token, ca) in known && Records(a[l], token, ca);
      assert (token, ca) in more && Records(b[l], token, ca);
    }
  }

  lemma TickKeeps(env: Env, w: World, l: Loc)
    ensures SteadilyKept(w.objs, Tick(env, w).objs, l)
  {
    if l in w.objs && Steady(w.objs, l) {
      VanishKeepsFirm(w.objs, env.event(w.calls).vanishing, l);
    }
  }

  // ----- the token's own visit -----

  /** The token that the visit of the token object is issued: none unless it is due and all its calls are served. */
  function IssuedBy(env: Env, w: World, s: Setup, now: int): Option<Token> {
    var (w1, reply) := Get(env, w, TokenLoc(s));
    if reply.Failed? then None
    else
      var base := if reply.Found? then reply.obj else BLANK;
      var given := Gather(env, w1, now, TokenObject(s).recipe, base).1;
      if given.Some? && given.value.Minted? then Some(given.value.token) else None
  }

  /** An issued token is the reply to a served request for the existing account, made during the visit. */
  lemma IssuedTokenWasRequested(env: Env, w: World, s: Setup, now: int) returns (u: World)
    requires IssuedBy(env, w, s, now).Some?
    ensures w.calls <= u.calls < ApplyOne(env, w, s.instance, now, TokenObject(s)).0.calls
    ensures env.event(u.calls).fate.Served? && ACCOUNT in u.objs
    ensures IssueToken(env, u, ACCOUNT).1 == IssuedBy(env, w, s, now)
  {
    hide Vanish;
    u := Get(env, Get(env, w, TokenLoc(s)).0, ACCOUNT).0;
  }

  /** The secret ends with the old content, or with that of the issued token. */
  ghost predicate KeepsOrMints(s: Setup, now: int, a: Objects, b: Objects, issued: Option<Token>, failed: bool) {
    var l := TokenLoc(s);
    && (Steady(a, l) ==> Steady(b, l) && ((l in a || !failed) ==> l in b))
    && (|| (Kept(a, b, l) && (failed || !TokenDue(now, s.poll, RecordOf(a, l)) || l !in b))
        || (l in b && issued.Some? && Records(b[l], issued.value, s.ca)))
  }

  /** What a minting visit writes carries the token, whatever the server adds. */
  lemma ShapedTokenRecords(s: Setup, given: Given, base: Obj)
    requires given.Minted?
    ensures var shaped := Shape(s.instance, TokenObject(s).recipe, given, base);
            forall uid, terminating, ready ::
              Records(shaped.(uid := uid, terminating := terminating, ready := ready), given.token, s.ca)
  {
    var shaped := Shape(s.instance, TokenObject(s).recipe, given, base);
    TokenDataRecords(shaped, given.token, s.ca);
  }

  lemma ShapedWithoutToken(s: Setup, given: Given, base: Obj)
    requires !given.Minted?
    ensures var shaped := Shape(s.instance, TokenObject(s).recipe, given, base);
            shaped.data == base.data && shaped.expires == base.expires
  {
  }

  lemma TokenVisit(env: Env, w: World, s: Setup, now: int)
    ensures var (w1, result) := ApplyOne(env, w, s.instance, now, TokenObject(s));
            KeepsOrMints(s, now, w.objs, w1.objs, IssuedBy(env, w, s, now), result.error.Some?)
  {
    hide Vanish, Shape, Stamp;
    var m, l := TokenObject(s), TokenLoc(s);
    TickKeeps(env, w, l);
    var (w1, reply) := Get(env, w, l);
    if !reply.Failed? {
      var base := if reply.Found? then reply.obj else BLANK;
      TickKeeps(env, w1, l);
      TickKeeps(env, Tick(env, w1), l);
      var (w2, given) := Gather(env, w1, now, m.recipe, base);
      if given.Some? {
        TickKeeps(env, w2, l);
        if given.value.Minted? {
          ShapedTokenRecords(s, given.value, base);
        } else {
          ShapedWithoutToken(s, given.value, base);
        }
      }
    }
  }

  // ----- whole passes -----

  lemma OtherVisitKeeps(env: Env, w: World, instance: string, now: int, m: Managed, l: Loc)
    requires m.loc != l
    ensures SteadilyKept(w.objs, ApplyOne(env, w, instance, now, m).0.objs, l)
  {
    hide ApplyOne;
    VisitConfined(env, w, instance, now, m);
    if l in w.objs && Steady(w.objs, l) {
      ApplyOneSpares(env, w, instance, now, m, l);
    }
  }

  /** Visits before or after the token's keep the content of its secret. */
  lemma {:induction false} OtherVisitsKeep(env: Env, w: World, mode: Mode, s: Setup, i: nat, n: nat)
    requires TokenNameIsFree(s) && mode.Applying?
    requires i <= n <= |Plan(s)| && !(i <= TokenIndex(s) < n)
    ensures var a, b := Visits(env, w, mode, Plan(s), i).0.objs, Visits(env, w, mode, Plan(s), n).0.objs;
            SteadilyKept(a, b, TokenLoc(s))
  {
    hide DeleteOne, ApplyOne, Plan;
    if i < n {
      OtherVisitsKeep(env, w, mode, s, i, n - 1);
      TokenAtItsIndex(s, n - 1);
      OtherVisitKeeps(env, Visits(env, w, mode, Plan(s), n - 1).0, mode.instance, mode.now, Plan(s)[n - 1],
                      TokenLoc(s));
    }
  }

  lemma CleanupKeeps(env: Env, w: World, s: Setup)
    ensures SteadilyKept(w.objs, Cleanup(env, w, TenantCleaner(s)).0.objs, TokenLoc(s))
  {
    hide Cleanup;
    CleanupFades(env, w, TenantCleaner(s));
    if TokenLoc(s) in w.objs && Steady(w.objs, TokenLoc(s)) {
      assert TenantCleaner(s).keep[|s.pullSecrets|] == TOKEN_SECRET;
      CleanupSpares(env, w, TenantCleaner(s), TokenLoc(s));
    }
  }

  /** The token that an Apply pass is issued. */
  function IssuedIn(env: Env, w: World, s: Setup, now: int): Option<Token> {
    PlanStart(s);
    IssuedBy(env, Visits(env, w, Applying(s.instance, now), Plan(s), TokenIndex(s)).0, s, now)
  }

  /**
   What a whole Apply pass does to the token secret: it keeps the content, or puts in that of the token it
   was issued; an error-free pass does the latter whenever the old token was due.
  */
  lemma ApplyPassKeepsOrMints(env: Env, w: World, s: Setup, now: int)
    requires TokenNameIsFree(s)
    ensures var report := Pass(env, w, Applying(s.instance, now), Plan(s), CleanersFor(s));
            KeepsOrMints(s, now, w.objs, report.world.objs, IssuedIn(env, w, s, now), !ErrorFree(report))
  {
    hide DeleteOne, ApplyOne, Plan, Cleanup, IssuedBy;
    var mode, plan, k := Applying(s.instance, now), Plan(s), TokenIndex(s);
    PlanStart(s);
    var before := Visits(env, w, mode, plan, k).0;
    var (last, results) := Visits(env, w, mode, plan, |plan|);
    OtherVisitsKeep(env, w, mode, s, 0, k);
    TokenVisit(env, before, s, now);
    OtherVisitsKeep(env, w, mode, s, k + 1, |plan|);
    CleanupKeeps(env, last, s);
    OneCleaner(env, Report(last, results, false), s);
    PassReportsEveryObject(env, w, mode, plan, CleanersFor(s));
    VisitResult(env, w, mode, plan, k);
  }

  /** A pass that finds a firm record that is not due is issued no token. */
  lemma NoTokenBeforeTime(env: Env, w: World, s: Setup, now: int)
    requires TokenNameIsFree(s) && Firm(w.objs, TokenLoc(s))
    requires !TokenDue(now, s.poll, RecordOf(w.objs, TokenLoc(s)))
    ensures IssuedIn(env, w, s, now) == None
  {
    hide DeleteOne, ApplyOne, Plan;
    PlanStart(s);
    var l, before := TokenLoc(s), Visits(env, w, Applying(s.instance, now), Plan(s), TokenIndex(s)).0;
    OtherVisitsKeep(env, w, Applying(s.instance, now), s, 0, TokenIndex(s));
    TickKeeps(env, before, l);
  }

  lemma {:induction false} VisitsTakeCalls(env: Env, w: World, mode: Mode, plan: seq<Managed>, i: nat, n: nat)
    requires i <= n <= |plan|
    ensures Visits(env, w, mode, plan, i).0.calls <= Visits(env, w, mode, plan, n).0.calls
  {
    hide Visit;
    if i < n {
      VisitsTakeCalls(env, w, mode, plan, i, n - 1);
    }
  }

  /** The token a pass is issued is the reply to a served request of the pass, for the account that exists then. */
  lemma TokenOfPassWasRequested(env: Env, w: World, s: Setup, now: int) returns (u: World)
    requires IssuedIn(env, w, s, now).Some?
    ensures w.calls <= u.calls < Pass(env, w, Applying(s.instance, now), Plan(s), CleanersFor(s)).world.calls
    ensures env.event(u.calls).fate.Served? && ACCOUNT in u.objs
    ensures IssueToken(env, u, ACCOUNT).1 == IssuedIn(env, w, s, now)
  {
    hide ApplyOne, DeleteOne, Cleanups, Plan, IssuedBy;
    var mode, plan, k := Applying(s.instance, now), Plan(s), TokenIndex(s);
    PlanStart(s);
    u := IssuedTokenWasRequested(env, Visits(env, w, mode, plan, k).0, s, now);
    VisitsTakeCalls(env, w, mode, plan, k + 1, |plan|);
  }
}
