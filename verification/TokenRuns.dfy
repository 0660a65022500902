/** Tokens over whole runs: what a pod can see of them, and how often they are issued. */
module TokenRuns {
  import opened Basics
  import opened ApiServer
  import opened Passes
  import opened Deletion
  import opened Wiring
  import opened Runs
  import opened TokenRefresh
  import opened Convergence
  import Fixpoint

  // ----- the tokens of a run -----

  /** What an Apply pass adds to the tokens that were issued. */
  function NewTokens(env: Env, w: World, s: Setup, now: int): Tokens {
    var token := IssuedIn(env, w, s, now);
    if token.Some? then {(token.value, s.ca)} else {}
  }

  /** The tokens issued before the run and by its first `n` steps. */
  function Issued(env: Env, w: World, steps: seq<Step>, n: nat, known: Tokens): Tokens
    requires n <= |steps|
  {
    if n == 0 then known
    else
      var before, st := Issued(env, w, steps, n - 1, known), steps[n - 1];
      if st.deleting then before
      else before + NewTokens(env, StartOf(env, w, steps, n - 1), st.setup, st.now)
  }

  /** If step `i` is issued a token, the token lives at least `life`. */
  ghost predicate Grants(env: Env, w: World, steps: seq<Step>, i: nat, life: int) {
    && i < |steps|
    && var token := IssuedIn(env, StartOf(env, w, steps, i), steps[i].setup, steps[i].now);
       token.Some? ==> token.value.expiry >= steps[i].now + life
  }

  // ----- one pass of a run -----

  /** What an Apply pass makes of a truthful record, when its token lives at least `life` from now. */
  lemma ApplyPassHolds(env: Env, w: World, s: Setup, now: int, life: int, known: Tokens, bound: int)
    requires TokenNameIsFree(s) && Truthful(known, w.objs, TokenLoc(s))
    requires var token := IssuedIn(env, w, s, now); token.Some? ==> token.value.expiry >= now + life
    ensures var report, l, more := ApplyPass(env, w, s, now), TokenLoc(s), known + NewTokens(env, w, s, now);
            && Truthful(more, report.world.objs, l)
            && (HoldsUntil(known, w.objs, l, bound) && bound <= now + life ==>
                  HoldsUntil(more, report.world.objs, l, bound))
            && (ErrorFree(report) && life >= s.poll + MINUTE ==>
                  HoldsUntil(more, report.world.objs, l, now + s.poll + MINUTE))
            && (ErrorFree(report) && life >= s.poll + MINUTE + SECOND && l in report.world.objs ==>
                  !TokenDue(now, s.poll, report.world.objs[l].expires))
  {
    hide Pass, ErrorFree, IssuedIn;
    var report, l, more := ApplyPass(env, w, s, now), TokenLoc(s), known + NewTokens(env, w, s, now);
    var a, b, issued := w.objs, report.world.objs, IssuedIn(env, w, s, now);
    ApplyPassKeepsOrMints(env, w, s, now);
    if l in b && issued.Some? && Records(b[l], issued.value, s.ca) {
      assert (issued.value, s.ca) in more;
      StampIsEarlier(issued.value.expiry);
    } else {
      KeptKeepsRecords(known, more, a, b, l, bound);
      if l in b && !TokenDue(now, s.poll, RecordOf(a, l)) {
        var token, ca :| (token, ca) in more && Records(b[l], token, ca);
        StampIsEarlier(token.expiry);
      }
    }
  }

  lemma FadesKeep(a: Objects, b: Objects, l: Loc)
    requires Fades(a, b)
    ensures Kept(a, b, l)
  {
  }

  /** Any pass, of either mode, keeps what the secret holds, up to the life of the token it is issued. */
  lemma StepHolds(
    env: Env, w: World, steps: seq<Step>, i: nat, known: Tokens, life: int, bound: int)
    requires i < |steps| && TokenNameIsFree(steps[i].setup)
    requires !steps[i].deleting ==> Grants(env, w, steps, i, life) && bound <= steps[i].now + life
    requires Truthful(Issued(env, w, steps, i, known), Execute(env, w, steps[..i]).objs, TokenLoc(steps[i].setup))
    ensures var l := TokenLoc(steps[i].setup);
            var o, more := Issued(env, w, steps, i, known), Issued(env, w, steps, i + 1, known);
            var a, b := Execute(env, w, steps[..i]).objs, Execute(env, w, steps[..i + 1]).objs;
            Truthful(more, b, l) && (HoldsUntil(o, a, l, bound) ==> HoldsUntil(more, b, l, bound))
  {
    hide Pass, IssuedIn, Records;
    var st, l, o := steps[i], TokenLoc(steps[i].setup), Issued(env, w, steps, i, known);
    var a, start := Execute(env, w, steps[..i]), StartOf(env, w, steps, i);
    ExecuteNext(env, w, steps, i);
    KeptKeepsRecords(o, o, a.objs, start.objs, l, bound);
    if st.deleting {
      DeletePassFades(env, start, Plan(st.setup), CleanersFor(st.setup));
      FadesKeep(start.objs, ReportOf(env, w, steps, i).world.objs, l);
      KeptKeepsRecords(o, o, start.objs, ReportOf(env, w, steps, i).world.objs, l, bound);
    } else {
      ApplyPassHolds(env, start, st.setup, st.now, life, o, bound);
    }
  }

  // ----- safety -----

  /** All steps serve one tenant namespace; poll intervals, certificates and everything else may change. */
  ghost predicate OneTenant(steps: seq<Step>, ns: string) {
    forall i :: 0 <= i < |steps| ==> steps[i].setup.ns == ns && TokenNameIsFree(steps[i].setup)
  }

  function SecretOf(ns: string): Loc {
    TenantLoc(ns, Secret, TOKEN_SECRET)
  }

  /** Tokens issued by the first `n` steps live at least the poll interval of the step and a minute. */
  ghost predicate LongLived(env: Env, w: World, steps: seq<Step>, n: nat) {
    n <= |steps| && forall i :: 0 <= i < n && !steps[i].deleting ==>
                      Grants(env, w, steps, i, steps[i].setup.poll + MINUTE)
  }

  lemma {:induction false} StaysTruthful(env: Env, w: World, steps: seq<Step>, ns: string, known: Tokens, n: nat)
    requires OneTenant(steps, ns) && LongLived(env, w, steps, n) && Truthful(known, w.objs, SecretOf(ns))
    ensures Truthful(Issued(env, w, steps, n, known), Execute(env, w, steps[..n]).objs, SecretOf(ns))
  {
    hide Pass, Truthful, Grants;
    if n > 0 {
      StaysTruthful(env, w, steps, ns, known, n - 1);
      StepHolds(env, w, steps, n - 1, known, steps[n - 1].setup.poll + MINUTE,
                steps[n - 1].now + steps[n - 1].setup.poll + MINUTE);
    }
  }

  lemma HoldsLess(known: Tokens, objs: Objects, l: Loc, bound: int, less: int)
    requires HoldsUntil(known, objs, l, bound) && less <= bound
    ensures HoldsUntil(known, objs, l, less)
  {
  }

  /** An error-free Apply pass leaves a token that lasts for its poll interval and a minute. */
  lemma ErrorFreeStepHolds(env: Env, w: World, steps: seq<Step>, i: nat, known: Tokens)
    requires i < |steps| && TokenNameIsFree(steps[i].setup)
    requires !steps[i].deleting && ErrorFree(ReportOf(env, w, steps, i))
    requires Grants(env, w, steps, i, steps[i].setup.poll + MINUTE)
    requires Truthful(Issued(env, w, steps, i, known), Execute(env, w, steps[..i]).objs, TokenLoc(steps[i].setup))
    ensures HoldsUntil(Issued(env, w, steps, i + 1, known), Execute(env, w, steps[..i + 1]).objs,
                       TokenLoc(steps[i].setup), steps[i].now + steps[i].setup.poll + MINUTE)
  {
    hide Pass, Truthful, ErrorFree, IssuedIn, Records;
    var st, start, o := steps[i], StartOf(env, w, steps, i), Issued(env, w, steps, i, known);
    ExecuteNext(env, w, steps, i);
    KeptKeepsRecords(o, o, Execute(env, w, steps[..i]).objs, start.objs, TokenLoc(st.setup), 0);
    ApplyPassHolds(env, start, st.setup, st.now, st.setup.poll + MINUTE, o, 0);
  }

  /** After the error-free pass `i` the secret holds until `bound`, if all Apply passes from `i` on would do for it. */
  lemma {:induction false} HoldsFrom(
    env: Env, w: World, steps: seq<Step>, ns: string, known: Tokens, i: nat, n: nat, bound: int)
    requires OneTenant(steps, ns) && LongLived(env, w, steps, n) && Truthful(known, w.objs, SecretOf(ns))
    requires i < n && !steps[i].deleting && ErrorFree(ReportOf(env, w, steps, i))
    requires forall j :: i <= j < n && !steps[j].deleting ==> bound <= steps[j].now + steps[j].setup.poll + MINUTE
    ensures HoldsUntil(Issued(env, w, steps, n, known), Execute(env, w, steps[..n]).objs, SecretOf(ns), bound)
  {
    hide Execute, Issued, Truthful, HoldsUntil, Grants, ErrorFree;
    var st := steps[n - 1];
    StaysTruthful(env, w, steps, ns, known, n - 1);
    if i < n - 1 {
      HoldsFrom(env, w, steps, ns, known, i, n - 1, bound);
      StepHolds(env, w, steps, n - 1, known, st.setup.poll + MINUTE, bound);
    } else {
      ErrorFreeStepHolds(env, w, steps, i, known);
      HoldsLess(Issued(env, w, steps, n, known), Execute(env, w, steps[..n]).objs, SecretOf(ns),
                st.now + st.setup.poll + MINUTE, bound);
    }
  }

  /** An Apply pass leaves an existing secret in place, and an error-free one puts it there. */
  lemma StepLeavesSecret(env: Env, w: World, steps: seq<Step>, i: nat)
    requires i < |steps| && TokenNameIsFree(steps[i].setup) && !steps[i].deleting
    requires Steady(Execute(env, w, steps[..i]).objs, TokenLoc(steps[i].setup))
    ensures var l := TokenLoc(steps[i].setup);
            var a, b := Execute(env, w, steps[..i]).objs, Execute(env, w, steps[..i + 1]).objs;
            Steady(b, l) && (l in a || ErrorFree(ReportOf(env, w, steps, i)) ==> l in b)
  {
    hide Pass, ErrorFree, IssuedIn;
    ExecuteNext(env, w, steps, i);
    ApplyPassKeepsOrMints(env, StartOf(env, w, steps, i), steps[i].setup, steps[i].now);
  }

  lemma {:induction false} SecretStays(env: Env, w: World, steps: seq<Step>, ns: string, k: nat, n: nat)
    requires OneTenant(steps, ns) && k <= n <= |steps| && Steady(Execute(env, w, steps[..k]).objs, SecretOf(ns))
    requires forall j :: k <= j < n ==> !steps[j].deleting
    ensures var a, b := Execute(env, w, steps[..k]).objs, Execute(env, w, steps[..n]).objs;
            Steady(b, SecretOf(ns)) && (SecretOf(ns) in a ==> SecretOf(ns) in b)
  {
    hide Execute, Steady, ErrorFree;
    if k < n {
      SecretStays(env, w, steps, ns, k, n - 1);
      StepLeavesSecret(env, w, steps, n - 1);
    }
  }

  /** By time `now` a pod has seen what the secret held at time `t`, when the first `n` steps had been made. */
  ghost predicate PodMaySee(steps: seq<Step>, now: int, t: int, n: nat) {
    && n <= |steps| && now - MINUTE <= t <= now
    && (n > 0 ==> steps[n - 1].now <= t) && (n < |steps| ==> t < steps[n].now)
  }

  /**
   No pod ever holds an expired token: in every run of Apply and Delete passes for a tenant, with changing
   poll intervals and certificates and any fate of every call, in which issued tokens live at least the poll
   interval and a minute and the last error-free pass `i` and the Apply passes after it are less than their poll
   intervals ago, whatever a pod sees of the token secret is a token that was issued - before the run, or to one
   of its passes - and has not expired. If nothing was deleted, the secret is there.
  */
  lemma PodNeverSeesExpiredToken(
    env: Env, w: World, steps: seq<Step>, ns: string, known: Tokens, now: int, t: int, n: nat, i: nat)
    requires OneTenant(steps, ns) && LongLived(env, w, steps, n) && Truthful(known, w.objs, SecretOf(ns))
    requires PodMaySee(steps, now, t, n)
    requires i < n && !steps[i].deleting && ErrorFree(ReportOf(env, w, steps, i))
    requires forall j :: i <= j < n && !steps[j].deleting ==> t < steps[j].now + steps[j].setup.poll
    ensures HoldsUntil(Issued(env, w, steps, n, known), Execute(env, w, steps[..n]).objs, SecretOf(ns), now + 1)
    ensures Steady(w.objs, SecretOf(ns)) && (forall j :: 0 <= j < n ==> !steps[j].deleting) ==>
              SecretOf(ns) in Execute(env, w, steps[..n]).objs
  {
    hide Pass, ErrorFree, Truthful;
    HoldsFrom(env, w, steps, ns, known, i, n, now + 1);
    if Steady(w.objs, SecretOf(ns)) && forall j :: 0 <= j < n ==> !steps[j].deleting {
      assert steps[..0] == [];
      SecretStays(env, w, steps, ns, 0, i);
      StepLeavesSecret(env, w, steps, i);
      SecretStays(env, w, steps, ns, i + 1, n);
    }
  }

  // ----- tokens that do not live long enough -----

  /** An error-free pass that finds the token due puts in the one that it is issued. */
  lemma DuePassMints(env: Env, w: World, s: Setup, now: int)
    requires TokenNameIsFree(s) && Steady(w.objs, TokenLoc(s))
    requires TokenDue(now, s.poll, RecordOf(w.objs, TokenLoc(s))) && ErrorFree(ApplyPass(env, w, s, now))
    ensures var report, l, issued := ApplyPass(env, w, s, now), TokenLoc(s), IssuedIn(env, w, s, now);
            && l in report.world.objs && Steady(report.world.objs, l)
            && issued.Some? && Records(report.world.objs[l], issued.value, s.ca)
  {
    hide Pass, ErrorFree, IssuedIn;
    ApplyPassKeepsOrMints(env, w, s, now);
  }

  /** An error-free Apply pass whose token lives less than its poll interval and a minute. */
  ghost predicate IssuesShort(env: Env, w: World, steps: seq<Step>, i: nat, ns: string) {
    && i < |steps| && !steps[i].deleting && steps[i].setup.ns == ns && TokenNameIsFree(steps[i].setup)
    && ErrorFree(ReportOf(env, w, steps, i))
    && var token := IssuedIn(env, StartOf(env, w, steps, i), steps[i].setup, steps[i].now);
       token.Some? ==> token.value.expiry < steps[i].now + steps[i].setup.poll + MINUTE
  }

  /** Every pass comes no earlier than its predecessor, measured by the ends of their poll intervals. */
  ghost predicate Spaced(steps: seq<Step>) {
    forall i :: 0 <= i < |steps| - 1 ==>
      steps[i].now + steps[i].setup.poll <= steps[i + 1].now + steps[i + 1].setup.poll
  }

  lemma ShortTokenIsDue(obj: Obj, token: Token, ca: string, now: int, poll: int)
    requires Records(obj, token, ca) && token.expiry < now + poll + MINUTE
    ensures TokenDue(now, poll, obj.expires)
  {
    StampIsEarlier(token.expiry);
  }

  /**
   With tokens that live less than the poll interval and a minute every error-free pass replaces the
   token, and a pod that sees the new one at the end of the poll interval sees it expire within its minute.
  */
  lemma {:induction false} ShortTokensExpireInPods(env: Env, w: World, steps: seq<Step>, ns: string, n: nat)
    returns (token: Token)
    requires 0 < n <= |steps| && Spaced(steps)
    requires forall i :: 0 <= i < n ==> IssuesShort(env, w, steps, i, ns)
    requires Steady(w.objs, SecretOf(ns))
    requires TokenDue(steps[0].now, steps[0].setup.poll, RecordOf(w.objs, SecretOf(ns)))
    ensures var objs, st := Execute(env, w, steps[..n]).objs, steps[n - 1];
            && SecretOf(ns) in objs && Steady(objs, SecretOf(ns))
            && Records(objs[SecretOf(ns)], token, st.setup.ca)
            && IssuedIn(env, StartOf(env, w, steps, n - 1), st.setup, st.now) == Some(token)
            && token.expiry <= (st.now + st.setup.poll - 1) + MINUTE
  {
    hide Pass, ErrorFree, TokenDue, IssuedIn;
    var st := steps[n - 1];
    assert IssuesShort(env, w, steps, n - 1, ns);
    var start := StartOf(env, w, steps, n - 1);
    if n > 1 {
      var last := ShortTokensExpireInPods(env, w, steps, ns, n - 1);
      var before := steps[n - 2];
      assert before.now + before.setup.poll <= st.now + st.setup.poll;
      ShortTokenIsDue(start.objs[SecretOf(ns)], last, before.setup.ca, st.now, st.setup.poll);
    } else {
      assert steps[..0] == [];
    }
    ExecuteNext(env, w, steps, n - 1);
    DuePassMints(env, start, st.setup, st.now);
    token := IssuedIn(env, start, st.setup, st.now).value;
  }

  // ----- a pull secret at the token's place -----

  /** The object at the token's place has the data of the clashing source. */
  ghost predicate HoldsCopy(s: Setup, a: Objects, b: Objects) {
    && SourceLoc(s, TOKEN_SECRET) in a && TokenLoc(s) in b
    && b[TokenLoc(s)].data == a[SourceLoc(s, TOKEN_SECRET)].data
  }

  lemma LateClashIsCopy(s: Setup, i: nat)
    requires TokenIndex(s) < i < |Plan(s)| && Plan(s)[i].loc == TokenLoc(s)
    ensures Plan(s)[i].recipe == CopyOf(SourceLoc(s, TOKEN_SECRET))
  {
    hide Plan;
    PlanStart(s);
    PlanIsWired(s, Plan(s)[i]);
    if Plan(s)[i].recipe.TokenFor? {
      TokenComesFirst(s, i);
    }
  }

  /** Once the clashing copy is made, its visits keep the source's data at the token's place. */
  lemma {:induction false} CopyStays(env: Env, w: World, s: Setup, now: int, k: nat, n: nat)
    requires Calm(w.objs) && TokenIndex(s) < k < n <= |Plan(s)|
    requires Plan(s)[k].loc == TokenLoc(s) && Plan(s)[k].recipe == CopyOf(SourceLoc(s, TOKEN_SECRET))
    requires forall j :: 0 <= j < n ==> ResultAt(env, w, s, now, j).error.None?
    ensures HoldsCopy(s, w.objs, Visits(env, w, Applies(s, now), Plan(s), n).0.objs)
  {
    hide ApplyOne, DeleteOne, Plan;
    var before, m := Visits(env, w, Applies(s, now), Plan(s), n - 1).0, Plan(s)[n - 1];
    CalmVisits(env, w, s, now, n - 1);
    CalmVisits(env, w, s, now, n);
    WiringIsTidy(s, m);
    assert ResultAt(env, w, s, now, n - 1).error.None?;
    if m.loc == TokenLoc(s) {
      LateClashIsCopy(s, n - 1);
      CalmVisitForms(env, before, s.instance, now, m);
    } else {
      CopyStays(env, w, s, now, k, n - 1);
      CalmVisit(env, before, s.instance, now, m);
    }
  }

  /**
   With a pull secret of the token secret's name, every error-free Apply pass ends with the data of that pull
   secret in the token's place: pods see no token at all.
  */
  lemma ClashHidesToken(env: Env, w: World, s: Setup, now: int)
    requires !TokenNameIsFree(s) && Calm(w.objs) && ErrorFree(ApplyPass(env, w, s, now))
    ensures HoldsCopy(s, w.objs, ApplyPass(env, w, s, now).world.objs)
  {
    hide ApplyOne, DeleteOne, Plan, Cleanup, ErrorFree;
    var k := ClashIndex(s);
    ErrorFreeMeansEveryVisit(env, w, s, now);
    CopyStays(env, w, s, now, k, |Plan(s)|);
    CalmVisits(env, w, s, now, |Plan(s)|);
    CleanerSpares(env, Visited(env, w, s, now), s);
    PlanIsNotSwept(s, Plan(s)[k]);
    PassEndsWithCleanup(env, w, s, now);
  }

  // ----- the life that is needed, exactly -----

  /** A run of Apply passes for one setup, from a housed store without the secret, with tokens of at least `life`. */
  ghost predicate Visible(
    env: Env, w: World, steps: seq<Step>, s: Setup, life: int, now: int, t: int, n: nat, i: nat)
  {
    && (forall j :: 0 <= j < |steps| ==> steps[j].setup == s && !steps[j].deleting && Grants(env, w, steps, j, life))
    && Housed(w.objs) && TokenLoc(s) !in w.objs && PodMaySee(steps, now, t, n)
    && i < n && ErrorFree(ReportOf(env, w, steps, i))
    && forall j :: i <= j < n ==> t < steps[j].now + s.poll
  }

  /** With tokens of at least this life a pod never holds anything but an issued token that has not expired. */
  ghost predicate SafeLife(s: Setup, life: int) {
    forall env: Env, w: World, steps: seq<Step>, now: int, t: int, n: nat, i: nat ::
      Visible(env, w, steps, s, life, now, t, n, i) ==>
        HoldsUntil(Issued(env, w, steps, n, {}), Execute(env, w, steps[..n]).objs, TokenLoc(s), now + 1)
  }

  /** An environment that serves every call and issues one and the same token. */
  ghost function Issuer(token: Token): Env {
    var order: Listing := locs => SomeOrder(locs);
    Env(c => Event(Fate.Served, {}, {}, token), order)
  }

  /** A store in which an Apply pass meets no obstacle, without a token secret. */
  ghost function PreparedStore(s: Setup): Objects {
    var sources := set i | 0 <= i < |s.pullSecrets| :: SourceLoc(s, s.pullSecrets[i]);
    var homes := {MCP_HOME, NamespaceLoc(WORKLOAD, s.ns), NamespaceLoc(PLATFORM, s.sourceNs)};
    map l | l in homes + {ACCOUNT} + sources :: STORED
  }

  lemma PreparedStoreIsHoused(s: Setup)
    ensures Housed(PreparedStore(s)) && Calm(PreparedStore(s)) && Fixpoint.Prepared(s, PreparedStore(s))
    ensures TokenLoc(s) !in PreparedStore(s)
  {
  }

  /** One error-free pass, at time 0, in an environment with one token only. */
  lemma IssuerPass(s: Setup, token: Token)
    ensures var env, w, st := Issuer(token), World(PreparedStore(s), 0), Step(s, false, 0, map[]);
            && StartOf(env, w, [st], 0) == w && ErrorFree(ReportOf(env, w, [st], 0))
            && ReportOf(env, w, [st], 0) == ApplyPass(env, w, s, 0)
            && Execute(env, w, [st]) == ApplyPass(env, w, s, 0).world
  {
    hide Pass, ErrorFree, Plan, PreparedStore;
    var env, w, st := Issuer(token), World(PreparedStore(s), 0), Step(s, false, 0, map[]);
    PreparedStoreIsHoused(s);
    assert Reported(w, map[]) == w && [st][..0] == [] && [st][..1] == [st];
    Fixpoint.PreparedPassIsErrorFree(env, w, s, 0);
    ExecuteNext(env, w, [st], 0);
  }

  lemma IssuerIssues(s: Setup, token: Token, w: World, now: int)
    ensures IssuedIn(Issuer(token), w, s, now) in {None, Some(token)}
  {
    hide Visits, Plan;
    PlanStart(s);
  }

  /** What the secret holds after that pass is not an issued token that lasts until `bound`. */
  lemma IssuerPassFails(s: Setup, life: int, bound: int)
    requires TokenNameIsFree(s) ==> life < bound
    ensures var env, w, st := Issuer(Token("", life)), World(PreparedStore(s), 0), Step(s, false, 0, map[]);
            !HoldsUntil(Issued(env, w, [st], 1, {}), Execute(env, w, [st]).objs, TokenLoc(s), bound)
  {
    hide Pass, ErrorFree, Plan, IssuedIn;
    var token := Token("", life);
    var env, w, st := Issuer(token), World(PreparedStore(s), 0), Step(s, false, 0, map[]);
    PreparedStoreIsHoused(s);
    IssuerPass(s, token);
    IssuerIssues(s, token, w, 0);
    assert Issued(env, w, [st], 0, {}) == {};
    assert forall t, ca :: (t, ca) in Issued(env, w, [st], 1, {}) ==> t == token;
    if TokenNameIsFree(s) {
      DuePassMints(env, w, s, 0);
    } else {
      ClashHidesToken(env, w, s, 0);
      assert "token" !in Execute(env, w, [st]).objs[TokenLoc(s)].data;
    }
  }

  lemma ShortLifeIsUnsafe(s: Setup, life: int)
    requires 0 < s.poll && (TokenNameIsFree(s) ==> life < s.poll + MINUTE)
    ensures !SafeLife(s, life)
  {
    hide Pass, ErrorFree, Plan, PreparedStore, IssuedIn;
    var token := Token("", life);
    var env, w, steps := Issuer(token), World(PreparedStore(s), 0), [Step(s, false, 0, map[])];
    PreparedStoreIsHoused(s);
    IssuerPass(s, token);
    IssuerIssues(s, token, w, 0);
    IssuerPassFails(s, life, s.poll + MINUTE);
    assert steps[..1] == steps;
    assert Grants(env, w, steps, 0, life);
    assert Visible(env, w, steps, s, life, s.poll - 1 + MINUTE, s.poll - 1, 1, 0);
  }

  lemma VisibleTokenIsValid(
    env: Env, w: World, steps: seq<Step>, s: Setup, life: int, now: int, t: int, n: nat, i: nat)
    requires TokenNameIsFree(s) && life >= s.poll + MINUTE
    requires Visible(env, w, steps, s, life, now, t, n, i)
    ensures HoldsUntil(Issued(env, w, steps, n, {}), Execute(env, w, steps[..n]).objs, TokenLoc(s), now + 1)
  {
    hide Pass, ErrorFree, IssuedIn;
    forall j | 0 <= j < n
      ensures Grants(env, w, steps, j, steps[j].setup.poll + MINUTE)
    {
      assert Grants(env, w, steps, j, life);
    }
    PodNeverSeesExpiredToken(env, w, steps, s.ns, {}, now, t, n, i);
  }

  lemma VisibleSteps(
    env: Env, w: World, steps: seq<Step>, s: Setup, life: int, now: int, t: int, n: nat, i: nat)
    requires Visible(env, w, steps, s, life, now, t, n, i)
    ensures n <= |steps|
  {
  }

  /** What is needed, exactly: a free token name, and a life of the poll interval and a minute. */
  lemma SafeLifeExactly(s: Setup, life: int)
    requires 0 < s.poll
    ensures SafeLife(s, life) <==> TokenNameIsFree(s) && life >= s.poll + MINUTE
  {
    hide Visible, Issued;
    if TokenNameIsFree(s) && life >= s.poll + MINUTE {
      forall env: Env, w: World, steps: seq<Step>, now: int, t: int, n: nat, i: nat |
        Visible(env, w, steps, s, life, now, t, n, i)
        ensures n <= |steps|
        ensures HoldsUntil(Issued(env, w, steps, n, {}), Execute(env, w, steps[..n]).objs, TokenLoc(s), now + 1)
      {
        VisibleSteps(env, w, steps, s, life, now, t, n, i);
        VisibleTokenIsValid(env, w, steps, s, life, now, t, n, i);
      }
    } else {
      ShortLifeIsUnsafe(s, life);
    }
  }

  /** The controller requests tokens of one hour; granted exactly that, poll intervals up to 59 minutes are safe. */
  lemma OneHourIsEnoughExactly(s: Setup)
    requires TokenNameIsFree(s) && 0 < s.poll
    ensures SafeLife(s, HOUR) <==> s.poll <= 59 * MINUTE
  {
    SafeLifeExactly(s, HOUR);
  }

  // ----- how often tokens are issued -----

  /** Step `i` found the token due and put in the one that it was issued. */
  ghost predicate Renews(env: Env, w: World, steps: seq<Step>, i: nat, ns: string) {
    && i < |steps| && !steps[i].deleting
    && var start, after, st := StartOf(env, w, steps, i), ReportOf(env, w, steps, i).world, steps[i];
       var issued := IssuedIn(env, start, st.setup, st.now);
       && TokenDue(st.now, st.setup.poll, RecordOf(start.objs, SecretOf(ns)))
       && SecretOf(ns) in after.objs
       && issued.Some? && Records(after.objs[SecretOf(ns)], issued.value, st.setup.ca)
  }

  /** An error-free pass over a due token is a renewal. */
  lemma ErrorFreePassRenews(env: Env, w: World, steps: seq<Step>, i: nat, ns: string)
    requires OneTenant(steps, ns) && i < |steps| && !steps[i].deleting
    requires Steady(StartOf(env, w, steps, i).objs, SecretOf(ns)) && ErrorFree(ReportOf(env, w, steps, i))
    requires TokenDue(steps[i].now, steps[i].setup.poll, RecordOf(StartOf(env, w, steps, i).objs, SecretOf(ns)))
    ensures Renews(env, w, steps, i, ns)
  {
    hide Pass, ErrorFree, IssuedIn;
    DuePassMints(env, StartOf(env, w, steps, i), steps[i].setup, steps[i].now);
  }

  /** Apply passes only, at times that do not decrease, with tokens that live at least `life`. */
  ghost predicate OnlyApplies(env: Env, w: World, steps: seq<Step>, ns: string, life: int) {
    && OneTenant(steps, ns)
    && (forall i :: 0 <= i < |steps| ==> !steps[i].deleting && Grants(env, w, steps, i, life))
    && forall i, j :: 0 <= i <= j < |steps| ==> steps[i].now <= steps[j].now
  }

  lemma RenewalHolds(env: Env, w: World, steps: seq<Step>, ns: string, life: int, i: nat)
    requires i < |steps| && Grants(env, w, steps, i, life) && Renews(env, w, steps, i, ns)
    ensures var objs, known := Execute(env, w, steps[..i + 1]).objs, Issued(env, w, steps, i + 1, {});
            && SecretOf(ns) in objs && Truthful(known, objs, SecretOf(ns))
            && HoldsUntil(known, objs, SecretOf(ns), steps[i].now + life)
  {
    hide Pass, ErrorFree, TokenDue, IssuedIn;
    ExecuteNext(env, w, steps, i);
    var token := IssuedIn(env, StartOf(env, w, steps, i), steps[i].setup, steps[i].now).value;
    assert (token, steps[i].setup.ca) in Issued(env, w, steps, i + 1, {});
  }

  /** After the renewal `i` the secret holds for at least `life` from then on. */
  lemma {:induction false} HoldsAfterRenewal(
    env: Env, w: World, steps: seq<Step>, ns: string, life: int, i: nat, n: nat)
    requires OnlyApplies(env, w, steps, ns, life) && Renews(env, w, steps, i, ns) && i < n <= |steps|
    ensures var objs, known := Execute(env, w, steps[..n]).objs, Issued(env, w, steps, n, {});
            Truthful(known, objs, SecretOf(ns)) && HoldsUntil(known, objs, SecretOf(ns), steps[i].now + life)
  {
    hide Execute, Issued, Grants, Renews, Truthful, HoldsUntil;
    if i < n - 1 {
      HoldsAfterRenewal(env, w, steps, ns, life, i, n - 1);
      StepHolds(env, w, steps, n - 1, {}, life, steps[i].now + life);
    } else {
      RenewalHolds(env, w, steps, ns, life, i);
    }
  }

  /** Two renewals are more than the token life less the poll interval and 61 seconds apart. */
  lemma RenewalsAreApart(env: Env, w: World, steps: seq<Step>, ns: string, life: int, i: nat, j: nat)
    requires OnlyApplies(env, w, steps, ns, life) && Steady(w.objs, SecretOf(ns))
    requires i < j && Renews(env, w, steps, i, ns) && Renews(env, w, steps, j, ns)
    ensures steps[j].now - steps[i].now > life - steps[j].setup.poll - MINUTE - SECOND
  {
    hide Pass, Grants, ErrorFree, IssuedIn, Issued;
    var l, objs, known := SecretOf(ns), Execute(env, w, steps[..j]).objs, Issued(env, w, steps, j, {});
    assert steps[..0] == [];
    SecretStays(env, w, steps, ns, 0, i + 1);
    RenewalHolds(env, w, steps, ns, life, i);
    SecretStays(env, w, steps, ns, i + 1, j);
    HoldsAfterRenewal(env, w, steps, ns, life, i, j);
    var token, ca :| (token, ca) in known && Records(objs[l], token, ca) && token.expiry >= steps[i].now + life;
    StampIsEarlier(token.expiry);
  }

  lemma {:induction false} GapsAddUp(times: seq<int>, gap: int)
    requires |times| >= 2 && forall a :: 0 <= a < |times| - 1 ==> times[a + 1] - times[a] > gap
    ensures (|times| - 1) * gap < Last(times) - times[0]
  {
    var last := |times| - 1;
    assert times[last] - times[last - 1] > gap;
    if last > 1 {
      GapsAddUp(Front(times), gap);
      assert last * gap == (last - 1) * gap + gap;
    }
  }

  /** Renewals of a run, in order. */
  ghost predicate Renewals(env: Env, w: World, steps: seq<Step>, ns: string, rs: seq<nat>) {
    && (forall a :: 0 <= a < |rs| ==> rs[a] < |steps| && Renews(env, w, steps, rs[a], ns))
    && forall a, b :: 0 <= a < b < |rs| ==> rs[a] < rs[b]
  }

  /** So the number of renewals in a span of time is bounded. */
  lemma RenewalRate(env: Env, w: World, steps: seq<Step>, ns: string, life: int, poll: int, rs: seq<nat>)
    requires OnlyApplies(env, w, steps, ns, life) && Steady(w.objs, SecretOf(ns))
    requires forall i :: 0 <= i < |steps| ==> steps[i].setup.poll <= poll
    requires |rs| >= 2 && Renewals(env, w, steps, ns, rs)
    ensures (|rs| - 1) * (life - poll - MINUTE - SECOND) < steps[Last(rs)].now - steps[rs[0]].now
  {
    hide OnlyApplies, Renews, Steady;
    var times := seq(|rs|, a requires 0 <= a < |rs| => steps[rs[a]].now);
    forall a | 0 <= a < |times| - 1
      ensures times[a + 1] - times[a] > life - poll - MINUTE - SECOND
    {
      RenewalsAreApart(env, w, steps, ns, life, rs[a], rs[a + 1]);
    }
    GapsAddUp(times, life - poll - MINUTE - SECOND);
  }

  // ----- the token after convergence -----

  /** The token that an Apply pass is issued, if it is issued one, lives at least `life`. */
  ghost predicate PassGrants(env: Env, w: World, s: Setup, now: int, life: int) {
    var token := IssuedIn(env, w, s, now);
    token.Some? ==> token.value.expiry >= now + life
  }

  /**
   After two Apply passes with served calls the token secret holds an issued token that is not due, if
   tokens live at least the poll interval and 61 seconds; a second more than safety needs, for the cut.
  */
  lemma ConvergedTokenIsLive(env: Env, w: World, s: Setup, now: int, later: int, known: Tokens)
    requires Prompt(env, w.calls) && Brisk(env, w.calls) && Calm(w.objs) && Housed(w.objs)
    requires Unambiguous(s) && Fixpoint.SourcesExist(s, w.objs) && s.ns != ""
    requires Truthful(known, w.objs, TokenLoc(s))
    requires PassGrants(env, w, s, now, s.poll + MINUTE + SECOND)
    requires PassGrants(env, ApplyPass(env, w, s, now).world, s, later, s.poll + MINUTE + SECOND)
    ensures var first := ApplyPass(env, w, s, now);
            var objs := ApplyPass(env, first.world, s, later).world.objs;
            var tokens := known + NewTokens(env, w, s, now) + NewTokens(env, first.world, s, later);
            && TokenLoc(s) in objs && !TokenDue(later, s.poll, objs[TokenLoc(s)].expires)
            && HoldsUntil(tokens, objs, TokenLoc(s), later + s.poll + MINUTE)
  {
    hide ApplyPass, Plan, ErrorFree, IssuedIn;
    var first, life := ApplyPass(env, w, s, now), s.poll + MINUTE + SECOND;
    Fixpoint.ApplyConvergesInTwoPasses(env, w, s, now, later);
    PlanIsWired(s, TokenObject(s));
    assert Applied(s, ApplyPass(env, first.world, s, later).world.objs, TokenObject(s));
    ApplyPassHolds(env, w, s, now, life, known, 0);
    ApplyPassHolds(env, first.world, s, later, life, known + NewTokens(env, w, s, now), 0);
  }
}
