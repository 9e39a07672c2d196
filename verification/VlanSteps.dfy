/**
  Every step of the VLAN engine keeps the invariant of `VlanRuns`, one lemma for each kind of step.
*/
module VlanSteps {
  import opened VlanModel
  import opened VlanRuns

  // ---------------------------------------------------------------- changes of the store

  /** `after` gained at most the given cookies. */
  ghost predicate Grown(before: seq<Flow>, after: seq<Flow>, cookies: seq<Cookie>) {
    && (forall c | c !in cookies && Unused(before, c) :: Unused(after, c))
    && (forall req: Request | Disjoint(cookies, req.cookies) && OwnOnly(before, req) :: OwnOnly(after, req))
  }

  lemma {:induction false} GrownSame(flows: seq<Flow>, cookies: seq<Cookie>)
    ensures Grown(flows, flows, cookies)
  {
  }

  lemma {:induction false} GrownAppend(flows: seq<Flow>, x: Flow)
    ensures Grown(flows, flows + [x], x.cookies)
  {
  }

  lemma {:induction false} GrownWith(flows: seq<Flow>, f: nat, more: seq<Cookie>, cookies: seq<Cookie>)
    requires f < |flows| && forall c | c in more :: c in cookies
    ensures Grown(flows, WithCookies(flows, f, more), cookies)
  {
    var after := WithCookies(flows, f, more);
    assert forall i | 0 <= i < |flows| && i != f :: after[i] == flows[i];
    assert forall c | c in after[f].cookies :: c in flows[f].cookies || c in more;
  }

  lemma {:induction false} AddInvGrown(e: Engine, e1: Engine, add: Suspension, cookies: seq<Cookie>)
    requires AddInv(e, add) && Grown(e.rules, e1.rules, cookies) && e1.delayCookie == e.delayCookie
    requires add.NoAdd? || Rechecks(add) || Disjoint(cookies, add.req.cookies)
    ensures AddInv(e1, add)
  {
  }

  /** The stock with other cookie lists but the same rules. */
  lemma {:induction false} StockSame(flows: seq<Flow>, flows': seq<Flow>, num: nat, configured: nat,
                                     installed: seq<Rule>)
    requires StockInv(flows, num, configured, installed) && SameRules(flows, flows') && StoreInv(flows')
    ensures StockInv(flows', num, configured, installed)
  {
    assert RulesOf(flows, configured) == RulesOf(flows', configured);
  }

  /** Cookies come or go, but no rule does and no removal loses its cookie. */
  lemma {:induction false} RecookieKeeps(e: Engine, flows: seq<Flow>, delay: Cookie, installed: seq<Rule>)
    requires EngineInv(e, installed) && SameRules(e.rules, flows) && StoreInv(flows)
    requires forall k, i | 0 <= k < |Active(e)| && 0 <= i < |flows| ::
               Active(e)[k].cookie in e.rules[i].cookies ==> Active(e)[k].cookie in flows[i].cookies
    ensures EngineInv(e.(rules := flows, delayCookie := delay), installed)
  {
    StockSame(e.rules, flows, e.numFlows, e.configured, installed);
    RemovalSameRules(e.rules, flows, Active(e), Bound(e));
    FilterSame(e.slots, e.numFilters, e.rules, flows, Filtered(e));
  }

  // ---------------------------------------------------------------- add requests

  lemma {:induction false} StockAppend(flows: seq<Flow>, num: nat, configured: nat, installed: seq<Rule>, req: Request)
    requires StockInv(flows, num, configured, installed) && num < TABLE_SIZE
    requires FirstRule(flows, req.rule) == |flows| && GoodCookies(req.cookies)
    requires forall c | c in req.cookies :: Unused(flows, c)
    ensures StockInv(flows + [Flow(req.rule, req.cookies)], num + 1, configured, installed)
  {
    StoreAppend(flows, req);
    assert RulesOf(flows, configured) == RulesOf(flows + [Flow(req.rule, req.cookies)], configured);
  }

  /** The store and the removals after a flow was appended, whatever the state. */
  lemma {:induction false} AppendParts(e: Engine, installed: seq<Rule>, req: Request)
    requires EngineInv(e, installed) && e.numFlows < TABLE_SIZE
    requires FirstRule(e.rules, req.rule) == |e.rules| && GoodCookies(req.cookies)
    requires forall c | c in req.cookies :: Unused(e.rules, c)
    ensures var flows := e.rules + [Flow(req.rule, req.cookies)];
            && StockInv(flows, e.numFlows + 1, e.configured, installed)
            && RemovalInv(flows, Active(e), Bound(e))
            && FilterInv(e.slots, e.numFilters, flows, Filtered(e))
  {
    var flows := e.rules + [Flow(req.rule, req.cookies)];
    StockAppend(e.rules, e.numFlows, e.configured, installed, req);
    RemovalAppend(e.rules, Flow(req.rule, req.cookies), Active(e), Bound(e));
    FilterSame(e.slots, e.numFilters, e.rules, flows, Filtered(e));
  }

  lemma {:induction false} AppendBusy(e: Engine, installed: seq<Rule>, flows: seq<Flow>)
    requires EngineInv(e, installed) && !e.state.ConfigDone? && e.numFlows < TABLE_SIZE
    requires |flows| == |e.rules| + 1 && flows[..|e.rules|] == e.rules
    requires StockInv(flows, e.numFlows + 1, e.configured, installed)
    requires RemovalInv(flows, Active(e), Bound(e)) && FilterInv(e.slots, e.numFilters, flows, Filtered(e))
    ensures EngineInv(e.(rules := flows, numFlows := e.numFlows + 1), installed)
  {
    ModeAppend(e, flows);
  }

  lemma {:induction false} ModeAppend(e: Engine, flows: seq<Flow>)
    requires Mode(e) && !e.state.ConfigDone? && |flows| == |e.rules| + 1 && flows[..|e.rules|] == e.rules
    requires e.numFlows < TABLE_SIZE
    ensures Mode(e.(rules := flows, numFlows := e.numFlows + 1))
  {
    assert forall i | 0 <= i < |e.rules| :: flows[i] == e.rules[i];
  }

  ghost predicate Appended(e: Engine, e1: Engine, req: Request) {
    match e1
    case Engine(state, _, rules, removes, _, _, _, _, _, delay, _) =>
      && (rules == e.rules || rules == e.rules + [Flow(req.rule, req.cookies)])
      && removes == e.removes && delay == e.delayCookie
      && (state.CleanupDone? <==> e.state.CleanupDone?) && !Dead(e1)
  }

  lemma {:induction false} AppendKeeps(e: Engine, installed: seq<Rule>, req: Request, tpDone: bool)
    requires EngineInv(e, installed) && !Dead(e)
    requires FirstRule(e.rules, req.rule) == |e.rules| && GoodCookies(req.cookies)
    requires forall c | c in req.cookies :: Unused(e.rules, c)
    ensures var e1 := AppendFlow(e, req, tpDone).0; EngineInv(e1, installed) && Appended(e, e1, req)
  {
    if e.numFlows < TABLE_SIZE {
      AppendParts(e, installed, req);
      var flows := e.rules + [Flow(req.rule, req.cookies)];
      var e1 := e.(rules := flows, numFlows := e.numFlows + 1);
      if !e.state.ConfigDone? {
        AppendBusy(e, installed, flows);
      } else if e.configured == 0 {
        StartingKeeps(e1, installed, tpDone);
      } else {
        IncrementKeeps(e1, installed, tpDone);
      }
    }
  }

  /** Why a stored cookie is new to the store: the delay workaround for one cookie, the caller for several. */
  ghost predicate MayStore(e: Engine, req: Request) {
    GoodCookies(req.cookies) && ((|req.cookies| == 1 && e.delayCookie == 0) || OwnOnly(e.rules, req))
  }

  lemma {:induction false} SingleMissing(c: Cookie, have: seq<Cookie>)
    ensures Missing([c], have) == if c in have then [] else [c]
  {
    assert Missing([c][1..], have) == [];
  }

  lemma {:induction false} FreshCookies(e: Engine, req: Request, c: Cookie)
    requires StoreInv(e.rules) && MayStore(e, req) && !DelayNeeded(e, req.cookies) && c in req.cookies
    requires var f := FirstRule(e.rules, req.rule); f == |e.rules| || c !in e.rules[f].cookies
    ensures Unused(e.rules, c)
  {
    if OwnOnly(e.rules, req) {
      forall i | 0 <= i < |e.rules| ensures c !in e.rules[i].cookies {
        if e.rules[i].rule == req.rule {
          FirstRuleIs(e.rules, i);
        } else {
          assert Disjoint(req.cookies, e.rules[i].cookies);
        }
      }
    } else {
      assert FirstCookie(e.rules, c) == |e.rules|;
    }
  }

  /** A caller that brings only cookies of its own rule is never delayed. */
  lemma {:induction false} OwnNotDelayed(e: Engine, req: Request)
    requires StoreInv(e.rules) && OwnOnly(e.rules, req) && DelayNeeded(e, req.cookies)
    ensures var f := FirstRule(e.rules, req.rule);
            f < |e.rules| && Missing(req.cookies, e.rules[f].cookies) == []
  {
    var c := req.cookies[0];
    var i := FirstCookie(e.rules, c);
    assert e.rules[i].rule == req.rule || Disjoint(req.cookies, e.rules[i].cookies);
    FirstRuleIs(e.rules, i);
    assert req.cookies == [c];
    SingleMissing(c, e.rules[i].cookies);
  }

  lemma {:induction false} WithMissingKeeps(e: Engine, installed: seq<Rule>, req: Request, more: seq<Cookie>)
    requires EngineInv(e, installed)
    requires FirstRule(e.rules, req.rule) < |e.rules| && NoDup(more) && 0 !in more
    requires forall c | c in more :: c in req.cookies && Unused(e.rules, c)
    ensures var flows := WithCookies(e.rules, FirstRule(e.rules, req.rule), more);
            EngineInv(e.(rules := flows), installed) && Grown(e.rules, flows, req.cookies)
  {
    var f := FirstRule(e.rules, req.rule);
    var flows := WithCookies(e.rules, f, more);
    StoreWithCookies(e.rules, f, more);
    GrownWith(e.rules, f, more, req.cookies);
    RecookieKeeps(e, flows, e.delayCookie, installed);
    assert e.(rules := flows) == e.(rules := flows, delayCookie := e.delayCookie);
  }

  /** What storing a request leaves behind: the invariant, and at most the requested cookies are new. */
  ghost predicate StoredOk(e: Engine, e1: Engine, installed: seq<Rule>, req: Request) {
    match e1
    case Engine(state, _, rules, removes, _, _, _, _, _, _, _) =>
      && EngineInv(e1, installed) && !Dead(e1)
      && Grown(e.rules, rules, req.cookies)
      && removes == e.removes && (state.CleanupDone? <==> e.state.CleanupDone?)
  }

  lemma {:induction false} StoreNew(e: Engine, installed: seq<Rule>, req: Request, tpDone: bool)
    requires EngineInv(e, installed) && !Dead(e) && GoodCookies(req.cookies)
    requires FirstRule(e.rules, req.rule) == |e.rules| && forall c | c in req.cookies :: Unused(e.rules, c)
    ensures var e1 := AppendFlow(e, req, tpDone).0;
            StoredOk(e, e1, installed, req) && e1.delayCookie == e.delayCookie
  {
    AppendKeeps(e, installed, req, tpDone);
    GrownSame(e.rules, req.cookies);
    GrownAppend(e.rules, Flow(req.rule, req.cookies));
  }

  lemma {:induction false} StoreKnown(e: Engine, installed: seq<Rule>, req: Request)
    requires EngineInv(e, installed) && !Dead(e) && MayStore(e, req) && !DelayNeeded(e, req.cookies)
    requires FirstRule(e.rules, req.rule) < |e.rules|
    ensures var f := FirstRule(e.rules, req.rule);
            var e1 := e.(rules := WithCookies(e.rules, f, Missing(req.cookies, e.rules[f].cookies)));
            StoredOk(e, e1, installed, req)
  {
    var have := e.rules[FirstRule(e.rules, req.rule)].cookies;
    var more := Missing(req.cookies, have);
    MissingIs(req.cookies, have);
    forall c | c in more ensures Unused(e.rules, c) {
      FreshCookies(e, req, c);
    }
    WithMissingKeeps(e, installed, req, more);
  }

  /** How an add request ends: stored or rejected, or waiting for a single cookie that sits elsewhere. */
  ghost predicate StoreEnds(e: Engine, e1: Engine, outcome: AddOutcome, installed: seq<Rule>, req: Request) {
    match outcome
    case SuspendedOnRule => false
    case SuspendedOnCookie =>
      && StoredOk(e, e1, installed, req)
      && |req.cookies| == 1 && e1 == e.(delayCookie := req.cookies[0]) && !OwnOnly(e.rules, req)
    case _ => StoredOk(e, e1, installed, req) && e1.delayCookie == e.delayCookie
  }

  lemma {:induction false} StoreDelayed(e: Engine, installed: seq<Rule>, req: Request)
    requires EngineInv(e, installed) && !Dead(e) && |req.cookies| == 1 && !OwnOnly(e.rules, req)
    ensures StoreEnds(e, e.(delayCookie := req.cookies[0]), SuspendedOnCookie, installed, req)
  {
    GrownSame(e.rules, req.cookies);
    DelayKeeps(e, req.cookies[0], installed);
  }

  lemma {:induction false} StoreUnchanged(e: Engine, installed: seq<Rule>, req: Request)
    requires EngineInv(e, installed) && !Dead(e)
    ensures StoreEnds(e, e, Stored, installed, req)
  {
    GrownSame(e.rules, req.cookies);
  }

  lemma {:induction false} StoreAppended(e: Engine, installed: seq<Rule>, req: Request, tpDone: bool)
    requires EngineInv(e, installed) && !Dead(e) && MayStore(e, req) && !DelayNeeded(e, req.cookies)
    requires FirstRule(e.rules, req.rule) == |e.rules|
    ensures var (e1, outcome) := AppendFlow(e, req, tpDone); StoreEnds(e, e1, outcome, installed, req)
  {
    forall c | c in req.cookies ensures Unused(e.rules, c) {
      FreshCookies(e, req, c);
    }
    StoreNew(e, installed, req, tpDone);
  }

  /** Storing a request keeps the invariant; only a single cookie that sits elsewhere is made to wait. */
  lemma {:induction false} StoreKeeps(e: Engine, installed: seq<Rule>, req: Request, tpDone: bool)
    requires EngineInv(e, installed) && !Dead(e) && MayStore(e, req)
    ensures var (e1, outcome) := StoreFlow(e, req, tpDone); StoreEnds(e, e1, outcome, installed, req)
  {
    var f := FirstRule(e.rules, req.rule);
    if f < |e.rules| && Missing(req.cookies, e.rules[f].cookies) == [] {
      StoreUnchanged(e, installed, req);
    } else if DelayNeeded(e, req.cookies) {
      if OwnOnly(e.rules, req) { OwnNotDelayed(e, req); }
      StoreDelayed(e, installed, req);
    } else if f < |e.rules| {
      StoreKnown(e, installed, req);
    } else {
      StoreAppended(e, installed, req, tpDone);
    }
  }

  lemma {:induction false} DelayKeeps(e: Engine, c: Cookie, installed: seq<Rule>)
    requires EngineInv(e, installed)
    ensures EngineInv(e.(delayCookie := c), installed)
  {
  }

  lemma {:induction false} RemovalFlag(flows: seq<Flow>, removes: seq<Removal>, removes': seq<Removal>, bound: nat)
    requires RemovalInv(flows, removes, bound) && |removes'| == |removes|
    requires forall l | 0 <= l < |removes| ::
               removes'[l].rule == removes[l].rule && removes'[l].cookie == removes[l].cookie
    ensures RemovalInv(flows, removes', bound)
  {
    forall l | 0 <= l < |removes| ensures Backed(flows, removes'[l], bound) {
      assert Backed(flows, removes[l], bound);
    }
  }

  /** Marks on pending removals change nothing that the invariant speaks about. */
  lemma {:induction false} MarksKeep(e: Engine, removes: seq<Removal>, installed: seq<Rule>)
    requires EngineInv(e, installed) && |removes| == |e.removes|
    requires forall k | 0 <= k < |removes| ::
               removes[k].rule == e.removes[k].rule && removes[k].cookie == e.removes[k].cookie
    ensures EngineInv(e.(removes := removes), installed)
  {
    RemovalFlag(e.rules, Active(e), Active(e.(removes := removes)), Bound(e));
  }

  lemma {:induction false} TimeoutKeeps(w: World, mark: nat)
    requires Sound(w) && TimeoutOk(w)
    ensures Sound(Raw(w, Timeout(mark)))
  {
    match w.add
    case OnRule(_) => MarksKeep(w.fsm, Unmarked(w.fsm.removes, mark), w.installed);
    case _ =>
  }

  lemma {:induction false} MidInvGrown(e: Engine, e1: Engine, add: Suspension, cookies: seq<Cookie>)
    requires MidInv(e, add) && Grown(e.rules, e1.rules, cookies) && e1.removes == e.removes
    requires e1.state.CleanupDone? ==> e.state.CleanupDone?
    requires MidCleanup(e) && !add.NoAdd? && !add.OnRule? && e.removes[0].cookie in add.req.cookies
             ==> e.removes[0].cookie !in cookies
    ensures MidInv(e1, add)
  {
  }

  /** An add for a rule under removal waits, and marks the removal. */
  lemma {:induction false} AddOnRuleKeeps(w: World, req: Request, tpDone: bool)
    requires Sound(w) && AddOk(w, req) && FirstRemoval(w.fsm.removes, req.rule) < |w.fsm.removes|
    ensures Sound(Raw(w, Add(req, tpDone)))
  {
    var k := FirstRemoval(w.fsm.removes, req.rule);
    var e1 := w.fsm.(removes := w.fsm.removes[k := w.fsm.removes[k].(suspendsAdd := true)]);
    MarksKeep(w.fsm, e1.removes, w.installed);
    assert Raw(w, Add(req, tpDone)) == World(e1, OnRule(req), w.installed);
  }

  /** An add that is stored, rejected or delayed. */
  lemma {:induction false} AddStoredKeeps(w: World, req: Request, tpDone: bool)
    requires Sound(w) && AddOk(w, req) && FirstRemoval(w.fsm.removes, req.rule) == |w.fsm.removes|
    ensures Sound(Raw(w, Add(req, tpDone)))
  {
    StoreKeeps(w.fsm, w.installed, req, tpDone);
    var (e1, outcome) := StoreFlow(w.fsm, req, tpDone);
    if !outcome.SuspendedOnCookie? {
      AddInvGrown(w.fsm, e1, w.add, req.cookies);
      MidInvGrown(w.fsm, e1, w.add, req.cookies);
    }
    assert Raw(w, Add(req, tpDone)) == World(e1, Suspended(w.add, req, outcome), w.installed);
  }

  lemma {:induction false} AddKeeps(w: World, req: Request, tpDone: bool)
    requires Sound(w) && AddOk(w, req)
    ensures Sound(Raw(w, Add(req, tpDone)))
  {
    if FirstRemoval(w.fsm.removes, req.rule) < |w.fsm.removes| {
      AddOnRuleKeeps(w, req, tpDone);
    } else {
      AddStoredKeeps(w, req, tpDone);
    }
  }

  lemma {:induction false} ResumedInv(e: Engine, e1: Engine, outcome: AddOutcome, installed: seq<Rule>, req: Request)
    requires StoreEnds(e, e1, outcome, installed, req) && AddInv(e, RuleGone(req)) && MidInv(e, RuleGone(req))
    ensures AddInv(e1, Suspended(NoAdd, req, outcome)) && MidInv(e1, Suspended(NoAdd, req, outcome))
  {
  }

  /** The waiting add finds its rule removed: it is stored, or it waits again for its cookie. */
  lemma {:induction false} ResumeRuleKeeps(w: World, tpDone: bool)
    requires Sound(w) && w.add.RuleGone?
    ensures Sound(Raw(w, ResumeAdd(tpDone)))
  {
    StoreKeeps(w.fsm, w.installed, w.add.req, tpDone);
    var (e1, outcome) := StoreFlow(w.fsm, w.add.req, tpDone);
    ResumedInv(w.fsm, e1, outcome, w.installed, w.add.req);
    assert Raw(w, ResumeAdd(tpDone)) == World(e1, Suspended(NoAdd, w.add.req, outcome), w.installed);
  }

  lemma {:induction false} ReviseNew(e: Engine, installed: seq<Rule>, req: Request, tpDone: bool)
    requires EngineInv(e, installed) && !Dead(e) && GoodCookies(req.cookies) && |req.cookies| == 1
    requires Unused(e.rules, req.cookies[0]) && FirstRule(e.rules, req.rule) == |e.rules|
    ensures var e1 := ReviseFlow(e, req, tpDone).0; StoredOk(e, e1, installed, req) && e1.delayCookie == 0
  {
    DelayKeeps(e, 0, installed);
    StoreNew(e.(delayCookie := 0), installed, req, tpDone);
    StoredFrom(e, e.(delayCookie := 0), ReviseFlow(e, req, tpDone).0, installed, req);
  }

  lemma {:induction false} ReviseKnown(e: Engine, installed: seq<Rule>, req: Request, tpDone: bool)
    requires EngineInv(e, installed) && !Dead(e) && GoodCookies(req.cookies) && |req.cookies| == 1
    requires Unused(e.rules, req.cookies[0]) && FirstRule(e.rules, req.rule) < |e.rules|
    ensures var e1 := ReviseFlow(e, req, tpDone).0; StoredOk(e, e1, installed, req) && e1.delayCookie == 0
  {
    DelayKeeps(e, 0, installed);
    WithMissingKeeps(e.(delayCookie := 0), installed, req, req.cookies);
  }

  /** Only the rules, the removals and the state of the engine before matter. */
  lemma {:induction false} StoredFrom(e: Engine, e0: Engine, e1: Engine, installed: seq<Rule>, req: Request)
    requires StoredOk(e0, e1, installed, req)
    requires e0.rules == e.rules && e0.removes == e.removes && e0.state == e.state
    ensures StoredOk(e, e1, installed, req)
  {
  }

  lemma {:induction false} ReviseKeeps(e: Engine, installed: seq<Rule>, req: Request, tpDone: bool)
    requires EngineInv(e, installed) && !Dead(e) && GoodCookies(req.cookies) && |req.cookies| == 1
    requires Unused(e.rules, req.cookies[0])
    ensures var e1 := ReviseFlow(e, req, tpDone).0; StoredOk(e, e1, installed, req) && e1.delayCookie == 0
  {
    if FirstRule(e.rules, req.rule) == |e.rules| {
      ReviseNew(e, installed, req, tpDone);
    } else {
      ReviseKnown(e, installed, req, tpDone);
    }
  }

  lemma {:induction false} ResumeCookieKeeps(w: World, tpDone: bool)
    requires Sound(w) && w.add.CookieGone?
    ensures Sound(Raw(w, ResumeAdd(tpDone)))
  {
    ReviseKeeps(w.fsm, w.installed, w.add.req, tpDone);
  }

  // ---------------------------------------------------------------- removal requests

  /** `after` lost cookies, and gained none. */
  ghost predicate Shrunk(before: seq<Flow>, after: seq<Flow>) {
    && (forall c | Unused(before, c) :: Unused(after, c))
    && (forall req: Request | OwnOnly(before, req) :: OwnOnly(after, req))
  }

  lemma {:induction false} AddInvShrunk(e: Engine, e1: Engine, add: Suspension)
    requires AddInv(e, add) && Shrunk(e.rules, e1.rules) && e1.delayCookie == e.delayCookie
    ensures AddInv(e1, add)
  {
  }

  lemma {:induction false} ShrunkCut(flows: seq<Flow>, i: nat)
    requires StoreInv(flows) && i < |flows|
    ensures Shrunk(flows, Cut(flows, i)) && forall c | c in flows[i].cookies :: Unused(Cut(flows, i), c)
  {
    UnusedAfterCut(flows, i);
  }

  lemma {:induction false} ShrunkDrop(flows: seq<Flow>, i: nat, p: nat)
    requires StoreInv(flows) && i < |flows| && p < |flows[i].cookies| && |flows[i].cookies| > 1
    ensures var after := flows[i := flows[i].(cookies := Cut(flows[i].cookies, p))];
            StoreInv(after) && SameRules(flows, after) && Shrunk(flows, after) && Unused(after, flows[i].cookies[p])
  {
    StoreDropCookie(flows, i, p);
    var c := flows[i].cookies[p];
    var after := flows[i := flows[i].(cookies := Cut(flows[i].cookies, p))];
    forall j | 0 <= j < |flows| ensures c !in after[j].cookies {
      if j != i { assert Disjoint(flows[i].cookies, flows[j].cookies); }
    }
  }

  lemma {:induction false} DropRemovals(flows: seq<Flow>, after: seq<Flow>, i: nat, c: Cookie, removes: seq<Removal>)
    requires i < |flows| == |after| && after == flows[i := after[i]]
    requires forall d | d in flows[i].cookies && d != c :: d in after[i].cookies
    requires forall k | 0 <= k < |removes| :: removes[k].cookie != c
    ensures forall k, j | 0 <= k < |removes| && 0 <= j < |flows| ::
              removes[k].cookie in flows[j].cookies ==> removes[k].cookie in after[j].cookies
  {
  }

  /** The engine after one cookie of several left the flow at `i`. */
  function Dropped(e: Engine, i: nat, c: Cookie): Engine
    requires i < |e.rules| && c in e.rules[i].cookies && |e.rules[i].cookies| > 1
  {
    var left := Cut(e.rules[i].cookies, FirstIndex(e.rules[i].cookies, c));
    e.(rules := e.rules[i := e.rules[i].(cookies := left)],
       delayCookie := if e.delayCookie == c then left[0] else e.delayCookie)
  }

  lemma {:induction false} DroppedEngine(e: Engine, installed: seq<Rule>, i: nat, c: Cookie)
    requires EngineInv(e, installed) && i < |e.rules| && c in e.rules[i].cookies && |e.rules[i].cookies| > 1
    requires forall k | 0 <= k < |Active(e)| :: Active(e)[k].cookie != c
    ensures EngineInv(Dropped(e, i, c), installed)
  {
    var p := FirstIndex(e.rules[i].cookies, c);
    var e1 := Dropped(e, i, c);
    ShrunkDrop(e.rules, i, p);
    StoreDropCookie(e.rules, i, p);
    DropRemovals(e.rules, e1.rules, i, c, Active(e));
    RecookieKeeps(e, e1.rules, e1.delayCookie, installed);
  }

  lemma {:induction false} DroppedAdd(e: Engine, installed: seq<Rule>, i: nat, c: Cookie, add: Suspension)
    requires EngineInv(e, installed) && i < |e.rules| && c in e.rules[i].cookies && |e.rules[i].cookies| > 1
    requires AddInv(e, add)
    ensures AddInv(Dropped(e, i, c), add) && Shrunk(e.rules, Dropped(e, i, c).rules)
  {
    var p := FirstIndex(e.rules[i].cookies, c);
    ShrunkDrop(e.rules, i, p);
    StoreDropCookie(e.rules, i, p);
    if e.delayCookie != c { AddInvShrunk(e, Dropped(e, i, c), add); }
  }

  lemma {:induction false} DroppedIs(e: Engine, c: Cookie, tpDone: bool)
    requires var i := FirstCookie(e.rules, c); i < |e.rules| && |e.rules[i].cookies| > 1
    ensures RemoveCookie(e, c, tpDone) == Dropped(e, FirstCookie(e.rules, c), c)
  {
  }

  /** One cookie of several leaves its rule. */
  lemma {:induction false} DropCookieKeeps(w: World, c: Cookie, tpDone: bool)
    requires Sound(w) && RemoveOk(w.fsm, c)
    requires var i := FirstCookie(w.fsm.rules, c); i < |w.fsm.rules| && |w.fsm.rules[i].cookies| > 1
    ensures var w1 := w.(fsm := RemoveCookie(w.fsm, c, tpDone)); Sound(w1)
  {
    var i := FirstCookie(w.fsm.rules, c);
    DroppedIs(w.fsm, c, tpDone);
    DroppedEngine(w.fsm, w.installed, i, c);
    DroppedAdd(w.fsm, w.installed, i, c, w.add);
  }

  lemma {:induction false} CutFlowIs(e: Engine, i: nat, c: Cookie, wasConfigured: bool)
    requires StoreInv(e.rules) && i < |e.rules| && c in e.rules[i].cookies && e.numFlows == |e.rules|
    requires if wasConfigured then e.configured > 0 else e.configured == 0
    requires e.configured <= |e.rules|
    ensures CutFlow(e, c, wasConfigured) ==
            Found(e.(rules := Cut(e.rules, i), numFlows := e.numFlows - 1,
                     configured := if wasConfigured then e.configured - 1 else 0))
  {
    FirstCookieIs(e.rules, i, c);
    assert |e.rules| == 1 ==> Cut(e.rules, i) == [];
  }

  lemma {:induction false} StockCut(flows: seq<Flow>, num: nat, configured: nat, installed: seq<Rule>, i: nat)
    requires StockInv(flows, num, configured, installed) && i < configured
    ensures StockInv(Cut(flows, i), num - 1, configured - 1, Uninstall(installed, flows[i].rule))
  {
    StoreCut(flows, i);
    assert FirstIndex(installed, flows[i].rule) == i;
    assert Cut(RulesOf(flows, configured), i) == RulesOf(Cut(flows, i), configured - 1);
  }

  lemma {:induction false} CancelBase(e: Engine, installed: seq<Rule>, i: nat)
    requires EngineInv(e, installed) && e.state.WaitingTechProf? && i < |e.rules|
    ensures Base(e.(rules := Cut(e.rules, i), numFlows := e.numFlows - 1, configured := 0, state := ConfigDone),
            installed)
  {
    var flows := Cut(e.rules, i);
    StoreCut(e.rules, i);
    NoRemovals(flows, 0);
    FilterSame(e.slots, e.numFilters, e.rules, flows, 0);
  }

  lemma {:induction false} CancelIs(e: Engine, i: nat, c: Cookie, tpDone: bool)
    requires e.state.WaitingTechProf? && StoreInv(e.rules) && i < |e.rules| && c in e.rules[i].cookies
    requires e.numFlows == |e.rules| && e.configured == 0
    ensures RemoveRule(e, e.rules[i].rule, c, tpDone) ==
            EnterConfigDone(e.(rules := Cut(e.rules, i), numFlows := e.numFlows - 1, configured := 0,
                               state := ConfigDone), tpDone)
  {
    CutFlowIs(e, i, c, false);
  }

  /** A flow that still waits for its tech profile is simply taken out of the slice. */
  lemma {:induction false} CancelKeeps(e: Engine, installed: seq<Rule>, i: nat, c: Cookie, tpDone: bool)
    requires EngineInv(e, installed) && e.state.WaitingTechProf? && i < |e.rules| && c in e.rules[i].cookies
    ensures e.numFlows > 0
    ensures Kept(e.(rules := Cut(e.rules, i), numFlows := e.numFlows - 1, configured := 0, state := ConfigDone),
                 RemoveRule(e, e.rules[i].rule, c, tpDone), installed)
  {
    CancelIs(e, i, c, tpDone);
    CancelBase(e, installed, i);
    DoneKeeps(e.(rules := Cut(e.rules, i), numFlows := e.numFlows - 1, configured := 0, state := ConfigDone),
              installed, tpDone);
  }

  lemma {:induction false} RemovalPush(flows: seq<Flow>, removes: seq<Removal>, bound: nat, i: nat, r: Removal)
    requires StoreInv(flows) && RemovalInv(flows, removes, bound) && i < bound && i < |flows|
    requires flows[i] == Flow(r.rule, [r.cookie]) && forall k | 0 <= k < |removes| :: removes[k].cookie != r.cookie
    ensures RemovalInv(flows, removes + [r], bound)
  {
    FirstRuleIs(flows, i);
    forall k | 0 <= k < |removes| ensures removes[k].rule != r.rule {
      assert Backed(flows, removes[k], bound);
    }
  }

  lemma {:induction false} RemoveRuleIs(e: Engine, r: Removal, tpDone: bool)
    requires !e.state.WaitingTechProf? && !r.suspendsAdd
    ensures RemoveRule(e, r.rule, r.cookie, tpDone) ==
            e.(removes := e.removes + [r], state := if e.state.ConfigDone? then RemoveFlow else e.state)
  {
  }

  lemma {:induction false} QueueBehind(e: Engine, installed: seq<Rule>, r: Removal)
    requires EngineInv(e, installed) && !Dead(e) && !e.state.WaitingTechProf? && !e.state.ConfigDone?
    requires RemovalInv(e.rules, Active(e) + [r], Bound(e))
    ensures EngineInv(e.(removes := e.removes + [r]), installed)
  {
    var e1 := e.(removes := e.removes + [r]);
    assert Active(e1) == Active(e) + [r];
  }

  lemma {:induction false} QueueFirst(e: Engine, installed: seq<Rule>, r: Removal)
    requires EngineInv(e, installed) && e.state.ConfigDone? && RemovalInv(e.rules, [r], e.configured)
    ensures EngineInv(e.(removes := [r], state := RemoveFlow), installed)
  {
  }

  /** What queueing a removal leaves behind. */
  ghost predicate Queued(e: Engine, e1: Engine, installed: seq<Rule>) {
    match e1
    case Engine(state, _, rules, removes, _, _, _, _, _, delay, _) =>
      && EngineInv(e1, installed) && !Dead(e1) && rules == e.rules && delay == e.delayCookie && removes != []
      && (state.CleanupDone? ==> e.state.CleanupDone? && e.removes != [] && removes[0] == e.removes[0])
  }

  lemma {:induction false} QueueStarts(e: Engine, installed: seq<Rule>, r: Removal, tpDone: bool)
    requires EngineInv(e, installed) && e.state.ConfigDone? && !r.suspendsAdd && RemovalInv(e.rules, [r], e.configured)
    ensures Queued(e, RemoveRule(e, r.rule, r.cookie, tpDone), installed)
  {
    QueueFirst(e, installed, r);
    RemoveRuleIs(e, r, tpDone);
    assert e.removes + [r] == [r];
  }

  lemma {:induction false} QueueWaits(e: Engine, installed: seq<Rule>, r: Removal, tpDone: bool)
    requires EngineInv(e, installed) && !Dead(e) && !e.state.WaitingTechProf? && !e.state.ConfigDone? && !r.suspendsAdd
    requires RemovalInv(e.rules, Active(e) + [r], Bound(e))
    ensures Queued(e, RemoveRule(e, r.rule, r.cookie, tpDone), installed)
  {
    QueueBehind(e, installed, r);
    RemoveRuleIs(e, r, tpDone);
  }

  /** The last cookie of an installed rule goes: the removal is queued, and started when nothing else runs. */
  lemma {:induction false} QueueKeeps(e: Engine, installed: seq<Rule>, i: nat, c: Cookie, tpDone: bool)
    requires EngineInv(e, installed) && !Dead(e) && !e.state.WaitingTechProf? && i < |e.rules| && i < Bound(e)
    requires e.rules[i].cookies == [c] && forall k | 0 <= k < |Active(e)| :: Active(e)[k].cookie != c
    ensures Queued(e, RemoveRule(e, e.rules[i].rule, c, tpDone), installed)
  {
    var r := Removal(e.rules[i].rule, c, false);
    RemovalPush(e.rules, Active(e), Bound(e), i, r);
    if e.state.ConfigDone? {
      assert Active(e) + [r] == [r];
      QueueStarts(e, installed, r, tpDone);
    } else {
      QueueWaits(e, installed, r, tpDone);
    }
  }

  lemma {:induction false} RemoveLastKeeps(w: World, c: Cookie, tpDone: bool)
    requires Sound(w) && RemoveOk(w.fsm, c)
    requires var i := FirstCookie(w.fsm.rules, c); i < |w.fsm.rules| && |w.fsm.rules[i].cookies| == 1
    ensures var w1 := w.(fsm := RemoveCookie(w.fsm, c, tpDone)); Sound(w1)
  {
    var e := w.fsm;
    var i := FirstCookie(e.rules, c);
    assert e.rules[i].cookies == [c];
    if e.state.WaitingTechProf? {
      CancelKeeps(e, w.installed, i, c, tpDone);
      ShrunkCut(e.rules, i);
      AddInvShrunk(e, RemoveCookie(e, c, tpDone), w.add);
    } else {
      QueueKeeps(e, w.installed, i, c, tpDone);
    }
  }

  // ---------------------------------------------------------------- answers of the ONU

  lemma {:induction false} EvtocdAckBase(e: Engine, installed: seq<Rule>)
    requires EngineInv(e, installed) && (e.state.ConfigEvtocd? || e.state.ConfigIncrFlow?)
    ensures e.configured < 255 && Base(e.(configured := e.configured + 1, state := ConfigDone),
            installed + [e.actual.rule])
  {
    assert RulesOf(e.rules, e.configured + 1) == RulesOf(e.rules, e.configured) + [e.actual.rule];
  }

  lemma {:induction false} EvtocdAckedIs(e: Engine, tpDone: bool)
    requires (e.state.ConfigEvtocd? || e.state.ConfigIncrFlow?) && e.configured < 255
    ensures EvtocdAcked(e, tpDone) == EnterConfigDone(e.(configured := e.configured + 1, state := ConfigDone), tpDone)
  {
  }

  lemma {:induction false} EvtocdAckKeeps(w: World, tpDone: bool)
    requires Sound(w)
    ensures Sound(Raw(w, EvtocdAck(tpDone)))
  {
    var e := w.fsm;
    if e.state.ConfigEvtocd? || e.state.ConfigIncrFlow? {
      EvtocdAckBase(e, w.installed);
      var e1 := e.(configured := e.configured + 1, state := ConfigDone);
      DoneKeeps(e1, w.installed + [e.actual.rule], tpDone);
      EvtocdAckedIs(e, tpDone);
      AddInvShrunk(e, EnterConfigDone(e1, tpDone), w.add);
    }
  }

  lemma {:induction false} VtfdAckEngine(e: Engine, installed: seq<Rule>)
    requires EngineInv(e, installed) && e.state.ConfigVtfd?
    ensures EngineInv(e.(state := ConfigEvtocd), installed)
  {
  }

  lemma {:induction false} RawVtfdAck(w: World)
    ensures Raw(w, VtfdAck) == if w.fsm.state.ConfigVtfd? then w.(fsm := Moved(w.fsm, EvRxConfigVtfd)) else w
  {
  }

  lemma {:induction false} VtfdAckKeeps(w: World)
    requires Sound(w)
    ensures Sound(Raw(w, VtfdAck))
  {
    RawVtfdAck(w);
    if w.fsm.state.ConfigVtfd? { VtfdAckEngine(w.fsm, w.installed); }
  }

  lemma {:induction false} TechProfEngine(e: Engine, installed: seq<Rule>, tpId: bv8)
    requires EngineInv(e, installed) && !Dead(e)
    ensures var e1 := TechProfReady(e, tpId);
            EngineInv(e1, installed) && SameStore(e1, e) && !Dead(e1)
                && (e1.state.CleanupDone? <==> e.state.CleanupDone?)
  {
    if e.tpWaitingFor == tpId && e.state.WaitingTechProf? {
      VtfdKeeps(Moved(e, EvContinueConfig), installed);
    } else if e.tpWaitingFor == tpId && e.state.IncrFlowWaitTP? {
      IncrEntryKeeps(Moved(e, EvIncrFlowConfig), installed);
    }
  }

  lemma {:induction false} TechProfKeeps(w: World, tpId: bv8)
    requires Sound(w)
    ensures Sound(Raw(w, TechProfDone(tpId)))
  {
    TechProfEngine(w.fsm, w.installed, tpId);
  }

  // ---------------------------------------------------------------- cleanup after a removal

  /** The flow of the acknowledged removal, and the engine with that flow taken out. */
  function Cleaned(e: Engine): Engine
    requires e.removes != [] && FirstRule(e.rules, e.removes[0].rule) < |e.rules|
    requires e.configured > 0 && e.numFlows > 0
  {
    CutFilter(e, e.removes[0].rule).(
      rules := Cut(e.rules, FirstRule(e.rules, e.removes[0].rule)),
      numFlows := e.numFlows - 1, configured := e.configured - 1, state := CleanupDone)
  }

  lemma {:induction false} RemovedIsInstalled(e: Engine, installed: seq<Rule>)
    requires EngineInv(e, installed) && e.state.RemoveFlow?
    ensures var i := FirstRule(e.rules, e.removes[0].rule);
            i < e.configured <= |e.rules| && e.numFlows > 0 && e.removes[0].cookie in e.rules[i].cookies
  {
    assert Backed(e.rules, e.removes[0], e.configured);
  }

  lemma {:induction false} CleanedShape(e: Engine)
    requires e.removes != [] && FirstRule(e.rules, e.removes[0].rule) < |e.rules| && e.configured > 0 && e.numFlows > 0
    requires var e1 := CutFilter(e, e.removes[0].rule); e1 == e.(slots := e1.slots, numFilters := e1.numFilters)
    ensures var e1, f := Cleaned(e), CutFilter(e, e.removes[0].rule);
            e1 == e.(slots := f.slots, numFilters := f.numFilters,
                rules := Cut(e.rules, FirstRule(e.rules, e.removes[0].rule)),
                     numFlows := e.numFlows - 1, configured := e.configured - 1, state := CleanupDone)
  {
  }

  /** The parts of the invariant once the filter list is `f`'s and the flows are `flows`. */
  ghost predicate CleanParts(e: Engine, f: Engine, flows: seq<Flow>, left: seq<Rule>) {
    match f
    case Engine(_, _, _, removes, _, numFlows, configured, slots, numFilters, _, _) =>
      && removes != [] && numFlows > 0 && configured > 0 && f == e.(slots := slots, numFilters := numFilters)
      && StockInv(flows, numFlows - 1, configured - 1, left)
      && RemovalInv(flows, removes[1..], configured - 1)
      && FilterInv(slots, numFilters, flows, configured - 1)
  }

  lemma {:induction false} CleanedParts(e: Engine, installed: seq<Rule>)
    requires EngineInv(e, installed) && e.state.RemoveFlow?
    requires e.numFilters < TABLE_SIZE || Transparent(e.removes[0].rule)
    requires FirstRule(e.rules, e.removes[0].rule) < e.configured <= |e.rules| && e.numFlows > 0
    ensures CleanParts(e, CutFilter(e, e.removes[0].rule), Cut(e.rules, FirstRule(e.rules, e.removes[0].rule)),
                       Uninstall(installed, e.removes[0].rule))
  {
    var i := FirstRule(e.rules, e.removes[0].rule);
    StockCut(e.rules, e.numFlows, e.configured, installed, i);
    RemovalCut(e.rules, e.removes, e.configured, i);
    FilterCut(e, e.rules, e.configured, i);
  }

  lemma {:induction false} CleanedAssembled(e: Engine, f: Engine, flows: seq<Flow>, left: seq<Rule>)
    requires CleanParts(e, f, flows, left)
    ensures e.numFlows > 0 && e.configured > 0 && f == e.(slots := f.slots, numFilters := f.numFilters)
    ensures EngineInv(f.(rules := flows, numFlows := e.numFlows - 1, configured := e.configured - 1,
                         state := CleanupDone), left)
  {
  }

  /** The invariant holds while the first half of a cleanup is done. */
  lemma {:induction false} CleanedKeeps(e: Engine, installed: seq<Rule>)
    requires EngineInv(e, installed) && e.state.RemoveFlow?
    requires e.numFilters < TABLE_SIZE || Transparent(e.removes[0].rule)
    requires FirstRule(e.rules, e.removes[0].rule) < e.configured <= |e.rules| && e.numFlows > 0
    ensures EngineInv(Cleaned(e), Uninstall(installed, e.removes[0].rule))
    ensures var f := CutFilter(e, e.removes[0].rule); f == e.(slots := f.slots, numFilters := f.numFilters)
  {
    CleanedParts(e, installed);
    CleanedAssembled(e, CutFilter(e, e.removes[0].rule), Cut(e.rules, FirstRule(e.rules, e.removes[0].rule)),
                     Uninstall(installed, e.removes[0].rule));
  }

  lemma {:induction false} StartCleanupIs(e: Engine, i: nat, tpDone: bool)
    requires e.state.CleanupDone? && e.removes != [] && StoreInv(e.rules) && e.numFlows == |e.rules|
    requires i < |e.rules| && e.removes[0].cookie in e.rules[i].cookies && 0 < e.configured <= |e.rules|
    ensures var e1 := e.(rules := Cut(e.rules, i), numFlows := e.numFlows - 1, configured := e.configured - 1);
            StartCleanup(e, tpDone) == if e.removes[0].suspendsAdd then e1 else FinishCleanup(e1, tpDone)
  {
    CutFlowIs(e, i, e.removes[0].cookie, true);
  }

  /** The acknowledged removal takes out exactly its own flow. */
  lemma {:induction false} RemovalAckedIs(e: Engine, tpDone: bool)
    requires e.state.RemoveFlow? && e.removes != [] && StoreInv(e.rules) && 0 < e.numFlows == |e.rules|
    requires FirstRule(e.rules, e.removes[0].rule) < |e.rules| && 0 < e.configured <= |e.rules|
    requires e.removes[0].cookie in e.rules[FirstRule(e.rules, e.removes[0].rule)].cookies
    requires var e1 := CutFilter(e, e.removes[0].rule); e1 == e.(slots := e1.slots, numFilters := e1.numFilters)
    ensures CutFlow(e, e.removes[0].cookie, true).Found?
    ensures RemovalAcked(e, tpDone) == if e.removes[0].suspendsAdd then Cleaned(e)
            else FinishCleanup(Cleaned(e), tpDone)
  {
    var i := FirstRule(e.rules, e.removes[0].rule);
    var e1 := CutFilter(e, e.removes[0].rule);
    CutFlowIs(e, i, e.removes[0].cookie, true);
    AckStartsCleanup(e, tpDone);
    StartCleanupIs(e1.(state := CleanupDone), i, tpDone);
  }

  lemma {:induction false} CleanupBase(e: Engine, installed: seq<Rule>)
    requires EngineInv(e, installed) && e.state.CleanupDone?
    ensures e.removes != [] && Base(e.(removes := e.removes[1..], state := ConfigDone), installed)
  {
  }

  lemma {:induction false} FinishIs(e: Engine, tpDone: bool)
    requires e.state.CleanupDone? && e.removes != []
    ensures FinishCleanup(e, tpDone) == EnterConfigDone(e.(removes := e.removes[1..], state := ConfigDone), tpDone)
  {
  }

  lemma {:induction false} CleanupEnds(e: Engine, installed: seq<Rule>, tpDone: bool)
    requires EngineInv(e, installed) && e.state.CleanupDone?
    ensures e.removes != [] && Kept(e.(removes := e.removes[1..]), FinishCleanup(e, tpDone), installed)
  {
    CleanupBase(e, installed);
    FinishIs(e, tpDone);
    DoneKeeps(e.(removes := e.removes[1..], state := ConfigDone), installed, tpDone);
  }

  /** How the waiting add fares when the flow at `i` leaves the store. */
  lemma {:induction false} WakeKeeps(e: Engine, e1: Engine, i: nat, add: Suspension, rule: Rule, c: Cookie)
    requires AddInv(e, add) && StoreInv(e.rules) && i < |e.rules| && c in e.rules[i].cookies
    requires e1.rules == Cut(e.rules, i) && e1.delayCookie == e.delayCookie
    ensures AddInv(e1, WakeOnRule(add, rule)) && AddInv(e1, WakeOnCookie(add, c, e.delayCookie))
    ensures Unused(e1.rules, c)
  {
    ShrunkCut(e.rules, i);
    AddInvShrunk(e, e1, add);
  }

  /** The panic of the copy-back loop: exactly when all slots are in use and one has to go. */
  predicate OverrunsFilters(e: Engine) {
    e.state.RemoveFlow? && e.removes != [] && e.numFilters == TABLE_SIZE && !Transparent(e.removes[0].rule)
  }

  /** What an acknowledged removal does to the world, in terms of the flow it takes out. */
  lemma {:induction false} AfterRemovalIs(w: World, tpDone: bool)
    requires w.fsm.state.RemoveFlow? && w.fsm.removes != [] && StoreInv(w.fsm.rules)
    requires 0 < w.fsm.numFlows == |w.fsm.rules| && 0 < w.fsm.configured <= |w.fsm.rules|
    requires FirstRule(w.fsm.rules, w.fsm.removes[0].rule) < |w.fsm.rules|
    requires w.fsm.removes[0].cookie in w.fsm.rules[FirstRule(w.fsm.rules, w.fsm.removes[0].rule)].cookies
    requires var f := CutFilter(w.fsm, w.fsm.removes[0].rule); f == w.fsm.(slots := f.slots, numFilters := f.numFilters)
    requires !FinishCleanup(Cleaned(w.fsm), tpDone).state.Crashed?
    ensures var r := w.fsm.removes[0];
            AfterRemoval(w, tpDone) ==
            if r.suspendsAdd
            then World(Cleaned(w.fsm), WakeOnRule(w.add, r.rule), Uninstall(w.installed, r.rule))
            else World(FinishCleanup(Cleaned(w.fsm), tpDone), WakeOnCookie(w.add, r.cookie, w.fsm.delayCookie),
                       Uninstall(w.installed, r.rule))
  {
    RemovalAckedIs(w.fsm, tpDone);
  }

  /** The same for an engine with the invariant. */
  lemma {:induction false} LiveRemovalIs(w: World, tpDone: bool)
    requires Live(w) && w.fsm.state.RemoveFlow? && !OverrunsFilters(w.fsm)
    ensures w.fsm.removes != [] && FirstRule(w.fsm.rules, w.fsm.removes[0].rule) < w.fsm.configured <= |w.fsm.rules|
    ensures w.fsm.numFlows > 0 && EngineInv(Cleaned(w.fsm), Uninstall(w.installed, w.fsm.removes[0].rule))
    ensures var r := w.fsm.removes[0];
            AfterRemoval(w, tpDone) ==
            if r.suspendsAdd
            then World(Cleaned(w.fsm), WakeOnRule(w.add, r.rule), Uninstall(w.installed, r.rule))
            else World(FinishCleanup(Cleaned(w.fsm), tpDone), WakeOnCookie(w.add, r.cookie, w.fsm.delayCookie),
                       Uninstall(w.installed, r.rule))
  {
    RemovedIsInstalled(w.fsm, w.installed);
    CleanedKeeps(w.fsm, w.installed);
    CleanupEnds(Cleaned(w.fsm), Uninstall(w.installed, w.fsm.removes[0].rule), tpDone);
    AfterRemovalIs(w, tpDone);
  }

  /** The store, the removals and the awaited cookie of a cleaned engine. */
  lemma {:induction false} CleanedStore(e: Engine)
    requires e.removes != [] && FirstRule(e.rules, e.removes[0].rule) < |e.rules| && e.configured > 0 && e.numFlows > 0
    ensures var e1 := Cleaned(e);
            && e1.rules == Cut(e.rules, FirstRule(e.rules, e.removes[0].rule)) && e1.state.CleanupDone?
            && e1.removes == e.removes && e1.delayCookie == e.delayCookie
  {
  }

  lemma {:induction false} RemoveAckHalf(w: World, tpDone: bool)
    requires Live(w) && w.fsm.state.RemoveFlow? && !OverrunsFilters(w.fsm) && w.fsm.removes[0].suspendsAdd
    ensures Sound(AfterRemoval(w, tpDone))
  {
    var e, r := w.fsm, w.fsm.removes[0];
    LiveRemovalIs(w, tpDone);
    RemovedIsInstalled(e, w.installed);
    CleanedStore(e);
    WakeKeeps(e, Cleaned(e), FirstRule(e.rules, r.rule), w.add, r.rule, r.cookie);
  }

  lemma {:induction false} RemoveAckWhole(w: World, tpDone: bool)
    requires Live(w) && w.fsm.state.RemoveFlow? && !OverrunsFilters(w.fsm) && !w.fsm.removes[0].suspendsAdd
    ensures Sound(AfterRemoval(w, tpDone))
  {
    var e, r := w.fsm, w.fsm.removes[0];
    LiveRemovalIs(w, tpDone);
    RemovedIsInstalled(e, w.installed);
    CleanedStore(e);
    CleanupEnds(Cleaned(e), Uninstall(w.installed, r.rule), tpDone);
    WakeKeeps(e, FinishCleanup(Cleaned(e), tpDone), FirstRule(e.rules, r.rule), w.add, r.rule, r.cookie);
  }

  lemma {:induction false} RemoveAckKeeps(w: World, tpDone: bool)
    requires Live(w) && w.fsm.state.RemoveFlow? && !OverrunsFilters(w.fsm)
    ensures Sound(AfterRemoval(w, tpDone))
  {
    if w.fsm.removes[0].suspendsAdd { RemoveAckHalf(w, tpDone); } else { RemoveAckWhole(w, tpDone); }
  }

  lemma {:induction false} ListedVid(slots: Slots, n: nat, flows: seq<Flow>, k: nat, i: nat)
    requires FilterInv(slots, n, flows, k) && i < k && !Transparent(flows[i].rule)
    ensures n <= TABLE_SIZE && FirstIndex(slots[..n], flows[i].rule.setVid) < n
  {
    AskedCut(flows, k, i, flows[i].rule.setVid);
    ListedSome(slots, n, flows[i].rule.setVid);
  }

  lemma {:induction false} RemoveAckOverrun(w: World, tpDone: bool)
    requires Live(w) && OverrunsFilters(w.fsm)
    ensures AfterRemoval(w, tpDone).fsm.state.Crashed?
  {
    var e := w.fsm;
    RemovedIsInstalled(e, w.installed);
    ListedVid(e.slots, e.numFilters, e.rules, e.configured, FirstRule(e.rules, e.removes[0].rule));
    assert CutFilter(e, e.removes[0].rule).state.Crashed?;
  }

  lemma {:induction false} CleanupRestKeeps(w: World, tpDone: bool)
    requires Sound(w)
    ensures Sound(Raw(w, CleanupRest(tpDone)))
  {
    var e := w.fsm;
    if e.state.CleanupDone? {
      CleanupEnds(e, w.installed, tpDone);
      var e1 := FinishCleanup(e, tpDone);
      AddInvShrunk(e, e1, w.add);
      assert AddInv(e1, WakeOnCookie(w.add, e.removes[0].cookie, e.delayCookie));
    }
  }
}