/**
  Conservation of cookies over whole runs of the VLAN engine: a cookie that was accepted stays with its rule until it
  is deleted, unless a waiting add joins a rule whose removal is already queued.
*/
module VlanCookies {
  import opened Words
  import opened VlanModel
  import opened VlanRuns
  import opened VlanSteps
  import opened VlanTheorems
  import opened VlanLimits

  /** Every flow that is to be removed has no cookie but the one that was deleted. */
  ghost predicate Sole(flows: seq<Flow>, removes: seq<Removal>) {
    forall k, i | 0 <= k < |removes| && 0 <= i < |flows| && flows[i].rule == removes[k].rule ::
      flows[i].cookies == [removes[k].cookie]
  }

  ghost predicate Alone(e: Engine) {
    match e
    case Engine(_, _, rules, _, _, _, _, _, _, _, _) => Sole(rules, Active(e))
  }

  /** The cookie is stored and nobody asked for its removal. */
  ghost predicate Safe(flows: seq<Flow>, removes: seq<Removal>, d: Cookie) {
    !Unused(flows, d) && forall k | 0 <= k < |removes| :: removes[k].cookie != d
  }

  ghost predicate Held(e: Engine, d: Cookie) {
    match e
    case Engine(_, _, rules, _, _, _, _, _, _, _, _) => Safe(rules, Active(e), d)
  }

  predicate RuleListed(removes: seq<Removal>, rule: Rule) {
    FirstRemoval(removes, rule) < |removes|
  }

  /** A waiting add goes on although the removal of its rule is queued by now: an add that waited for its cookie does
      not look at the removals again, and neither does one that waited for its rule. */
  predicate Late(w: World, s: Step) {
    s.ResumeAdd? && (w.add.RuleGone? || w.add.CookieGone?) && RuleListed(Active(w.fsm), w.add.req.rule)
  }

  /** And it writes its cookies into that rule. */
  predicate Joins(w: World, s: Step) {
    Late(w, s) && (w.add.RuleGone? ==> Stores(w.fsm, w.add.req))
  }

  predicate JoinsSomewhere(w: World, steps: seq<Step>)
    decreases |steps|
  {
    steps != [] && (Joins(w, steps[0]) || JoinsSomewhere(Next(w, steps[0]), steps[1..]))
  }

  /** Some step asks for the removal of the cookie. */
  predicate Deleted(steps: seq<Step>, d: Cookie) {
    steps != [] && ((steps[0].Remove? && steps[0].cookie == d) || Deleted(steps[1..], d))
  }

  // ---------------------------------------------------------------- what a step keeps

  /** The removed flows stay alone, and a cookie that is held stays held. */
  ghost predicate Carries(e: Engine, e1: Engine, d: Cookie) {
    match e
    case Engine(_, _, _, _, _, _, _, _, _, _, _) => Alone(e1) && (Held(e, d) ==> Held(e1, d))
  }

  /** The same removals, whether or not an add waits for them. */
  ghost predicate SameRemovals(a: seq<Removal>, b: seq<Removal>) {
    |a| == |b| && forall k | 0 <= k < |a| :: a[k].rule == b[k].rule && a[k].cookie == b[k].cookie
  }

  lemma {:induction false} QuietCarries(e: Engine, e1: Engine, d: Cookie)
    requires Alone(e) && e1.rules == e.rules && SameRemovals(Active(e1), Active(e))
    ensures Carries(e, e1, d)
  {
  }

  /** The flows and the removals stay, and no cleanup begins. */
  ghost predicate Leaves(e: Engine, e1: Engine) {
    match e1
    case Engine(state, _, rules, removes, _, _, _, _, _, _, _) =>
      rules == e.rules && removes == e.removes && !state.CleanupDone?
  }

  lemma {:induction false} StartingLeaves(e: Engine, tpDone: bool)
    requires e.state.Starting?
    ensures Leaves(e, EnterStarting(e, tpDone))
  {
  }

  lemma {:induction false} IncrementLeaves(e: Engine, tpDone: bool)
    requires e.state.ConfigDone?
    ensures Leaves(e, StartIncrement(e, tpDone))
  {
  }

  lemma {:induction false} DoneLeaves(e: Engine, tpDone: bool)
    requires e.state.ConfigDone?
    ensures Leaves(e, EnterConfigDone(e, tpDone))
  {
    if e.removes == [] && e.numFlows > e.configured {
      if e.configured == 0 {
        StartingLeaves(Moved(e, EvRenew), tpDone);
      } else {
        IncrementLeaves(e, tpDone);
      }
    }
  }

  /** The removals stay, and so does a cleanup that is under way. */
  ghost predicate SameWork(e: Engine, e1: Engine) {
    e1.removes == e.removes && (e1.state.CleanupDone? <==> e.state.CleanupDone?)
  }

  lemma {:induction false} AppendLeaves(e: Engine, req: Request, tpDone: bool)
    requires e.numFlows <= |e.rules|
    ensures SameWork(e, AppendFlow(e, req, tpDone).0)
  {
    if e.state.ConfigDone? && e.numFlows < TABLE_SIZE {
      var e1 := e.(rules := e.rules + [Flow(req.rule, req.cookies)], numFlows := e.numFlows + 1);
      StartingLeaves(Moved(e1, EvRenew), tpDone);
      IncrementLeaves(e1, tpDone);
    }
  }

  lemma {:induction false} StoreLeaves(e: Engine, req: Request, tpDone: bool)
    requires e.numFlows <= |e.rules|
    ensures SameWork(e, StoreFlow(e, req, tpDone).0)
  {
    AppendLeaves(e, req, tpDone);
  }

  lemma {:induction false} ReviseLeaves(e: Engine, req: Request, tpDone: bool)
    requires e.numFlows <= |e.rules| && |req.cookies| == 1
    ensures SameWork(e, ReviseFlow(e, req, tpDone).0)
  {
    AppendLeaves(e.(delayCookie := 0), req, tpDone);
  }

  // ---------------------------------------------------------------- writing to the store

  lemma {:induction false} WrittenSole(flows: seq<Flow>, removes: seq<Removal>, req: Request, bound: nat)
    requires StoreInv(flows) && RemovalInv(flows, removes, bound) && Sole(flows, removes)
    requires var f := FirstRule(flows, req.rule); f < |flows| ==> Missing(req.cookies, flows[f].cookies) != []
    ensures Sole(Written(flows, req), removes) <==> !RuleListed(removes, req.rule)
  {
    var f := FirstRule(flows, req.rule);
    var k := FirstRemoval(removes, req.rule);
    if k < |removes| {
      assert Backed(flows, removes[k], bound);
      assert flows[f].cookies == [removes[k].cookie];
      assert Written(flows, req)[f].rule == removes[k].rule;
    }
  }

  lemma {:induction false} WrittenSafe(flows: seq<Flow>, removes: seq<Removal>, req: Request, d: Cookie)
    requires Safe(flows, removes, d)
    ensures Safe(Written(flows, req), removes, d)
  {
    var i :| 0 <= i < |flows| && d in flows[i].cookies;
    assert d in Written(flows, req)[i].cookies;
  }

  lemma {:induction false} ActiveSame(e: Engine, e1: Engine)
    requires SameWork(e, e1)
    ensures Active(e1) == Active(e)
  {
  }

  /** What the request leaves behind when its cookies are written, and when they are not. */
  lemma {:induction false} WrittenCarries(e: Engine, e1: Engine, req: Request, d: Cookie, bound: nat)
    requires StoreInv(e.rules) && RemovalInv(e.rules, Active(e), bound) && Alone(e) && SameWork(e, e1)
    requires e1.rules == Written(e.rules, req)
    requires var f := FirstRule(e.rules, req.rule); f < |e.rules| ==> Missing(req.cookies, e.rules[f].cookies) != []
    ensures Alone(e1) <==> !RuleListed(Active(e), req.rule)
    ensures Held(e, d) ==> Held(e1, d)
  {
    ActiveSame(e, e1);
    WrittenSole(e.rules, Active(e), req, bound);
    if Held(e, d) { WrittenSafe(e.rules, Active(e), req, d); }
  }

  lemma {:induction false} SameCarries(e: Engine, e1: Engine, d: Cookie)
    requires Alone(e) && SameWork(e, e1) && e1.rules == e.rules
    ensures Carries(e, e1, d)
  {
    ActiveSame(e, e1);
  }

  lemma {:induction false} StoreCarries(e: Engine, installed: seq<Rule>, req: Request, tpDone: bool, d: Cookie)
    requires EngineInv(e, installed) && !Dead(e) && Alone(e)
    ensures var e1 := StoreFlow(e, req, tpDone).0;
            && (Alone(e1) <==> !(RuleListed(Active(e), req.rule) && Stores(e, req)))
            && (Held(e, d) ==> Held(e1, d))
  {
    var e1 := StoreFlow(e, req, tpDone).0;
    StoredRules(e, req, tpDone);
    StoreLeaves(e, req, tpDone);
    if Stores(e, req) { WrittenCarries(e, e1, req, d, Bound(e)); } else { SameCarries(e, e1, d); }
  }

  lemma {:induction false} ReviseCarries(e: Engine, installed: seq<Rule>, req: Request, tpDone: bool, d: Cookie)
    requires EngineInv(e, installed) && !Dead(e) && Alone(e) && |req.cookies| == 1 && Unused(e.rules, req.cookies[0])
    ensures var e1 := ReviseFlow(e, req, tpDone).0;
            && (Alone(e1) <==> !RuleListed(Active(e), req.rule))
            && (Held(e, d) ==> Held(e1, d))
  {
    var e1 := ReviseFlow(e, req, tpDone).0;
    var f := FirstRule(e.rules, req.rule);
    RevisedRules(e, req, tpDone);
    ReviseLeaves(e, req, tpDone);
    if f == |e.rules| && e.numFlows >= TABLE_SIZE {
      NewIsNotListed(e.rules, Active(e), req.rule, Bound(e));
      SameCarries(e, e1, d);
    } else {
      if f < |e.rules| {
        SingleMissing(req.cookies[0], e.rules[f].cookies);
        assert req.cookies == [req.cookies[0]];
      }
      WrittenCarries(e, e1, req, d, Bound(e));
    }
  }

  lemma {:induction false} NewIsNotListed(flows: seq<Flow>, removes: seq<Removal>, rule: Rule, bound: nat)
    requires RemovalInv(flows, removes, bound) && FirstRule(flows, rule) == |flows|
    ensures !RuleListed(removes, rule)
  {
  }

  // ---------------------------------------------------------------- requests

  lemma {:induction false} MarkSame(e: Engine, removes: seq<Removal>)
    requires SameRemovals(removes, e.removes)
    ensures SameRemovals(Active(e.(removes := removes)), Active(e))
  {
  }

  lemma {:induction false} NotListedIsNotActive(e: Engine, rule: Rule)
    requires !RuleListed(e.removes, rule)
    ensures !RuleListed(Active(e), rule)
  {
  }

  lemma {:induction false} AddCarries(w: World, req: Request, tpDone: bool, d: Cookie)
    requires Sound(w) && Alone(w.fsm)
    ensures Carries(w.fsm, Raw(w, Add(req, tpDone)).fsm, d)
  {
    var e := w.fsm;
    var k := FirstRemoval(e.removes, req.rule);
    if k < |e.removes| {
      var marked := e.removes[k := e.removes[k].(suspendsAdd := true)];
      MarkSame(e, marked);
      QuietCarries(e, e.(removes := marked), d);
    } else {
      NotListedIsNotActive(e, req.rule);
      StoreCarries(e, w.installed, req, tpDone, d);
    }
  }

  lemma {:induction false} TimeoutCarries(w: World, mark: nat, d: Cookie)
    requires Alone(w.fsm)
    ensures Carries(w.fsm, Raw(w, Timeout(mark)).fsm, d)
  {
    var marked := Unmarked(w.fsm.removes, mark);
    MarkSame(w.fsm, marked);
    QuietCarries(w.fsm, w.fsm.(removes := marked), d);
  }

  /** A waiting add keeps the removed flows alone if and only if it does not join one of them. */
  lemma {:induction false} ResumeCarries(w: World, tpDone: bool, d: Cookie)
    requires Sound(w) && Alone(w.fsm)
    ensures var e1 := Raw(w, ResumeAdd(tpDone)).fsm;
            (Alone(e1) <==> !Joins(w, ResumeAdd(tpDone))) && (Held(w.fsm, d) ==> Held(e1, d))
  {
    match w.add
    case RuleGone(req) => StoreCarries(w.fsm, w.installed, req, tpDone, d);
    case CookieGone(req) => ReviseCarries(w.fsm, w.installed, req, tpDone, d);
    case _ =>
  }

  /** One of several cookies is deleted: its flow is not to be removed. */
  lemma {:induction false} DropCarries(flows: seq<Flow>, removes: seq<Removal>, i: nat, left: seq<Cookie>, d: Cookie)
    requires Sole(flows, removes) && i < |flows| && |flows[i].cookies| > 1
    requires d in flows[i].cookies ==> d in left
    ensures var flows' := flows[i := flows[i].(cookies := left)];
            Sole(flows', removes) && (Safe(flows, removes, d) ==> Safe(flows', removes, d))
  {
    var flows' := flows[i := flows[i].(cookies := left)];
    if Safe(flows, removes, d) {
      var j :| 0 <= j < |flows| && d in flows[j].cookies;
      assert d in flows'[j].cookies;
    }
  }

  /** A queued removal names a flow with a single cookie. */
  lemma {:induction false} QueueSole(flows: seq<Flow>, removes: seq<Removal>, i: nat, c: Cookie, d: Cookie)
    requires StoreInv(flows) && Sole(flows, removes) && i < |flows| && flows[i].cookies == [c] && c != d
    ensures var more := removes + [Removal(flows[i].rule, c, false)];
            Sole(flows, more) && (Safe(flows, removes, d) ==> Safe(flows, more, d))
  {
  }

  lemma {:induction false} QueueActive(e: Engine, e1: Engine, installed: seq<Rule>, r: Removal)
    requires EngineInv(e, installed) && e1.removes == e.removes + [r]
    requires e1.state.CleanupDone? <==> e.state.CleanupDone?
    ensures Active(e1) == Active(e) + [r]
  {
  }

  lemma {:induction false} QueueCarries(e: Engine, installed: seq<Rule>, i: nat, c: Cookie, tpDone: bool, d: Cookie)
    requires EngineInv(e, installed) && !Dead(e) && Alone(e) && !e.state.WaitingTechProf? && c != d
    requires i < |e.rules| && e.rules[i].cookies == [c]
    ensures Carries(e, RemoveRule(e, e.rules[i].rule, c, tpDone), d)
  {
    QueueActive(e, RemoveRule(e, e.rules[i].rule, c, tpDone), installed, Removal(e.rules[i].rule, c, false));
    QueueSole(e.rules, Active(e), i, c, d);
  }

  /** A flow leaves with its only cookie: all others stay. */
  lemma {:induction false} CutSafe(flows: seq<Flow>, removes: seq<Removal>, left: seq<Removal>, i: nat, d: Cookie)
    requires Sole(flows, removes) && i < |flows|
    requires left == removes || (removes != [] && left == removes[1..])
    ensures Sole(Cut(flows, i), left)
    ensures Safe(flows, removes, d) && d !in flows[i].cookies ==> Safe(Cut(flows, i), left, d)
  {
    var cut := Cut(flows, i);
    assert forall j | 0 <= j < |cut| :: cut[j] == flows[if j < i then j else j + 1];
    if Safe(flows, removes, d) && d !in flows[i].cookies {
      var j :| 0 <= j < |flows| && d in flows[j].cookies;
      assert cut[if j < i then j else j - 1] == flows[j];
    }
  }

  lemma {:induction false} CancelCarries(e: Engine, installed: seq<Rule>, i: nat, c: Cookie, tpDone: bool, d: Cookie)
    requires EngineInv(e, installed) && Alone(e) && e.state.WaitingTechProf? && c != d
    requires i < |e.rules| && e.rules[i].cookies == [c]
    ensures Carries(e, RemoveRule(e, e.rules[i].rule, c, tpDone), d)
  {
    FirstCookieIs(e.rules, i, c);
    var e1 := CutFlow(e, c, false).engine;
    DoneLeaves(Moved(e1, EvCancelOutstandingConfig), tpDone);
    CutSafe(e.rules, [], [], i, d);
    assert |e.rules| == 1 ==> Cut(e.rules, i) == [];
  }

  lemma {:induction false} DropIs(e: Engine, i: nat, c: Cookie, tpDone: bool)
    requires i == FirstCookie(e.rules, c) < |e.rules| && |e.rules[i].cookies| > 1
    ensures var e1 := RemoveCookie(e, c, tpDone);
            var left := Cut(e.rules[i].cookies, FirstIndex(e.rules[i].cookies, c));
            SameWork(e, e1) && e1.rules == e.rules[i := e.rules[i].(cookies := left)]
  {
  }

  lemma {:induction false} CutOthers(cookies: seq<Cookie>, c: Cookie, d: Cookie)
    requires c in cookies && d in cookies && c != d
    ensures d in Cut(cookies, FirstIndex(cookies, c))
  {
    var p, j := FirstIndex(cookies, c), FirstIndex(cookies, d);
    assert Cut(cookies, p)[if j < p then j else j - 1] == d;
  }

  lemma {:induction false} RemoveCarries(w: World, c: Cookie, tpDone: bool, d: Cookie)
    requires Sound(w) && Alone(w.fsm) && c != d
    ensures Carries(w.fsm, RemoveCookie(w.fsm, c, tpDone), d)
  {
    var e := w.fsm;
    var i := FirstCookie(e.rules, c);
    if i == |e.rules| {
    } else if |e.rules[i].cookies| == 1 {
      assert e.rules[i].cookies == [c];
      if e.state.WaitingTechProf? {
        CancelCarries(e, w.installed, i, c, tpDone, d);
      } else {
        QueueCarries(e, w.installed, i, c, tpDone, d);
      }
    } else {
      DropIs(e, i, c, tpDone);
      ActiveSame(e, RemoveCookie(e, c, tpDone));
      if d in e.rules[i].cookies { CutOthers(e.rules[i].cookies, c, d); }
      DropCarries(e.rules, Active(e), i, Cut(e.rules[i].cookies, FirstIndex(e.rules[i].cookies, c)), d);
    }
  }

  // ---------------------------------------------------------------- answers

  lemma {:induction false} EvtocdCarries(w: World, tpDone: bool, d: Cookie)
    requires Alone(w.fsm)
    ensures Carries(w.fsm, Raw(w, EvtocdAck(tpDone)).fsm, d)
  {
    var e := w.fsm;
    if e.state.ConfigEvtocd? || e.state.ConfigIncrFlow? {
      DoneLeaves(Moved(e.(configured := Inc8(e.configured)), EvRxConfigEvtocd), tpDone);
    }
  }

  lemma {:induction false} TechProfCarries(w: World, tpId: bv8, d: Cookie)
    requires Alone(w.fsm)
    ensures Carries(w.fsm, Raw(w, TechProfDone(tpId)).fsm, d) && Carries(w.fsm, Raw(w, VtfdAck).fsm, d)
  {
    SameCarries(w.fsm, Raw(w, TechProfDone(tpId)).fsm, d);
    SameCarries(w.fsm, Raw(w, VtfdAck).fsm, d);
  }

  lemma {:induction false} FinishLeaves(e: Engine, tpDone: bool)
    requires e.state.CleanupDone? && e.removes != []
    ensures Leaves(e.(removes := e.removes[1..]), FinishCleanup(e, tpDone))
  {
    DoneLeaves(Moved(e.(removes := e.removes[1..]), EvFlowDataRemoved), tpDone);
  }

  lemma {:induction false} CleanupCarries(w: World, tpDone: bool, d: Cookie)
    requires Alone(w.fsm)
    ensures Carries(w.fsm, Raw(w, CleanupRest(tpDone)).fsm, d)
  {
    if MidCleanup(w.fsm) { FinishLeaves(w.fsm, tpDone); }
  }

  lemma {:induction false} AckActive(w: World, tpDone: bool)
    requires Live(w) && w.fsm.state.RemoveFlow? && !OverrunsFilters(w.fsm)
    ensures w.fsm.removes != [] && Active(AfterRemoval(w, tpDone).fsm) == w.fsm.removes[1..]
  {
    LiveRemovalIs(w, tpDone);
    CleanedStore(w.fsm);
    FinishLeaves(Cleaned(w.fsm), tpDone);
  }

  /** The removed flow takes no cookie with it but its own. */
  lemma {:induction false} AckCarries(w: World, tpDone: bool, d: Cookie)
    requires Live(w) && w.fsm.state.RemoveFlow? && !OverrunsFilters(w.fsm) && Alone(w.fsm)
    ensures w.fsm.removes != [] && Carries(w.fsm, AfterRemoval(w, tpDone).fsm, d)
  {
    AckActive(w, tpDone);
    RemovedRules(w, tpDone);
    var i := FirstRule(w.fsm.rules, w.fsm.removes[0].rule);
    assert w.fsm.rules[i].cookies == [w.fsm.removes[0].cookie];
    CutSafe(w.fsm.rules, w.fsm.removes, w.fsm.removes[1..], i, d);
  }

  lemma {:induction false} RemovalCarries(w: World, tpDone: bool, d: Cookie)
    requires Live(w) && !OverrunsFilters(w.fsm) && Alone(w.fsm)
    ensures Carries(w.fsm, Raw(w, RemoveAck(tpDone)).fsm, d)
  {
    if w.fsm.state.RemoveFlow? && w.fsm.removes != [] {
      AckCarries(w, tpDone, d);
      RemoveAckIs(w, tpDone);
    }
  }

  // ---------------------------------------------------------------- every step, every run

  lemma {:induction false} RequestCarries(w: World, s: Step, d: Cookie)
    requires Sound(w) && Alone(w.fsm) && !(s.Remove? && s.cookie == d) && (s.Add? || s.Remove? || s.Timeout?)
    ensures Carries(w.fsm, Raw(w, s).fsm, d)
  {
    match s
    case Add(req, tpDone) => AddCarries(w, req, tpDone, d);
    case Timeout(mark) => TimeoutCarries(w, mark, d);
    case Remove(c, tpDone) => RemoveCarries(w, c, tpDone, d);
  }

  lemma {:induction false} AnswerCarries(w: World, s: Step, d: Cookie)
    requires Sound(w) && Alone(w.fsm) && !Panics(w, s)
    requires !s.Add? && !s.Remove? && !s.Timeout? && !s.ResumeAdd? && !s.Reset?
    ensures Carries(w.fsm, Raw(w, s).fsm, d)
  {
    match s
    case VtfdAck => TechProfCarries(w, 0, d);
    case EvtocdAck(tpDone) => EvtocdCarries(w, tpDone, d);
    case TechProfDone(tpId) => TechProfCarries(w, tpId, d);
    case RemoveAck(tpDone) => RemovalCarries(w, tpDone, d);
    case CleanupRest(tpDone) => CleanupCarries(w, tpDone, d);
    case Restart =>
  }

  lemma {:induction false} RawCarries(w: World, s: Step, d: Cookie)
    requires Sound(w) && Alone(w.fsm) && !Panics(w, s) && !s.Reset? && !(s.Remove? && s.cookie == d)
    ensures Alone(Raw(w, s).fsm) <==> !Joins(w, s)
    ensures Held(w.fsm, d) ==> Held(Raw(w, s).fsm, d)
  {
    if s.ResumeAdd? {
      ResumeCarries(w, s.tpDone, d);
    } else if s.Add? || s.Remove? || s.Timeout? {
      RequestCarries(w, s, d);
    } else {
      AnswerCarries(w, s, d);
    }
  }

  lemma {:induction false} SettledSame(w: World, d: Cookie)
    ensures (Alone(Settled(w).fsm) <==> Alone(w.fsm)) && (Held(Settled(w).fsm, d) <==> Held(w.fsm, d))
  {
    SettledIs(w);
  }

  /** For every step of a live engine: the removed flows stay alone if and only if no waiting add joins one of them; and
      a cookie that is held stays held unless the step asks for its removal. */
  lemma {:induction false} StepCarriesIff(w: World, s: Step, d: Cookie)
    requires Sound(w) && Alone(w.fsm) && !Panics(w, s) && !s.Reset? && !(s.Remove? && s.cookie == d)
    ensures Alone(Next(w, s).fsm) <==> !Joins(w, s)
    ensures Held(w.fsm, d) ==> Held(Next(w, s).fsm, d)
  {
    RawCarries(w, s, d);
    SettledSame(Raw(w, s), d);
  }

  /** Over every admissible run in which no waiting add joins a rule under removal, a cookie that is held stays held as
      long as nobody asks for its removal. */
  lemma {:induction false} CookiesAreKept(w: World, steps: seq<Step>, d: Cookie)
    requires Sound(w) && Alone(w.fsm) && Held(w.fsm, d)
    requires AdmissibleRun(w, steps) && !HasReset(steps) && !PanicsSomewhere(w, steps)
    requires !JoinsSomewhere(w, steps) && !Deleted(steps, d)
    ensures Held(Run(w, steps).fsm, d) && !Unused(Run(w, steps).fsm.rules, d)
    decreases |steps|
  {
    if steps != [] {
      StepStaysLive(w, steps[0]);
      StepCarriesIff(w, steps[0], d);
      CookiesAreKept(Next(w, steps[0]), steps[1..], d);
    }
  }

  // ---------------------------------------------------------------- accepted requests

  /** The cookie belongs to a request that this step reports as stored. */
  predicate Accepted(w: World, s: Step, d: Cookie) {
    match s
    case Add(req, tpDone) => d in req.cookies && AddFlow(w.fsm, req, tpDone).1.Stored?
    case ResumeAdd(tpDone) =>
      (match w.add
       case RuleGone(req) => d in req.cookies && StoreFlow(w.fsm, req, tpDone).1.Stored?
       case CookieGone(req) => d in req.cookies && |req.cookies| == 1 && ReviseFlow(w.fsm, req, tpDone).1.Stored?
       case _ => false)
    case _ => false
  }

  /** The flow of the rule has the cookie. */
  ghost predicate Owns(flows: seq<Flow>, rule: Rule, d: Cookie) {
    exists i :: 0 <= i < |flows| && flows[i].rule == rule && d in flows[i].cookies
  }

  lemma {:induction false} WrittenOwns(flows: seq<Flow>, req: Request, d: Cookie)
    requires d in req.cookies
    ensures Owns(Written(flows, req), req.rule, d)
  {
    var f := FirstRule(flows, req.rule);
    if f < |flows| { MissingIs(req.cookies, flows[f].cookies); }
    assert Written(flows, req)[f].rule == req.rule && d in Written(flows, req)[f].cookies;
  }

  lemma {:induction false} StoredOwns(e: Engine, installed: seq<Rule>, req: Request, tpDone: bool, d: Cookie)
    requires EngineInv(e, installed) && !Dead(e) && d in req.cookies && StoreFlow(e, req, tpDone).1.Stored?
    ensures Owns(StoreFlow(e, req, tpDone).0.rules, req.rule, d)
  {
    StoredRules(e, req, tpDone);
    if Stores(e, req) {
      WrittenOwns(e.rules, req, d);
    } else {
      var f := FirstRule(e.rules, req.rule);
      MissingIs(req.cookies, e.rules[f].cookies);
      assert e.rules[f].rule == req.rule && d in e.rules[f].cookies;
    }
  }

  lemma {:induction false} RevisedOwns(e: Engine, installed: seq<Rule>, req: Request, tpDone: bool, d: Cookie)
    requires EngineInv(e, installed) && !Dead(e) && |req.cookies| == 1 && d in req.cookies
    requires ReviseFlow(e, req, tpDone).1.Stored?
    ensures Owns(ReviseFlow(e, req, tpDone).0.rules, req.rule, d)
  {
    RevisedRules(e, req, tpDone);
    var f := FirstRule(e.rules, req.rule);
    if f < |e.rules| && d in e.rules[f].cookies {
      assert e.rules[f].rule == req.rule;
    } else {
      WrittenOwns(e.rules, req, d);
    }
  }

  lemma {:induction false} OwnedIsSafe(flows: seq<Flow>, removes: seq<Removal>, bound: nat, rule: Rule, d: Cookie)
    requires StoreInv(flows) && RemovalInv(flows, removes, bound) && Owns(flows, rule, d) && !RuleListed(removes, rule)
    ensures Safe(flows, removes, d)
  {
    var i :| 0 <= i < |flows| && flows[i].rule == rule && d in flows[i].cookies;
    forall k | 0 <= k < |removes| ensures removes[k].cookie != d {
      assert Backed(flows, removes[k], bound);
      assert FirstRule(flows, removes[k].rule) != i;
    }
  }

  /** The request that an accepting step is about. */
  function RequestOf(w: World, s: Step): Request
    requires s.Add? || !w.add.NoAdd?
  {
    if s.Add? then s.req else w.add.req
  }

  lemma {:induction false} AcceptedRaw(w: World, s: Step, d: Cookie)
    requires Sound(w) && Accepted(w, s, d)
    ensures Owns(Raw(w, s).fsm.rules, RequestOf(w, s).rule, d) && SameWork(w.fsm, Raw(w, s).fsm)
    ensures s.Add? ==> !RuleListed(w.fsm.removes, s.req.rule)
  {
    match s
    case Add(req, tpDone) => StoredOwns(w.fsm, w.installed, req, tpDone, d); StoreLeaves(w.fsm, req, tpDone);
    case ResumeAdd(tpDone) =>
      if w.add.RuleGone? {
        StoredOwns(w.fsm, w.installed, w.add.req, tpDone, d);
        StoreLeaves(w.fsm, w.add.req, tpDone);
      } else {
        RevisedOwns(w.fsm, w.installed, w.add.req, tpDone, d);
        ReviseLeaves(w.fsm, w.add.req, tpDone);
      }
  }

  lemma {:induction false} AcceptedNext(w: World, s: Step, d: Cookie)
    requires Sound(w) && Accepted(w, s, d)
    ensures Owns(Next(w, s).fsm.rules, RequestOf(w, s).rule, d) && Active(Next(w, s).fsm) == Active(w.fsm)
  {
    AcceptedRaw(w, s, d);
    SettledIs(Raw(w, s));
    ActiveSame(w.fsm, Next(w, s).fsm);
  }

  lemma {:induction false} AcceptedInTime(w: World, s: Step, d: Cookie)
    requires Sound(w) && Admissible(w, s) && Alone(w.fsm) && Accepted(w, s, d) && !Late(w, s)
    ensures Alone(Next(w, s).fsm) && Held(Next(w, s).fsm, d)
  {
    AcceptedNext(w, s, d);
    AcceptedRaw(w, s, d);
    StepCarriesIff(w, s, d);
    StepStaysLive(w, s);
    var w1, rule := Next(w, s), RequestOf(w, s).rule;
    if s.Add? { NotListedIsNotActive(w.fsm, rule); }
    OwnedIsSafe(w1.fsm.rules, Active(w1.fsm), Bound(w1.fsm), rule, d);
  }

  /** The rule has the cookie of its removal only. */
  lemma {:induction false} ListedIsNotSafe(flows: seq<Flow>, removes: seq<Removal>, rule: Rule, d: Cookie)
    requires Sole(flows, removes) && Owns(flows, rule, d) && RuleListed(removes, rule)
    ensures !Safe(flows, removes, d)
  {
    var i :| 0 <= i < |flows| && flows[i].rule == rule && d in flows[i].cookies;
    assert flows[i].cookies == [removes[FirstRemoval(removes, rule)].cookie];
  }

  /** A cookie that was reported as stored is held, with nothing about to take it away, if and only if the waiting add
      was not late. */
  lemma {:induction false} AcceptedIff(w: World, s: Step, d: Cookie)
    requires Sound(w) && Admissible(w, s) && Alone(w.fsm) && Accepted(w, s, d)
    ensures Alone(Next(w, s).fsm) && Held(Next(w, s).fsm, d) <==> !Late(w, s)
  {
    if !Late(w, s) {
      AcceptedInTime(w, s, d);
    } else if Alone(Next(w, s).fsm) {
      AcceptedNext(w, s, d);
      ListedIsNotSafe(Next(w, s).fsm.rules, Active(w.fsm), w.add.req.rule, d);
    }
  }

  lemma {:induction false} BeginIsAlone(incremental: bool, req: Request, tpDone: bool)
    ensures Alone(Begin(incremental, req, tpDone).fsm)
  {
    var e := Engine(Starting, incremental, [Flow(req.rule, req.cookies)], [], Flow(req.rule, req.cookies), 1, 0,
                    seq(TABLE_SIZE, _ => 0), 0, 0, 0);
    StartingLeaves(e, tpDone);
  }

  /** As long as no waiting add joins a rule under removal, every removal takes its own cookie only. */
  lemma {:induction false} RunStaysAlone(w: World, steps: seq<Step>)
    requires Sound(w) && Alone(w.fsm)
    requires AdmissibleRun(w, steps) && !HasReset(steps) && !PanicsSomewhere(w, steps) && !JoinsSomewhere(w, steps)
    ensures Sound(Run(w, steps)) && Alone(Run(w, steps).fsm)
    decreases |steps|
  {
    if steps != [] {
      var s := steps[0];
      StepStaysLive(w, s);
      StepCarriesIff(w, s, if s.Remove? then s.cookie + 1 else 0);
      RunStaysAlone(Next(w, s), steps[1..]);
    }
  }

  /** A run that an engine can take from a sound state without a reset, a panic or an add that joins a removed rule. */
  ghost predicate Regular(w: World, steps: seq<Step>) {
    AdmissibleRun(w, steps) && !HasReset(steps) && !PanicsSomewhere(w, steps) && !JoinsSomewhere(w, steps)
  }

  /** From the creation of the engine on, for every cookie that is accepted at any time, and not late: it stays with the
      store over everything that follows until its removal is asked for. */
  lemma {:induction false} AcceptedStays(incremental: bool, req: Request, tpDone: bool,
                                         before: seq<Step>, s: Step, after: seq<Step>, d: Cookie)
    requires GoodCookies(req.cookies) && Regular(Begin(incremental, req, tpDone), before)
    requires var w := Run(Begin(incremental, req, tpDone), before);
             Admissible(w, s) && Accepted(w, s, d) && !Late(w, s) && Regular(Next(w, s), after)
    requires !Deleted(after, d)
    ensures !Unused(Run(Next(Run(Begin(incremental, req, tpDone), before), s), after).fsm.rules, d)
  {
    var begin := Begin(incremental, req, tpDone);
    BeginIsLive(incremental, req, tpDone);
    BeginIsAlone(incremental, req, tpDone);
    RunStaysAlone(begin, before);
    var w := Run(begin, before);
    AcceptedIff(w, s, d);
    StepStaysLive(w, s);
    CookiesAreKept(Next(w, s), after, d);
  }
}
