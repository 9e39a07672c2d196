/**
  Runs from the creation of the engine, step by step up to a state that is wrong.  They leave the assumptions of
  `VlanRuns.Admissible` in one step; the last one, where an accepted cookie is lost, does not leave them at all.
*/
module VlanRaces {
  import opened VlanModel
  import opened VlanRuns
  import opened VlanSteps
  import opened VlanTheorems
  import opened VlanLimits

  // ---------------------------------------------------------------- single steps

  lemma {:induction false} RunSnoc(w: World, steps: seq<Step>, s: Step)
    ensures Run(w, steps + [s]) == Next(Run(w, steps), s)
    ensures AdmissibleRun(w, steps) && Admissible(Run(w, steps), s) ==> AdmissibleRun(w, steps + [s])
  {
    RunConcat(w, steps, [s]);
    RunOne(Run(w, steps), s);
  }

  lemma {:induction false} RunOne(w: World, s: Step)
    ensures Run(w, [s]) == Next(w, s)
    ensures Admissible(w, s) ==> AdmissibleRun(w, [s])
  {
    assert [s][1..] == [];
    assert Run(w, [s]) == Run(Next(w, s), []);
  }

  /** A request for the last cookie of a flow while another removal runs. */
  lemma {:induction false} RemoveBehind(w: World, i: nat, c: Cookie)
    requires w.fsm.state.RemoveFlow? && StoreInv(w.fsm.rules) && i < |w.fsm.rules| && w.fsm.rules[i].cookies == [c]
    ensures Next(w, Remove(c, true)) ==
            w.(fsm := w.fsm.(removes := w.fsm.removes + [Removal(w.fsm.rules[i].rule, c, false)]))
  {
    FirstCookieIs(w.fsm.rules, i, c);
  }

  lemma {:induction false} RemoveFirst(w: World, i: nat, c: Cookie)
    requires w.fsm.state.ConfigDone? && w.fsm.removes == [] && StoreInv(w.fsm.rules)
    requires i < |w.fsm.rules| && w.fsm.rules[i].cookies == [c]
    ensures Next(w, Remove(c, true)) ==
            w.(fsm := w.fsm.(removes := [Removal(w.fsm.rules[i].rule, c, false)], state := RemoveFlow))
  {
    FirstCookieIs(w.fsm.rules, i, c);
  }

  /** A new flow that has to wait until the engine is at rest again. */
  lemma {:induction false} AddBehind(w: World, req: Request)
    requires !Dead(w.fsm) && !w.fsm.state.ConfigDone? && w.fsm.numFlows == |w.fsm.rules| < TABLE_SIZE
    requires FirstRemoval(w.fsm.removes, req.rule) == |w.fsm.removes|
             && FirstRule(w.fsm.rules, req.rule) == |w.fsm.rules|
    requires !DelayNeeded(w.fsm, req.cookies)
    ensures Next(w, Add(req, true)) ==
            w.(fsm := w.fsm.(rules := w.fsm.rules + [Flow(req.rule, req.cookies)], numFlows := w.fsm.numFlows + 1))
  {
  }

  lemma {:induction false} CutFilterShape(e: Engine, rule: Rule)
    requires e.numFilters < TABLE_SIZE
    ensures var e1 := CutFilter(e, rule);
            e1 == e.(slots := e1.slots, numFilters := e1.numFilters) && e1.numFilters <= e.numFilters
  {
  }

  /** A removal can be acknowledged whether or not its flow was configured. */
  ghost predicate AckReady(e: Engine) {
    && e.state.RemoveFlow? && e.removes != [] && !e.removes[0].suspendsAdd && e.numFilters < TABLE_SIZE
    && StoreInv(e.rules) && 0 < e.numFlows == |e.rules| && 0 < e.configured <= |e.rules|
    && FirstRule(e.rules, e.removes[0].rule) < |e.rules|
    && e.removes[0].cookie in e.rules[FirstRule(e.rules, e.removes[0].rule)].cookies
  }

  lemma {:induction false} AckWorld(w: World, tpDone: bool)
    requires AckReady(w.fsm) && w.add.NoAdd? && !FinishCleanup(Cleaned(w.fsm), tpDone).state.Crashed?
    ensures Next(w, RemoveAck(tpDone)) ==
            World(FinishCleanup(Cleaned(w.fsm), tpDone), NoAdd, Uninstall(w.installed, w.fsm.removes[0].rule))
  {
    CutFilterShape(w.fsm, w.fsm.removes[0].rule);
    RemovalAckedIs(w.fsm, tpDone);
  }

  /** More removals are queued: the next one starts. */
  lemma {:induction false} NextRemovalStarts(e: Engine, tpDone: bool)
    requires e.state.CleanupDone? && |e.removes| > 1
    ensures FinishCleanup(e, tpDone) == e.(removes := e.removes[1..], state := RemoveFlow)
  {
  }

  /** Nothing is queued, and no flow is counted as configured: the first one is configured again. */
  lemma {:induction false} StartsOver(e: Engine)
    requires e.state.CleanupDone? && |e.removes| == 1 && e.configured == 0 && e.numFlows == |e.rules| > 0
    ensures FinishCleanup(e, false) ==
            e.(removes := [], state := WaitingTechProf, actual := e.rules[0], tpWaitingFor := e.rules[0].rule.tpId)
  {
    assert e.removes[1..] == [];
  }

  // ---------------------------------------------------------------- removal of a queued flow

  lemma {:induction false} LoadedShape(w: World, rules: seq<Rule>, k: nat)
    requires k <= |rules| && Loaded(w, rules, k)
    ensures && Sound(w) && StoreInv(w.fsm.rules) && w.fsm.numFlows == w.fsm.configured == k && w.fsm.removes == []
            && w.fsm.delayCookie == 0 && w.installed == rules[..k]
  {
    assert w.installed == RulesOf(w.fsm.rules, k);
  }

  /** With `x` and `a` installed: the removal of `x` runs, `b` is added and removed again before it was configured. */
  function QueuedSteps(b: Rule): seq<Step> {
    [Remove(1, true)] + [Add(Request(b, [3]), true)] + [Remove(3, true)] + [RemoveAck(true)] + [RemoveAck(false)]
  }

  /** The first two steps: one removal runs and a flow is queued. */
  lemma {:induction false} QueuedAdd(w: World, x: Rule, a: Rule, b: Rule)
    requires x != a && a != b && x != b && Loaded(w, [x, a], 2)
    ensures Next(Next(w, Remove(1, true)), Add(Request(b, [3]), true)) ==
            w.(fsm := w.fsm.(state := RemoveFlow, numFlows := 3, rules := [Flow(x, [1]), Flow(a, [2]), Flow(b, [3])],
                             removes := [Removal(x, 1, false)]))
  {
    LoadedShape(w, [x, a], 2);
    assert w.fsm.rules == [Flow(x, [1]), Flow(a, [2])];
    RemoveFirst(w, 0, 1);
    var w1 := Next(w, Remove(1, true));
    assert FirstRule(w1.fsm.rules, b) == 2 && FirstRemoval(w1.fsm.removes, b) == 1 && FirstCookie(w1.fsm.rules, 3) == 2;
    AddBehind(w1, Request(b, [3]));
  }

  /** And with the third the flow is to be removed again. */
  lemma {:induction false} QueuedBegins(w: World, x: Rule, a: Rule, b: Rule)
    requires x != a && a != b && x != b && Loaded(w, [x, a], 2)
    ensures var w3 := Next(Next(Next(w, Remove(1, true)), Add(Request(b, [3]), true)), Remove(3, true));
            && w3.add.NoAdd? && w3.installed == [x, a]
            && w3.fsm == w.fsm.(state := RemoveFlow, numFlows := 3,
                                rules := [Flow(x, [1]), Flow(a, [2]), Flow(b, [3])],
                                removes := [Removal(x, 1, false), Removal(b, 3, false)])
  {
    LoadedShape(w, [x, a], 2);
    QueuedAdd(w, x, a, b);
    ThreeFlows(x, a, b);
    RemoveBehind(Next(Next(w, Remove(1, true)), Add(Request(b, [3]), true)), 2, 3);
  }

  lemma {:induction false} TwoFlows(a: Rule, b: Rule)
    requires a != b
    ensures StoreInv([Flow(a, [2]), Flow(b, [3])])
  {
  }

  lemma {:induction false} ThreeFlows(x: Rule, a: Rule, b: Rule)
    requires x != a && a != b && x != b
    ensures StoreInv([Flow(x, [1]), Flow(a, [2]), Flow(b, [3])])
  {
  }

  /** The first acknowledgement: `x` is gone and the queued removal of `b` is next. */
  lemma {:induction false} QueuedFirstAck(w: World, x: Rule, a: Rule, b: Rule)
    requires x != a && a != b && x != b && w.add.NoAdd? && w.installed == [x, a] && w.fsm.state.RemoveFlow?
    requires w.fsm.rules == [Flow(x, [1]), Flow(a, [2]), Flow(b, [3])] && w.fsm.numFlows == 3 && w.fsm.configured == 2
    requires w.fsm.removes == [Removal(x, 1, false), Removal(b, 3, false)] && w.fsm.numFilters < TABLE_SIZE
    ensures var w1 := Next(w, RemoveAck(true));
            && w1.add.NoAdd? && w1.installed == [a] && w1.fsm.state.RemoveFlow? && w1.fsm.numFilters < TABLE_SIZE
            && w1.fsm.rules == [Flow(a, [2]), Flow(b, [3])] && w1.fsm.numFlows == 2 && w1.fsm.configured == 1
            && w1.fsm.removes == [Removal(b, 3, false)]
  {
    ThreeFlows(x, a, b);
    FirstRuleIs(w.fsm.rules, 0);
    CutFilterShape(w.fsm, x);
    CleanedShape(w.fsm);
    assert Cut(w.fsm.rules, 0) == [Flow(a, [2]), Flow(b, [3])];
    NextRemovalStarts(Cleaned(w.fsm), true);
    AckWorld(w, true);
    assert Cut([x, a], 0) == [a];
  }

  /** The second one: the flow that was never configured is counted as if it had been. */
  lemma {:induction false} QueuedSecondAck(w: World, a: Rule, b: Rule)
    requires a != b && w.add.NoAdd? && w.installed == [a] && w.fsm.state.RemoveFlow? && w.fsm.numFilters < TABLE_SIZE
    requires w.fsm.rules == [Flow(a, [2]), Flow(b, [3])] && w.fsm.numFlows == 2 && w.fsm.configured == 1
    requires w.fsm.removes == [Removal(b, 3, false)]
    ensures var w1 := Next(w, RemoveAck(false));
            w1.fsm.state.WaitingTechProf? && w1.installed == [a] && w1.fsm.rules == [Flow(a, [2])]
                && w1.fsm.configured == 0
  {
    TwoFlows(a, b);
    FirstRuleIs(w.fsm.rules, 1);
    CutFilterShape(w.fsm, b);
    CleanedShape(w.fsm);
    assert Cut(w.fsm.rules, 1) == [Flow(a, [2])];
    StartsOver(Cleaned(w.fsm));
    AckWorld(w, false);
  }

  /** From creation on: after removing a queued flow the engine counts no configured flow while the ONU holds `a`, and
      it waits to configure `a` once more. */
  lemma {:induction false} QueuedRemovalBreaksPrefix(incremental: bool, x: Rule, a: Rule, b: Rule)
    requires x != a && a != b && x != b && !Transparent(x) && !Transparent(a)
    ensures var w := Run(Begin(incremental, Request(x, [1]), true), Load([x, a], 2) + QueuedSteps(b));
            && w.fsm.state.WaitingTechProf? && w.fsm.rules == [Flow(a, [2])] && w.installed == [a]
               && w.fsm.configured == 0
            && w.installed != RulesOf(w.fsm.rules, w.fsm.configured)
  {
    var begin := Begin(incremental, Request(x, [1]), true);
    LoadBase(incremental, [x, a]);
    LoadRuns(begin, [x, a], 2);
    assert Loads(begin, [x, a], 2);
    var w0 := Run(begin, Load([x, a], 2));
    QueuedRun(w0, x, a, b);
    RunConcat(begin, Load([x, a], 2), QueuedSteps(b));
  }

  lemma {:induction false} RunFive(w: World, s1: Step, s2: Step, s3: Step, s4: Step, s5: Step)
    ensures Run(w, [s1] + [s2] + [s3] + [s4] + [s5]) == Next(Next(Next(Next(Next(w, s1), s2), s3), s4), s5)
    ensures && Admissible(w, s1) && Admissible(Next(w, s1), s2) && Admissible(Next(Next(w, s1), s2), s3)
            && Admissible(Next(Next(Next(w, s1), s2), s3), s4)
            && Admissible(Next(Next(Next(Next(w, s1), s2), s3), s4), s5)
            ==> AdmissibleRun(w, [s1] + [s2] + [s3] + [s4] + [s5])
  {
    RunSnoc(w, [], s1);
    assert [] + [s1] == [s1];
    RunSnoc(w, [s1], s2);
    RunSnoc(w, [s1] + [s2], s3);
    RunSnoc(w, [s1] + [s2] + [s3], s4);
    RunSnoc(w, [s1] + [s2] + [s3] + [s4], s5);
  }

  lemma {:induction false} QueuedRun(w: World, x: Rule, a: Rule, b: Rule)
    requires x != a && a != b && x != b && Loaded(w, [x, a], 2)
    ensures var w1 := Run(w, QueuedSteps(b));
            w1.fsm.state.WaitingTechProf? && w1.installed == [a] && w1.fsm.rules == [Flow(a, [2])]
                && w1.fsm.configured == 0
  {
    RunFive(w, Remove(1, true), Add(Request(b, [3]), true), Remove(3, true), RemoveAck(true), RemoveAck(false));
    LoadedShape(w, [x, a], 2);
    QueuedBegins(w, x, a, b);
    var w3 := Next(Next(Next(w, Remove(1, true)), Add(Request(b, [3]), true)), Remove(3, true));
    QueuedFirstAck(w3, x, a, b);
    QueuedSecondAck(Next(w3, RemoveAck(true)), a, b);
  }

  // ---------------------------------------------------------------- a cookie that is removed twice

  function TwiceSteps(): seq<Step> {
    [Remove(1, true)] + [Remove(1, true)] + [RemoveAck(true)] + [RemoveAck(true)]
  }

  lemma {:induction false} TwiceQueued(w: World, x: Rule)
    requires Loaded(w, [x], 1)
    ensures var w2 := Next(Next(w, Remove(1, true)), Remove(1, true));
            && w2.add.NoAdd? && w2.fsm == w.fsm.(state := RemoveFlow,
               removes := [Removal(x, 1, false), Removal(x, 1, false)])
  {
    LoadedShape(w, [x], 1);
    RemoveFirst(w, 0, 1);
    RemoveBehind(Next(w, Remove(1, true)), 0, 1);
  }

  /** The first cleanup empties the slice and goes on with the second entry. */
  lemma {:induction false} TwiceFirstAck(w: World, x: Rule)
    requires w.add.NoAdd? && w.fsm.state.RemoveFlow? && w.fsm.removes == [Removal(x, 1, false), Removal(x, 1, false)]
    requires w.fsm.rules == [Flow(x, [1])] && w.fsm.numFlows == w.fsm.configured == 1 && w.fsm.numFilters < TABLE_SIZE
    ensures var w1 := Next(w, RemoveAck(true));
            && w1.add.NoAdd? && w1.fsm.state.RemoveFlow? && w1.fsm.rules == []
               && w1.fsm.removes == [Removal(x, 1, false)]
            && w1.fsm.numFilters < TABLE_SIZE
  {
    assert StoreInv(w.fsm.rules);
    FirstRuleIs(w.fsm.rules, 0);
    CutFilterShape(w.fsm, x);
    CleanedShape(w.fsm);
    assert Cut(w.fsm.rules, 0) == [];
    NextRemovalStarts(Cleaned(w.fsm), true);
    AckWorld(w, true);
  }

  /** The second one does not find its cookie. */
  lemma {:induction false} TwiceSecondAck(w: World, x: Rule)
    requires w.add.NoAdd? && w.fsm.state.RemoveFlow? && w.fsm.removes == [Removal(x, 1, false)] && w.fsm.rules == []
    requires w.fsm.numFilters < TABLE_SIZE
    ensures Next(w, RemoveAck(true)).fsm.state.Resetting?
  {
    CutFilterShape(w.fsm, x);
    AckStartsCleanup(w.fsm, true);
  }

  /** From creation on: two removals of one cookie reset the engine. */
  lemma {:induction false} RemovedTwiceResets(incremental: bool, x: Rule)
    requires !Transparent(x)
    ensures Run(Begin(incremental, Request(x, [1]), true), Load([x], 1) + TwiceSteps()).fsm.state.Resetting?
  {
    var begin := Begin(incremental, Request(x, [1]), true);
    LoadBase(incremental, [x]);
    assert Loads(begin, [x], 1);
    var w := Run(begin, Load([x], 1));
    RunConcat(begin, Load([x], 1), TwiceSteps());
    RunFour(w, Remove(1, true), Remove(1, true), RemoveAck(true), RemoveAck(true));
    TwiceRun(w, x);
  }

  lemma {:induction false} TwiceRun(w: World, x: Rule)
    requires Loaded(w, [x], 1)
    ensures Next(Next(Next(Next(w, Remove(1, true)), Remove(1, true)), RemoveAck(true)),
            RemoveAck(true)).fsm.state.Resetting?
  {
    LoadedShape(w, [x], 1);
    TwiceQueued(w, x);
    var w2 := Next(Next(w, Remove(1, true)), Remove(1, true));
    TwiceFirstAck(w2, x);
    TwiceSecondAck(Next(w2, RemoveAck(true)), x);
  }

  lemma {:induction false} RunFour(w: World, s1: Step, s2: Step, s3: Step, s4: Step)
    ensures Run(w, [s1] + [s2] + [s3] + [s4]) == Next(Next(Next(Next(w, s1), s2), s3), s4)
  {
    RunSnoc(w, [], s1);
    assert [] + [s1] == [s1];
    RunSnoc(w, [s1], s2);
    RunSnoc(w, [s1] + [s2], s3);
    RunSnoc(w, [s1] + [s2] + [s3], s4);
  }

  // ---------------------------------------------------------------- a release that comes too early

  /** The installed rule is removed and requested again at once; the request waits, is woken and stored. */
  function RestoreSteps(r: Rule): seq<Step> {
    [Remove(1, true)] + [Add(Request(r, [1]), true)] + [RemoveAck(true)] + [ResumeAdd(true)]
  }

  function RaceSteps(r2: Rule): seq<Step> {
    [Add(Request(r2, [1]), true)] + [CleanupRest(true)] + [ResumeAdd(true)]
  }

  lemma {:induction false} RestoreWaits(w: World, r: Rule)
    requires Loaded(w, [r], 1)
    ensures var w2 := Next(Next(w, Remove(1, true)), Add(Request(r, [1]), true));
            && Sound(w2) && w2.add == OnRule(Request(r, [1]))
            && w2.fsm == w.fsm.(state := RemoveFlow, removes := [Removal(r, 1, true)])
  {
    LoadedShape(w, [r], 1);
    RemoveFirst(w, 0, 1);
    FirstCookieIs(w.fsm.rules, 0, 1);
    StepStaysLive(w, Remove(1, true));
    var w1 := Next(w, Remove(1, true));
    StepStaysLive(w1, Add(Request(r, [1]), true));
  }

  lemma {:induction false} RestoreWakes(w: World, r: Rule)
    requires Sound(w) && w.add == OnRule(Request(r, [1])) && w.fsm.state.RemoveFlow?
    requires w.fsm.removes == [Removal(r, 1, true)] && w.fsm.rules == [Flow(r, [1])] && w.fsm.numFilters < TABLE_SIZE
    ensures var w1 := Next(w, RemoveAck(true));
            && Sound(w1) && w1.add == RuleGone(Request(r, [1])) && w1.fsm.state.CleanupDone?
            && w1.fsm.removes == w.fsm.removes && w1.fsm.rules == []
  {
    LiveRemovalIs(w, true);
    RemoveAckHalf(w, true);
    CleanedStore(w.fsm);
    assert Cut(w.fsm.rules, 0) == [];
    assert Raw(w, RemoveAck(true)) == AfterRemoval(w, true);
  }

  lemma {:induction false} RestoreStores(w: World, r: Rule)
    requires Sound(w) && w.add == RuleGone(Request(r, [1])) && w.fsm.state.CleanupDone? && w.fsm.rules == []
    ensures var w1 := Next(w, ResumeAdd(true));
            && Sound(w1) && w1.add.NoAdd? && w1.fsm.state.CleanupDone? && w1.fsm.removes == w.fsm.removes
            && w1.fsm.rules == [Flow(r, [1])]
  {
    StepStaysLive(w, ResumeAdd(true));
    assert FirstRule(w.fsm.rules, r) == 0 && FirstCookie(w.fsm.rules, 1) == 0;
  }

  lemma {:induction false} RaceRun(w: World, r: Rule, r2: Rule)
    requires Live(w) && w.add.NoAdd? && w.fsm.state.CleanupDone? && w.fsm.removes == [Removal(r, 1, true)] && r != r2
    requires w.fsm.rules == [Flow(r, [1])]
    ensures var w3 := Next(Next(Next(w, Add(Request(r2, [1]), true)), CleanupRest(true)), ResumeAdd(true));
            w3.fsm.rules == [Flow(r, [1]), Flow(r2, [1])]
  {
    var req := Request(r2, [1]);
    DelayedInCleanup(w, req, 0, true);
    DelayKeeps(w.fsm, 1, w.installed);
    var w1 := Next(w, Add(req, true));
    ReleaseByCleanup(w1, true);
    var w2 := Next(w1, CleanupRest(true));
    ResumeRules(w2, true);
    RevisedRules(w2.fsm, req, true);
  }

  lemma {:induction false} RestoreRun(w: World, r: Rule)
    requires Loaded(w, [r], 1)
    ensures var w1 := Next(Next(Next(Next(w, Remove(1, true)), Add(Request(r, [1]), true)), RemoveAck(true)),
            ResumeAdd(true));
            && Live(w1) && w1.add.NoAdd? && w1.fsm.state.CleanupDone? && w1.fsm.removes == [Removal(r, 1, true)]
            && w1.fsm.rules == [Flow(r, [1])]
  {
    LoadedShape(w, [r], 1);
    RestoreWaits(w, r);
    var w2 := Next(Next(w, Remove(1, true)), Add(Request(r, [1]), true));
    RestoreWakes(w2, r);
    RestoreStores(Next(w2, RemoveAck(true)), r);
  }

  /** From creation on: a rule that is removed and requested again, and a second rule with the same cookie that comes
      before the cleanup is over, end up with one cookie in two rules. */
  lemma {:induction false} RaceSharesCookie(incremental: bool, r: Rule, r2: Rule)
    requires r != r2 && !Transparent(r)
    ensures Run(Begin(incremental, Request(r, [1]), true), Load([r], 1) + RestoreSteps(r) + RaceSteps(r2)).fsm.rules
            == [Flow(r, [1]), Flow(r2, [1])]
  {
    var begin := Begin(incremental, Request(r, [1]), true);
    LoadBase(incremental, [r]);
    assert Loads(begin, [r], 1);
    var w := Run(begin, Load([r], 1));
    RunConcat(begin, Load([r], 1), RestoreSteps(r));
    RunFour(w, Remove(1, true), Add(Request(r, [1]), true), RemoveAck(true), ResumeAdd(true));
    RestoreRun(w, r);
    var w4 := Run(w, RestoreSteps(r));
    RunConcat(begin, Load([r], 1) + RestoreSteps(r), RaceSteps(r2));
    RunThree(w4, Add(Request(r2, [1]), true), CleanupRest(true), ResumeAdd(true));
    RaceRun(w4, r, r2);
  }

  lemma {:induction false} RunThree(w: World, s1: Step, s2: Step, s3: Step)
    ensures Run(w, [s1] + [s2] + [s3]) == Next(Next(Next(w, s1), s2), s3)
  {
    RunSnoc(w, [], s1);
    assert [] + [s1] == [s1];
    RunSnoc(w, [s1], s2);
    RunSnoc(w, [s1] + [s2], s3);
  }

  // ---------------------------------------------------------------- a cookie that is taken before the add goes on

  /** A sound world with the given state, waiting add, flows and removals. */
  ghost predicate At(w: World, state: FsmState, add: Suspension, rules: seq<Flow>, removes: seq<Removal>) {
    match w
    case World(fsm, a, _) => Sound(w) && fsm.state == state && a == add && fsm.rules == rules && fsm.removes == removes
  }

  lemma {:induction false} FewFilters(w: World)
    requires Live(w) && |w.fsm.rules| < TABLE_SIZE
    ensures !OverrunsFilters(w.fsm)
  {
  }

  /** At rest: a request for a cookie that another flow has must wait for it. */
  lemma {:induction false} WaitsForCookie(w: World, req: Request, i: nat)
    requires At(w, ConfigDone, NoAdd, w.fsm.rules, []) && i < |w.fsm.rules| && |req.cookies| == 1
    requires req.cookies[0] in w.fsm.rules[i].cookies && w.fsm.rules[i].rule != req.rule
    ensures Admissible(w, Add(req, true))
    ensures At(Next(w, Add(req, true)), ConfigDone, OnCookie(req), w.fsm.rules, [])
    ensures Next(w, Add(req, true)).fsm.delayCookie == req.cookies[0]
  {
    ForeignDelays(w.fsm, req, i);
    AddDelays(w, req, true);
    assert AddOk(w, req);
    StepStaysLive(w, Add(req, true));
  }

  lemma {:induction false} RemovalBegins(w: World, i: nat, c: Cookie)
    requires At(w, ConfigDone, w.add, w.fsm.rules, []) && i < |w.fsm.rules| && w.fsm.rules[i].cookies == [c]
    ensures Admissible(w, Remove(c, true)) && Next(w, Remove(c, true)).fsm.delayCookie == w.fsm.delayCookie
    ensures At(Next(w, Remove(c, true)), RemoveFlow, w.add, w.fsm.rules, [Removal(w.fsm.rules[i].rule, c, false)])
  {
    RemoveFirst(w, i, c);
    FirstCookieIs(w.fsm.rules, i, c);
    assert RemoveOk(w.fsm, c);
    StepStaysLive(w, Remove(c, true));
  }

  /** What is left of the removals once a cleanup is over. */
  lemma {:induction false} FinishRemoves(e: Engine, installed: seq<Rule>, tpDone: bool)
    requires EngineInv(e, installed) && e.state.CleanupDone? && e.removes != []
    ensures FinishCleanup(e, tpDone).removes == e.removes[1..]
    ensures |e.removes| > 1 ==> FinishCleanup(e, tpDone).state.RemoveFlow?
  {
    CleanupEnds(e, installed, tpDone);
    if |e.removes| > 1 { NextRemovalStarts(e, tpDone); }
  }

  lemma {:induction false} AckWakes(w: World)
    requires Live(w) && w.fsm.state.RemoveFlow? && !OverrunsFilters(w.fsm)
    requires w.fsm.removes != [] && !w.fsm.removes[0].suspendsAdd
    ensures var w1, r := AfterRemoval(w, true), w.fsm.removes[0];
            && w1.add == WakeOnCookie(w.add, r.cookie, w.fsm.delayCookie) && w1.fsm.removes == w.fsm.removes[1..]
            && (|w.fsm.removes| > 1 ==> w1.fsm.state.RemoveFlow?)
  {
    LiveRemovalIs(w, true);
    CleanedStore(w.fsm);
    FinishRemoves(Cleaned(w.fsm), Uninstall(w.installed, w.fsm.removes[0].rule), true);
  }

  /** The awaited cookie is deleted with its flow: the add may go on. */
  lemma {:induction false} AckReleases(w: World, c: Cookie)
    requires Sound(w) && w.fsm.state.RemoveFlow? && w.fsm.removes != [] && !w.fsm.removes[0].suspendsAdd
    requires w.fsm.removes[0].cookie == w.fsm.delayCookie == c && w.add.OnCookie? && |w.fsm.rules| < TABLE_SIZE
    ensures FirstRule(w.fsm.rules, w.fsm.removes[0].rule) < |w.fsm.rules|
    ensures var w1 := Next(w, RemoveAck(true));
            && Sound(w1) && w1.add == CookieGone(w.add.req) && w1.fsm.removes == w.fsm.removes[1..]
            && w1.fsm.rules == Cut(w.fsm.rules, FirstRule(w.fsm.rules, w.fsm.removes[0].rule))
            && (|w.fsm.removes| > 1 ==> w1.fsm.state.RemoveFlow?)
  {
    FewFilters(w);
    StepStaysLive(w, RemoveAck(true));
    AckWakes(w);
    AckedRules(w, true);
    RemoveAckIs(w, true);
  }

  /** After the release a third rule takes the cookie before the add goes on. */
  function OvertakenSteps(r2: Rule, r3: Rule): seq<Step> {
    [Add(Request(r2, [1]), true)] + [Remove(1, true)] + [RemoveAck(true)] + [Add(Request(r3, [1]), true)]
        + [ResumeAdd(true)]
  }

  lemma {:induction false} OvertakenReleased(w: World, r: Rule, r2: Rule)
    requires r != r2 && Loaded(w, [r], 1)
    ensures var w3 := Next(Next(Next(w, Add(Request(r2, [1]), true)), Remove(1, true)), RemoveAck(true));
            Sound(w3) && w3.add == CookieGone(Request(r2, [1])) && w3.fsm.rules == [] && w3.fsm.removes == []
  {
    LoadedShape(w, [r], 1);
    WaitsForCookie(w, Request(r2, [1]), 0);
    var w1 := Next(w, Add(Request(r2, [1]), true));
    RemovalBegins(w1, 0, 1);
    var w2 := Next(w1, Remove(1, true));
    AckReleases(w2, 1);
    assert Cut([Flow(r, [1])], 0) == [];
  }

  lemma {:induction false} OvertakenRun(w: World, r2: Rule, r3: Rule)
    requires Sound(w) && w.add == CookieGone(Request(r2, [1])) && w.fsm.rules == [] && w.fsm.removes == [] && r2 != r3
    ensures Next(Next(w, Add(Request(r3, [1]), true)), ResumeAdd(true)).fsm.rules == [Flow(r3, [1]), Flow(r2, [1])]
  {
    AddRules(w, Request(r3, [1]), true);
    StoredRules(w.fsm, Request(r3, [1]), true);
    var w1 := Next(w, Add(Request(r3, [1]), true));
    OvertakenStored(w, Request(r3, [1]));
    ResumeRules(w1, true);
    RevisedRules(w1.fsm, Request(r2, [1]), true);
  }

  lemma {:induction false} OvertakenStored(w: World, req: Request)
    requires Sound(w) && w.add.CookieGone? && w.fsm.rules == [] && w.fsm.removes == []
    ensures var w1 := Next(w, Add(req, true));
            w1.add == w.add && w1.fsm.rules == [Flow(req.rule, req.cookies)] && w1.fsm.numFlows == 1 && !Dead(w1.fsm)
  {
    AddsToEmpty(w.fsm, req);
  }

  /** The first flow of an engine that was emptied. */
  lemma {:induction false} AddsToEmpty(e: Engine, req: Request)
    requires e.rules == [] && e.removes == [] && e.numFlows == e.configured == 0 && !Dead(e)
    ensures var (e1, outcome) := AddFlow(e, req, true);
            && outcome.Stored? && e1.rules == [Flow(req.rule, req.cookies)] && e1.numFlows == 1 && !Dead(e1)
  {
  }

  /** From creation on: an add is released properly, but another rule takes the cookie before the add goes on; the
      cookie ends up in two rules. */
  lemma {:induction false} OvertakenSharesCookie(incremental: bool, r: Rule, r2: Rule, r3: Rule)
    requires r != r2 && r2 != r3 && !Transparent(r)
    ensures Run(Begin(incremental, Request(r, [1]), true), Load([r], 1) + OvertakenSteps(r2, r3)).fsm.rules
            == [Flow(r3, [1]), Flow(r2, [1])]
  {
    var begin := Begin(incremental, Request(r, [1]), true);
    LoadBase(incremental, [r]);
    assert Loads(begin, [r], 1);
    var w := Run(begin, Load([r], 1));
    RunConcat(begin, Load([r], 1), OvertakenSteps(r2, r3));
    RunFive(w, Add(Request(r2, [1]), true), Remove(1, true), RemoveAck(true), Add(Request(r3, [1]), true),
        ResumeAdd(true));
    OvertakenReleased(w, r, r2);
    OvertakenRun(Next(Next(Next(w, Add(Request(r2, [1]), true)), Remove(1, true)), RemoveAck(true)), r2, r3);
  }

  // ---------------------------------------------------------------- a cookie that goes with its rule

  /** With `r1` and `r2` installed: cookie 2 shall move to `r1`, then both cookies are deleted and the removals are
      acknowledged, the add in between. */
  function LosingSteps(r1: Rule): seq<Step> {
    MovingSteps(r1) + [RemoveAck(true)]
  }

  /** Up to the point where the cookie has moved. */
  function MovingSteps(r1: Rule): seq<Step> {
    [Add(Request(r1, [2]), true)] + [Remove(2, true)] + [Remove(1, true)] + [RemoveAck(true)] + [ResumeAdd(true)]
  }

  lemma {:induction false} RemovalQueues(w: World, i: nat, c: Cookie)
    requires Sound(w) && w.fsm.state.RemoveFlow? && i < w.fsm.configured <= |w.fsm.rules|
    requires w.fsm.rules[i].cookies == [c]
    requires forall k | 0 <= k < |w.fsm.removes| :: w.fsm.removes[k].cookie != c
    ensures Admissible(w, Remove(c, true)) && Sound(Next(w, Remove(c, true)))
    ensures Next(w, Remove(c, true)) ==
            w.(fsm := w.fsm.(removes := w.fsm.removes + [Removal(w.fsm.rules[i].rule, c, false)]))
  {
    RemoveBehind(w, i, c);
    FirstCookieIs(w.fsm.rules, i, c);
    assert RemoveOk(w.fsm, c);
    StepStaysLive(w, Remove(c, true));
  }

  /** The first two steps: the add waits for cookie 2, whose removal runs. */
  lemma {:induction false} MovingBegins(w: World, r1: Rule, r2: Rule)
    requires r1 != r2 && Loaded(w, [r1, r2], 2)
    ensures var req := Request(r1, [2]); var w1 := Next(w, Add(req, true)); var w2 := Next(w1, Remove(2, true));
            && Admissible(w, Add(req, true)) && Admissible(w1, Remove(2, true))
            && At(w2, RemoveFlow, OnCookie(req), [Flow(r1, [1]), Flow(r2, [2])], [Removal(r2, 2, false)])
            && w2.fsm.delayCookie == 2 && w2.fsm.configured == 2
  {
    LoadedShape(w, [r1, r2], 2);
    assert w.fsm.rules == [Flow(r1, [1]), Flow(r2, [2])];
    WaitsForCookie(w, Request(r1, [2]), 1);
    var w1 := Next(w, Add(Request(r1, [2]), true));
    RemovalBegins(w1, 1, 2);
    RemoveFirst(w1, 1, 2);
    assert |w1.fsm.rules| == 2 && w1.fsm.configured == 2;
  }

  /** The next two: the other flow is to be removed as well, and the first removal is acknowledged. */
  lemma {:induction false} MovingReleases(w: World, r1: Rule, r2: Rule)
    requires r1 != r2 && w.fsm.delayCookie == 2 && w.fsm.configured == 2
    requires At(w, RemoveFlow, OnCookie(Request(r1, [2])), [Flow(r1, [1]), Flow(r2, [2])], [Removal(r2, 2, false)])
    ensures var w1 := Next(w, Remove(1, true)); var w2 := Next(w1, RemoveAck(true));
            && Admissible(w, Remove(1, true)) && Admissible(w1, RemoveAck(true))
            && At(w2, RemoveFlow, CookieGone(Request(r1, [2])), [Flow(r1, [1])], [Removal(r1, 1, false)])
  {
    RemovalQueues(w, 0, 1);
    var w1 := Next(w, Remove(1, true));
    assert w1.fsm.removes == [Removal(r2, 2, false), Removal(r1, 1, false)];
    AckReleases(w1, 2);
    assert w1.fsm.removes[1..] == [Removal(r1, 1, false)];
    assert FirstRule(w1.fsm.rules, r2) == 1;
    assert Cut(w1.fsm.rules, 1) == [Flow(r1, [1])];
  }

  lemma {:induction false} ResumeLeaves(e: Engine, req: Request)
    requires e.state.RemoveFlow? && |req.cookies| == 1
    ensures var e1 := ReviseFlow(e, req, true).0; e1.removes == e.removes && (e1.state == e.state || e1.state.Crashed?)
  {
  }

  /** And the last two: the add is stored, and its cookie goes with the rule. */
  lemma {:induction false} MovedAndLost(w: World, r1: Rule)
    requires At(w, RemoveFlow, CookieGone(Request(r1, [2])), [Flow(r1, [1])], [Removal(r1, 1, false)])
    ensures var w1 := Next(w, ResumeAdd(true)); var w2 := Next(w1, RemoveAck(true));
            && Admissible(w, ResumeAdd(true)) && w1.fsm.rules == [Flow(r1, [1, 2])] && w1.add.NoAdd?
            && Admissible(w1, RemoveAck(true)) && Sound(w2) && w2.fsm.rules == []
  {
    var req := Request(r1, [2]);
    ResumeRules(w, true);
    RevisedRules(w.fsm, req, true);
    ResumeLeaves(w.fsm, req);
    StepStaysLive(w, ResumeAdd(true));
    var w1 := Next(w, ResumeAdd(true));
    SingleMissing(2, [1]);
    assert w1.fsm.rules == [Flow(r1, [1] + [2])] && [1] + [2] == [1, 2];
    LostByAck(w1, r1);
  }

  lemma {:induction false} LostByAck(w: World, r1: Rule)
    requires Sound(w) && w.fsm.state.RemoveFlow? && w.fsm.removes == [Removal(r1, 1, false)]
    requires w.fsm.rules == [Flow(r1, [1, 2])]
    ensures Sound(Next(w, RemoveAck(true))) && Next(w, RemoveAck(true)).fsm.rules == []
  {
    FewFilters(w);
    StepStaysLive(w, RemoveAck(true));
    AckedRules(w, true);
    assert Cut([Flow(r1, [1, 2])], 0) == [];
  }

  lemma {:induction false} MovingRun(w: World, r1: Rule, r2: Rule)
    requires r1 != r2 && Loaded(w, [r1, r2], 2)
    ensures AdmissibleRun(w, LosingSteps(r1)) && Run(w, MovingSteps(r1)).fsm.rules == [Flow(r1, [1, 2])]
    ensures Sound(Run(w, LosingSteps(r1))) && Run(w, LosingSteps(r1)).fsm.rules == []
  {
    var s1, s2, s3 := Add(Request(r1, [2]), true), Remove(2, true), Remove(1, true);
    MovingBegins(w, r1, r2);
    var w2 := Next(Next(w, s1), s2);
    MovingReleases(w2, r1, r2);
    MovedAndLost(Next(Next(w2, s3), RemoveAck(true)), r1);
    RunFive(w, s1, s2, s3, RemoveAck(true), ResumeAdd(true));
    RunSnoc(w, MovingSteps(r1), RemoveAck(true));
  }

  /** From creation on, with every step admissible: an accepted add leaves cookie 2 with `r1`, nobody deletes it from
      there, and yet it is gone in the end, because the removal of cookie 1 takes the whole rule. */
  lemma {:induction false} AcceptedCookieIsLost(incremental: bool, r1: Rule, r2: Rule)
    requires r1 != r2 && !Transparent(r1) && !Transparent(r2)
    ensures var begin := Begin(incremental, Request(r1, [1]), true); var load := Load([r1, r2], 2);
            && AdmissibleRun(begin, load + LosingSteps(r1))
            && Run(begin, load + MovingSteps(r1)).fsm.rules == [Flow(r1, [1, 2])]
            && Sound(Run(begin, load + LosingSteps(r1))) && Run(begin, load + LosingSteps(r1)).fsm.rules == []
  {
    var begin := Begin(incremental, Request(r1, [1]), true);
    LoadBase(incremental, [r1, r2]);
    LoadRuns(begin, [r1, r2], 2);
    assert Loads(begin, [r1, r2], 2);
    MovingRun(Run(begin, Load([r1, r2], 2)), r1, r2);
    RunConcat(begin, Load([r1, r2], 2), MovingSteps(r1));
    RunConcat(begin, Load([r1, r2], 2), LosingSteps(r1));
  }
}
