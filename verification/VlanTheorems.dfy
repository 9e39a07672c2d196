/**
  Main results about whole runs of the VLAN engine, and the exact conditions under which the code meets them.
*/
module VlanTheorems {
  import opened Words
  import opened VlanModel
  import opened VlanRuns
  import opened VlanSteps

  // ---------------------------------------------------------------- one step

  /** The only admissible step of a live engine that panics. */
  predicate Panics(w: World, s: Step) {
    s.RemoveAck? && OverrunsFilters(w.fsm)
  }

  lemma {:induction false} ResumeKeeps(w: World, tpDone: bool)
    requires Sound(w)
    ensures Sound(Raw(w, ResumeAdd(tpDone)))
  {
    if w.add.RuleGone? {
      ResumeRuleKeeps(w, tpDone);
    } else if w.add.CookieGone? {
      ResumeCookieKeeps(w, tpDone);
    } else {
      assert Raw(w, ResumeAdd(tpDone)) == w;
    }
  }

  lemma {:induction false} RawRemovalAck(w: World, tpDone: bool)
    ensures Raw(w, RemoveAck(tpDone)) ==
            if w.fsm.state.RemoveFlow? && w.fsm.removes != [] then AfterRemoval(w, tpDone) else w
  {
  }

  lemma {:induction false} RemovalAckKeeps(w: World, tpDone: bool)
    requires Sound(w) && !OverrunsFilters(w.fsm)
    ensures Sound(Raw(w, RemoveAck(tpDone)))
  {
    RawRemovalAck(w, tpDone);
    if w.fsm.state.RemoveFlow? && w.fsm.removes != [] { RemoveAckKeeps(w, tpDone); }
  }

  lemma {:induction false} RestartKeeps(w: World)
    requires Sound(w)
    ensures Sound(Raw(w, Restart))
  {
    assert Raw(w, Restart) == w;
  }

  /** The steps of the callers, and a wait that ends by timeout. */
  lemma {:induction false} RequestKeeps(w: World, s: Step)
    requires Sound(w) && Admissible(w, s) && (s.Add? || s.Remove? || s.Timeout?)
    ensures Sound(Raw(w, s))
  {
    match s
    case Add(req, tpDone) => AddKeeps(w, req, tpDone);
    case Remove(c, tpDone) => RemoveKeeps(w, c, tpDone);
    case Timeout(mark) => TimeoutKeeps(w, mark);
  }

  /** The steps of the ONU, the tech profiles and the waiting add, which are always admissible. */
  lemma {:induction false} AnswerKeeps(w: World, s: Step)
    requires Sound(w) && !s.Add? && !s.Remove? && !s.Timeout? && !s.Reset? && !Panics(w, s)
    ensures Sound(Raw(w, s))
  {
    match s
    case ResumeAdd(tpDone) => ResumeKeeps(w, tpDone);
    case VtfdAck => VtfdAckKeeps(w);
    case EvtocdAck(tpDone) => EvtocdAckKeeps(w, tpDone);
    case TechProfDone(tpId) => TechProfKeeps(w, tpId);
    case RemoveAck(tpDone) => RemovalAckKeeps(w, tpDone);
    case CleanupRest(tpDone) => CleanupRestKeeps(w, tpDone);
    case Restart => RestartKeeps(w);
  }

  lemma {:induction false} RawKeeps(w: World, s: Step)
    requires Sound(w) && Admissible(w, s) && !s.Reset? && !Panics(w, s)
    ensures Sound(Raw(w, s))
  {
    if s.Add? || s.Remove? || s.Timeout? { RequestKeeps(w, s); } else { AnswerKeeps(w, s); }
  }

  lemma {:induction false} RemoveKeeps(w: World, c: Cookie, tpDone: bool)
    requires Sound(w) && RemoveOk(w.fsm, c)
    ensures Sound(Raw(w, Remove(c, tpDone)))
  {
    var i := FirstCookie(w.fsm.rules, c);
    if i < |w.fsm.rules| {
      assert GoodCookies(w.fsm.rules[i].cookies);
      if |w.fsm.rules[i].cookies| == 1 { RemoveLastKeeps(w, c, tpDone); } else { DropCookieKeeps(w, c, tpDone); }
    }
  }

  /** A live engine stays live under every admissible step: it never resets itself, never indexes out of range
      and panics exactly when a removal is acknowledged with all filter slots in use. */
  lemma {:induction false} StepStaysLive(w: World, s: Step)
    requires Sound(w) && Admissible(w, s) && !s.Reset?
    ensures if Panics(w, s) then Next(w, s).fsm.state.Crashed? else Sound(Next(w, s))
  {
    if Panics(w, s) { RemoveAckOverrun(w, s.tpDone); } else { RawKeeps(w, s); }
  }

  lemma {:induction false} DeadStaysInAdd(e: Engine, req: Request, tpDone: bool)
    requires Dead(e)
    ensures Dead(AddFlow(e, req, tpDone).0) && Dead(StoreFlow(e, req, tpDone).0)
    ensures |req.cookies| == 1 ==> Dead(ReviseFlow(e, req, tpDone).0)
  {
  }

  lemma {:induction false} DeadStaysRaw(w: World, s: Step)
    requires Dead(w.fsm)
    ensures Dead(Raw(w, s).fsm)
  {
    match s
    case Add(req, tpDone) => DeadStaysInAdd(w.fsm, req, tpDone);
    case ResumeAdd(tpDone) => if !w.add.NoAdd? { DeadStaysInAdd(w.fsm, w.add.req, tpDone); }
    case _ =>
  }

  lemma {:induction false} DeadStaysDead(w: World, s: Step)
    requires Dead(w.fsm)
    ensures Dead(Next(w, s).fsm)
  {
    DeadStaysRaw(w, s);
    SettledIs(Raw(w, s));
  }

  lemma {:induction false} ResetKeeps(w: World)
    requires !Dead(w.fsm)
    ensures Next(w, Reset) == w || Dead(Next(w, Reset).fsm)
  {
  }

  lemma {:induction false} StepKeepsInv(w: World, s: Step)
    requires Inv(w) && Admissible(w, s)
    ensures Inv(Next(w, s))
  {
    if Dead(w.fsm) { DeadStaysDead(w, s); } else if s.Reset? { ResetKeeps(w); } else { StepStaysLive(w, s); }
  }

  // ---------------------------------------------------------------- any step, admissible or not

  /** A removal that runs, or whose cleanup runs, is listed. */
  predicate RemovalListed(e: Engine) {
    match e.state
    case RemoveFlow => e.removes != []
    case CleanupDone => e.removes != []
    case _ => true
  }

  lemma {:induction false} DoneLists(e: Engine, tpDone: bool)
    requires e.state.ConfigDone?
    ensures RemovalListed(EnterConfigDone(e, tpDone))
  {
  }

  lemma {:induction false} AppendLists(e: Engine, req: Request, tpDone: bool)
    requires RemovalListed(e)
    ensures RemovalListed(AppendFlow(e, req, tpDone).0)
  {
    if e.state.ConfigDone? && e.numFlows < TABLE_SIZE {
      var e1 := e.(rules := e.rules + [Flow(req.rule, req.cookies)], numFlows := Inc8(e.numFlows));
      StartLists(e1, tpDone);
    }
  }

  lemma {:induction false} StartLists(e: Engine, tpDone: bool)
    requires e.state.ConfigDone?
    ensures RemovalListed(EnterStarting(Moved(e, EvRenew), tpDone)) && RemovalListed(StartIncrement(e, tpDone))
  {
  }

  lemma {:induction false} StoreLists(e: Engine, req: Request, tpDone: bool)
    requires RemovalListed(e)
    ensures RemovalListed(StoreFlow(e, req, tpDone).0)
  {
    AppendLists(e, req, tpDone);
  }

  lemma {:induction false} AddLists(e: Engine, req: Request, tpDone: bool)
    requires RemovalListed(e)
    ensures RemovalListed(AddFlow(e, req, tpDone).0)
  {
    StoreLists(e, req, tpDone);
  }

  lemma {:induction false} ReviseLists(e: Engine, req: Request, tpDone: bool)
    requires RemovalListed(e) && |req.cookies| == 1
    ensures RemovalListed(ReviseFlow(e, req, tpDone).0)
  {
    AppendLists(e.(delayCookie := 0), req, tpDone);
  }

  lemma {:induction false} RemoveLists(e: Engine, c: Cookie, tpDone: bool)
    requires RemovalListed(e)
    ensures RemovalListed(RemoveCookie(e, c, tpDone))
  {
    var cut := CutFlow(e, c, false);
    if e.state.WaitingTechProf? && cut.Found? { DoneLists(Moved(cut.engine, EvCancelOutstandingConfig), tpDone); }
  }

  lemma {:induction false} FinishLists(e: Engine, tpDone: bool)
    requires e.state.CleanupDone? && e.removes != []
    ensures RemovalListed(FinishCleanup(e, tpDone))
  {
    DoneLists(Moved(e.(removes := e.removes[1..]), EvFlowDataRemoved), tpDone);
  }

  lemma {:induction false} CleanupLists(e: Engine, tpDone: bool)
    requires e.state.CleanupDone? && e.removes != []
    ensures RemovalListed(StartCleanup(e, tpDone))
  {
    var cut := CutFlow(e, e.removes[0].cookie, true);
    if cut.Found? { FinishLists(cut.engine, tpDone); }
  }

  lemma {:induction false} RemovalAckLists(e: Engine, tpDone: bool)
    requires e.state.RemoveFlow? && e.removes != []
    ensures RemovalListed(RemovalAcked(e, tpDone))
  {
    var e1 := CutFilter(e, e.removes[0].rule);
    assert e1.removes == e.removes && (e1.state == e.state || e1.state.Crashed?);
    if !e1.state.Crashed? { CleanupLists(Moved(e1, EvRemFlowDone), tpDone); }
  }

  lemma {:induction false} EvtocdAckLists(e: Engine, tpDone: bool)
    requires e.state.ConfigEvtocd? || e.state.ConfigIncrFlow?
    ensures RemovalListed(EvtocdAcked(e, tpDone))
  {
    DoneLists(Moved(e.(configured := Inc8(e.configured)), EvRxConfigEvtocd), tpDone);
  }

  lemma {:induction false} SettledIs(w: World)
    ensures Settled(w).fsm == w.fsm.(delayCookie := Settled(w).fsm.delayCookie)
    ensures Settled(w).installed == w.installed
  {
  }

  lemma {:induction false} RemoveAckIs(w: World, tpDone: bool)
    requires w.fsm.state.RemoveFlow? && w.fsm.removes != []
    ensures Raw(w, RemoveAck(tpDone)) == AfterRemoval(w, tpDone)
    ensures AfterRemoval(w, tpDone).fsm == RemovalAcked(w.fsm, tpDone)
  {
  }

  lemma {:induction false} AckedListsRemoval(w: World, tpDone: bool)
    requires w.fsm.state.RemoveFlow? && w.fsm.removes != []
    ensures RemovalListed(AfterRemoval(w, tpDone).fsm)
  {
    RemovalAckLists(w.fsm, tpDone);
  }

  lemma {:induction false} RawListsRemoval(w: World, s: Step)
    requires RemovalListed(w.fsm)
    ensures RemovalListed(Raw(w, s).fsm)
  {
    var e := w.fsm;
    match s
    case Add(req, tpDone) => AddLists(e, req, tpDone);
    case ResumeAdd(tpDone) =>
      if w.add.RuleGone? { StoreLists(e, w.add.req, tpDone); }
      if w.add.CookieGone? && |w.add.req.cookies| == 1 { ReviseLists(e, w.add.req, tpDone); }
    case Remove(c, tpDone) => RemoveLists(e, c, tpDone);
    case EvtocdAck(tpDone) => if e.state.ConfigEvtocd? || e.state.ConfigIncrFlow? { EvtocdAckLists(e, tpDone); }
    case RemoveAck(tpDone) => if e.state.RemoveFlow? { AckedListsRemoval(w, tpDone); }
    case CleanupRest(tpDone) => if e.state.CleanupDone? { FinishLists(e, tpDone); }
    case _ =>
  }

  /** Every step whatsoever keeps the removal list non-empty while a removal or its cleanup runs. */
  lemma {:induction false} StepListsRemoval(w: World, s: Step)
    requires RemovalListed(w.fsm)
    ensures RemovalListed(Next(w, s).fsm)
  {
    RawListsRemoval(w, s);
    SettledIs(Raw(w, s));
  }

  // ---------------------------------------------------------------- runs

  function Run(w: World, steps: seq<Step>): World
    decreases |steps|
  {
    if steps == [] then w else Run(Next(w, steps[0]), steps[1..])
  }

  ghost predicate AdmissibleRun(w: World, steps: seq<Step>)
    decreases |steps|
  {
    steps == [] || (Admissible(w, steps[0]) && AdmissibleRun(Next(w, steps[0]), steps[1..]))
  }

  function Begin(incremental: bool, req: Request, tpDone: bool): World {
    World(Created(incremental, req, tpDone), NoAdd, [])
  }

  lemma {:induction false} BeginIsLive(incremental: bool, req: Request, tpDone: bool)
    requires GoodCookies(req.cookies)
    ensures Sound(Begin(incremental, req, tpDone))
  {
    var flow := Flow(req.rule, req.cookies);
    var e := Engine(ConfigDone, incremental, [flow], [], flow, 1, 0, seq(TABLE_SIZE, _ => 0), 0, 0, 0);
    assert FilterInv(e.slots, 0, e.rules, 0);
    NoRemovals(e.rules, 0);
    StartingKeeps(e, [], tpDone);
    assert Created(incremental, req, tpDone) == EnterStarting(Moved(e, EvRenew), tpDone);
  }

  lemma {:induction false} BeginListsRemoval(incremental: bool, req: Request, tpDone: bool)
    ensures RemovalListed(Begin(incremental, req, tpDone).fsm)
  {
  }

  lemma {:induction false} RunKeepsInv(w: World, steps: seq<Step>)
    requires Inv(w) && AdmissibleRun(w, steps)
    ensures Inv(Run(w, steps))
    decreases |steps|
  {
    if steps != [] {
      StepKeepsInv(w, steps[0]);
      RunKeepsInv(Next(w, steps[0]), steps[1..]);
    }
  }

  /** In every reachable state that did not crash or reset: the ONU holds exactly the first configured flows of
      the slice, the counters are right, and the store has distinct rules with disjoint non-empty cookie lists. */
  lemma {:induction false} ReachableStore(incremental: bool, req: Request, tpDone: bool, steps: seq<Step>)
    requires GoodCookies(req.cookies) && AdmissibleRun(Begin(incremental, req, tpDone), steps)
    ensures var w := Run(Begin(incremental, req, tpDone), steps);
            !Dead(w.fsm) ==> StockInv(w.fsm.rules, w.fsm.numFlows, w.fsm.configured, w.installed)
  {
    BeginIsLive(incremental, req, tpDone);
    RunKeepsInv(Begin(incremental, req, tpDone), steps);
  }

  /** At rest in ConfigDone nothing is pending: all flows are installed, in slice order, and no more than 64. */
  lemma {:induction false} AtRest(incremental: bool, req: Request, tpDone: bool, steps: seq<Step>)
    requires GoodCookies(req.cookies) && AdmissibleRun(Begin(incremental, req, tpDone), steps)
    requires Run(Begin(incremental, req, tpDone), steps).fsm.state == ConfigDone
    ensures var w := Run(Begin(incremental, req, tpDone), steps);
            && w.fsm.numFlows == w.fsm.configured == |w.fsm.rules| <= TABLE_SIZE
            && w.installed == RulesOf(w.fsm.rules, |w.fsm.rules|) && w.fsm.removes == []
  {
    BeginIsLive(incremental, req, tpDone);
    RunKeepsInv(Begin(incremental, req, tpDone), steps);
  }

  /** How many installed rules ask for a VID. */
  function Wanted(rules: seq<Rule>, vid: bv16): nat {
    if rules == [] then 0
    else Wanted(rules[..|rules| - 1], vid)
         + if !Transparent(rules[|rules| - 1]) && rules[|rules| - 1].setVid == vid then 1 else 0
  }

  lemma {:induction false} AskedIsWanted(flows: seq<Flow>, k: nat, vid: bv16)
    requires k <= |flows|
    ensures Asked(flows, k, vid) == Wanted(RulesOf(flows, k), vid)
  {
    if k > 0 {
      AskedIsWanted(flows, k - 1, vid);
      assert RulesOf(flows, k)[..k - 1] == RulesOf(flows, k - 1);
    }
  }

  /** At rest the filter list is, as a multiset, the VIDs of the installed rules; behind them come zeros. */
  lemma {:induction false} FiltersAtRest(incremental: bool, req: Request, tpDone: bool, steps: seq<Step>)
    requires GoodCookies(req.cookies) && AdmissibleRun(Begin(incremental, req, tpDone), steps)
    requires Run(Begin(incremental, req, tpDone), steps).fsm.state == ConfigDone
    ensures var w := Run(Begin(incremental, req, tpDone), steps);
            && (forall vid: bv16 :: Listed(w.fsm.slots, w.fsm.numFilters, vid) == Wanted(w.installed, vid))
            && forall i | w.fsm.numFilters <= i < TABLE_SIZE :: w.fsm.slots[i] == 0
  {
    var w := Run(Begin(incremental, req, tpDone), steps);
    BeginIsLive(incremental, req, tpDone);
    RunKeepsInv(Begin(incremental, req, tpDone), steps);
    forall vid: bv16 ensures Listed(w.fsm.slots, w.fsm.numFilters, vid) == Wanted(w.installed, vid) {
      AskedIsWanted(w.fsm.rules, w.fsm.configured, vid);
    }
  }

  /** Whenever a removal is about to be acknowledged, its rule is installed; and if the filter list has a single
      entry, that entry is the VID to remove. */
  lemma {:induction false} RemovalHitsItsVid(incremental: bool, req: Request, tpDone: bool, steps: seq<Step>)
    requires GoodCookies(req.cookies) && AdmissibleRun(Begin(incremental, req, tpDone), steps)
    requires Run(Begin(incremental, req, tpDone), steps).fsm.state == RemoveFlow
    ensures var w := Run(Begin(incremental, req, tpDone), steps);
            && w.fsm.removes != [] && w.fsm.removes[0].rule in w.installed
            && (!Transparent(w.fsm.removes[0].rule) ==>
                  && w.fsm.removes[0].rule.setVid in w.fsm.slots[..w.fsm.numFilters]
                  && (w.fsm.numFilters == 1 ==> w.fsm.slots[0] == w.fsm.removes[0].rule.setVid))
  {
    var w := Run(Begin(incremental, req, tpDone), steps);
    BeginIsLive(incremental, req, tpDone);
    RunKeepsInv(Begin(incremental, req, tpDone), steps);
    RemovedIsInstalled(w.fsm, w.installed);
    var i := FirstRule(w.fsm.rules, w.fsm.removes[0].rule);
    assert w.installed[i] == w.fsm.removes[0].rule;
    if !Transparent(w.fsm.removes[0].rule) {
      ListedVid(w.fsm.slots, w.fsm.numFilters, w.fsm.rules, w.fsm.configured, i);
    }
  }

  // ---------------------------------------------------------------- panics

  predicate HasReset(steps: seq<Step>) {
    steps != [] && (steps[0].Reset? || HasReset(steps[1..]))
  }

  /** Some acknowledged removal of the run finds all filter slots in use. */
  predicate PanicsSomewhere(w: World, steps: seq<Step>)
    decreases |steps|
  {
    steps != [] && (Panics(w, steps[0]) || PanicsSomewhere(Next(w, steps[0]), steps[1..]))
  }

  lemma {:induction false} CrashStays(w: World, steps: seq<Step>)
    requires w.fsm.state.Crashed?
    ensures Run(w, steps).fsm.state.Crashed?
    decreases |steps|
  {
    if steps != [] {
      CrashStaysOnce(w, steps[0]);
      CrashStays(Next(w, steps[0]), steps[1..]);
    }
  }

  lemma {:induction false} CrashStaysRaw(w: World, s: Step)
    requires w.fsm.state.Crashed?
    ensures Raw(w, s).fsm.state.Crashed?
  {
    match s
    case Add(req, tpDone) => CrashStaysInAdd(w.fsm, req, tpDone);
    case ResumeAdd(tpDone) => if !w.add.NoAdd? { CrashStaysInAdd(w.fsm, w.add.req, tpDone); }
    case _ =>
  }

  lemma {:induction false} CrashStaysOnce(w: World, s: Step)
    requires w.fsm.state.Crashed?
    ensures Next(w, s).fsm.state.Crashed?
  {
    CrashStaysRaw(w, s);
    SettledIs(Raw(w, s));
  }

  lemma {:induction false} CrashStaysInAdd(e: Engine, req: Request, tpDone: bool)
    requires e.state.Crashed?
    ensures AddFlow(e, req, tpDone).0.state.Crashed? && StoreFlow(e, req, tpDone).0.state.Crashed?
    ensures |req.cookies| == 1 ==> ReviseFlow(e, req, tpDone).0.state.Crashed?
  {
  }

  /** A run without an external reset ends live, or crashed exactly when a removal met a full filter list. */
  lemma {:induction false} CrashIff(w: World, steps: seq<Step>)
    requires Sound(w) && AdmissibleRun(w, steps) && !HasReset(steps)
    ensures Run(w, steps).fsm.state.Crashed? <==> PanicsSomewhere(w, steps)
    ensures !PanicsSomewhere(w, steps) ==> Sound(Run(w, steps))
    decreases |steps|
  {
    if steps != [] {
      StepStaysLive(w, steps[0]);
      if Panics(w, steps[0]) {
        CrashStays(Next(w, steps[0]), steps[1..]);
      } else {
        CrashIff(Next(w, steps[0]), steps[1..]);
      }
    }
  }
}
