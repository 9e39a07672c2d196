/**
  What the steps of the VLAN engine achieve, without reference to how: a waiting flow goes on with its own tech profile
  only, requests have exactly the effect they ask for, and an engine whose exchanges are answered comes to rest with the
  flows that nobody removed.
*/
module VlanProgress {
  import opened VlanModel
  import opened VlanRuns
  import opened VlanSteps
  import opened VlanTheorems
  import opened VlanLimits

  predicate Waiting(st: FsmState) {
    st.WaitingTechProf? || st.IncrFlowWaitTP?
  }

  predicate Configuring(st: FsmState) {
    st.ConfigVtfd? || st.ConfigEvtocd? || st.ConfigIncrFlow?
  }

  lemma {:induction false} SoundIsSettled(w: World)
    requires !w.fsm.state.Resetting?
    ensures Settled(w) == w
  {
  }

  // ---------------------------------------------------------------- tech profiles

  /** The flow that waits is the first one that is not configured, and what it waits for is its own tech profile. */
  lemma {:induction false} WaitsForNextFlow(w: World)
    requires Sound(w) && Waiting(w.fsm.state)
    ensures var e := w.fsm;
            && e.configured < |e.rules| && e.actual.rule == e.rules[e.configured].rule
            && e.tpWaitingFor == e.rules[e.configured].rule.tpId
  {
  }

  /** The state in which a flow is configured that no longer waits. */
  function Continued(e: Engine): FsmState {
    if e.state.IncrFlowWaitTP? then ConfigIncrFlow else if Transparent(e.actual.rule) then ConfigEvtocd else ConfigVtfd
  }

  lemma {:induction false} RoomToContinue(w: World)
    requires Sound(w) && Waiting(w.fsm.state)
    ensures w.fsm.numFilters < TABLE_SIZE
  {
    NextFilter(w.fsm.slots, w.fsm.numFilters, w.fsm.rules, w.fsm.configured);
  }

  lemma {:induction false} VtfdIs(e: Engine)
    requires e.state.ConfigVtfd?
    ensures var e1 := EnterConfigVtfd(e);
            e1 == e.(state := if Transparent(e.actual.rule) then ConfigEvtocd else ConfigVtfd,
                     tpWaitingFor := 0, slots := e1.slots, numFilters := e1.numFilters)
  {
  }

  lemma {:induction false} IncrFlowIs(e: Engine)
    requires e.state.ConfigIncrFlow? && e.numFilters < TABLE_SIZE
    ensures var e1 := EnterConfigIncrFlow(e);
            e1 == e.(tpWaitingFor := 0, slots := e1.slots, numFilters := e1.numFilters)
  {
  }

  lemma {:induction false} ReadyIff(e: Engine, t: bv8)
    requires Waiting(e.state) ==> WaitsForOwn(e) && e.numFilters < TABLE_SIZE
    ensures var e1 := TechProfReady(e, t);
            if Waiting(e.state) && t == e.actual.rule.tpId
            then e1 == e.(state := Continued(e), tpWaitingFor := 0, slots := e1.slots, numFilters := e1.numFilters)
            else e1 == e
  {
    if t == e.actual.rule.tpId {
      if e.state.WaitingTechProf? { VtfdIs(Moved(e, EvContinueConfig)); }
      if e.state.IncrFlowWaitTP? { IncrFlowIs(Moved(e, EvIncrFlowConfig)); }
    }
  }

  /** Completion of a tech profile moves the engine if and only if a flow waits for just that tech profile; it then goes
      on with that flow, and nothing but the filter list changes. */
  lemma {:induction false} TechProfIff(w: World, t: bv8)
    requires Sound(w)
    ensures var w1 := Next(w, TechProfDone(t));
            if Waiting(w.fsm.state) && t == w.fsm.actual.rule.tpId
            then w1 == w.(fsm := w.fsm.(state := Continued(w.fsm), tpWaitingFor := 0,
                                        slots := w1.fsm.slots, numFilters := w1.fsm.numFilters))
            else w1 == w
  {
    if Waiting(w.fsm.state) {
      RoomToContinue(w);
      WaitsForNextFlow(w);
    }
    ReadyIff(w.fsm, t);
    SoundIsSettled(Raw(w, TechProfDone(t)));
  }

  /** The same in every state that an admissible run reaches, with what was proved about the waiting flow. */
  lemma {:induction false} TechProfContinues(incremental: bool, req: Request, tpDone: bool, steps: seq<Step>, t: bv8)
    requires GoodCookies(req.cookies) && AdmissibleRun(Begin(incremental, req, tpDone), steps)
    requires Waiting(Run(Begin(incremental, req, tpDone), steps).fsm.state)
    ensures var w := Run(Begin(incremental, req, tpDone), steps);
            var w1 := Next(w, TechProfDone(t));
            && w.fsm.configured < |w.fsm.rules|
            && if t == w.fsm.rules[w.fsm.configured].rule.tpId
               then w1.fsm.state == Continued(w.fsm) && w1.fsm.actual.rule == w.fsm.rules[w.fsm.configured].rule
               else w1 == w
  {
    BeginIsLive(incremental, req, tpDone);
    RunKeepsInv(Begin(incremental, req, tpDone), steps);
    var w := Run(Begin(incremental, req, tpDone), steps);
    WaitsForNextFlow(w);
    TechProfIff(w, t);
  }

  // ---------------------------------------------------------------- taking up a flow

  /** Whether the tech profile of the next flow is there, for the steps that may take up a flow. */
  predicate HasFlag(s: Step) {
    s.Add? || s.ResumeAdd? || s.Remove? || s.EvtocdAck? || s.RemoveAck? || s.CleanupRest?
  }

  /** The engine works on a flow that it did not work on before. */
  predicate TakesUp(e: Engine, e1: Engine) {
    && (Waiting(e1.state) || Configuring(e1.state))
    && (!(Waiting(e.state) || Configuring(e.state)) || e1.configured != e.configured || |e1.rules| < |e.rules|)
  }

  lemma {:induction false} StartingFlag(e: Engine, tpDone: bool)
    requires e.state.Starting?
    ensures var e1 := EnterStarting(e, tpDone); (Waiting(e1.state) ==> !tpDone) && (Configuring(e1.state) ==> tpDone)
  {
  }

  lemma {:induction false} IncrementFlag(e: Engine, tpDone: bool)
    requires e.state.ConfigDone?
    ensures var e1 := StartIncrement(e, tpDone); (Waiting(e1.state) ==> !tpDone) && (Configuring(e1.state) ==> tpDone)
  {
  }

  lemma {:induction false} DoneFlag(e: Engine, tpDone: bool)
    requires e.state.ConfigDone?
    ensures var e1 := EnterConfigDone(e, tpDone); (Waiting(e1.state) ==> !tpDone) && (Configuring(e1.state) ==> tpDone)
  {
    if e.removes == [] && e.numFlows > e.configured {
      if e.configured == 0 { StartingFlag(Moved(e, EvRenew), tpDone); } else { IncrementFlag(e, tpDone); }
    }
  }

  ghost predicate FlagDecides(e: Engine, e1: Engine, tpDone: bool) {
    match e1
    case Engine(_, _, _, _, _, _, _, _, _, _, _) => TakesUp(e, e1) ==> (Waiting(e1.state) <==> !tpDone)
  }

  lemma {:induction false} AppendFlag(e: Engine, req: Request, tpDone: bool)
    requires e.numFlows <= |e.rules|
    ensures FlagDecides(e, AppendFlow(e, req, tpDone).0, tpDone)
  {
    if e.state.ConfigDone? && e.numFlows < TABLE_SIZE {
      var e1 := e.(rules := e.rules + [Flow(req.rule, req.cookies)], numFlows := e.numFlows + 1);
      StartingFlag(Moved(e1, EvRenew), tpDone);
      IncrementFlag(e1, tpDone);
    }
  }

  lemma {:induction false} StoreFlag(e: Engine, req: Request, tpDone: bool)
    requires e.numFlows <= |e.rules|
    ensures FlagDecides(e, StoreFlow(e, req, tpDone).0, tpDone)
  {
    AppendFlag(e, req, tpDone);
  }

  lemma {:induction false} ReviseFlag(e: Engine, req: Request, tpDone: bool)
    requires e.numFlows <= |e.rules| && |req.cookies| == 1
    ensures FlagDecides(e, ReviseFlow(e, req, tpDone).0, tpDone)
  {
    AppendFlag(e.(delayCookie := 0), req, tpDone);
  }

  lemma {:induction false} RemoveFlag(e: Engine, c: Cookie, tpDone: bool)
    ensures FlagDecides(e, RemoveCookie(e, c, tpDone), tpDone)
  {
    var cut := CutFlow(e, c, false);
    if e.state.WaitingTechProf? && cut.Found? { DoneFlag(Moved(cut.engine, EvCancelOutstandingConfig), tpDone); }
  }

  lemma {:induction false} FinishFlag(e: Engine, tpDone: bool)
    requires e.state.CleanupDone? && e.removes != []
    ensures var e1 := FinishCleanup(e, tpDone); (Waiting(e1.state) ==> !tpDone) && (Configuring(e1.state) ==> tpDone)
  {
    DoneFlag(Moved(e.(removes := e.removes[1..]), EvFlowDataRemoved), tpDone);
  }

  lemma {:induction false} RemovalAckFlag(w: World, tpDone: bool)
    requires Live(w) && w.fsm.state.RemoveFlow? && !OverrunsFilters(w.fsm)
    ensures FlagDecides(w.fsm, AfterRemoval(w, tpDone).fsm, tpDone)
  {
    LiveRemovalIs(w, tpDone);
    CleanedStore(w.fsm);
    FinishFlag(Cleaned(w.fsm), tpDone);
  }

  lemma {:induction false} RawFlag(w: World, s: Step)
    requires Sound(w) && HasFlag(s) && !Panics(w, s)
    ensures FlagDecides(w.fsm, Raw(w, s).fsm, s.tpDone)
  {
    var e := w.fsm;
    match s
    case Add(req, tpDone) => StoreFlag(e, req, tpDone);
    case ResumeAdd(tpDone) =>
      if w.add.RuleGone? { StoreFlag(e, w.add.req, tpDone); }
      if w.add.CookieGone? { ReviseFlag(e, w.add.req, tpDone); }
    case Remove(c, tpDone) => RemoveFlag(e, c, tpDone);
    case EvtocdAck(tpDone) =>
      if e.state.ConfigEvtocd? || e.state.ConfigIncrFlow? {
        DoneFlag(Moved(e.(configured := Words.Inc8(e.configured)), EvRxConfigEvtocd), tpDone);
      }
    case RemoveAck(tpDone) =>
      if e.state.RemoveFlow? {
        RemovalAckFlag(w, tpDone);
        RemoveAckIs(w, tpDone);
      }
    case CleanupRest(tpDone) => if e.state.CleanupDone? { FinishFlag(e, tpDone); }
  }

  /** A flow that is taken up waits if and only if its tech profile is not there. */
  lemma {:induction false} TakenUpIff(w: World, s: Step)
    requires Sound(w) && HasFlag(s) && !Panics(w, s) && TakesUp(w.fsm, Next(w, s).fsm)
    ensures Waiting(Next(w, s).fsm.state) <==> !s.tpDone
  {
    RawFlag(w, s);
    SettledIs(Raw(w, s));
  }

  // ---------------------------------------------------------------- add requests

  predicate UnderRemoval(removes: seq<Removal>, rule: Rule) {
    exists k :: 0 <= k < |removes| && removes[k].rule == rule
  }

  /** The rule is stored with all the cookies. */
  ghost predicate Satisfied(flows: seq<Flow>, req: Request) {
    exists i :: 0 <= i < |flows| && flows[i].rule == req.rule && forall c | c in req.cookies :: c in flows[i].cookies
  }

  ghost predicate Known(flows: seq<Flow>, rule: Rule) {
    exists i :: 0 <= i < |flows| && flows[i].rule == rule
  }

  /** The flow of the rule has the requested cookies too, or there is a new flow at the end; nothing else changed. */
  ghost predicate StoredIn(before: seq<Flow>, after: seq<Flow>, req: Request) {
    if Known(before, req.rule) then
      && |after| == |before|
      && forall i | 0 <= i < |before| ::
           if before[i].rule != req.rule then after[i] == before[i]
           else && after[i].rule == req.rule && before[i].cookies <= after[i].cookies
                && forall c :: c in after[i].cookies <==> c in before[i].cookies || c in req.cookies
    else after == before + [Flow(req.rule, req.cookies)]
  }

  /** Exactly one removal, one of the rule, is marked. */
  ghost predicate MarkedFor(before: seq<Removal>, after: seq<Removal>, rule: Rule) {
    exists k :: 0 <= k < |before| && before[k].rule == rule && after == before[k := before[k].(suspendsAdd := true)]
  }

  lemma {:induction false} WrittenIs(flows: seq<Flow>, req: Request)
    requires StoreInv(flows)
    ensures StoredIn(flows, Written(flows, req), req)
  {
    var f := FirstRule(flows, req.rule);
    if f < |flows| {
      MissingIs(req.cookies, flows[f].cookies);
      assert Known(flows, req.rule);
    }
  }

  lemma {:induction false} SatisfiedIff(flows: seq<Flow>, req: Request)
    requires StoreInv(flows)
    ensures var f := FirstRule(flows, req.rule);
            Satisfied(flows, req) <==> f < |flows| && Missing(req.cookies, flows[f].cookies) == []
  {
    var f := FirstRule(flows, req.rule);
    if f < |flows| {
      MissingIs(req.cookies, flows[f].cookies);
      if Missing(req.cookies, flows[f].cookies) == [] {
        assert forall c | c in req.cookies :: c in flows[f].cookies;
      } else {
        var c := Missing(req.cookies, flows[f].cookies)[0];
        assert c in req.cookies && c !in flows[f].cookies;
      }
    }
  }

  /** A cookie is looked for elsewhere, and found, if and only if it is not the caller's own. */
  lemma {:induction false} DelayedIff(e: Engine, installed: seq<Rule>, req: Request)
    requires EngineInv(e, installed) && !Satisfied(e.rules, req) && GoodCookies(req.cookies)
    requires (e.delayCookie == 0 && |req.cookies| == 1) || OwnOnly(e.rules, req)
    ensures DelayNeeded(e, req.cookies) <==> !OwnOnly(e.rules, req)
  {
    SatisfiedIff(e.rules, req);
    if OwnOnly(e.rules, req) {
      if DelayNeeded(e, req.cookies) { OwnNotDelayed(e, req); }
    } else {
      var i :| 0 <= i < |e.rules| && e.rules[i].rule != req.rule && !Disjoint(req.cookies, e.rules[i].cookies);
      assert req.cookies == [req.cookies[0]] && req.cookies[0] in e.rules[i].cookies;
      FirstCookieIs(e.rules, i, req.cookies[0]);
    }
  }

  /** The missing cookies are looked up one by one in the order of the request. */
  lemma {:induction false} MissingInOrder(wanted: seq<Cookie>, c: Cookie, have: seq<Cookie>)
    ensures Missing(wanted + [c], have) == Missing(wanted, have) + if c in have then [] else [c]
    ensures Missing([], have) == []
  {
    if wanted == [] {
      assert wanted + [c] == [c] && [c][1..] == [];
    } else {
      var first := if wanted[0] in have then [] else [wanted[0]];
      assert (wanted + [c])[0] == wanted[0] && (wanted + [c])[1..] == wanted[1..] + [c];
      MissingInOrder(wanted[1..], c, have);
      assert Missing(wanted + [c], have) == first + Missing(wanted[1..] + [c], have);
    }
  }

  /** How an add request ends, and what it leaves behind. */
  ghost predicate AddEnds(e: Engine, e1: Engine, outcome: AddOutcome, req: Request) {
    match outcome
    case SuspendedOnRule =>
      UnderRemoval(e.removes, req.rule) && MarkedFor(e.removes, e1.removes, req.rule) && e1 == e.(removes := e1.removes)
    case SuspendedOnCookie =>
      && !UnderRemoval(e.removes, req.rule) && !Satisfied(e.rules, req) && !OwnOnly(e.rules, req)
      && |req.cookies| == 1 && e1 == e.(delayCookie := req.cookies[0])
    case Rejected =>
      && !UnderRemoval(e.removes, req.rule) && OwnOnly(e.rules, req)
      && !Known(e.rules, req.rule) && |e.rules| == TABLE_SIZE && e1 == e
    case Stored =>
      && !UnderRemoval(e.removes, req.rule)
      && if Satisfied(e.rules, req) then e1 == e
         else OwnOnly(e.rules, req) && StoredIn(e.rules, e1.rules, req) && e1.removes == e.removes
              && e1.configured == e.configured
  }

  lemma {:induction false} RuleKnown(flows: seq<Flow>, rule: Rule)
    ensures Known(flows, rule) <==> FirstRule(flows, rule) < |flows|
  {
  }

  lemma {:induction false} RuleListedIff(removes: seq<Removal>, rule: Rule)
    ensures UnderRemoval(removes, rule) <==> FirstRemoval(removes, rule) < |removes|
  {
  }

  lemma {:induction false} StartingCounts(e: Engine, tpDone: bool)
    requires e.state.ConfigDone?
    ensures EnterStarting(Moved(e, EvRenew), tpDone).configured == e.configured
    ensures StartIncrement(e, tpDone).configured == e.configured
  {
  }

  lemma {:induction false} AppendEnds(e: Engine, installed: seq<Rule>, req: Request, tpDone: bool)
    requires EngineInv(e, installed) && !Dead(e)
    ensures var (e1, outcome) := AppendFlow(e, req, tpDone);
            if |e.rules| == TABLE_SIZE then outcome == Rejected && e1 == e
            else outcome == Stored && e1.removes == e.removes && e1.configured == e.configured
  {
    if e.state.ConfigDone? && e.numFlows < TABLE_SIZE {
      var e1 := e.(rules := e.rules + [Flow(req.rule, req.cookies)], numFlows := e.numFlows + 1);
      StartingCounts(e1, tpDone);
      AppendWork(e, req, tpDone);
    }
  }

  lemma {:induction false} AppendWork(e: Engine, req: Request, tpDone: bool)
    requires e.numFlows <= |e.rules|
    ensures AppendFlow(e, req, tpDone).0.removes == e.removes
  {
  }

  lemma {:induction false} StoreEndsNew(w: World, req: Request, tpDone: bool)
    requires Sound(w) && AddOk(w, req) && !UnderRemoval(w.fsm.removes, req.rule)
    requires !Known(w.fsm.rules, req.rule) && OwnOnly(w.fsm.rules, req) && !DelayNeeded(w.fsm, req.cookies)
    ensures var (e1, outcome) := StoreFlow(w.fsm, req, tpDone); AddEnds(w.fsm, e1, outcome, req)
  {
    var e := w.fsm;
    RuleKnown(e.rules, req.rule);
    AppendEnds(e, w.installed, req, tpDone);
    AppendedRules(e, req, tpDone);
    WrittenIs(e.rules, req);
  }

  lemma {:induction false} StoreEndsKnown(w: World, req: Request, tpDone: bool)
    requires Sound(w) && AddOk(w, req) && !UnderRemoval(w.fsm.removes, req.rule) && !Satisfied(w.fsm.rules, req)
    requires Known(w.fsm.rules, req.rule) && OwnOnly(w.fsm.rules, req) && !DelayNeeded(w.fsm, req.cookies)
    ensures var (e1, outcome) := StoreFlow(w.fsm, req, tpDone); AddEnds(w.fsm, e1, outcome, req)
  {
    var e := w.fsm;
    RuleKnown(e.rules, req.rule);
    SatisfiedIff(e.rules, req);
    WrittenIs(e.rules, req);
  }

  /** Every admissible add ends in exactly one way: it waits if and only if its rule is under removal or its single cookie
      sits in another rule, it is turned down if and only if it would be flow 65, and otherwise the rule has all its cookies
      afterwards; whatever it does not ask for stays as it was. */
  lemma {:induction false} AddHasItsEffect(w: World, req: Request, tpDone: bool)
    requires Sound(w) && AddOk(w, req)
    ensures var (e1, outcome) := AddFlow(w.fsm, req, tpDone);
            && AddEnds(w.fsm, e1, outcome, req)
            && Next(w, Add(req, tpDone)) == World(e1, Suspended(w.add, req, outcome), w.installed)
  {
    var e := w.fsm;
    RuleListedIff(e.removes, req.rule);
    AddKeeps(w, req, tpDone);
    SoundIsSettled(Raw(w, Add(req, tpDone)));
    if !UnderRemoval(e.removes, req.rule) {
      RuleKnown(e.rules, req.rule);
      SatisfiedIff(e.rules, req);
      if !Satisfied(e.rules, req) {
        DelayedIff(e, w.installed, req);
        if !DelayNeeded(e, req.cookies) {
          if Known(e.rules, req.rule) { StoreEndsKnown(w, req, tpDone); } else { StoreEndsNew(w, req, tpDone); }
        }
      }
    }
  }

  // ---------------------------------------------------------------- adds that go on after a wait

  /** What a released add does to the store. */
  ghost predicate GoesOn(before: seq<Flow>, after: seq<Flow>, req: Request) {
    if Satisfied(before, req) || (!Known(before, req.rule) && |before| == TABLE_SIZE) then after == before
    else StoredIn(before, after, req)
  }

  lemma {:induction false} RestoreEffect(e: Engine, installed: seq<Rule>, req: Request, tpDone: bool)
    requires EngineInv(e, installed) && !Dead(e) && GoodCookies(req.cookies)
    requires (e.delayCookie == 0 && |req.cookies| == 1) || OwnOnly(e.rules, req)
    ensures var (e1, outcome) := StoreFlow(e, req, tpDone);
            if !Satisfied(e.rules, req) && !OwnOnly(e.rules, req)
            then outcome.SuspendedOnCookie? && e1 == e.(delayCookie := req.cookies[0])
            else && !outcome.SuspendedOnCookie? && !outcome.SuspendedOnRule?
                 && GoesOn(e.rules, e1.rules, req) && e1.removes == e.removes
  {
    SatisfiedIff(e.rules, req);
    RuleKnown(e.rules, req.rule);
    StoredRules(e, req, tpDone);
    WrittenIs(e.rules, req);
    AppendEnds(e, installed, req, tpDone);
    if !Satisfied(e.rules, req) { DelayedIff(e, installed, req); }
  }

  lemma {:induction false} RuleGoneFits(w: World)
    requires Sound(w) && w.add.RuleGone?
    ensures var e, req := w.fsm, w.add.req;
            && EngineInv(e, w.installed) && !Dead(e) && GoodCookies(req.cookies)
            && ((e.delayCookie == 0 && |req.cookies| == 1) || OwnOnly(e.rules, req))
  {
  }

  lemma {:induction false} RawRuleGone(w: World, tpDone: bool)
    requires w.add.RuleGone?
    ensures var stored := StoreFlow(w.fsm, w.add.req, tpDone);
            Raw(w, ResumeAdd(tpDone)) == w.(fsm := stored.0, add := Suspended(NoAdd, w.add.req, stored.1))
  {
  }

  lemma {:induction false} RuleGoneEffect(w: World, tpDone: bool)
    requires Sound(w) && w.add.RuleGone?
    ensures var w1, req := Next(w, ResumeAdd(tpDone)), w.add.req;
            if !Satisfied(w.fsm.rules, req) && !OwnOnly(w.fsm.rules, req)
            then w1 == w.(fsm := w.fsm.(delayCookie := req.cookies[0]), add := OnCookie(req))
            else w1.add == NoAdd && GoesOn(w.fsm.rules, w1.fsm.rules, req) && w1.fsm.removes == w.fsm.removes
  {
    RuleGoneFits(w);
    RestoreEffect(w.fsm, w.installed, w.add.req, tpDone);
    ResumeRuleKeeps(w, tpDone);
    RawRuleGone(w, tpDone);
    SoundIsSettled(Raw(w, ResumeAdd(tpDone)));
  }

  lemma {:induction false} ReviseEffect(e: Engine, installed: seq<Rule>, req: Request, tpDone: bool)
    requires EngineInv(e, installed) && !Dead(e) && GoodCookies(req.cookies) && |req.cookies| == 1
    requires Unused(e.rules, req.cookies[0])
    ensures GoesOn(e.rules, ReviseFlow(e, req, tpDone).0.rules, req)
  {
    SatisfiedIff(e.rules, req);
    RuleKnown(e.rules, req.rule);
    RevisedRules(e, req, tpDone);
    WrittenIs(e.rules, req);
    assert req.cookies == [req.cookies[0]];
  }

  lemma {:induction false} CookieGoneEffect(w: World, tpDone: bool)
    requires Sound(w) && w.add.CookieGone?
    ensures var w1 := Next(w, ResumeAdd(tpDone));
            && w1.add == NoAdd && w1.fsm.delayCookie == 0 && w1.fsm.removes == w.fsm.removes
            && GoesOn(w.fsm.rules, w1.fsm.rules, w.add.req)
  {
    ReviseKeeps(w.fsm, w.installed, w.add.req, tpDone);
    SoundIsSettled(Raw(w, ResumeAdd(tpDone)));
    ReviseEffect(w.fsm, w.installed, w.add.req, tpDone);
  }

  // ---------------------------------------------------------------- removal requests

  /** What the deletion of a cookie asks for. */
  ghost predicate RemovalAsked(e: Engine, e1: Engine, c: Cookie, i: nat)
    requires i < |e.rules|
  {
    if e.rules[i].cookies != [c] then
      && e1 == e.(rules := e1.rules, delayCookie := e1.delayCookie) && |e1.rules| == |e.rules|
      && (forall j | 0 <= j < |e.rules| && j != i :: e1.rules[j] == e.rules[j])
      && e1.rules[i].rule == e.rules[i].rule
      && (forall d :: d in e1.rules[i].cookies <==> d in e.rules[i].cookies && d != c)
      && (exists k :: 0 <= k < |e.rules[i].cookies| && e1.rules[i].cookies == Cut(e.rules[i].cookies, k))
      && (if e.delayCookie == c then e1.rules[i].cookies != [] && e1.delayCookie == e1.rules[i].cookies[0]
          else e1.delayCookie == e.delayCookie)
    else if e.state.WaitingTechProf? then
      e1.rules == e.rules[..i] + e.rules[i + 1..] && e1.removes == []
    else
      e1 == e.(removes := e.removes + [Removal(e.rules[i].rule, c, false)],
               state := if e.state.ConfigDone? then RemoveFlow else e.state)
  }

  lemma {:induction false} CancelEffect(e: Engine, installed: seq<Rule>, i: nat, c: Cookie, tpDone: bool)
    requires EngineInv(e, installed) && e.state.WaitingTechProf? && i < |e.rules| && e.rules[i].cookies == [c]
    ensures FirstCookie(e.rules, c) == i && RemovalAsked(e, RemoveCookie(e, c, tpDone), c, i)
  {
    FirstCookieIs(e.rules, i, c);
    CancelKeeps(e, installed, i, c, tpDone);
  }

  lemma {:induction false} OnlyCookie(cookies: seq<Cookie>, c: Cookie)
    ensures c in cookies && |cookies| == 1 ==> cookies == [c]
  {
  }

  lemma {:induction false} DropEffect(e: Engine, installed: seq<Rule>, i: nat, c: Cookie, tpDone: bool)
    requires EngineInv(e, installed) && i < |e.rules| && c in e.rules[i].cookies && e.rules[i].cookies != [c]
    ensures FirstCookie(e.rules, c) == i && RemovalAsked(e, RemoveCookie(e, c, tpDone), c, i)
  {
    FirstCookieIs(e.rules, i, c);
    OnlyCookie(e.rules[i].cookies, c);
    StoreDropCookie(e.rules, i, FirstIndex(e.rules[i].cookies, c));
    DroppedIs(e, c, tpDone);
  }

  lemma {:induction false} QueueEffect(e: Engine, installed: seq<Rule>, i: nat, c: Cookie, tpDone: bool)
    requires EngineInv(e, installed) && !e.state.WaitingTechProf? && i < |e.rules| && e.rules[i].cookies == [c]
    ensures FirstCookie(e.rules, c) == i && RemovalAsked(e, RemoveCookie(e, c, tpDone), c, i)
  {
    FirstCookieIs(e.rules, i, c);
    RemoveRuleIs(e, Removal(e.rules[i].rule, c, false), tpDone);
  }

  /** Deleting a cookie that no flow has changes nothing.  Otherwise it leaves its flow and nothing else does; with the
      last cookie of a flow the removal of the whole flow is queued last, and started if the engine is at rest; a flow
      that waits at the head of an engine without installed flows is cancelled. */
  lemma {:induction false} RemoveHasItsEffect(w: World, c: Cookie, tpDone: bool)
    requires Sound(w) && RemoveOk(w.fsm, c)
    ensures var w1 := Next(w, Remove(c, tpDone));
            && (Unused(w.fsm.rules, c) ==> w1 == w)
            && w1.add == w.add && w1.installed == w.installed
            && forall i | 0 <= i < |w.fsm.rules| && c in w.fsm.rules[i].cookies :: RemovalAsked(w.fsm, w1.fsm, c, i)
  {
    var e := w.fsm;
    RemoveKeeps(w, c, tpDone);
    SoundIsSettled(Raw(w, Remove(c, tpDone)));
    forall i | 0 <= i < |e.rules| && c in e.rules[i].cookies ensures RemovalAsked(e, RemoveCookie(e, c, tpDone), c, i) {
      if e.rules[i].cookies != [c] {
        DropEffect(e, w.installed, i, c, tpDone);
      } else if e.state.WaitingTechProf? {
        CancelEffect(e, w.installed, i, c, tpDone);
      } else {
        QueueEffect(e, w.installed, i, c, tpDone);
      }
    }
  }

  lemma {:induction false} CutForgets(flows: seq<Flow>, i: nat)
    requires StoreInv(flows) && i < |flows|
    ensures !Known(Cut(flows, i), flows[i].rule) && forall c | c in flows[i].cookies :: Unused(Cut(flows, i), c)
  {
    ShrunkCut(flows, i);
    var cut := Cut(flows, i);
    assert forall j | 0 <= j < |cut| :: cut[j] == flows[if j < i then j else j + 1];
  }

  lemma {:induction false} UnknownIsNotInstalled(e: Engine, installed: seq<Rule>, rule: Rule)
    requires EngineInv(e, installed) && !Known(e.rules, rule)
    ensures rule !in installed
  {
  }

  /** An acknowledged removal takes its flow out, wherever it stands, and nobody has its cookie or its rule any more. */
  lemma {:induction false} RemovedIsGone(w: World, tpDone: bool)
    requires Sound(w) && w.fsm.state.RemoveFlow? && !OverrunsFilters(w.fsm)
    ensures w.fsm.removes != []
    ensures var w1, r := Next(w, RemoveAck(tpDone)), w.fsm.removes[0];
            && !Known(w1.fsm.rules, r.rule) && Unused(w1.fsm.rules, r.cookie) && r.rule !in w1.installed
            && Active(w1.fsm) == w.fsm.removes[1..]
            && exists i :: 0 <= i < |w.fsm.rules| && w.fsm.rules[i].rule == r.rule && w1.fsm.rules == Cut(w.fsm.rules, i)
  {
    var i := FirstRule(w.fsm.rules, w.fsm.removes[0].rule);
    AckStore(w, tpDone);
    RemovedIsInstalled(w.fsm, w.installed);
    CutForgets(w.fsm.rules, i);
    RemoveAckKeeps(w, tpDone);
    RemoveAckIs(w, tpDone);
    var w1 := AfterRemoval(w, tpDone);
    SoundIsSettled(w1);
    UnknownIsNotInstalled(w1.fsm, w1.installed, w.fsm.removes[0].rule);
  }

  lemma {:induction false} AckStore(w: World, tpDone: bool)
    requires Live(w) && w.fsm.state.RemoveFlow? && !OverrunsFilters(w.fsm)
    ensures w.fsm.removes != [] && FirstRule(w.fsm.rules, w.fsm.removes[0].rule) < |w.fsm.rules|
    ensures var w1 := AfterRemoval(w, tpDone);
            && w1.fsm.rules == Cut(w.fsm.rules, FirstRule(w.fsm.rules, w.fsm.removes[0].rule))
            && Active(w1.fsm) == w.fsm.removes[1..]
            && |w1.fsm.removes| == |w.fsm.removes| - (if w.fsm.removes[0].suspendsAdd then 0 else 1)
            && w1.fsm.configured + 1 == w.fsm.configured
            && (w1.fsm.state.CleanupDone? <==> w.fsm.removes[0].suspendsAdd)
  {
    LiveRemovalIs(w, tpDone);
    CleanedStore(w.fsm);
    FinishShape(Cleaned(w.fsm), tpDone);
  }

  /** Entering ConfigDone leaves the store and the counters alone. */
  lemma {:induction false} DoneShape(e: Engine, tpDone: bool)
    requires e.state.ConfigDone?
    ensures var e1 := EnterConfigDone(e, tpDone);
            && e1.rules == e.rules && e1.removes == e.removes && e1.configured == e.configured
            && !e1.state.CleanupDone?
  {
    if e.removes == [] && e.numFlows > e.configured && e.configured > 0 { IncrementShape(e, tpDone); }
    if e.removes == [] && e.numFlows > e.configured && e.configured == 0 { StartingShape(Moved(e, EvRenew), tpDone); }
  }

  lemma {:induction false} StartingShape(e: Engine, tpDone: bool)
    requires e.state.Starting?
    ensures var e1 := EnterStarting(e, tpDone);
            && e1.rules == e.rules && e1.removes == e.removes && e1.configured == e.configured
            && !e1.state.CleanupDone?
  {
  }

  lemma {:induction false} IncrementShape(e: Engine, tpDone: bool)
    requires e.state.ConfigDone?
    ensures var e1 := StartIncrement(e, tpDone);
            && e1.rules == e.rules && e1.removes == e.removes && e1.configured == e.configured
            && !e1.state.CleanupDone?
  {
  }

  lemma {:induction false} FinishShape(e: Engine, tpDone: bool)
    requires e.state.CleanupDone? && e.removes != []
    ensures var e1 := FinishCleanup(e, tpDone);
            && e1.rules == e.rules && e1.removes == e.removes[1..] && e1.configured == e.configured
            && !e1.state.CleanupDone? && Active(e1) == e.removes[1..]
  {
    DoneShape(Moved(e.(removes := e.removes[1..]), EvFlowDataRemoved), tpDone);
  }

  // ---------------------------------------------------------------- resets and waits that time out

  /** A reset is lost while the engine waits for a tech profile with flows installed, and where there is nothing to reset.
      Elsewhere it keeps all flow data, aborts an add that is still waiting and frees the cookie that it waited for; an add
      that was woken before goes on. */
  lemma {:induction false} ResetEffect(w: World)
    ensures var w1, st := Next(w, Reset), w.fsm.state;
            var waiting := w.add.OnRule? || w.add.OnCookie?;
            if st.Disabled? || st.IncrFlowWaitTP? || st.Crashed? then w1 == w
            else w1 == World(w.fsm.(state := Resetting, delayCookie := if waiting then 0 else w.fsm.delayCookie),
                             if waiting then NoAdd else w.add, w.installed)
  {
  }

  /** A reset engine is disabled once it restarts; nothing else does that. */
  lemma {:induction false} RestartEffect(w: World)
    requires w.fsm.state.Resetting? ==> !w.add.OnRule? && !w.add.OnCookie?
    ensures Next(w, Restart) == if w.fsm.state.Resetting? then w.(fsm := w.fsm.(state := Disabled)) else w
  {
  }

  /** A wait for the removal of a rule that takes too long is given up, and one mark at most goes; a wait for a cookie ends
      as if the cookie were gone.  Nothing else changes, and an add that does not wait cannot time out. */
  lemma {:induction false} TimeoutEffect(w: World, mark: nat)
    requires !w.fsm.state.Resetting?
    ensures var w1 := Next(w, Timeout(mark));
            match w.add
            case OnRule(_) =>
              && w1.add.NoAdd? && w1.installed == w.installed && w1.fsm == w.fsm.(removes := w1.fsm.removes)
              && |w1.fsm.removes| == |w.fsm.removes|
              && forall k | 0 <= k < |w.fsm.removes| ::
                   w1.fsm.removes[k] == w.fsm.removes[k].(suspendsAdd := w.fsm.removes[k].suspendsAdd && k != mark)
            case OnCookie(req) => w1 == w.(add := CookieGone(req))
            case _ => w1 == w
  {
  }
}
