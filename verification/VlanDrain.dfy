/**
  A VLAN engine whose exchanges are answered comes to rest: after a bounded number of answers every flow that nobody
  asked to remove is installed, in its order, and nothing else is.
*/
module VlanDrain {
  import opened VlanModel
  import opened VlanRuns
  import opened VlanSteps
  import opened VlanTheorems
  import opened VlanProgress

  /** The step is the answer that the present state waits for. */
  predicate Answers(w: World, s: Step) {
    match w.fsm.state
    case WaitingTechProf => s == TechProfDone(w.fsm.actual.rule.tpId)
    case IncrFlowWaitTP => s == TechProfDone(w.fsm.actual.rule.tpId)
    case ConfigVtfd => s.VtfdAck?
    case ConfigEvtocd => s.EvtocdAck?
    case ConfigIncrFlow => s.EvtocdAck?
    case RemoveFlow => s.RemoveAck?
    case CleanupDone => s.CleanupRest?
    case _ => false
  }

  predicate AnswerRun(w: World, steps: seq<Step>)
    decreases |steps|
  {
    steps == [] || (Answers(w, steps[0]) && AnswerRun(Next(w, steps[0]), steps[1..]))
  }

  /** Answers that the work on one flow or removal still needs. */
  function Weight(st: FsmState): nat {
    match st
    case WaitingTechProf => 3
    case ConfigVtfd => 2
    case IncrFlowWaitTP => 2
    case ConfigEvtocd => 1
    case ConfigIncrFlow => 1
    case RemoveFlow => 1
    case _ => 0
  }

  /** A bound on the answers until the engine rests: flows that are not installed and removals that are not done. */
  function Work(e: Engine): nat {
    4 * (if e.configured <= |e.rules| then |e.rules| - e.configured else 0) + 4 * |e.removes| + Weight(e.state)
  }

  /** The flows that no removal names, in their order. */
  function Remaining(flows: seq<Flow>, removes: seq<Removal>): seq<Flow> {
    if flows == [] then []
    else var last := flows[|flows| - 1];
         Remaining(flows[..|flows| - 1], removes) + if UnderRemoval(removes, last.rule) then [] else [last]
  }

  lemma {:induction false} RemainingAll(flows: seq<Flow>)
    ensures Remaining(flows, []) == flows
  {
    if flows != [] { RemainingAll(flows[..|flows| - 1]); }
  }

  /** A removal of a rule that no flow has makes no difference. */
  lemma {:induction false} RemainingOther(flows: seq<Flow>, removes: seq<Removal>)
    requires removes != [] && forall i | 0 <= i < |flows| :: flows[i].rule != removes[0].rule
    ensures Remaining(flows, removes) == Remaining(flows, removes[1..])
  {
    if flows != [] {
      RemainingOther(flows[..|flows| - 1], removes);
      ListedRest(removes, flows[|flows| - 1].rule);
    }
  }

  lemma {:induction false} ListedRest(removes: seq<Removal>, rule: Rule)
    requires removes != []
    ensures UnderRemoval(removes, rule) <==> removes[0].rule == rule || UnderRemoval(removes[1..], rule)
  {
    if k :| 0 <= k < |removes| && removes[k].rule == rule {
      if k > 0 { assert removes[1..][k - 1].rule == rule; }
    }
  }

  /** Once a removal has taken its flow out, it need not be looked at any more. */
  lemma {:induction false} RemainingCut(flows: seq<Flow>, removes: seq<Removal>, i: nat)
    requires removes != [] && i < |flows| && flows[i].rule == removes[0].rule
    requires forall a, b | 0 <= a < b < |flows| :: flows[a].rule != flows[b].rule
    ensures Remaining(Cut(flows, i), removes[1..]) == Remaining(flows, removes)
  {
    var n := |flows| - 1;
    var front, last := flows[..n], flows[n];
    ListedRest(removes, last.rule);
    if i == n {
      assert Cut(flows, i) == front;
      RemainingOther(front, removes);
    } else {
      RemainingCut(front, removes, i);
      assert Cut(flows, i) == Cut(front, i) + [last];
      assert Cut(flows, i)[..n - 1] == Cut(front, i);
    }
  }

  /** What an answer leaves: less work, and the same flows to keep. */
  ghost predicate Advances(w: World, w1: World) {
    match w1
    case World(fsm, _, _) =>
      && Sound(w1) && Work(fsm) < Work(w.fsm) && |fsm.rules| <= |w.fsm.rules|
      && Remaining(fsm.rules, Active(fsm)) == Remaining(w.fsm.rules, Active(w.fsm))
  }

  lemma {:induction false} SoundCounts(w: World)
    requires Sound(w)
    ensures w.fsm.configured <= |w.fsm.rules| && (w.fsm.state.CleanupDone? ==> w.fsm.removes != [])
  {
  }

  lemma {:induction false} TechProfAdvances(w: World, t: bv8)
    requires Sound(w) && Waiting(w.fsm.state) && t == w.fsm.actual.rule.tpId
    ensures Advances(w, Next(w, TechProfDone(t)))
  {
    TechProfIff(w, t);
    StepStaysLive(w, TechProfDone(t));
  }

  lemma {:induction false} VtfdAdvances(w: World)
    requires Sound(w) && w.fsm.state.ConfigVtfd?
    ensures Advances(w, Next(w, VtfdAck))
  {
    StepStaysLive(w, VtfdAck);
  }

  lemma {:induction false} ConfiguredLess(e: Engine, e1: Engine)
    requires e.configured < |e.rules| && Weight(e.state) > 0 && e1.configured == e.configured + 1
    requires e1.rules == e.rules && e1.removes == e.removes && !e.state.CleanupDone? && !e1.state.CleanupDone?
    ensures Work(e1) < Work(e) && Active(e1) == Active(e)
  {
  }

  lemma {:induction false} EvtocdAdvances(w: World, tpDone: bool)
    requires Sound(w) && (w.fsm.state.ConfigEvtocd? || w.fsm.state.ConfigIncrFlow?)
    ensures Advances(w, Next(w, EvtocdAck(tpDone)))
  {
    var e := w.fsm;
    EvtocdAckBase(e, w.installed);
    EvtocdAckedIs(e, tpDone);
    DoneShape(e.(configured := e.configured + 1, state := ConfigDone), tpDone);
    StepStaysLive(w, EvtocdAck(tpDone));
    SettledIs(Raw(w, EvtocdAck(tpDone)));
    ConfiguredLess(e, Next(w, EvtocdAck(tpDone)).fsm);
  }

  lemma {:induction false} RemovalLess(e: Engine, e1: Engine)
    requires 0 < e.configured <= |e.rules| && e1.configured + 1 == e.configured && |e1.rules| + 1 == |e.rules|
    requires e.state.RemoveFlow?
    requires |e1.removes| + 1 == |e.removes| || (e1.state.CleanupDone? && |e1.removes| == |e.removes|)
    ensures Work(e1) < Work(e)
  {
  }

  lemma {:induction false} RemovalAdvances(w: World, tpDone: bool)
    requires Sound(w) && w.fsm.state.RemoveFlow? && !OverrunsFilters(w.fsm)
    ensures Advances(w, Next(w, RemoveAck(tpDone)))
  {
    AckStore(w, tpDone);
    RemoveAckIs(w, tpDone);
    StepStaysLive(w, RemoveAck(tpDone));
    SettledIs(Raw(w, RemoveAck(tpDone)));
    var w1 := Next(w, RemoveAck(tpDone));
    ActiveIs(w1.fsm, AfterRemoval(w, tpDone).fsm);
    SoundCounts(w);
    RemainingCut(w.fsm.rules, w.fsm.removes, FirstRule(w.fsm.rules, w.fsm.removes[0].rule));
    RemovalLess(w.fsm, w1.fsm);
  }

  lemma {:induction false} ActiveIs(a: Engine, b: Engine)
    requires a == b.(delayCookie := a.delayCookie)
    ensures Active(a) == Active(b)
  {
  }

  lemma {:induction false} CleanupAdvances(w: World, tpDone: bool)
    requires Sound(w) && w.fsm.state.CleanupDone?
    ensures Advances(w, Next(w, CleanupRest(tpDone)))
  {
    SoundCounts(w);
    FinishShape(w.fsm, tpDone);
    StepStaysLive(w, CleanupRest(tpDone));
    SettledIs(Raw(w, CleanupRest(tpDone)));
    ActiveIs(Next(w, CleanupRest(tpDone)).fsm, FinishCleanup(w.fsm, tpDone));
  }

  /** Every answer brings the engine closer to its rest. */
  lemma {:induction false} AnswerAdvances(w: World, s: Step)
    requires Sound(w) && Answers(w, s) && !Panics(w, s)
    ensures Advances(w, Next(w, s))
  {
    match w.fsm.state
    case WaitingTechProf => TechProfAdvances(w, s.tpId);
    case IncrFlowWaitTP => TechProfAdvances(w, s.tpId);
    case ConfigVtfd => VtfdAdvances(w);
    case ConfigEvtocd => EvtocdAdvances(w, s.tpDone);
    case ConfigIncrFlow => EvtocdAdvances(w, s.tpDone);
    case RemoveFlow => RemovalAdvances(w, s.tpDone);
    case CleanupDone => CleanupAdvances(w, s.tpDone);
  }

  /** Any run of answers is short, and keeps the flows that are to remain. */
  lemma {:induction false} AnswersAreFew(w: World, steps: seq<Step>)
    requires Sound(w) && AnswerRun(w, steps) && !PanicsSomewhere(w, steps)
    ensures Sound(Run(w, steps)) && |steps| + Work(Run(w, steps).fsm) <= Work(w.fsm)
    ensures Remaining(Run(w, steps).fsm.rules, Active(Run(w, steps).fsm)) == Remaining(w.fsm.rules, Active(w.fsm))
    decreases |steps|
  {
    if steps != [] {
      AnswerAdvances(w, steps[0]);
      AnswersAreFew(Next(w, steps[0]), steps[1..]);
    }
  }

  /** At rest, and only there, no answer is waited for. */
  lemma {:induction false} RestIff(w: World)
    requires Sound(w)
    ensures w.fsm.state.ConfigDone? <==> forall s :: !Answers(w, s)
  {
    if !w.fsm.state.ConfigDone? {
      var s := match w.fsm.state
               case ConfigVtfd => VtfdAck
               case ConfigEvtocd => EvtocdAck(true)
               case ConfigIncrFlow => EvtocdAck(true)
               case RemoveFlow => RemoveAck(true)
               case CleanupDone => CleanupRest(true)
               case _ => TechProfDone(w.fsm.actual.rule.tpId);
      assert Answers(w, s);
    }
  }

  /** When all answers have come: exactly the flows that nobody removed are stored and installed, in their order. */
  lemma {:induction false} AnsweredIsInstalled(w: World, steps: seq<Step>)
    requires Sound(w) && AnswerRun(w, steps) && !PanicsSomewhere(w, steps)
    requires forall s :: !Answers(Run(w, steps), s)
    ensures var kept, w1 := Remaining(w.fsm.rules, Active(w.fsm)), Run(w, steps);
            && w1.fsm.state.ConfigDone? && w1.fsm.rules == kept && w1.installed == RulesOf(kept, |kept|)
  {
    AnswersAreFew(w, steps);
    RestIff(Run(w, steps));
    RemainingAll(Run(w, steps).fsm.rules);
  }

  // ---------------------------------------------------------------- the waiting add

  predicate RuleAwaited(removes: seq<Removal>, rule: Rule) {
    exists k :: 0 <= k < |removes| && removes[k].rule == rule && removes[k].suspendsAdd
  }

  predicate CookieAwaited(removes: seq<Removal>, c: Cookie) {
    exists k :: 0 <= k < |removes| && removes[k].cookie == c
  }

  /** What becomes of the waiting add when all answers have come: it is woken if a removal to come is marked for its
      rule, or takes the cookie that it waits for. */
  function Woken(w: World): Suspension {
    match w.add
    case OnRule(req) => if RuleAwaited(Active(w.fsm), req.rule) then RuleGone(req) else w.add
    case OnCookie(req) => if CookieAwaited(w.fsm.removes, w.fsm.delayCookie) then CookieGone(req) else w.add
    case _ => w.add
  }

  lemma {:induction false} AwaitedRest(removes: seq<Removal>, rule: Rule, c: Cookie)
    requires removes != []
    ensures RuleAwaited(removes, rule) <==>
            (removes[0].rule == rule && removes[0].suspendsAdd) || RuleAwaited(removes[1..], rule)
    ensures CookieAwaited(removes, c) <==> removes[0].cookie == c || CookieAwaited(removes[1..], c)
  {
    if k :| 0 <= k < |removes| && removes[k].rule == rule && removes[k].suspendsAdd {
      if k > 0 { assert removes[1..][k - 1] == removes[k]; }
    }
    if k :| 0 <= k < |removes| && removes[k].cookie == c {
      if k > 0 { assert removes[1..][k - 1] == removes[k]; }
    }
  }

  lemma {:induction false} AckedAdd(w: World, tpDone: bool)
    requires Live(w) && w.fsm.state.RemoveFlow? && !OverrunsFilters(w.fsm)
    ensures w.fsm.removes != []
    ensures var r, w1 := w.fsm.removes[0], AfterRemoval(w, tpDone);
            && w1.fsm.delayCookie == w.fsm.delayCookie
            && w1.fsm.removes == (if r.suspendsAdd then w.fsm.removes else w.fsm.removes[1..])
            && w1.add == (if r.suspendsAdd then WakeOnRule(w.add, r.rule)
                          else WakeOnCookie(w.add, r.cookie, w.fsm.delayCookie))
  {
    LiveRemovalIs(w, tpDone);
    CleanedStore(w.fsm);
    FinishShape(Cleaned(w.fsm), tpDone);
    FinishDelay(Cleaned(w.fsm), tpDone);
  }

  lemma {:induction false} FinishDelay(e: Engine, tpDone: bool)
    requires e.state.CleanupDone? && e.removes != []
    ensures FinishCleanup(e, tpDone).delayCookie == e.delayCookie
  {
    DoneDelay(Moved(e.(removes := e.removes[1..]), EvFlowDataRemoved), tpDone);
  }

  lemma {:induction false} DoneDelay(e: Engine, tpDone: bool)
    requires e.state.ConfigDone?
    ensures EnterConfigDone(e, tpDone).delayCookie == e.delayCookie
  {
  }

  lemma {:induction false} RemovalSettles(w: World, tpDone: bool)
    requires Sound(w) && w.fsm.state.RemoveFlow? && !OverrunsFilters(w.fsm)
    ensures w.fsm.removes != [] && Next(w, RemoveAck(tpDone)) == AfterRemoval(w, tpDone)
    ensures AfterRemoval(w, tpDone).fsm == RemovalAcked(w.fsm, tpDone)
  {
    RemoveAckIs(w, tpDone);
    RemoveAckKeeps(w, tpDone);
    SoundIsSettled(AfterRemoval(w, tpDone));
  }

  lemma {:induction false} RemovalWakes(w: World, tpDone: bool)
    requires Sound(w) && w.fsm.state.RemoveFlow? && !OverrunsFilters(w.fsm)
    ensures Woken(Next(w, RemoveAck(tpDone))) == Woken(w)
  {
    AckedAdd(w, tpDone);
    AckStore(w, tpDone);
    RemovalSettles(w, tpDone);
    if w.add.OnRule? { AwaitedRest(w.fsm.removes, w.add.req.rule, 0); }
    if w.add.OnCookie? { AwaitedRest(w.fsm.removes, w.fsm.removes[0].rule, w.fsm.delayCookie); }
  }

  lemma {:induction false} CleanupSettles(w: World, tpDone: bool)
    requires Sound(w) && w.fsm.state.CleanupDone?
    ensures w.fsm.removes != []
    ensures Next(w, CleanupRest(tpDone)) ==
            w.(fsm := FinishCleanup(w.fsm, tpDone),
               add := WakeOnCookie(w.add, w.fsm.removes[0].cookie, w.fsm.delayCookie))
  {
    CleanupRestKeeps(w, tpDone);
    SoundIsSettled(Raw(w, CleanupRest(tpDone)));
  }

  lemma {:induction false} CleanupWakes(w: World, tpDone: bool)
    requires Sound(w) && w.fsm.state.CleanupDone?
    ensures Woken(Next(w, CleanupRest(tpDone))) == Woken(w)
  {
    SoundCounts(w);
    FinishShape(w.fsm, tpDone);
    FinishDelay(w.fsm, tpDone);
    CleanupSettles(w, tpDone);
    if w.add.OnCookie? { AwaitedRest(w.fsm.removes, w.fsm.removes[0].rule, w.fsm.delayCookie); }
  }

  lemma {:induction false} EvtocdWakes(w: World, tpDone: bool)
    requires Sound(w) && (w.fsm.state.ConfigEvtocd? || w.fsm.state.ConfigIncrFlow?)
    ensures Woken(Next(w, EvtocdAck(tpDone))) == Woken(w)
  {
    var e := w.fsm;
    EvtocdAckBase(e, w.installed);
    EvtocdAckedIs(e, tpDone);
    DoneShape(e.(configured := e.configured + 1, state := ConfigDone), tpDone);
    DoneDelay(e.(configured := e.configured + 1, state := ConfigDone), tpDone);
    EvtocdAckKeeps(w, tpDone);
    SoundIsSettled(Raw(w, EvtocdAck(tpDone)));
  }

  lemma {:induction false} TechProfWakes(w: World, t: bv8)
    requires Sound(w) && Waiting(w.fsm.state)
    ensures Woken(Next(w, TechProfDone(t))) == Woken(w)
  {
    TechProfIff(w, t);
  }

  lemma {:induction false} VtfdWakes(w: World)
    requires w.fsm.state.ConfigVtfd?
    ensures Woken(Next(w, VtfdAck)) == Woken(w)
  {
  }

  lemma {:induction false} AnswerWakes(w: World, s: Step)
    requires Sound(w) && Answers(w, s) && !Panics(w, s)
    ensures Woken(Next(w, s)) == Woken(w)
  {
    match w.fsm.state
    case WaitingTechProf => TechProfWakes(w, s.tpId);
    case IncrFlowWaitTP => TechProfWakes(w, s.tpId);
    case ConfigVtfd => VtfdWakes(w);
    case ConfigEvtocd => EvtocdWakes(w, s.tpDone);
    case ConfigIncrFlow => EvtocdWakes(w, s.tpDone);
    case RemoveFlow => RemovalWakes(w, s.tpDone);
    case CleanupDone => CleanupWakes(w, s.tpDone);
  }

  lemma {:induction false} AnswersWake(w: World, steps: seq<Step>)
    requires Sound(w) && AnswerRun(w, steps) && !PanicsSomewhere(w, steps)
    ensures Woken(Run(w, steps)) == Woken(w)
    decreases |steps|
  {
    if steps != [] {
      AnswerAdvances(w, steps[0]);
      AnswerWakes(w, steps[0]);
      AnswersWake(Next(w, steps[0]), steps[1..]);
    }
  }

  /** At rest the waiting add has been woken if and only if its removal was still to come. */
  lemma {:induction false} WokenAtRest(w: World, steps: seq<Step>)
    requires Sound(w) && AnswerRun(w, steps) && !PanicsSomewhere(w, steps)
    requires Run(w, steps).fsm.state.ConfigDone?
    ensures Run(w, steps).add == Woken(w)
  {
    AnswersAreFew(w, steps);
    AnswersWake(w, steps);
    assert Run(w, steps).fsm.removes == [];
  }

  // ---------------------------------------------------------------- no panic below the limit

  lemma {:induction false} RoomIsSafe(w: World, s: Step)
    requires Sound(w) && |w.fsm.rules| < TABLE_SIZE
    ensures !Panics(w, s)
  {
    if w.fsm.state.RemoveFlow? { assert w.fsm.numFilters <= w.fsm.configured <= |w.fsm.rules|; }
  }

  lemma {:induction false} AnswersDoNotPanic(w: World, steps: seq<Step>)
    requires Sound(w) && AnswerRun(w, steps) && |w.fsm.rules| < TABLE_SIZE
    ensures !PanicsSomewhere(w, steps)
    decreases |steps|
  {
    if steps != [] {
      RoomIsSafe(w, steps[0]);
      AnswerAdvances(w, steps[0]);
      AnswersDoNotPanic(Next(w, steps[0]), steps[1..]);
    }
  }

  lemma {:induction false} AnswersUntilRest(w: World) returns (steps: seq<Step>)
    requires Sound(w) && |w.fsm.rules| < TABLE_SIZE
    ensures AnswerRun(w, steps) && Run(w, steps).fsm.state.ConfigDone?
    decreases Work(w.fsm)
  {
    if w.fsm.state.ConfigDone? {
      steps := [];
    } else {
      RestIff(w);
      var s :| Answers(w, s);
      RoomIsSafe(w, s);
      AnswerAdvances(w, s);
      var rest := AnswersUntilRest(Next(w, s));
      steps := [s] + rest;
      assert steps[1..] == rest;
    }
  }

  /** From every state that an admissible run reaches with fewer than 64 flows: no run of answers is longer than the bound,
      some run of answers ends at rest, and every one that does leaves exactly the flows that nobody removed, installed in
      their order. */
  lemma {:induction false} ComesToRest(incremental: bool, req: Request, tpDone: bool, before: seq<Step>)
    requires GoodCookies(req.cookies) && AdmissibleRun(Begin(incremental, req, tpDone), before)
    requires var w := Run(Begin(incremental, req, tpDone), before); !Dead(w.fsm) && |w.fsm.rules| < TABLE_SIZE
    ensures var w := Run(Begin(incremental, req, tpDone), before);
            var kept := Remaining(w.fsm.rules, Active(w.fsm));
            && (exists steps :: AnswerRun(w, steps) && Run(w, steps).fsm.state.ConfigDone?)
            && forall steps | AnswerRun(w, steps) ::
                 && |steps| <= Work(w.fsm)
                 && (Run(w, steps).fsm.state.ConfigDone? ==>
                       Run(w, steps).fsm.rules == kept && Run(w, steps).installed == RulesOf(kept, |kept|))
  {
    var w := Run(Begin(incremental, req, tpDone), before);
    BeginIsLive(incremental, req, tpDone);
    RunKeepsInv(Begin(incremental, req, tpDone), before);
    var all := AnswersUntilRest(w);
    forall steps | AnswerRun(w, steps)
      ensures |steps| <= Work(w.fsm)
      ensures Run(w, steps).fsm.state.ConfigDone? ==>
                var kept := Remaining(w.fsm.rules, Active(w.fsm));
                Run(w, steps).fsm.rules == kept && Run(w, steps).installed == RulesOf(kept, |kept|)
    {
      AnswersDoNotPanic(w, steps);
      AnswersAreFew(w, steps);
      if Run(w, steps).fsm.state.ConfigDone? {
        RestIff(Run(w, steps));
        AnsweredIsInstalled(w, steps);
      }
    }
  }
}
