/**
  Where the VLAN engine does not keep its invariant: for each assumption of `VlanRuns.Admissible`, what the code
  does without it, and when exactly.
*/
module VlanLimits {
  import opened VlanModel
  import opened VlanRuns
  import opened VlanSteps
  import opened VlanTheorems

  /** Cleanup counts every removed flow as configured.  The installed rules are still the first configured flows
      afterwards if and only if the removed flow was one of them, or none was configured. */
  lemma {:induction false} CleanupPrefixIff(e: Engine, installed: seq<Rule>, i: nat, c: Cookie)
    requires StockInv(e.rules, e.numFlows, e.configured, installed)
    requires i < |e.rules| && c in e.rules[i].cookies
    ensures CutFlow(e, c, true).Found?
    ensures var e1 := CutFlow(e, c, true).engine;
            && e1.configured <= |e1.rules| && e1.numFlows == |e1.rules|
            && (Uninstall(installed, e.rules[i].rule) == RulesOf(e1.rules, e1.configured)
                <==> i < e.configured || e.configured == 0)
  {
    FirstCookieIs(e.rules, i, c);
    var e1 := CutFlow(e, c, true).engine;
    if i < e.configured {
      CutFlowIs(e, i, c, true);
      StockCut(e.rules, e.numFlows, e.configured, installed, i);
    } else {
      assert e.rules[i].rule !in installed;
      assert |installed| == e.configured;
      if e.configured > 0 { assert |RulesOf(e1.rules, e1.configured)| == e.configured - 1; }
    }
  }

  lemma {:induction false} StartingDoesNotReset(e: Engine, tpDone: bool)
    requires e.state.Starting? && e.rules != []
    ensures !EnterStarting(e, tpDone).state.Resetting?
  {
  }

  lemma {:induction false} IncrementDoesNotReset(e: Engine, tpDone: bool)
    requires e.state.ConfigDone?
    ensures !StartIncrement(e, tpDone).state.Resetting?
  {
  }

  lemma {:induction false} DoneDoesNotReset(e: Engine, tpDone: bool)
    requires e.state.ConfigDone? && e.numFlows == |e.rules| && e.configured <= |e.rules|
    ensures !EnterConfigDone(e, tpDone).state.Resetting?
  {
    if e.removes == [] && e.numFlows > e.configured {
      if e.configured == 0 {
        StartingDoesNotReset(Moved(e, EvRenew), tpDone);
      } else {
        IncrementDoesNotReset(e, tpDone);
      }
    }
  }

  /** What a cut does to the counters: one flow less, and one configured flow less if the flow was configured; with the last
      flow both start over.  The flow is the first with the cookie, unless a flow without cookies comes before it. */
  lemma {:induction false} CutCounts(e: Engine, c: Cookie, wasConfigured: bool, i: nat)
    requires i < |e.rules| && c in e.rules[i].cookies && |e.rules| == e.numFlows
    requires forall j | 0 <= j < i :: c !in e.rules[j].cookies
    ensures var cut := CutFlow(e, c, wasConfigured);
            if exists j :: 0 <= j < i && e.rules[j].cookies == [] then cut.NotFound?
            else && cut.Found? && cut.engine.rules == e.rules[..i] + e.rules[i + 1..]
                 && cut.engine.numFlows == |cut.engine.rules|
                 && cut.engine.configured == (if |e.rules| == 1 then 0
                                              else if wasConfigured && e.configured > 0 then e.configured - 1
                                              else e.configured)
  {
    var s := FirstStop(e.rules, c);
    assert s <= i;
    if j :| 0 <= j < i && e.rules[j].cookies == [] { assert s <= j; }
  }

  /** The cancellation of a waiting flow resets the engine if and only if a flow without cookies comes before it. */
  lemma {:induction false} CancelResetsIff(e: Engine, c: Cookie, i: nat, tpDone: bool)
    requires e.state.WaitingTechProf? && e.removes == [] && e.configured == 0 && |e.rules| == e.numFlows
    requires i < |e.rules| && e.rules[i].cookies == [c] && forall j | 0 <= j < i :: c !in e.rules[j].cookies
    ensures RemoveCookie(e, c, tpDone).state.Resetting? <==> exists j :: 0 <= j < i && e.rules[j].cookies == []
  {
    CutCounts(e, c, false, i);
    assert FirstCookie(e.rules, c) == i;
    var cut := CutFlow(e, c, false);
    if cut.Found? { DoneDoesNotReset(Moved(cut.engine, EvCancelOutstandingConfig), tpDone); }
  }

  /** Cleanup resets the engine if and only if no flow has the cookie of the removal, as after the second of two
      removals of the same cookie. */
  lemma {:induction false} CleanupResetsIff(e: Engine, installed: seq<Rule>, tpDone: bool)
    requires e.state.CleanupDone? && e.removes != [] && StockInv(e.rules, e.numFlows, e.configured, installed)
    ensures StartCleanup(e, tpDone).state.Resetting? <==> Unused(e.rules, e.removes[0].cookie)
  {
    var c := e.removes[0].cookie;
    var i := FirstCookie(e.rules, c);
    if i < |e.rules| {
      FirstCookieIs(e.rules, i, c);
      var e1 := CutFlow(e, c, true).engine;
      if !e.removes[0].suspendsAdd {
        DoneDoesNotReset(Moved(e1.(removes := e1.removes[1..]), EvFlowDataRemoved), tpDone);
      }
    } else {
      assert FirstStop(e.rules, c) == |e.rules|;
    }
  }

  // ---------------------------------------------------------------- a cookie in two rules

  /** No cookie belongs to two flows. */
  ghost predicate Separate(flows: seq<Flow>) {
    forall i, j | 0 <= i < |flows| && 0 <= j < |flows| && i != j :: Disjoint(flows[i].cookies, flows[j].cookies)
  }

  /** The request gets past the early return, the delay and the limit, so that cookies are written. */
  predicate Stores(e: Engine, req: Request) {
    var f := FirstRule(e.rules, req.rule);
    && !(f < |e.rules| && Missing(req.cookies, e.rules[f].cookies) == [])
    && !DelayNeeded(e, req.cookies)
    && (f < |e.rules| || e.numFlows < TABLE_SIZE)
  }

  /** An add is delayed for a single cookie other than 0 that some flow has, and one add at a time. */
  lemma {:induction false} DelayAskedIff(e: Engine, cookies: seq<Cookie>)
    ensures DelayNeeded(e, cookies) <==>
            e.delayCookie == 0 && |cookies| == 1 && cookies[0] != 0 && !Unused(e.rules, cookies[0])
  {
    if |cookies| == 1 && FirstCookie(e.rules, cookies[0]) < |e.rules| {
      assert cookies[0] in e.rules[FirstCookie(e.rules, cookies[0])].cookies;
    }
  }

  /** The store after a request that is stored. */
  function Written(flows: seq<Flow>, req: Request): seq<Flow> {
    var f := FirstRule(flows, req.rule);
    if f < |flows| then WithCookies(flows, f, Missing(req.cookies, flows[f].cookies))
    else flows + [Flow(req.rule, req.cookies)]
  }

  lemma {:induction false} StoredRules(e: Engine, req: Request, tpDone: bool)
    requires !Dead(e) && e.numFlows <= |e.rules|
    ensures StoreFlow(e, req, tpDone).0.rules == if Stores(e, req) then Written(e.rules, req) else e.rules
  {
    if FirstRule(e.rules, req.rule) == |e.rules| { AppendedRules(e, req, tpDone); }
  }

  lemma {:induction false} AppendedRules(e: Engine, req: Request, tpDone: bool)
    requires !Dead(e) && e.numFlows <= |e.rules|
    ensures AppendFlow(e, req, tpDone).0.rules ==
            if e.numFlows < TABLE_SIZE then e.rules + [Flow(req.rule, req.cookies)] else e.rules
  {
  }

  lemma {:induction false} OwnIsSeparate(flows: seq<Flow>, req: Request)
    requires StoreInv(flows) && OwnOnly(flows, req)
    ensures Separate(Written(flows, req))
  {
    var f := FirstRule(flows, req.rule);
    if f < |flows| {
      MissingIs(req.cookies, flows[f].cookies);
      var flows' := Written(flows, req);
      forall i, j | 0 <= i < |flows'| && 0 <= j < |flows'| && i != j
        ensures Disjoint(flows'[i].cookies, flows'[j].cookies)
      {
        assert Disjoint(flows[i].cookies, flows[j].cookies);
      }
    }
  }

  lemma {:induction false} ForeignIsShared(flows: seq<Flow>, req: Request)
    requires StoreInv(flows) && !OwnOnly(flows, req)
    ensures !Separate(Written(flows, req))
  {
    var i :| 0 <= i < |flows| && flows[i].rule != req.rule && !Disjoint(req.cookies, flows[i].cookies);
    var c :| c in req.cookies && c in flows[i].cookies;
    var f := FirstRule(flows, req.rule);
    var flows' := Written(flows, req);
    if f < |flows| {
      MissingIs(req.cookies, flows[f].cookies);
      assert Disjoint(flows[f].cookies, flows[i].cookies);
    }
    assert flows'[i] == flows[i] && c in flows'[f].cookies;
  }

  lemma {:induction false} OwnIsStored(flows: seq<Flow>, req: Request)
    requires StoreInv(flows) && OwnOnly(flows, req) && GoodCookies(req.cookies)
    ensures StoreInv(Written(flows, req))
  {
    var f := FirstRule(flows, req.rule);
    forall c | c in req.cookies && (f == |flows| || c !in flows[f].cookies) ensures Unused(flows, c) {
      forall i | 0 <= i < |flows| ensures c !in flows[i].cookies {
        if flows[i].rule == req.rule { FirstRuleIs(flows, i); } else { assert Disjoint(req.cookies, flows[i].cookies); }
      }
    }
    if f < |flows| {
      MissingIs(req.cookies, flows[f].cookies);
      StoreWithCookies(flows, f, Missing(req.cookies, flows[f].cookies));
    } else {
      StoreAppend(flows, req);
    }
  }

  /** For every request: a cookie ends up in two rules if and only if the request is stored although it names a
      cookie of another rule.  That is so for cookie 0, for several cookies at once, and while another add is
      delayed, because the delay does not apply then.  With good cookies the whole store invariant is kept on the
      same condition. */
  lemma {:induction false} SharedCookieIff(e: Engine, installed: seq<Rule>, req: Request, tpDone: bool)
    requires EngineInv(e, installed) && !Dead(e)
    ensures Separate(StoreFlow(e, req, tpDone).0.rules) <==> !Stores(e, req) || OwnOnly(e.rules, req)
    ensures GoodCookies(req.cookies) ==>
              (StoreInv(StoreFlow(e, req, tpDone).0.rules) <==> !Stores(e, req) || OwnOnly(e.rules, req))
  {
    StoredRules(e, req, tpDone);
    if Stores(e, req) {
      if OwnOnly(e.rules, req) {
        OwnIsSeparate(e.rules, req);
        if GoodCookies(req.cookies) { OwnIsStored(e.rules, req); }
      } else {
        ForeignIsShared(e.rules, req);
      }
    }
  }

  /** The same for a whole add step: a rule under removal makes the request wait. */
  lemma {:induction false} SharedByAddIff(w: World, req: Request, tpDone: bool)
    requires Sound(w)
    ensures Separate(Next(w, Add(req, tpDone)).fsm.rules) <==>
            || FirstRemoval(w.fsm.removes, req.rule) < |w.fsm.removes|
            || !Stores(w.fsm, req) || OwnOnly(w.fsm.rules, req)
  {
    SharedCookieIff(w.fsm, w.installed, req, tpDone);
    AddRules(w, req, tpDone);
  }

  lemma {:induction false} AddRules(w: World, req: Request, tpDone: bool)
    ensures Next(w, Add(req, tpDone)).fsm.rules ==
            if FirstRemoval(w.fsm.removes, req.rule) < |w.fsm.removes| then w.fsm.rules
            else StoreFlow(w.fsm, req, tpDone).0.rules
  {
  }

  // ---------------------------------------------------------------- a release that comes too early

  lemma {:induction false} RevisedRules(e: Engine, req: Request, tpDone: bool)
    requires !Dead(e) && e.numFlows <= |e.rules| && |req.cookies| == 1
    ensures var f := FirstRule(e.rules, req.rule);
            ReviseFlow(e, req, tpDone).0.rules ==
            if f == |e.rules| && e.numFlows >= TABLE_SIZE then e.rules
            else if f < |e.rules| && req.cookies[0] in e.rules[f].cookies then e.rules
            else Written(e.rules, req)
  {
    var f := FirstRule(e.rules, req.rule);
    if f == |e.rules| {
      AppendedRules(e.(delayCookie := 0), req, tpDone);
    } else {
      SingleMissing(req.cookies[0], e.rules[f].cookies);
      assert req.cookies == [req.cookies[0]];
    }
  }

  lemma {:induction false} CleanupRestIs(w: World, tpDone: bool)
    requires MidCleanup(w.fsm) && w.add.OnCookie? && w.fsm.removes[0].cookie == w.fsm.delayCookie
    ensures Next(w, CleanupRest(tpDone)) ==
            World(FinishCleanup(w.fsm, tpDone), CookieGone(w.add.req), w.installed)
  {
  }

  lemma {:induction false} ReleaseByCleanup(w: World, tpDone: bool)
    requires EngineInv(w.fsm, w.installed) && w.fsm.state.CleanupDone?
    requires w.add.OnCookie? && w.fsm.removes[0].cookie == w.fsm.delayCookie
    ensures var w1 := Next(w, CleanupRest(tpDone));
            && w1.add == CookieGone(w.add.req) && w1.fsm.rules == w.fsm.rules
            && w1.fsm.numFlows == |w.fsm.rules| && !Dead(w1.fsm) && EngineInv(w1.fsm, w1.installed)
  {
    CleanupEnds(w.fsm, w.installed, tpDone);
    CleanupRestIs(w, tpDone);
  }

  lemma {:induction false} ResumeRules(w: World, tpDone: bool)
    requires w.add.CookieGone? && |w.add.req.cookies| == 1
    ensures Next(w, ResumeAdd(tpDone)).fsm.rules == ReviseFlow(w.fsm, w.add.req, tpDone).0.rules
  {
  }

  /** What a released add finds: its cookie is free, or it writes nothing because its rule has the cookie or there is
      no room. */
  ghost predicate ReleaseOk(flows: seq<Flow>, req: Request)
    requires |req.cookies| == 1
  {
    var f := FirstRule(flows, req.rule);
    || Unused(flows, req.cookies[0])
    || (f < |flows| && req.cookies[0] in flows[f].cookies)
    || (f == |flows| && |flows| == TABLE_SIZE)
  }

  /** A released add keeps the store sound if and only if, at the moment it goes on, its cookie is free or it writes
      nothing.  The release itself may have come from the deletion of the cookie or from a timeout, at any earlier
      time. */
  lemma {:induction false} ResumeIff(w: World, tpDone: bool)
    requires EngineInv(w.fsm, w.installed) && !Dead(w.fsm)
    requires w.add.CookieGone? && GoodCookies(w.add.req.cookies) && |w.add.req.cookies| == 1
    ensures StoreInv(Next(w, ResumeAdd(tpDone)).fsm.rules) <==> ReleaseOk(w.fsm.rules, w.add.req)
  {
    var req, rules := w.add.req, w.fsm.rules;
    var f := FirstRule(rules, req.rule);
    ResumeRules(w, tpDone);
    RevisedRules(w.fsm, req, tpDone);
    if !(f == |rules| && |rules| == TABLE_SIZE) && !(f < |rules| && req.cookies[0] in rules[f].cookies) {
      if Unused(rules, req.cookies[0]) {
        UnusedIsOwn(rules, req);
        OwnIsStored(rules, req);
      } else {
        UsedIsForeign(rules, req);
        ForeignIsShared(rules, req);
      }
    }
  }

  /** The same from the deletion of the awaited cookie on, when the add goes on at once. */
  lemma {:induction false} ReleaseIff(w: World, tp1: bool, tp2: bool)
    requires EngineInv(w.fsm, w.installed) && w.fsm.state.CleanupDone?
    requires w.add.OnCookie? && GoodCookies(w.add.req.cookies) && |w.add.req.cookies| == 1
    requires w.fsm.removes[0].cookie == w.fsm.delayCookie
    ensures StoreInv(Next(Next(w, CleanupRest(tp1)), ResumeAdd(tp2)).fsm.rules) <==> ReleaseOk(w.fsm.rules, w.add.req)
  {
    ReleaseByCleanup(w, tp1);
    ResumeIff(Next(w, CleanupRest(tp1)), tp2);
  }

  /** And from a timeout on. */
  lemma {:induction false} TimeoutIff(w: World, mark: nat, tpDone: bool)
    requires EngineInv(w.fsm, w.installed) && !Dead(w.fsm)
    requires w.add.OnCookie? && GoodCookies(w.add.req.cookies) && |w.add.req.cookies| == 1
    ensures StoreInv(Next(Next(w, Timeout(mark)), ResumeAdd(tpDone)).fsm.rules) <==> ReleaseOk(w.fsm.rules, w.add.req)
  {
    assert Next(w, Timeout(mark)) == w.(add := CookieGone(w.add.req));
    ResumeIff(w.(add := CookieGone(w.add.req)), tpDone);
  }

  lemma {:induction false} UnusedIsOwn(flows: seq<Flow>, req: Request)
    requires |req.cookies| == 1 && Unused(flows, req.cookies[0])
    ensures OwnOnly(flows, req)
  {
  }

  lemma {:induction false} UsedIsForeign(flows: seq<Flow>, req: Request)
    requires StoreInv(flows) && |req.cookies| == 1 && !Unused(flows, req.cookies[0])
    requires var f := FirstRule(flows, req.rule); f == |flows| || req.cookies[0] !in flows[f].cookies
    ensures !OwnOnly(flows, req)
  {
    var i :| 0 <= i < |flows| && req.cookies[0] in flows[i].cookies;
    if flows[i].rule == req.rule { FirstRuleIs(flows, i); }
    assert flows[i].rule != req.rule && !Disjoint(req.cookies, flows[i].cookies);
  }

  lemma {:induction false} ForeignMissing(flows: seq<Flow>, i: nat, req: Request)
    requires StoreInv(flows) && i < |flows| && |req.cookies| == 1 && req.cookies[0] in flows[i].cookies
    requires flows[i].rule != req.rule && FirstRule(flows, req.rule) < |flows|
    ensures Missing(req.cookies, flows[FirstRule(flows, req.rule)].cookies) == req.cookies
  {
    var f := FirstRule(flows, req.rule);
    assert Disjoint(flows[f].cookies, flows[i].cookies);
    SingleMissing(req.cookies[0], flows[f].cookies);
    assert req.cookies == [req.cookies[0]];
  }

  /** A single cookie that sits elsewhere makes its request wait. */
  lemma {:induction false} AddDelays(w: World, req: Request, tpDone: bool)
    requires !Dead(w.fsm) && FirstRemoval(w.fsm.removes, req.rule) == |w.fsm.removes| && DelayNeeded(w.fsm, req.cookies)
    requires var f := FirstRule(w.fsm.rules, req.rule);
             f == |w.fsm.rules| || Missing(req.cookies, w.fsm.rules[f].cookies) != []
    ensures Next(w, Add(req, tpDone)) == World(w.fsm.(delayCookie := req.cookies[0]), OnCookie(req), w.installed)
  {
  }

  lemma {:induction false} ForeignDelays(e: Engine, req: Request, i: nat)
    requires StoreInv(e.rules) && e.delayCookie == 0
    requires i < |e.rules| && |req.cookies| == 1 && req.cookies[0] in e.rules[i].cookies && e.rules[i].rule != req.rule
    ensures GoodCookies(req.cookies) && DelayNeeded(e, req.cookies)
    ensures var f := FirstRule(e.rules, req.rule); f == |e.rules| || Missing(req.cookies, e.rules[f].cookies) != []
  {
    assert GoodCookies(e.rules[i].cookies);
    assert FirstCookie(e.rules, req.cookies[0]) <= i;
    if FirstRule(e.rules, req.rule) < |e.rules| { ForeignMissing(e.rules, i, req); }
  }

  lemma {:induction false} DelayedInCleanup(w: World, req: Request, i: nat, tpDone: bool)
    requires Live(w) && w.fsm.state.CleanupDone? && w.add.NoAdd?
    requires i < |w.fsm.rules| && |req.cookies| == 1 && req.cookies[0] in w.fsm.rules[i].cookies
    requires w.fsm.rules[i].rule != req.rule
    requires FirstRemoval(w.fsm.removes, req.rule) == |w.fsm.removes|
    ensures GoodCookies(req.cookies)
    ensures Next(w, Add(req, tpDone)) == World(w.fsm.(delayCookie := req.cookies[0]), OnCookie(req), w.installed)
  {
    ForeignDelays(w.fsm, req, i);
    AddDelays(w, req, tpDone);
  }

  /** An add that comes between the two halves of a cleanup and has to wait for the very cookie that is being
      deleted: it is released although the cookie is in use, so the cookie ends up in two rules if and only if the
      new rule is written. */
  lemma {:induction false} ReleasedTooEarly(w: World, req: Request, i: nat, tp1: bool, tp2: bool, tp3: bool)
    requires Live(w) && w.fsm.state.CleanupDone? && w.add.NoAdd?
    requires i < |w.fsm.rules| && w.fsm.removes[0].cookie in w.fsm.rules[i].cookies && w.fsm.rules[i].rule != req.rule
    requires req.cookies == [w.fsm.removes[0].cookie]
    requires FirstRemoval(w.fsm.removes, req.rule) == |w.fsm.removes|
    ensures StoreInv(Next(Next(Next(w, Add(req, tp1)), CleanupRest(tp2)), ResumeAdd(tp3)).fsm.rules) <==>
            FirstRule(w.fsm.rules, req.rule) == |w.fsm.rules| == TABLE_SIZE
  {
    DelayedInCleanup(w, req, i, tp1);
    DelayKeeps(w.fsm, req.cookies[0], w.installed);
    ReleaseIff(Next(w, Add(req, tp1)), tp2, tp3);
    var f := FirstRule(w.fsm.rules, req.rule);
    assert f < |w.fsm.rules| ==> Disjoint(w.fsm.rules[f].cookies, w.fsm.rules[i].cookies);
  }

  // ---------------------------------------------------------------- cookies that go with a rule

  /** Every stored cookie but `c` is still stored. */
  ghost predicate OthersStay(before: seq<Flow>, after: seq<Flow>, c: Cookie) {
    forall d | d != c && !Unused(before, d) :: !Unused(after, d)
  }

  lemma {:induction false} OthersStayIff(flows: seq<Flow>, i: nat, c: Cookie)
    requires StoreInv(flows) && i < |flows| && c in flows[i].cookies
    ensures OthersStay(flows, Cut(flows, i), c) <==> flows[i].cookies == [c]
  {
    var cut := Cut(flows, i);
    if flows[i].cookies == [c] {
      forall d | d != c && !Unused(flows, d) ensures !Unused(cut, d) {
        var j :| 0 <= j < |flows| && d in flows[j].cookies;
        assert cut[if j < i then j else j - 1] == flows[j];
      }
    } else {
      assert GoodCookies(flows[i].cookies);
      var k :| 0 <= k < |flows[i].cookies| && flows[i].cookies[k] != c;
      UnusedAfterCut(flows, i);
      assert !Unused(flows, flows[i].cookies[k]) && Unused(cut, flows[i].cookies[k]);
    }
  }

  /** A cookie that was added to a rule after its removal was queued goes with the rule: an acknowledged removal leaves
      every other stored cookie in place if and only if its rule has no other cookie by then. */
  lemma {:induction false} RemovalTakesOneCookieIff(w: World, tpDone: bool)
    requires Live(w) && w.fsm.state.RemoveFlow? && !OverrunsFilters(w.fsm)
    ensures w.fsm.removes != [] && FirstRule(w.fsm.rules, w.fsm.removes[0].rule) < |w.fsm.rules|
    ensures OthersStay(w.fsm.rules, Next(w, RemoveAck(tpDone)).fsm.rules, w.fsm.removes[0].cookie) <==>
            w.fsm.rules[FirstRule(w.fsm.rules, w.fsm.removes[0].rule)].cookies == [w.fsm.removes[0].cookie]
  {
    RemovedIsInstalled(w.fsm, w.installed);
    AckedRules(w, tpDone);
    OthersStayIff(w.fsm.rules, FirstRule(w.fsm.rules, w.fsm.removes[0].rule), w.fsm.removes[0].cookie);
  }

  lemma {:induction false} FinishRules(e: Engine, installed: seq<Rule>, tpDone: bool)
    requires EngineInv(e, installed) && e.state.CleanupDone?
    ensures e.removes != [] && FinishCleanup(e, tpDone).rules == e.rules && !Dead(FinishCleanup(e, tpDone))
  {
    CleanupEnds(e, installed, tpDone);
  }

  lemma {:induction false} RemovedRules(w: World, tpDone: bool)
    requires Live(w) && w.fsm.state.RemoveFlow? && !OverrunsFilters(w.fsm)
    ensures w.fsm.removes != [] && FirstRule(w.fsm.rules, w.fsm.removes[0].rule) < |w.fsm.rules|
    ensures AfterRemoval(w, tpDone).fsm.rules == Cut(w.fsm.rules, FirstRule(w.fsm.rules, w.fsm.removes[0].rule))
  {
    LiveRemovalIs(w, tpDone);
    CleanedStore(w.fsm);
    FinishRules(Cleaned(w.fsm), Uninstall(w.installed, w.fsm.removes[0].rule), tpDone);
  }

  lemma {:induction false} AckedRules(w: World, tpDone: bool)
    requires Live(w) && w.fsm.state.RemoveFlow? && !OverrunsFilters(w.fsm)
    ensures w.fsm.removes != [] && FirstRule(w.fsm.rules, w.fsm.removes[0].rule) < |w.fsm.rules|
    ensures Next(w, RemoveAck(tpDone)).fsm.rules == Cut(w.fsm.rules, FirstRule(w.fsm.rules, w.fsm.removes[0].rule))
  {
    RemovedRules(w, tpDone);
    RemoveAckIs(w, tpDone);
    SettledIs(Raw(w, RemoveAck(tpDone)));
  }

  // ---------------------------------------------------------------- the full filter list

  /** Adds the rules one after another, each acknowledged before the next. */
  function Load(rules: seq<Rule>, k: nat): seq<Step>
    requires 1 <= k <= |rules|
  {
    if k == 1 then [VtfdAck, EvtocdAck(true)]
    else Load(rules, k - 1) + [Add(Request(rules[k - 1], [k]), true), EvtocdAck(true)]
  }

  ghost predicate Distinct(rules: seq<Rule>) {
    && (forall i, j | 0 <= i < j < |rules| :: rules[i] != rules[j])
    && (forall i | 0 <= i < |rules| :: !Transparent(rules[i]))
  }

  /** At rest with the first `k` rules, each under its own cookie. */
  ghost predicate Loaded(w: World, rules: seq<Rule>, k: nat)
    requires k <= |rules|
  {
    match w
    case World(fsm, add, _) =>
      && Live(w) && fsm.state.ConfigDone? && add.NoAdd? && |fsm.rules| == k && fsm.numFilters == k
      && forall i | 0 <= i < k :: fsm.rules[i] == Flow(rules[i], [i + 1])
  }

  lemma {:induction false} RunConcat(w: World, a: seq<Step>, b: seq<Step>)
    ensures Run(w, a + b) == Run(Run(w, a), b)
    ensures AdmissibleRun(w, a) && AdmissibleRun(Run(w, a), b) ==> AdmissibleRun(w, a + b)
    decreases |a|
  {
    if a == [] {
      assert a + b == b;
    } else {
      assert (a + b)[1..] == a[1..] + b;
      RunConcat(Next(w, a[0]), a[1..], b);
    }
  }

  lemma {:induction false} RunTwo(w: World, s: Step, t: Step)
    ensures Run(w, [s, t]) == Next(Next(w, s), t)
    ensures Admissible(w, s) && Admissible(Next(w, s), t) ==> AdmissibleRun(w, [s, t])
  {
    assert [s, t][1..] == [t] && [t][1..] == [];
    assert Run(Next(w, s), [t]) == Run(Next(Next(w, s), t), []);
  }

  lemma {:induction false} BeginShape(incremental: bool, rule: Rule)
    requires !Transparent(rule)
    ensures var e := Begin(incremental, Request(rule, [1]), true).fsm;
            && e.state.ConfigVtfd? && e.removes == [] && e.numFlows == 1 && e.configured == 0
            && e.rules == [Flow(rule, [1])] && e.numFilters == 1
  {
  }

  /** The last outstanding answer brings the engine to rest. */
  lemma {:induction false} LastAckRests(w: World)
    requires (w.fsm.state.ConfigEvtocd? || w.fsm.state.ConfigIncrFlow?) && w.fsm.removes == []
    requires w.fsm.numFlows == w.fsm.configured + 1
    ensures Next(w, EvtocdAck(true)) ==
            w.(fsm := w.fsm.(configured := w.fsm.configured + 1, state := ConfigDone),
                installed := w.installed + [w.fsm.actual.rule])
  {
  }

  /** The first flow is under way and nothing else is. */
  ghost predicate FirstUnderWay(w: World, rule: Rule) {
    match w
    case World(e, add, _) =>
      && e.state.ConfigVtfd? && add.NoAdd? && e.removes == [] && e.numFlows == 1 && e.configured == 0
      && e.rules == [Flow(rule, [1])] && e.numFilters == 1
  }

  lemma {:induction false} FirstFilterAcked(w: World)
    requires Sound(w) && w.fsm.state.ConfigVtfd?
    ensures Admissible(w, VtfdAck) && Next(w, VtfdAck) == w.(fsm := w.fsm.(state := ConfigEvtocd))
    ensures Sound(Next(w, VtfdAck))
  {
    StepStaysLive(w, VtfdAck);
  }

  lemma {:induction false} FirstFlowAcked(w: World, rule: Rule)
    requires Sound(w) && FirstUnderWay(w.(fsm := w.fsm.(state := ConfigVtfd)), rule) && w.fsm.state.ConfigEvtocd?
    ensures Admissible(w, EvtocdAck(true)) && Loaded(Next(w, EvtocdAck(true)), [rule], 1)
  {
    StepStaysLive(w, EvtocdAck(true));
    LastAckRests(w);
  }

  lemma {:induction false} LoadAcks(w: World, rule: Rule)
    requires Sound(w) && FirstUnderWay(w, rule)
    ensures var steps := [VtfdAck, EvtocdAck(true)]; AdmissibleRun(w, steps) && Loaded(Run(w, steps), [rule], 1)
  {
    FirstFilterAcked(w);
    assert w.(fsm := w.fsm.(state := ConfigEvtocd).(state := ConfigVtfd)) == w;
    FirstFlowAcked(Next(w, VtfdAck), rule);
    RunTwo(w, VtfdAck, EvtocdAck(true));
  }

  lemma {:induction false} LoadFirst(incremental: bool, rule: Rule)
    requires !Transparent(rule)
    ensures var w := Begin(incremental, Request(rule, [1]), true); var steps := [VtfdAck, EvtocdAck(true)];
            AdmissibleRun(w, steps) && Loaded(Run(w, steps), [rule], 1)
  {
    BeginShape(incremental, rule);
    BeginIsLive(incremental, Request(rule, [1]), true);
    LoadAcks(Begin(incremental, Request(rule, [1]), true), rule);
  }

  lemma {:induction false} AddShape(e: Engine, req: Request)
    requires e.state.ConfigDone? && e.removes == [] && FirstRule(e.rules, req.rule) == |e.rules|
    requires 0 < e.configured == e.numFlows == |e.rules| < TABLE_SIZE && e.numFilters == |e.rules|
    requires !Transparent(req.rule) && !DelayNeeded(e, req.cookies)
    ensures var (e1, outcome) := AddFlow(e, req, true);
            && outcome.Stored? && e1.state.ConfigIncrFlow? && e1.removes == [] && e1.configured == e.configured
            && e1.rules == e.rules + [Flow(req.rule, req.cookies)] && e1.numFlows == |e1.rules|
               && e1.numFilters == |e1.rules|
  {
  }

  /** The next rule may be added, is stored at once, and its exchange starts. */
  lemma {:induction false} LoadAdds(w: World, rules: seq<Rule>, k: nat)
    requires 1 <= k < |rules| && k < TABLE_SIZE && Distinct(rules) && Loaded(w, rules, k)
    ensures var req := Request(rules[k], [k + 1]); var w1 := Next(w, Add(req, true));
            && Admissible(w, Add(req, true)) && Sound(w1) && w1.add.NoAdd?
            && w1.fsm.state.ConfigIncrFlow? && w1.fsm.removes == [] && w1.fsm.configured == k
            && w1.fsm.rules == w.fsm.rules + [Flow(rules[k], [k + 1])]
            && w1.fsm.numFlows == k + 1 && w1.fsm.numFilters == k + 1
  {
    var req := Request(rules[k], [k + 1]);
    var e := w.fsm;
    assert FirstRule(e.rules, req.rule) == |e.rules|;
    assert FirstCookie(e.rules, k + 1) == |e.rules|;
    AddShape(e, req);
    assert AddOk(w, req);
    StepStaysLive(w, Add(req, true));
    assert Next(w, Add(req, true)) == w.(fsm := AddFlow(e, req, true).0);
  }

  lemma {:induction false} LoadNext(w: World, rules: seq<Rule>, k: nat)
    requires 1 <= k < |rules| && k < TABLE_SIZE && Distinct(rules) && Loaded(w, rules, k)
    ensures var steps := [Add(Request(rules[k], [k + 1]), true), EvtocdAck(true)];
            AdmissibleRun(w, steps) && Loaded(Run(w, steps), rules, k + 1)
  {
    LoadAdds(w, rules, k);
    var w1 := Next(w, Add(Request(rules[k], [k + 1]), true));
    StepStaysLive(w1, EvtocdAck(true));
    LastAckRests(w1);
    RunTwo(w, Add(Request(rules[k], [k + 1]), true), EvtocdAck(true));
  }

  lemma {:induction false} LoadedPrefix(w: World, a: seq<Rule>, b: seq<Rule>, k: nat)
    requires k <= |a| && k <= |b| && a[..k] == b[..k] && Loaded(w, a, k)
    ensures Loaded(w, b, k)
  {
    assert forall i | 0 <= i < k :: a[i] == a[..k][i] && b[i] == b[..k][i];
  }

  /** Loading the first `k` rules is an admissible run that brings the engine to rest with them. */
  ghost predicate Loads(w: World, rules: seq<Rule>, k: nat)
    requires 1 <= k <= |rules|
  {
    match w
    case World(_, _, _) => AdmissibleRun(w, Load(rules, k)) && Loaded(Run(w, Load(rules, k)), rules, k)
  }

  lemma {:induction false} LoadBase(incremental: bool, rules: seq<Rule>)
    requires rules != [] && Distinct(rules)
    ensures Loads(Begin(incremental, Request(rules[0], [1]), true), rules, 1)
  {
    LoadFirst(incremental, rules[0]);
    LoadedPrefix(Run(Begin(incremental, Request(rules[0], [1]), true), [VtfdAck, EvtocdAck(true)]), [rules[0]], rules,
        1);
  }

  lemma {:induction false} LoadMore(w: World, done: seq<Step>, more: seq<Step>, rules: seq<Rule>, k: nat)
    requires k <= |rules| && AdmissibleRun(w, done)
    requires AdmissibleRun(Run(w, done), more) && Loaded(Run(Run(w, done), more), rules, k)
    ensures AdmissibleRun(w, done + more) && Loaded(Run(w, done + more), rules, k)
  {
    RunConcat(w, done, more);
  }

  lemma {:induction false} LoadStep(w: World, rules: seq<Rule>, k: nat)
    requires 1 < k <= |rules| && k <= TABLE_SIZE && Distinct(rules)
    requires forall i | 1 <= i < k :: Loads(w, rules, i)
    ensures Loads(w, rules, k)
  {
    var done, more := Load(rules, k - 1), [Add(Request(rules[k - 1], [k]), true), EvtocdAck(true)];
    assert Loads(w, rules, k - 1);
    LoadNext(Run(w, done), rules, k - 1);
    LoadMore(w, done, more, rules, k);
    assert Load(rules, k) == done + more;
  }

  lemma {:induction false} LoadRuns(w: World, rules: seq<Rule>, k: nat)
    requires 1 <= k <= |rules| && k <= TABLE_SIZE && Distinct(rules)
    requires Loads(w, rules, 1)
    ensures forall i | 1 <= i <= k :: Loads(w, rules, i)
  {
    if k > 1 {
      LoadRuns(w, rules, k - 1);
      LoadStep(w, rules, k);
    }
  }

  lemma {:induction false} FullPanics(w: World, rules: seq<Rule>, c: Cookie)
    requires |rules| == TABLE_SIZE && Distinct(rules) && 1 <= c <= TABLE_SIZE && Loaded(w, rules, TABLE_SIZE)
    ensures var steps := [Remove(c, true), RemoveAck(true)];
            AdmissibleRun(w, steps) && Run(w, steps).fsm.state.Crashed?
  {
    FirstCookieIs(w.fsm.rules, c - 1, c);
    assert RemoveOk(w.fsm, c);
    RemoveStarts(w, c);
    StepStaysLive(w, Remove(c, true));
    StepStaysLive(Next(w, Remove(c, true)), RemoveAck(true));
    RunTwo(w, Remove(c, true), RemoveAck(true));
  }

  /** Any 64 different filtering rules fill the list; the first acknowledged removal after that panics. */
  lemma {:induction false} FullListPanics(incremental: bool, rules: seq<Rule>, c: Cookie)
    requires |rules| == TABLE_SIZE && Distinct(rules) && 1 <= c <= TABLE_SIZE
    ensures var w := Begin(incremental, Request(rules[0], [1]), true);
            var steps := Load(rules, TABLE_SIZE) + [Remove(c, true), RemoveAck(true)];
            AdmissibleRun(w, steps) && Run(w, steps).fsm.state.Crashed?
  {
    LoadBase(incremental, rules);
    PanicAfterLoad(Begin(incremental, Request(rules[0], [1]), true), rules, c);
  }

  lemma {:induction false} PanicAfterLoad(w: World, rules: seq<Rule>, c: Cookie)
    requires |rules| == TABLE_SIZE && Distinct(rules) && 1 <= c <= TABLE_SIZE && Loads(w, rules, 1)
    ensures var steps := Load(rules, TABLE_SIZE) + [Remove(c, true), RemoveAck(true)];
            AdmissibleRun(w, steps) && Run(w, steps).fsm.state.Crashed?
  {
    LoadRuns(w, rules, TABLE_SIZE);
    assert Loads(w, rules, TABLE_SIZE);
    FullPanics(Run(w, Load(rules, TABLE_SIZE)), rules, c);
    RunConcat(w, Load(rules, TABLE_SIZE), [Remove(c, true), RemoveAck(true)]);
  }

  lemma {:induction false} RemoveStarts(w: World, c: Cookie)
    requires w.fsm.state.ConfigDone? && w.fsm.removes == [] && FirstCookie(w.fsm.rules, c) < |w.fsm.rules|
    requires |w.fsm.rules[FirstCookie(w.fsm.rules, c)].cookies| == 1
    ensures var w1 := Next(w, Remove(c, true));
            && w1.fsm.state.RemoveFlow? && w1.fsm.numFilters == w.fsm.numFilters
            && w1.fsm.removes == [Removal(w.fsm.rules[FirstCookie(w.fsm.rules, c)].rule, c, false)]
  {
  }
}
