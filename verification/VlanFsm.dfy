/**
  The VLAN configuration state machine as an object whose methods update their fields in place.
  Every method is proved against the value model: `View()` of the new state is the corresponding
  function of the old one, and the filter array keeps its identity.
*/
module VlanFsm {
  import opened Words
  import opened VlanModel

  class UniVlanConfigFsm {
    var state: FsmState
    const acceptIncrementalEvto: bool
    var uniVlanFlowParams: seq<Flow>
    var uniRemoveFlows: seq<Removal>
    var actualUniFlow: Flow
    var numUniFlows: uint8
    var configuredUniFlow: uint8
    const vlanFilterList: array<bv16>
    var numVlanFilterEntries: Fill
    var delayNewRuleCookie: Cookie
    var tpIdWaitingFor: bv8
    var signalOnFlowDelete: bool   // the tech-profile engine waits for the end of all removals

    ghost predicate Valid()
      reads this
    {
      vlanFilterList.Length == TABLE_SIZE
    }

    ghost function View(): Engine
      requires Valid()
      reads this, vlanFilterList
    {
      Engine(state, acceptIncrementalEvto, uniVlanFlowParams, uniRemoveFlows, actualUniFlow, numUniFlows,
             configuredUniFlow, vlanFilterList[..], numVlanFilterEntries, delayNewRuleCookie, tpIdWaitingFor)
    }

    constructor (incremental: bool, req: Request, tpDone: bool)
      ensures Valid() && fresh(vlanFilterList)
      ensures View() == Created(incremental, req, tpDone)
    {
      acceptIncrementalEvto := incremental;
      uniVlanFlowParams := [Flow(req.rule, req.cookies)];
      uniRemoveFlows := [];
      actualUniFlow := Flow(req.rule, req.cookies);
      numUniFlows := 1;
      configuredUniFlow := 0;
      vlanFilterList := new bv16[TABLE_SIZE](_ => 0);
      numVlanFilterEntries := 0;
      delayNewRuleCookie := 0;
      tpIdWaitingFor := 0;
      signalOnFlowDelete := false;
      state := Starting;
      new;
      assert vlanFilterList[..] == seq(TABLE_SIZE, _ => 0);
      EnterStartingState(tpDone);
    }

    // -------------------------------------------------------------- state entries

    method EnterConfigVtfdState()
      requires Valid() && state == ConfigVtfd
      modifies this, vlanFilterList
      ensures Valid() && View() == EnterConfigVtfd(old(View()))
      ensures unchanged(this`signalOnFlowDelete)
    {
      tpIdWaitingFor := 0;
      if Transparent(actualUniFlow.rule) {
        state := ConfigEvtocd;
      } else {
        vlanFilterList[0] := actualUniFlow.rule.setVid;
        numVlanFilterEntries := 1;
      }
    }

    method EnterStartingState(tpDone: bool)
      requires Valid() && state == Starting
      modifies this, vlanFilterList
      ensures Valid() && View() == EnterStarting(old(View()), tpDone)
      ensures unchanged(this`signalOnFlowDelete)
    {
      if |uniVlanFlowParams| == 0 {
        state := Resetting;
        return;
      }
      actualUniFlow := uniVlanFlowParams[0];
      tpIdWaitingFor := actualUniFlow.rule.tpId;
      if tpDone {
        state := ConfigVtfd;
        EnterConfigVtfdState();
      } else {
        state := WaitingTechProf;
      }
    }

    method EnterConfigIncrFlowState()
      requires Valid() && state == ConfigIncrFlow
      modifies this, vlanFilterList
      ensures Valid() && View() == EnterConfigIncrFlow(old(View()))
      ensures unchanged(this`signalOnFlowDelete)
    {
      tpIdWaitingFor := 0;
      if Transparent(actualUniFlow.rule) {
        return;
      }
      if numVlanFilterEntries == 0 {
        vlanFilterList[0] := actualUniFlow.rule.setVid;
        numVlanFilterEntries := 1;
      } else if numVlanFilterEntries < vlanFilterList.Length {
        vlanFilterList[numVlanFilterEntries] := actualUniFlow.rule.setVid;
        numVlanFilterEntries := numVlanFilterEntries + 1;
      } else {
        state := Crashed;
      }
    }

    method StartNextIncrement(tpDone: bool)
      requires Valid() && state == ConfigDone
      modifies this, vlanFilterList
      ensures Valid() && View() == StartIncrement(old(View()), tpDone)
      ensures unchanged(this`signalOnFlowDelete)
    {
      if configuredUniFlow >= |uniVlanFlowParams| {
        state := Crashed;
        return;
      }
      actualUniFlow := uniVlanFlowParams[configuredUniFlow];
      tpIdWaitingFor := actualUniFlow.rule.tpId;
      ghost var e := View();
      if tpDone {
        state := ConfigIncrFlow;
        assert View() == Moved(e, EvIncrFlowConfig);
        EnterConfigIncrFlowState();
      } else {
        state := IncrFlowWaitTP;
      }
    }

    method EnterVlanConfigDone(tpDone: bool)
      requires Valid() && state == ConfigDone
      modifies this, vlanFilterList
      ensures Valid() && View() == EnterConfigDone(old(View()), tpDone)
      ensures unchanged(this`signalOnFlowDelete)
    {
      if |uniRemoveFlows| > 0 {
        state := RemoveFlow;
      } else if numUniFlows > configuredUniFlow {
        if configuredUniFlow == 0 {
          state := Starting;
          EnterStartingState(tpDone);
        } else if |uniVlanFlowParams| < configuredUniFlow {
          state := Resetting;
        } else {
          StartNextIncrement(tpDone);
        }
      }
    }

    // -------------------------------------------------------------- add requests

    method FindRule(rule: Rule) returns (f: nat)
      requires Valid()
      ensures f == FirstRule(uniVlanFlowParams, rule)
    {
      f := 0;
      while f < |uniVlanFlowParams| && uniVlanFlowParams[f].rule != rule
        invariant f <= |uniVlanFlowParams|
        invariant forall j | 0 <= j < f :: uniVlanFlowParams[j].rule != rule
      {
        f := f + 1;
      }
    }

    method FindCookie(cookie: Cookie) returns (f: nat)
      requires Valid()
      ensures f == FirstCookie(uniVlanFlowParams, cookie)
    {
      f := 0;
      while f < |uniVlanFlowParams| && cookie !in uniVlanFlowParams[f].cookies
        invariant f <= |uniVlanFlowParams|
        invariant forall j | 0 <= j < f :: cookie !in uniVlanFlowParams[j].cookies
      {
        f := f + 1;
      }
    }

    method DelayNewRuleForCookie(cookies: seq<Cookie>) returns (delayed: Cookie)
      requires Valid()
      modifies this
      ensures Valid()
      ensures delayed != 0 <==> DelayNeeded(old(View()), cookies)
      ensures delayed != 0 <==> && old(delayNewRuleCookie) == 0 && |cookies| == 1 && cookies[0] != 0
                                && exists f :: 0 <= f < |uniVlanFlowParams| && cookies[0] in uniVlanFlowParams[f].cookies
      ensures delayed != 0 ==> delayed == cookies[0]
      ensures View() == old(View()).(delayCookie := if delayed != 0 then delayed else old(View()).delayCookie)
      ensures unchanged(this`signalOnFlowDelete)
    {
      delayed := 0;
      if delayNewRuleCookie == 0 && |cookies| == 1 {
        var f := FindCookie(cookies[0]);
        if f < |uniVlanFlowParams| {
          delayNewRuleCookie := cookies[0];
          delayed := cookies[0];
        }
      }
    }

    method AppendNewFlow(req: Request, tpDone: bool) returns (outcome: AddOutcome)
      requires Valid()
      modifies this, vlanFilterList
      ensures Valid() && (View(), outcome) == AppendFlow(old(View()), req, tpDone)
      ensures unchanged(this`signalOnFlowDelete)
    {
      if state == Resetting || state == Disabled {
        return Rejected;
      }
      if numUniFlows >= TABLE_SIZE {
        return Rejected;
      }
      if numUniFlows > |uniVlanFlowParams| {
        state := Crashed;
        return Rejected;
      }
      uniVlanFlowParams := uniVlanFlowParams + [Flow(req.rule, req.cookies)];
      numUniFlows := numUniFlows + 1;
      if state == ConfigDone {
        if configuredUniFlow == 0 {
          state := Starting;
          EnterStartingState(tpDone);
        } else if |uniVlanFlowParams| < configuredUniFlow {
          return Rejected;
        } else {
          StartNextIncrement(tpDone);
        }
      }
      return Stored;
    }

    method StoreFlowParams(req: Request, tpDone: bool) returns (outcome: AddOutcome)
      requires Valid()
      modifies this, vlanFilterList
      ensures Valid() && (View(), outcome) == StoreFlow(old(View()), req, tpDone)
      ensures unchanged(this`signalOnFlowDelete)
    {
      var f := FindRule(req.rule);
      if f < |uniVlanFlowParams| {
        outcome := StoreCookies(f, req);
        return;
      }
      var delayed := DelayNewRuleForCookie(req.cookies);
      if delayed != 0 {
        return SuspendedOnCookie;
      }
      outcome := AppendNewFlow(req, tpDone);
    }

    /** One missing cookie goes to the end of the rule's list. */
    method AppendCookie(f: nat, cookie: Cookie)
      requires Valid() && f < |uniVlanFlowParams|
      modifies this`uniVlanFlowParams
      ensures Valid() && View() == old(View()).(rules := WithCookies(old(uniVlanFlowParams), f, [cookie]))
    {
      uniVlanFlowParams := uniVlanFlowParams[f :=
        uniVlanFlowParams[f].(cookies := uniVlanFlowParams[f].cookies + [cookie])];
    }

    /** The matching rule gets every requested cookie that it lacks; the comparison runs against the list
        as it was when the rule was found. */
    method StoreCookies(f: nat, req: Request) returns (outcome: AddOutcome)
      requires Valid() && f < |uniVlanFlowParams| && uniVlanFlowParams[f].rule == req.rule
      modifies this
      ensures Valid()
      ensures var e, m := old(View()), Missing(req.cookies, old(uniVlanFlowParams[f].cookies));
              (View(), outcome) ==
                if m != [] && DelayNeeded(e, req.cookies)
                then (e.(delayCookie := req.cookies[0]), SuspendedOnCookie)
                else (e.(rules := WithCookies(e.rules, f, m)), Stored)
      ensures unchanged(this`signalOnFlowDelete)
    {
      var stored := uniVlanFlowParams[f];
      ghost var e := View();
      var i := 0;
      assert req.cookies[..0] == [];
      while i < |req.cookies|
        invariant 0 <= i <= |req.cookies| && Valid()
        invariant Missing(req.cookies[..i], stored.cookies) != [] ==> !DelayNeeded(e, req.cookies)
        invariant View() == e.(rules := WithCookies(e.rules, f, Missing(req.cookies[..i], stored.cookies)))
        invariant unchanged(this`signalOnFlowDelete)
      {
        MissingStep(req.cookies, i, stored.cookies);
        if req.cookies[i] !in stored.cookies {
          var delayed := DelayNewRuleForCookie(req.cookies);
          if delayed != 0 {
            assert i == 0 && req.cookies[..1] == req.cookies;
            return SuspendedOnCookie;
          }
          MoreCookies(e.rules, f, Missing(req.cookies[..i], stored.cookies), [req.cookies[i]]);
          if DelayNeeded(e, req.cookies) { DelayGrows(e, f, Missing(req.cookies[..i], stored.cookies), req.cookies); }
          AppendCookie(f, req.cookies[i]);
        }
        i := i + 1;
      }
      assert req.cookies[..i] == req.cookies;
      return Stored;
    }

    method SetUniFlowParams(req: Request, tpDone: bool) returns (outcome: AddOutcome)
      requires Valid()
      modifies this, vlanFilterList
      ensures Valid() && (View(), outcome) == AddFlow(old(View()), req, tpDone)
      ensures unchanged(this`signalOnFlowDelete)
    {
      var k := 0;
      while k < |uniRemoveFlows|
        invariant 0 <= k <= |uniRemoveFlows|
        invariant forall j | 0 <= j < k :: uniRemoveFlows[j].rule != req.rule
        invariant Valid() && View() == old(View())
        invariant unchanged(this`signalOnFlowDelete)
      {
        if uniRemoveFlows[k].rule == req.rule {
          uniRemoveFlows := uniRemoveFlows[k := uniRemoveFlows[k].(suspendsAdd := true)];
          return SuspendedOnRule;
        }
        k := k + 1;
      }
      outcome := StoreFlowParams(req, tpDone);
    }

    method ReviseFlowConstellation(req: Request, tpDone: bool) returns (outcome: AddOutcome)
      requires Valid() && |req.cookies| == 1
      modifies this, vlanFilterList
      ensures Valid() && (View(), outcome) == ReviseFlow(old(View()), req, tpDone)
      ensures unchanged(this`signalOnFlowDelete)
    {
      delayNewRuleCookie := 0;
      var f := FindRule(req.rule);
      if f == |uniVlanFlowParams| {
        outcome := AppendNewFlow(req, tpDone);
        return;
      }
      if req.cookies[0] !in uniVlanFlowParams[f].cookies {
        uniVlanFlowParams := uniVlanFlowParams[f :=
          uniVlanFlowParams[f].(cookies := uniVlanFlowParams[f].cookies + [req.cookies[0]])];
        assert [req.cookies[0]] == req.cookies;
      }
      return Stored;
    }

    // -------------------------------------------------------------- removal requests

    method RemoveFlowFromParamsSlice(cookie: Cookie, wasConfigured: bool) returns (found: bool)
      requires Valid()
      modifies this
      ensures Valid()
      ensures CutFlow(old(View()), cookie, wasConfigured) == if found then Found(View()) else NotFound
      ensures !found ==> View() == old(View())
      ensures unchanged(this`signalOnFlowDelete)
    {
      var i := 0;
      found := false;
      while i < |uniVlanFlowParams|
        invariant 0 <= i <= |uniVlanFlowParams|
        invariant forall j | 0 <= j < i :: uniVlanFlowParams[j].cookies != [] && cookie !in uniVlanFlowParams[j].cookies
        invariant Valid() && View() == old(View()) && !found
        invariant unchanged(this`signalOnFlowDelete)
      {
        var have := uniVlanFlowParams[i].cookies;
        if |have| == 0 {
          return;
        }
        if |have| == 1 {
          found := have[0] == cookie;
        } else {
          found := cookie in have;
        }
        if found {
          assert cookie in have;
          if |uniVlanFlowParams| <= 1 {
            numUniFlows, configuredUniFlow, uniVlanFlowParams := 0, 0, [];
          } else {
            numUniFlows := if numUniFlows == 0 then 255 else numUniFlows - 1;
            if wasConfigured && configuredUniFlow > 0 {
              configuredUniFlow := configuredUniFlow - 1;
            }
            uniVlanFlowParams := uniVlanFlowParams[..i] + uniVlanFlowParams[i + 1..];
          }
          return;
        }
        i := i + 1;
      }
    }

    method CancelOutstandingConfig(cookie: Cookie, tpDone: bool)
      requires Valid() && state == WaitingTechProf
      modifies this, vlanFilterList
      ensures Valid()
      ensures View() == match CutFlow(old(View()), cookie, false)
                        case NotFound => Moved(old(View()), EvReset)
                        case Found(e1) => EnterConfigDone(Moved(e1, EvCancelOutstandingConfig), tpDone)
      ensures unchanged(this`signalOnFlowDelete)
    {
      var found := RemoveFlowFromParamsSlice(cookie, false);
      ghost var e1 := View();
      if !found {
        state := Resetting;
      } else {
        assert e1.state == WaitingTechProf;
        state := ConfigDone;
        assert View() == Moved(e1, EvCancelOutstandingConfig);
        EnterVlanConfigDone(tpDone);
      }
    }

    method RemoveRuleComplete(flow: Flow, cookie: Cookie, tpDone: bool)
      requires Valid()
      modifies this, vlanFilterList
      ensures Valid() && View() == RemoveRule(old(View()), flow.rule, cookie, tpDone)
      ensures unchanged(this`signalOnFlowDelete)
    {
      if state == WaitingTechProf {
        CancelOutstandingConfig(cookie, tpDone);
        return;
      }
      uniRemoveFlows := uniRemoveFlows + [Removal(flow.rule, cookie, false)];
      if state == ConfigDone {
        state := RemoveFlow;
      }
    }

    /** The cookie at position `i` of a flow goes, and with the last one the whole rule. */
    method RemoveCookieAt(flow: nat, i: nat, cookie: Cookie, tpDone: bool)
      requires Valid() && flow == FirstCookie(uniVlanFlowParams, cookie) < |uniVlanFlowParams|
      requires i == FirstIndex(uniVlanFlowParams[flow].cookies, cookie) < |uniVlanFlowParams[flow].cookies|
      modifies this, vlanFilterList
      ensures Valid() && View() == RemoveCookie(old(View()), cookie, tpDone)
      ensures unchanged(this`signalOnFlowDelete)
    {
      var stored := uniVlanFlowParams[flow];
      if |stored.cookies| == 1 {
        RemoveRuleComplete(stored, cookie, tpDone);
      } else {
        uniVlanFlowParams := uniVlanFlowParams[flow :=
          stored.(cookies := stored.cookies[..i] + stored.cookies[i + 1..])];
        if cookie == delayNewRuleCookie {
          delayNewRuleCookie := uniVlanFlowParams[flow].cookies[0];
        }
      }
    }

    method RemoveUniFlowParams(cookie: Cookie, tpDone: bool)
      requires Valid()
      modifies this, vlanFilterList
      ensures Valid() && View() == RemoveCookie(old(View()), cookie, tpDone)
      ensures unchanged(this`signalOnFlowDelete)
    {
      var flow := 0;
      while flow < |uniVlanFlowParams|
        invariant 0 <= flow <= |uniVlanFlowParams|
        invariant forall j | 0 <= j < flow :: cookie !in uniVlanFlowParams[j].cookies
        invariant Valid() && View() == old(View())
        invariant unchanged(this`signalOnFlowDelete)
      {
        var stored := uniVlanFlowParams[flow];
        var i := 0;
        while i < |stored.cookies|
          invariant 0 <= i <= |stored.cookies|
          invariant cookie !in stored.cookies[..i]
        {
          if stored.cookies[i] == cookie {
            FoundAt(stored.cookies, cookie, i);
            RemoveCookieAt(flow, i, cookie, tpDone);
            return;
          }
          i := i + 1;
        }
        flow := flow + 1;
      }
    }

    // -------------------------------------------------------------- answers of the ONU

    method FindFilter(vid: bv16) returns (pos: nat)
      requires Valid()
      ensures pos <= numVlanFilterEntries && pos == FirstIndex(vlanFilterList[..numVlanFilterEntries], vid)
    {
      pos := 0;
      while pos < numVlanFilterEntries && vlanFilterList[pos] != vid
        invariant 0 <= pos <= numVlanFilterEntries
        invariant forall j | 0 <= j < pos :: vlanFilterList[j] != vid
      {
        pos := pos + 1;
      }
      ghost var lead := vlanFilterList[..numVlanFilterEntries];
      if pos < numVlanFilterEntries { FoundAt(lead, vid, pos); }
    }

    /** Rebuilds the filter list without the VID of the removed rule, first in a scratch list and then back
        over the leading slots. */
    method RemoveVlanFilter(rule: Rule)
      requires Valid()
      modifies this, vlanFilterList
      ensures Valid() && View() == CutFilter(old(View()), rule)
      ensures unchanged(this`signalOnFlowDelete)
    {
      if Transparent(rule) {
        return;
      }
      if numVlanFilterEntries == 1 {
        vlanFilterList[0] := 0;
        numVlanFilterEntries := 0;
        return;
      }
      var pos := FindFilter(rule.setVid);
      if pos == numVlanFilterEntries {
        return;
      }
      if numVlanFilterEntries == TABLE_SIZE {
        state := Crashed;   // the copy back would write one slot past the end
        return;
      }
      ShiftFilters(pos);
    }

    method ShiftFilters(pos: nat)
      requires Valid() && pos < numVlanFilterEntries < TABLE_SIZE
      modifies this`numVlanFilterEntries, vlanFilterList
      ensures Valid() && numVlanFilterEntries == old(numVlanFilterEntries) - 1
      ensures vlanFilterList[..] == Shifted(old(vlanFilterList[..]), old(numVlanFilterEntries), pos)
    {
      ghost var was := vlanFilterList[..];
      var n := numVlanFilterEntries;
      ghost var want := Shifted(was, n, pos);
      var scratch := new bv16[TABLE_SIZE](_ => 0);
      var i := 0;
      while i < n
        invariant 0 <= i <= n
        invariant vlanFilterList[..] == was
        invariant forall j | 0 <= j < i :: scratch[j] == want[j]
        invariant forall j | i <= j < TABLE_SIZE :: scratch[j] == 0
      {
        scratch[i] := if i < pos then vlanFilterList[i]
                      else if i < TABLE_SIZE - 1 then vlanFilterList[i + 1] else 0;
        i := i + 1;
      }
      i := 0;
      while i <= n
        invariant 0 <= i <= n + 1
        invariant forall j | 0 <= j <= n :: scratch[j] == want[j]
        invariant forall j | 0 <= j < i :: vlanFilterList[j] == want[j]
        invariant forall j | i <= j < TABLE_SIZE :: vlanFilterList[j] == was[j]
      {
        vlanFilterList[i] := scratch[i];
        i := i + 1;
      }
      numVlanFilterEntries := n - 1;
      assert vlanFilterList[..] == want;
    }

    /** Drops the processed removal; an add that waits for its cookie goes on, and the last removal releases a tech-profile
        engine that waits for it. */
    method EnterVlanCleanupDone(tpId: bv8, tpDone: bool) returns (signal: bool, cookieFreed: bool)
      requires Valid() && state == CleanupDone && |uniRemoveFlows| > 0
      modifies this, vlanFilterList
      ensures Valid() && View() == FinishCleanup(old(View()), tpDone)
      ensures signal <==> old(signalOnFlowDelete) && |old(uniRemoveFlows)| == 1 && tpId > 0
      ensures cookieFreed <==> old(uniRemoveFlows[0].cookie) == old(delayNewRuleCookie)
      ensures signalOnFlowDelete == (old(signalOnFlowDelete) && !signal)
    {
      cookieFreed := uniRemoveFlows[0].cookie == delayNewRuleCookie;
      uniRemoveFlows := uniRemoveFlows[1..];
      signal := signalOnFlowDelete && |uniRemoveFlows| == 0 && tpId > 0;
      if signal {
        signalOnFlowDelete := false;
      }
      state := ConfigDone;
      EnterVlanConfigDone(tpDone);
    }

    method CleanupRemovedFlow(tpId: bv8, tpDone: bool) returns (wakeAdd: bool, signal: bool, cookieFreed: bool)
      requires Valid() && state == CleanupDone && |uniRemoveFlows| > 0
      modifies this, vlanFilterList
      ensures Valid() && View() == StartCleanup(old(View()), tpDone)
      ensures wakeAdd <==> CutFlow(old(View()), old(uniRemoveFlows[0].cookie), true).Found? &&
                           old(uniRemoveFlows[0].suspendsAdd)
      ensures signal <==> && CutFlow(old(View()), old(uniRemoveFlows[0].cookie), true).Found?
                          && !old(uniRemoveFlows[0].suspendsAdd)
                          && old(signalOnFlowDelete) && |old(uniRemoveFlows)| == 1 && tpId > 0
      ensures cookieFreed <==> && CutFlow(old(View()), old(uniRemoveFlows[0].cookie), true).Found?
                               && !old(uniRemoveFlows[0].suspendsAdd)
                               && old(uniRemoveFlows[0].cookie) == old(delayNewRuleCookie)
      ensures signalOnFlowDelete == (old(signalOnFlowDelete) && !signal)
    {
      wakeAdd, signal, cookieFreed := false, false, false;
      var found := RemoveFlowFromParamsSlice(uniRemoveFlows[0].cookie, true);
      ghost var e1 := View();
      assert e1.removes == old(uniRemoveFlows) && e1.state == CleanupDone;
      if !found {
        state := Resetting;
        assert View() == Moved(old(View()), EvReset);
      } else if uniRemoveFlows[0].suspendsAdd {
        wakeAdd := true;
      } else {
        signal, cookieFreed := EnterVlanCleanupDone(tpId, tpDone);
      }
    }

    method HandleRemovalAcked(tpDone: bool) returns (wakeAdd: bool, signal: bool, cookieFreed: bool)
      requires Valid() && state == RemoveFlow && |uniRemoveFlows| > 0
      modifies this, vlanFilterList
      ensures Valid() && View() == RemovalAcked(old(View()), tpDone)
      ensures wakeAdd <==> FlowGone(old(View())) && old(uniRemoveFlows[0].suspendsAdd)
      ensures signal <==> && FlowGone(old(View())) && !old(uniRemoveFlows[0].suspendsAdd)
                          && old(signalOnFlowDelete) && |old(uniRemoveFlows)| == 1 && old(uniRemoveFlows[0].rule).tpId > 0
      ensures cookieFreed <==> && FlowGone(old(View())) && !old(uniRemoveFlows[0].suspendsAdd)
                               && old(uniRemoveFlows[0].cookie) == old(delayNewRuleCookie)
      ensures signalOnFlowDelete == (old(signalOnFlowDelete) && !signal)
    {
      wakeAdd, signal, cookieFreed := false, false, false;
      var rule := uniRemoveFlows[0].rule;
      RemoveVlanFilter(rule);
      CutFilterState(old(View()), rule);
      if state != Crashed {
        ghost var e1 := View();
        AckStartsCleanup(old(View()), tpDone);
        state := CleanupDone;
        assert View() == e1.(state := CleanupDone);
        wakeAdd, signal, cookieFreed := CleanupRemovedFlow(rule.tpId, tpDone);
      }
    }

    method HandleEvtocdAcked(tpDone: bool)
      requires Valid() && (state.ConfigEvtocd? || state.ConfigIncrFlow?)
      modifies this, vlanFilterList
      ensures Valid() && View() == EvtocdAcked(old(View()), tpDone)
      ensures unchanged(this`signalOnFlowDelete)
    {
      configuredUniFlow := if configuredUniFlow == 255 then 0 else configuredUniFlow + 1;
      state := ConfigDone;
      EnterVlanConfigDone(tpDone);
    }

    /** The tech profile of a waiting flow is there: the caller sends the event that fits the waiting state. */
    method HandleTechProfReady(tpId: bv8)
      requires Valid()
      modifies this, vlanFilterList
      ensures Valid() && View() == TechProfReady(old(View()), tpId)
      ensures unchanged(this`signalOnFlowDelete)
    {
      if tpIdWaitingFor == tpId {
        if state == WaitingTechProf {
          state := ConfigVtfd;
          EnterConfigVtfdState();
        } else if state == IncrFlowWaitTP {
          state := ConfigIncrFlow;
          EnterConfigIncrFlowState();
        }
      }
    }

    /** True while removals are queued; then the end of the last one is signalled to the tech-profile engine, which
        asks this before it deletes a GEM port. */
    method IsFlowRemovePending() returns (pending: bool)
      requires Valid()
      modifies this`signalOnFlowDelete
      ensures Valid() && View() == old(View()) && (pending <==> View().removes != [])
      ensures signalOnFlowDelete == (pending || old(signalOnFlowDelete))
    {
      pending := |uniRemoveFlows| > 0;
      if pending {
        signalOnFlowDelete := true;
      }
    }
  }

  /** The acknowledged removal does not panic on the filter list and finds its flow. */
  predicate FlowGone(e: Engine)
    requires e.removes != []
  {
    !CutFilter(e, e.removes[0].rule).state.Crashed? && CutFlow(e, e.removes[0].cookie, true).Found?
  }

  lemma {:induction false} FoundAt<T>(s: seq<T>, x: T, i: nat)
    requires i < |s| && s[i] == x && x !in s[..i]
    ensures FirstIndex(s, x) == i
  {
    assert forall j | 0 <= j < i :: s[..i][j] == s[j] && s[j] != x;
  }

  /** Cookies that a flow gains do not take a reason for a delay away. */
  lemma {:induction false} DelayGrows(e: Engine, f: nat, more: seq<Cookie>, cookies: seq<Cookie>)
    requires f < |e.rules| && DelayNeeded(e, cookies)
    ensures DelayNeeded(e.(rules := WithCookies(e.rules, f, more)), cookies)
  {
    var i := FirstCookie(e.rules, cookies[0]);
    var rules := WithCookies(e.rules, f, more);
    assert cookies[0] in rules[i].cookies;
  }

  lemma {:induction false} MoreCookies(flows: seq<Flow>, f: nat, a: seq<Cookie>, b: seq<Cookie>)
    requires f < |flows|
    ensures WithCookies(WithCookies(flows, f, a), f, b) == WithCookies(flows, f, a + b)
  {
    assert flows[f].cookies + a + b == flows[f].cookies + (a + b);
  }

  lemma {:induction false} MissingAppend(a: seq<Cookie>, c: Cookie, have: seq<Cookie>)
    ensures Missing(a + [c], have) == if c in have then Missing(a, have) else Missing(a, have) + [c]
  {
    if a == [] {
      assert a + [c] == [c] && Missing([], have) == [];
    } else {
      MissingAppend(a[1..], c, have);
      assert (a + [c])[1..] == a[1..] + [c];
    }
  }

  lemma {:induction false} MissingStep(wanted: seq<Cookie>, i: nat, have: seq<Cookie>)
    requires i < |wanted|
    ensures Missing(wanted[..i + 1], have)
         == if wanted[i] in have then Missing(wanted[..i], have) else Missing(wanted[..i], have) + [wanted[i]]
  {
    assert wanted[..i + 1] == wanted[..i] + [wanted[i]];
    MissingAppend(wanted[..i], wanted[i], have);
  }
}
