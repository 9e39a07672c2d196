/**
  Whole runs of the VLAN engine: an adversarial environment sends add and removal requests, answers or fails
  OMCI exchanges, completes tech profiles and schedules a suspended add.  `installed` is what the ONU was
  told and acknowledged: it is driven by the rule each exchange really carries, never by the flow slice.
*/
module VlanRuns {
  import opened VlanModel

  /** The one add request that may be waiting: for the removal of its rule, or for its cookie to be free. */
  datatype Suspension =
    | NoAdd
    | OnRule(req: Request) | OnCookie(req: Request)
    | RuleGone(req: Request) | CookieGone(req: Request)   // woken, not yet continued

  datatype World = World(fsm: Engine, add: Suspension, installed: seq<Rule>)

  datatype Step =
    | Add(req: Request, tpDone: bool)
    | ResumeAdd(tpDone: bool)
    | Timeout(mark: nat)   // the waiting add gives up; the place where its mark is taken back
    | Remove(cookie: Cookie, tpDone: bool)
    | VtfdAck
    | EvtocdAck(tpDone: bool)
    | TechProfDone(tpId: bv8)
    | RemoveAck(tpDone: bool)
    | CleanupRest(tpDone: bool)
    | Reset
    | Restart

  function Uninstall(installed: seq<Rule>, rule: Rule): seq<Rule> {
    var i := FirstIndex(installed, rule);
    if i < |installed| then Cut(installed, i) else installed
  }

  function Suspended(add: Suspension, req: Request, outcome: AddOutcome): Suspension {
    match outcome
    case SuspendedOnRule => OnRule(req)
    case SuspendedOnCookie => OnCookie(req)
    case _ => add
  }

  function WakeOnRule(add: Suspension, rule: Rule): Suspension {
    if add.OnRule? && add.req.rule == rule then RuleGone(add.req) else add
  }

  function WakeOnCookie(add: Suspension, deleted: Cookie, awaited: Cookie): Suspension {
    if add.OnCookie? && deleted == awaited then CookieGone(add.req) else add
  }

  /** A reset aborts an add that is still waiting. */
  function Settled(w: World): World {
    if w.fsm.state == Resetting && (w.add.OnRule? || w.add.OnCookie?)
    then w.(add := NoAdd, fsm := w.fsm.(delayCookie := 0)) else w
  }

  function AfterRemoval(w: World, tpDone: bool): World
    requires w.fsm.state == RemoveFlow && w.fsm.removes != []
  {
    var r := w.fsm.removes[0];
    var e := RemovalAcked(w.fsm, tpDone);
    if e.state == Crashed then w.(fsm := e)
    else
      var add := if CutFlow(w.fsm, r.cookie, true).NotFound? then w.add
                 else if r.suspendsAdd then WakeOnRule(w.add, r.rule)
                 else WakeOnCookie(w.add, r.cookie, w.fsm.delayCookie);
      World(e, add, Uninstall(w.installed, r.rule))
  }

  /** An add that waited too long for the removal of its rule is aborted; one that waited for its cookie goes on as if
      the cookie were gone.  The mark is taken back through a pointer into a slice that may have moved on, so it may
      hit any entry, or none. */
  function TimedOut(w: World, mark: nat): World {
    match w.add
    case OnRule(_) => w.(fsm := w.fsm.(removes := Unmarked(w.fsm.removes, mark)), add := NoAdd)
    case OnCookie(req) => w.(add := CookieGone(req))
    case _ => w
  }

  function Unmarked(removes: seq<Removal>, mark: nat): (r: seq<Removal>)
    ensures |r| == |removes|
    ensures forall k | 0 <= k < |r| :: r[k].rule == removes[k].rule && r[k].cookie == removes[k].cookie
    ensures forall k | 0 <= k < |r| :: r[k].suspendsAdd == (removes[k].suspendsAdd && k != mark)
  {
    if mark < |removes| then removes[mark := removes[mark].(suspendsAdd := false)] else removes
  }

  function Raw(w: World, s: Step): World {
    var e := w.fsm;
    match s
    case Add(req, tpDone) =>
      var (e1, outcome) := AddFlow(e, req, tpDone);
      w.(fsm := e1, add := Suspended(w.add, req, outcome))
    case ResumeAdd(tpDone) =>
      (match w.add
       case RuleGone(req) =>
         var (e1, outcome) := StoreFlow(e, req, tpDone);
         w.(fsm := e1, add := Suspended(NoAdd, req, outcome))
       case CookieGone(req) =>
         if |req.cookies| != 1 then w else w.(fsm := ReviseFlow(e, req, tpDone).0, add := NoAdd)
       case _ => w)
    case Timeout(mark) => TimedOut(w, mark)
    case Remove(c, tpDone) => w.(fsm := RemoveCookie(e, c, tpDone))
    case VtfdAck => if e.state == ConfigVtfd then w.(fsm := Moved(e, EvRxConfigVtfd)) else w
    case EvtocdAck(tpDone) =>
      if (e.state.ConfigEvtocd? || e.state.ConfigIncrFlow?)
      then w.(fsm := EvtocdAcked(e, tpDone), installed := w.installed + [e.actual.rule]) else w
    case TechProfDone(tpId) => w.(fsm := TechProfReady(e, tpId))
    case RemoveAck(tpDone) => if e.state == RemoveFlow && e.removes != [] then AfterRemoval(w, tpDone) else w
    case CleanupRest(tpDone) =>
      if e.state == CleanupDone && e.removes != []
      then w.(fsm := FinishCleanup(e, tpDone), add := WakeOnCookie(w.add, e.removes[0].cookie, e.delayCookie))
      else w
    case Reset => w.(fsm := ResetEngine(e))
    case Restart => if e.state == Resetting then w.(fsm := Moved(e, EvRestart)) else w
  }

  function Next(w: World, s: Step): World {
    Settled(Raw(w, s))
  }

  // ---------------------------------------------------------------- what the environment promises

  ghost predicate NoDup(cookies: seq<Cookie>) {
    forall i, j | 0 <= i < j < |cookies| :: cookies[i] != cookies[j]
  }

  ghost predicate GoodCookies(cookies: seq<Cookie>) {
    cookies != [] && NoDup(cookies) && 0 !in cookies
  }

  ghost predicate Disjoint(a: seq<Cookie>, b: seq<Cookie>) {
    forall c | c in a :: c !in b
  }

  ghost predicate Unused(flows: seq<Flow>, c: Cookie) {
    forall i | 0 <= i < |flows| :: c !in flows[i].cookies
  }

  /** No requested cookie belongs to a flow of another rule. */
  ghost predicate OwnOnly(flows: seq<Flow>, req: Request) {
    forall i | 0 <= i < |flows| && flows[i].rule != req.rule :: Disjoint(req.cookies, flows[i].cookies)
  }

  predicate Dead(e: Engine) {
    (e.state.Crashed? || e.state.Resetting? || e.state.Disabled?)
  }

  /** An exchange for `actual` is under way; its flow sits right after the configured ones. */
  predicate InProgress(state: FsmState) {
    (state.ConfigVtfd? || state.ConfigEvtocd? || state.ConfigIncrFlow? || state.IncrFlowWaitTP?)
  }

  /** Flows below this index are installed when the next queued removal runs. */
  function Bound(e: Engine): nat {
    if InProgress(e.state) then e.configured + 1 else e.configured
  }

  /** While an add is being woken its removal entry is still listed although the flow is already cut. */
  function Active(e: Engine): seq<Removal> {
    if MidCleanup(e) then e.removes[1..] else e.removes
  }

  /** A waiting request that looks for its cookie in the store once more before it is stored. */
  predicate Rechecks(add: Suspension) {
    (add.OnRule? || add.RuleGone?) && |add.req.cookies| == 1
  }

  /** In the middle of a cleanup: the cookie whose removal entry is still listed although its flow is cut. */
  predicate MidCleanup(e: Engine) {
    e.state.CleanupDone? && e.removes != []
  }

  /** Naming the cookie that is being cleaned up does no harm unless the request has to wait for that cookie, or
      takes it away from a waiting add that expects to find it free. */
  ghost predicate MidAddOk(w: World, req: Request) {
    MidCleanup(w.fsm) && w.fsm.removes[0].cookie in req.cookies ==>
      && (w.add.NoAdd? ==> OwnOnly(w.fsm.rules, req) || FirstRemoval(w.fsm.removes, req.rule) < |w.fsm.removes|)
      && (w.add.RuleGone? ==> w.fsm.removes[0].cookie !in w.add.req.cookies)
  }

  ghost predicate AddOk(w: World, req: Request) {
    && GoodCookies(req.cookies) && MidAddOk(w, req)
    && (w.add.NoAdd? ==> |req.cookies| == 1 || OwnOnly(w.fsm.rules, req))
    && (!w.add.NoAdd? ==>
          && OwnOnly(w.fsm.rules, req) && (Rechecks(w.add) || Disjoint(req.cookies, w.add.req.cookies))
          && FirstRemoval(w.fsm.removes, req.rule) == |w.fsm.removes|)
  }

  ghost predicate RemoveOk(e: Engine, c: Cookie) {
    var i := FirstCookie(e.rules, c);
    i < |e.rules| ==>
      && (forall k | 0 <= k < |Active(e)| :: Active(e)[k].cookie != c)
      && (|e.rules[i].cookies| == 1 ==> e.state == WaitingTechProf || i < Bound(e))
  }

  /** An add that stops waiting for its cookie finds it free by then. */
  ghost predicate TimeoutOk(w: World) {
    w.add.OnCookie? && w.add.req.cookies != [] ==> Unused(w.fsm.rules, w.add.req.cookies[0])
  }

  ghost predicate Admissible(w: World, s: Step) {
    Dead(w.fsm) ||
    match s
    case Add(req, _) => AddOk(w, req)
    case Remove(c, _) => RemoveOk(w.fsm, c)
    case Timeout(_) => TimeoutOk(w)
    case _ => true
  }

  // ---------------------------------------------------------------- invariant

  ghost predicate StoreInv(flows: seq<Flow>) {
    && (forall i, j | 0 <= i < j < |flows| :: flows[i].rule != flows[j].rule)
    && (forall i | 0 <= i < |flows| :: GoodCookies(flows[i].cookies))
    && (forall i, j | 0 <= i < |flows| && 0 <= j < |flows| && i != j :: Disjoint(flows[i].cookies, flows[j].cookies))
  }

  ghost predicate Backed(flows: seq<Flow>, r: Removal, bound: nat) {
    var i := FirstRule(flows, r.rule);
    i < bound && i < |flows| && r.cookie in flows[i].cookies
  }

  ghost predicate RemovalInv(flows: seq<Flow>, removes: seq<Removal>, bound: nat) {
    && (forall k | 0 <= k < |removes| :: Backed(flows, removes[k], bound))
    && (forall k, l | 0 <= k < l < |removes| :: removes[k].rule != removes[l].rule)
  }

  function RulesOf(flows: seq<Flow>, n: nat): (r: seq<Rule>)
    requires n <= |flows|
    ensures |r| == n && forall i | 0 <= i < n :: r[i] == flows[i].rule
  {
    seq(n, i requires 0 <= i < n => flows[i].rule)
  }

  /** How often a VID is listed in the first `n` slots. */
  function Listed(slots: Slots, n: nat, vid: bv16): nat
    requires n <= TABLE_SIZE
  {
    if n == 0 then 0 else Listed(slots, n - 1, vid) + if slots[n - 1] == vid then 1 else 0
  }

  /** How many of the first `k` flows ask for a VID. */
  function Asked(flows: seq<Flow>, k: nat, vid: bv16): nat
    requires k <= |flows|
  {
    if k == 0 then 0
    else Asked(flows, k - 1, vid) + if !Transparent(flows[k - 1].rule) && flows[k - 1].rule.setVid == vid then 1 else 0
  }

  /** How many of the first `k` flows take part in VID filtering. */
  function Filters(flows: seq<Flow>, k: nat): (n: nat)
    requires k <= |flows|
    ensures n <= k
  {
    if k == 0 then 0 else Filters(flows, k - 1) + if Transparent(flows[k - 1].rule) then 0 else 1
  }

  /** The filter list holds, as a multiset, the VIDs of the first `k` flows, and zeros behind them. */
  ghost predicate FilterInv(slots: Slots, n: nat, flows: seq<Flow>, k: nat) {
    && k <= |flows| && k <= TABLE_SIZE && n == Filters(flows, k)
    && (forall vid: bv16 :: Listed(slots, n, vid) == Asked(flows, k, vid))
    && forall i | n <= i < TABLE_SIZE :: slots[i] == 0
  }

  /** Flows whose VID is in the filter list: the installed ones and the one being configured. */
  function Filtered(e: Engine): nat {
    if e.state.ConfigVtfd? || e.state.ConfigEvtocd? || e.state.ConfigIncrFlow? then e.configured + 1 else e.configured
  }

  /** The tech profile that is waited for is the one of the flow that is to be configured next. */
  predicate WaitsForOwn(e: Engine) {
    e.tpWaitingFor == e.actual.rule.tpId
  }

  ghost predicate Mode(e: Engine) {
    match e.state
    case WaitingTechProf =>
      e.configured == 0 && |e.rules| > 0 && e.actual.rule == e.rules[0].rule && e.removes == [] && WaitsForOwn(e)
    case ConfigVtfd => e.configured == 0 && |e.rules| > 0 && e.actual.rule == e.rules[0].rule
    case ConfigEvtocd => e.configured == 0 && |e.rules| > 0 && e.actual.rule == e.rules[0].rule
    case ConfigIncrFlow => 0 < e.configured < |e.rules| && e.actual.rule == e.rules[e.configured].rule
    case IncrFlowWaitTP =>
      0 < e.configured < |e.rules| && e.actual.rule == e.rules[e.configured].rule && WaitsForOwn(e)
    case ConfigDone => e.configured == |e.rules| && e.removes == []
    case RemoveFlow => e.removes != []
    case CleanupDone => e.removes != []
    case _ => false
  }

  ghost predicate AddInv(e: Engine, add: Suspension) {
    match add
    case NoAdd => e.delayCookie == 0
    case OnRule(req) => e.delayCookie == 0 && GoodCookies(req.cookies) && (|req.cookies| == 1 || OwnOnly(e.rules, req))
    case RuleGone(req) => e.delayCookie == 0 && GoodCookies(req.cookies)
        && (|req.cookies| == 1 || OwnOnly(e.rules, req))
    case OnCookie(req) =>
      && e.delayCookie != 0 && GoodCookies(req.cookies) && |req.cookies| == 1
      && (Unused(e.rules, req.cookies[0]) || req.cookies[0] == e.delayCookie)
    case CookieGone(req) =>
      e.delayCookie != 0 && GoodCookies(req.cookies) && |req.cookies| == 1 && Unused(e.rules, req.cookies[0])
  }

  /** The slice, its counters and what the ONU acknowledged agree. */
  ghost predicate StockInv(flows: seq<Flow>, num: nat, configured: nat, installed: seq<Rule>) {
    && num == |flows| <= TABLE_SIZE
    && configured <= |flows|
    && StoreInv(flows)
    && installed == RulesOf(flows, configured)
  }

  ghost predicate EngineInv(e: Engine, installed: seq<Rule>) {
    match e
    case Engine(_, _, rules, _, _, numFlows, configured, slots, numFilters, _, _) =>
      && StockInv(rules, numFlows, configured, installed)
      && RemovalInv(rules, Active(e), Bound(e))
      && FilterInv(slots, numFilters, rules, Filtered(e))
      && Mode(e)
  }

  /** Between the two halves of a cleanup a woken add, or one that waits for a cookie, cannot find the deleted cookie
      in the store. */
  ghost predicate MidInv(e: Engine, add: Suspension) {
    MidCleanup(e) && !add.NoAdd? && !add.OnRule? && e.removes[0].cookie in add.req.cookies
    ==> Unused(e.rules, e.removes[0].cookie)
  }

  ghost predicate Live(w: World) {
    match w
    case World(fsm, add, installed) => EngineInv(fsm, installed) && AddInv(fsm, add) && MidInv(fsm, add)
  }

  /** Live and not stopped. */
  ghost predicate Sound(w: World) {
    match w
    case World(fsm, _, _) => Live(w) && !Dead(fsm)
  }

  ghost predicate Inv(w: World) {
    match w
    case World(fsm, _, _) => Dead(fsm) || Live(w)
  }

  // ---------------------------------------------------------------- searches in a well-formed store

  lemma {:induction false} FirstRuleIs(flows: seq<Flow>, i: nat)
    requires StoreInv(flows) && i < |flows|
    ensures FirstRule(flows, flows[i].rule) == i
  {
    var j := FirstRule(flows, flows[i].rule);
    assert j <= i;
  }

  lemma {:induction false} FirstCookieIs(flows: seq<Flow>, i: nat, c: Cookie)
    requires StoreInv(flows) && i < |flows| && c in flows[i].cookies
    ensures FirstCookie(flows, c) == i && FirstStop(flows, c) == i
  {
    forall j | 0 <= j < i ensures flows[j].cookies != [] && c !in flows[j].cookies {
      assert GoodCookies(flows[j].cookies) && Disjoint(flows[j].cookies, flows[i].cookies);
    }
  }

  // ---------------------------------------------------------------- filter list

  lemma {:induction false} ListedSame(a: Slots, b: Slots, n: nat, vid: bv16)
    requires n <= TABLE_SIZE && forall i | 0 <= i < n :: a[i] == b[i]
    ensures Listed(a, n, vid) == Listed(b, n, vid)
  {
    if n > 0 { ListedSame(a, b, n - 1, vid); }
  }

  lemma {:induction false} ListedShift(a: Slots, b: Slots, n: nat, pos: nat, vid: bv16)
    requires pos < n <= TABLE_SIZE
    requires forall i | 0 <= i < n - 1 :: b[i] == a[if i < pos then i else i + 1]
    ensures Listed(a, n, vid) == Listed(b, n - 1, vid) + if a[pos] == vid then 1 else 0
  {
    if pos == n - 1 { ListedSame(a, b, n - 1, vid); } else { ListedShift(a, b, n - 1, pos, vid); }
  }

  lemma {:induction false} ListedSome(a: Slots, n: nat, vid: bv16)
    requires n <= TABLE_SIZE
    ensures Listed(a, n, vid) > 0 <==> vid in a[..n]
  {
    if n > 0 {
      ListedSome(a, n - 1, vid);
      assert a[..n] == a[..n - 1] + [a[n - 1]];
    }
  }

  lemma {:induction false} AskedSame(a: seq<Flow>, b: seq<Flow>, k: nat, vid: bv16)
    requires k <= |a| && k <= |b| && forall i | 0 <= i < k :: a[i].rule == b[i].rule
    ensures Asked(a, k, vid) == Asked(b, k, vid) && Filters(a, k) == Filters(b, k)
  {
    if k > 0 { AskedSame(a, b, k - 1, vid); }
  }

  lemma {:induction false} AskedCut(flows: seq<Flow>, k: nat, i: nat, vid: bv16)
    requires i < k <= |flows|
    ensures var rule := flows[i].rule;
            && Asked(flows, k, vid) == Asked(Cut(flows, i), k - 1, vid) +
               (if !Transparent(rule) && rule.setVid == vid then 1 else 0)
            && Filters(flows, k) == Filters(Cut(flows, i), k - 1) + if Transparent(rule) then 0 else 1
  {
    if i == k - 1 {
      AskedSame(flows, Cut(flows, i), i, vid);
    } else {
      AskedCut(flows, k - 1, i, vid);
      assert Cut(flows, i)[k - 2] == flows[k - 1];
    }
  }

  lemma {:induction false} FilterSame(slots: Slots, n: nat, a: seq<Flow>, b: seq<Flow>, k: nat)
    requires FilterInv(slots, n, a, k) && k <= |b| && forall i | 0 <= i < k :: a[i].rule == b[i].rule
    ensures FilterInv(slots, n, b, k)
  {
    AskedSame(a, b, k, 0);
    forall vid: bv16 ensures Listed(slots, n, vid) == Asked(b, k, vid) { AskedSame(a, b, k, vid); }
  }

  lemma {:induction false} NextFilter(slots: Slots, n: Fill, flows: seq<Flow>, k: nat)
    requires FilterInv(slots, n, flows, k) && k < |flows| && k < TABLE_SIZE
    ensures n <= k
    ensures var rule := flows[k].rule;
            if Transparent(rule) then FilterInv(slots, n, flows, k + 1)
            else FilterInv(slots[n := rule.setVid], n + 1, flows, k + 1)
  {
    var slots', k', n' := slots[n := flows[k].rule.setVid], k + 1, n + 1;
    if !Transparent(flows[k].rule) {
      forall vid: bv16 ensures Listed(slots', n', vid) == Asked(flows, k', vid) {
        assert Listed(slots, n, vid) == Asked(flows, k, vid);
        ListedSame(slots, slots', n, vid);
      }
    } else {
      forall vid: bv16 ensures Listed(slots, n, vid) == Asked(flows, k', vid) {
        assert Listed(slots, n, vid) == Asked(flows, k, vid);
      }
    }
  }

  /** Taking an entry out keeps the others in their order; the slot behind the list is cleared, and what lies further behind
      stays. */
  lemma {:induction false} ShiftedIsCut(slots: Slots, n: nat, pos: nat)
    requires pos < n < TABLE_SIZE
    ensures Shifted(slots, n, pos)[..n - 1] == Cut(slots[..n], pos)
    ensures Shifted(slots, n, pos)[n - 1] == slots[n] && Shifted(slots, n, pos)[n] == 0
    ensures forall i | n < i < TABLE_SIZE :: Shifted(slots, n, pos)[i] == slots[i]
  {
  }

  lemma {:induction false} FilterCutVid(slots: Slots, n: Fill, flows: seq<Flow>, k: nat, i: nat)
    requires FilterInv(slots, n, flows, k) && i < k && n < TABLE_SIZE && !Transparent(flows[i].rule)
    ensures var p := FirstIndex(slots[..n], flows[i].rule.setVid);
            && p < n
            && (n == 1 ==> slots[0] == flows[i].rule.setVid && Shifted(slots, n, p) == slots[0 := 0])
            && FilterInv(Shifted(slots, n, p), n - 1, Cut(flows, i), k - 1)
  {
    var vid0 := flows[i].rule.setVid;
    AskedCut(flows, k, i, vid0);
    ListedSome(slots, n, vid0);
    var p := FirstIndex(slots[..n], vid0);
    var slots', flows', m := Shifted(slots, n, p), Cut(flows, i), n - 1;
    forall vid: bv16 ensures Listed(slots', m, vid) == Asked(flows', k - 1, vid) {
      AskedCut(flows, k, i, vid);
      ListedShift(slots, slots', n, p, vid);
    }
  }

  lemma {:induction false} FilterCutNone(slots: Slots, n: Fill, flows: seq<Flow>, k: nat, i: nat)
    requires FilterInv(slots, n, flows, k) && i < k && Transparent(flows[i].rule)
    ensures FilterInv(slots, n, Cut(flows, i), k - 1)
  {
    AskedCut(flows, k, i, 0);
    forall vid: bv16 ensures Listed(slots, n, vid) == Asked(Cut(flows, i), k - 1, vid) {
      AskedCut(flows, k, i, vid);
    }
  }

  /** Taking out an installed rule always finds its VID; the list with a single entry holds just that VID. */
  lemma {:induction false} FilterCut(e: Engine, flows: seq<Flow>, k: nat, i: nat)
    requires FilterInv(e.slots, e.numFilters, flows, k) && i < k
    requires e.numFilters < TABLE_SIZE || Transparent(flows[i].rule)
    ensures var e1 := CutFilter(e, flows[i].rule);
            FilterInv(e1.slots, e1.numFilters, Cut(flows, i), k - 1)
                && e1 == e.(slots := e1.slots, numFilters := e1.numFilters)
  {
    if Transparent(flows[i].rule) {
      FilterCutNone(e.slots, e.numFilters, flows, k, i);
    } else {
      FilterCutVid(e.slots, e.numFilters, flows, k, i);
    }
  }

  // ---------------------------------------------------------------- flow store

  lemma {:induction false} StoreAppend(flows: seq<Flow>, req: Request)
    requires StoreInv(flows) && FirstRule(flows, req.rule) == |flows| && GoodCookies(req.cookies)
    requires forall c | c in req.cookies :: Unused(flows, c)
    ensures StoreInv(flows + [Flow(req.rule, req.cookies)])
  {
  }

  lemma {:induction false} StoreWithCookies(flows: seq<Flow>, f: nat, more: seq<Cookie>)
    requires StoreInv(flows) && f < |flows| && NoDup(more) && 0 !in more
    requires forall c | c in more :: Unused(flows, c)
    ensures StoreInv(WithCookies(flows, f, more))
  {
    var all := flows[f].cookies + more;
    var flows' := WithCookies(flows, f, more);
    assert forall i | 0 <= i < |flows| && i != f :: flows'[i] == flows[i];
    assert forall c | c in all :: c in flows[f].cookies || c in more;
    assert NoDup(all) by {
      forall i, j | 0 <= i < j < |all| ensures all[i] != all[j] {
        assert GoodCookies(flows[f].cookies);
        if i < |flows[f].cookies| <= j { assert Unused(flows, all[j]); }
      }
    }
    forall i, j | 0 <= i < |flows| && 0 <= j < |flows| && i != j
      ensures Disjoint(flows'[i].cookies, flows'[j].cookies)
    {
      assert Disjoint(flows[i].cookies, flows[j].cookies);
    }
  }

  lemma {:induction false} StoreCut(flows: seq<Flow>, i: nat)
    requires StoreInv(flows) && i < |flows|
    ensures StoreInv(Cut(flows, i))
  {
    var cut := Cut(flows, i);
    assert forall j | 0 <= j < |cut| :: cut[j] == flows[if j < i then j else j + 1];
  }

  lemma {:induction false} StoreDropCookie(flows: seq<Flow>, i: nat, p: nat)
    requires StoreInv(flows) && i < |flows| && p < |flows[i].cookies| && |flows[i].cookies| > 1
    ensures StoreInv(flows[i := flows[i].(cookies := Cut(flows[i].cookies, p))])
    ensures forall c :: c in Cut(flows[i].cookies, p) <==> c in flows[i].cookies && c != flows[i].cookies[p]
  {
    var have := flows[i].cookies;
    var left := Cut(have, p);
    assert GoodCookies(have);
    assert forall q | 0 <= q < |left| :: left[q] == have[if q < p then q else q + 1];
    forall c | c in have && c != have[p] ensures c in left {
      var q :| 0 <= q < |have| && have[q] == c;
      assert left[if q < p then q else q - 1] == c;
    }
    var flows' := flows[i := flows[i].(cookies := left)];
    forall a, b | 0 <= a < |flows| && 0 <= b < |flows| && a != b
      ensures Disjoint(flows'[a].cookies, flows'[b].cookies)
    {
      assert Disjoint(flows[a].cookies, flows[b].cookies);
    }
  }

  lemma {:induction false} MissingIs(wanted: seq<Cookie>, have: seq<Cookie>)
    ensures forall c :: c in Missing(wanted, have) <==> c in wanted && c !in have
    ensures NoDup(wanted) ==> NoDup(Missing(wanted, have))
  {
    if wanted != [] {
      MissingIs(wanted[1..], have);
      assert wanted == [wanted[0]] + wanted[1..];
      if NoDup(wanted) {
        assert NoDup(wanted[1..]) && wanted[0] !in wanted[1..];
      }
    }
  }

  ghost predicate SameRules(a: seq<Flow>, b: seq<Flow>) {
    |a| == |b| && forall i | 0 <= i < |a| :: a[i].rule == b[i].rule
  }

  lemma {:induction false} FirstRuleSame(a: seq<Flow>, b: seq<Flow>, rule: Rule)
    requires SameRules(a, b)
    ensures FirstRule(a, rule) == FirstRule(b, rule)
  {
    var i, j := FirstRule(a, rule), FirstRule(b, rule);
    assert i < |a| ==> b[i].rule == rule;
    assert j < |b| ==> a[j].rule == rule;
  }

  lemma {:induction false} RemovalSameRules(flows: seq<Flow>, flows': seq<Flow>, removes: seq<Removal>, bound: nat)
    requires SameRules(flows, flows') && RemovalInv(flows, removes, bound)
    requires forall k, i | 0 <= k < |removes| && 0 <= i < |flows| ::
               removes[k].cookie in flows[i].cookies ==> removes[k].cookie in flows'[i].cookies
    ensures RemovalInv(flows', removes, bound)
  {
    forall k | 0 <= k < |removes| ensures Backed(flows', removes[k], bound) {
      assert Backed(flows, removes[k], bound);
      FirstRuleSame(flows, flows', removes[k].rule);
    }
  }

  lemma {:induction false} RemovalAppend(flows: seq<Flow>, x: Flow, removes: seq<Removal>, bound: nat)
    requires RemovalInv(flows, removes, bound)
    ensures RemovalInv(flows + [x], removes, bound)
  {
    forall k | 0 <= k < |removes| ensures Backed(flows + [x], removes[k], bound) {
      assert Backed(flows, removes[k], bound);
      var i, j := FirstRule(flows, removes[k].rule), FirstRule(flows + [x], removes[k].rule);
      assert (flows + [x])[i] == flows[i];
      assert j <= i;
      assert (flows + [x])[j] == flows[j];
    }
  }

  /** Another removal finds its flow one place further down, or where it was. */
  lemma {:induction false} BackedCut(flows: seq<Flow>, r: Removal, bound: nat, i: nat)
    requires i < bound <= |flows| && StoreInv(flows) && StoreInv(Cut(flows, i))
    requires Backed(flows, r, bound) && FirstRule(flows, r.rule) != i
    ensures Backed(Cut(flows, i), r, bound - 1)
  {
    var j := FirstRule(flows, r.rule);
    FirstRuleIs(Cut(flows, i), if j < i then j else j - 1);
  }

  lemma {:induction false} RemovalCut(flows: seq<Flow>, removes: seq<Removal>, bound: nat, i: nat)
    requires StoreInv(flows) && RemovalInv(flows, removes, bound) && removes != []
    requires i == FirstRule(flows, removes[0].rule) && i < bound <= |flows|
    ensures StoreInv(Cut(flows, i)) && RemovalInv(Cut(flows, i), removes[1..], bound - 1)
  {
    StoreCut(flows, i);
    forall k | 0 <= k < |removes| - 1 ensures Backed(Cut(flows, i), removes[1..][k], bound - 1) {
      assert Backed(flows, removes[k + 1], bound);
      assert removes[0].rule != removes[k + 1].rule;
      BackedCut(flows, removes[k + 1], bound, i);
    }
  }

  lemma {:induction false} UnusedAfterCut(flows: seq<Flow>, i: nat)
    requires StoreInv(flows) && i < |flows|
    ensures forall c | Unused(flows, c) || c in flows[i].cookies :: Unused(Cut(flows, i), c)
    ensures forall req | OwnOnly(flows, req) :: OwnOnly(Cut(flows, i), req)
  {
    var cut := Cut(flows, i);
    assert forall j | 0 <= j < |cut| :: cut[j] == flows[if j < i then j else j + 1];
    forall c | Unused(flows, c) || c in flows[i].cookies ensures Unused(cut, c) {
      forall j | 0 <= j < |cut| ensures c !in cut[j].cookies {
        var k := if j < i then j else j + 1;
        assert Disjoint(flows[i].cookies, flows[k].cookies);
      }
    }
  }

  // ---------------------------------------------------------------- state entries keep the invariant

  /** The invariant without its state-dependent part, as it holds on entry to ConfigDone. */
  ghost predicate Base(e: Engine, installed: seq<Rule>) {
    match e
    case Engine(_, _, rules, removes, _, numFlows, configured, slots, numFilters, _, _) =>
      && StockInv(rules, numFlows, configured, installed)
      && RemovalInv(rules, removes, configured)
      && FilterInv(slots, numFilters, rules, configured)
  }

  ghost predicate SameStore(a: Engine, b: Engine) {
    a.rules == b.rules && a.removes == b.removes && a.delayCookie == b.delayCookie
  }

  lemma {:induction false} NoRemovals(flows: seq<Flow>, bound: nat)
    ensures RemovalInv(flows, [], bound)
  {
  }

  lemma {:induction false} VtfdKeeps(e: Engine, installed: seq<Rule>)
    requires e.state == ConfigVtfd && Base(e, installed)
    requires e.configured == 0 && |e.rules| > 0 && e.actual.rule == e.rules[0].rule && e.removes == []
    ensures var e1 := EnterConfigVtfd(e);
            EngineInv(e1, installed) && SameStore(e1, e) && (e1.state.ConfigVtfd? || e1.state.ConfigEvtocd?)
  {
    NextFilter(e.slots, e.numFilters, e.rules, 0);
    NoRemovals(e.rules, e.configured + 1);
  }

  /** What a step that leaves the store alone keeps. */
  ghost predicate Kept(e: Engine, e1: Engine, installed: seq<Rule>) {
    match e1
    case Engine(state, _, _, _, _, _, _, _, _, _, _) =>
      EngineInv(e1, installed) && SameStore(e1, e) && !Dead(e1) && !state.CleanupDone?
  }

  lemma {:induction false} StartingKeeps(e: Engine, installed: seq<Rule>, tpDone: bool)
    requires e.state == ConfigDone && Base(e, installed)
    requires e.configured == 0 && |e.rules| > 0 && e.removes == []
    ensures Kept(e, EnterStarting(Moved(e, EvRenew), tpDone), installed)
  {
    var e1 := e.(state := Starting, actual := e.rules[0], tpWaitingFor := e.rules[0].rule.tpId);
    if tpDone {
      VtfdKeeps(Moved(e1, EvStartConfig), installed);
    }
  }

  lemma {:induction false} IncrEntryKeeps(e: Engine, installed: seq<Rule>)
    requires e.state == ConfigIncrFlow && 0 < e.configured < |e.rules|
    requires StockInv(e.rules, e.numFlows, e.configured, installed)
    requires RemovalInv(e.rules, e.removes, e.configured + 1)
    requires FilterInv(e.slots, e.numFilters, e.rules, e.configured)
    requires e.actual.rule == e.rules[e.configured].rule
    ensures var e1 := EnterConfigIncrFlow(e);
            EngineInv(e1, installed) && SameStore(e1, e) && e1.state == ConfigIncrFlow
  {
    NextFilter(e.slots, e.numFilters, e.rules, e.configured);
    var e1 := EnterConfigIncrFlow(e);
    assert FilterInv(e1.slots, e1.numFilters, e1.rules, Filtered(e1));
  }

  lemma {:induction false} IncrementKeeps(e: Engine, installed: seq<Rule>, tpDone: bool)
    requires e.state == ConfigDone && Base(e, installed) && 0 < e.configured < |e.rules| && e.removes == []
    ensures Kept(e, StartIncrement(e, tpDone), installed)
  {
    var next := e.rules[e.configured];
    var e1 := e.(actual := next, tpWaitingFor := next.rule.tpId);
    NoRemovals(e.rules, e.configured + 1);
    if tpDone {
      IncrEntryKeeps(Moved(e1, EvIncrFlowConfig), installed);
    }
  }

  lemma {:induction false} RemovalStarts(e: Engine, installed: seq<Rule>)
    requires Base(e, installed) && e.removes != []
    ensures EngineInv(e.(state := RemoveFlow), installed)
  {
  }

  lemma {:induction false} RemoveFlowEntryKeeps(e: Engine, installed: seq<Rule>)
    requires e.state == ConfigDone && Base(e, installed) && e.removes != []
    ensures Kept(e, EnterRemoveFlow(Moved(e, EvRemFlowConfig)), installed)
  {
    RemovalStarts(e, installed);
    assert EnterRemoveFlow(Moved(e, EvRemFlowConfig)) == e.(state := RemoveFlow);
  }

  lemma {:induction false} RestKeeps(e: Engine, installed: seq<Rule>)
    requires e.state == ConfigDone && Base(e, installed) && e.removes == [] && e.numFlows <= e.configured
    ensures Kept(e, e, installed)
  {
  }

  lemma {:induction false} DoneKeeps(e: Engine, installed: seq<Rule>, tpDone: bool)
    requires e.state == ConfigDone && Base(e, installed)
    ensures Kept(e, EnterConfigDone(e, tpDone), installed)
  {
    if e.removes != [] {
      RemoveFlowEntryKeeps(e, installed);
    } else if e.numFlows > e.configured {
      if e.configured == 0 {
        StartingKeeps(e, installed, tpDone);
      } else {
        IncrementKeeps(e, installed, tpDone);
      }
    } else {
      RestKeeps(e, installed);
    }
  }
}
