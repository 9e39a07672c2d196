/**
  Value model of the UNI VLAN flow engine.

  An `Engine` holds the fields of the VLAN configuration state machine of one UNI; the functions below
  say what each lock section and each state entry does to it.  A decoupled event is delivered before the
  next step, so every function ends in a state that waits for the outside.  `Crashed` stands for a run-time
  panic (an index out of range); reaching it is never assumed away.
*/
module VlanModel {
  import opened Words

  const OFPVID_PRESENT: bv16 := 0x1000
  const OFPVID_NONE: bv16 := 0
  const PRIO_IGNORE_TAG: bv8 := 15
  const COPY_PRIO_FROM_INNER: bv8 := 8
  const TABLE_SIZE: nat := 64   // slots of the VLAN filter list, and the limit on stored flows

  type Cookie = nat
  type Fill = n: int | 0 <= n <= TABLE_SIZE
  type Slots = s: seq<bv16> | |s| == TABLE_SIZE witness seq(TABLE_SIZE, _ => 0)

  datatype Rule = Rule(matchVid: bv16, matchPcp: bv8, tagsToRemove: bv8,
                       setVid: bv16, setPcp: bv8, innerCvlan: bv16, tpId: bv8)
  datatype Flow = Flow(rule: Rule, cookies: seq<Cookie>)
  datatype Removal = Removal(rule: Rule, cookie: Cookie, suspendsAdd: bool)
  datatype Request = Request(rule: Rule, cookies: seq<Cookie>)

  predicate Transparent(rule: Rule) {
    rule.setVid == OFPVID_PRESENT
  }

  /** The adjustments that an add request goes through before it is compared with the stored rules. */
  function Normalize(incremental: bool, tpId: bv8, matchVlan: bv16, matchPcp: bv8,
                     setVlan: bv16, setPcp: bv8, innerCvlan: bv16): (rule: Rule)
    ensures rule.setVid == setVlan && rule.innerCvlan == innerCvlan && rule.tpId == tpId
    ensures Transparent(rule) || !incremental ==> rule.matchVid == OFPVID_PRESENT
    ensures rule.matchVid == OFPVID_PRESENT ==>
              rule.tagsToRemove == 0 && rule.matchPcp == PRIO_IGNORE_TAG && rule.setPcp != COPY_PRIO_FROM_INNER
    ensures rule.matchVid != OFPVID_PRESENT ==>
              rule == Rule(matchVlan, matchPcp, 1, setVlan, setPcp, innerCvlan, tpId)
  {
    var vid := if setVlan == OFPVID_PRESENT || !incremental then OFPVID_PRESENT else matchVlan;
    if vid == OFPVID_PRESENT then
      Rule(vid, PRIO_IGNORE_TAG, 0, setVlan, if setPcp == COPY_PRIO_FROM_INNER then 0 else setPcp, innerCvlan, tpId)
    else
      Rule(vid, matchPcp, 1, setVlan, setPcp, innerCvlan, tpId)
  }

  // ---------------------------------------------------------------- state machine table

  datatype FsmState =
    | Disabled | Preparing | Starting | WaitingTechProf | ConfigVtfd | ConfigEvtocd | ConfigDone
    | IncrFlowWaitTP | ConfigIncrFlow | RemoveFlow | CleanupDone | Resetting
    | Crashed

  datatype Event =
    | EvStart | EvPrepareDone | EvWaitTechProf | EvCancelOutstandingConfig | EvContinueConfig | EvStartConfig
    | EvRxConfigVtfd | EvRxConfigEvtocd | EvRenew | EvWaitTPIncr | EvIncrFlowConfig | EvRemFlowConfig
    | EvRemFlowDone | EvFlowDataRemoved | EvReset | EvRestart

  /** The source states of each event. */
  predicate Accepts(ev: Event, st: FsmState) {
    match ev
    case EvStart => st.Disabled?
    case EvPrepareDone => st.Preparing?
    case EvWaitTechProf => st.Starting?
    case EvCancelOutstandingConfig => st.WaitingTechProf?
    case EvContinueConfig => st.WaitingTechProf?
    case EvStartConfig => st.Starting?
    case EvRxConfigVtfd => st.ConfigVtfd?
    case EvRxConfigEvtocd => st.ConfigEvtocd? || st.ConfigIncrFlow?
    case EvRenew => st.ConfigDone?
    case EvWaitTPIncr => st.ConfigDone?
    case EvIncrFlowConfig => st.ConfigDone? || st.IncrFlowWaitTP?
    case EvRemFlowConfig => st.ConfigDone?
    case EvRemFlowDone => st.RemoveFlow?
    case EvFlowDataRemoved => st.CleanupDone?
    case EvReset => !(st.Disabled? || st.IncrFlowWaitTP? || st.Resetting? || st.Crashed?)
    case EvRestart => st.Resetting?
  }

  function Target(ev: Event): FsmState {
    match ev
    case EvStart => Preparing
    case EvPrepareDone => Starting
    case EvWaitTechProf => WaitingTechProf
    case EvCancelOutstandingConfig => ConfigDone
    case EvContinueConfig => ConfigVtfd
    case EvStartConfig => ConfigVtfd
    case EvRxConfigVtfd => ConfigEvtocd
    case EvRxConfigEvtocd => ConfigDone
    case EvRenew => Starting
    case EvWaitTPIncr => IncrFlowWaitTP
    case EvIncrFlowConfig => ConfigIncrFlow
    case EvRemFlowConfig => RemoveFlow
    case EvRemFlowDone => CleanupDone
    case EvFlowDataRemoved => ConfigDone
    case EvReset => Resetting
    case EvRestart => Disabled
  }

  // ---------------------------------------------------------------- engine state

  datatype Engine = Engine(
    state: FsmState,
    incremental: bool,
    rules: seq<Flow>,
    removes: seq<Removal>,
    actual: Flow,
    numFlows: uint8,
    configured: uint8,
    slots: Slots,
    numFilters: Fill,
    delayCookie: Cookie,
    tpWaitingFor: bv8)

  /** The transition of an event that the table accepts in the present state. */
  function Moved(e: Engine, ev: Event): Engine
    requires Accepts(ev, e.state)
  {
    e.(state := Target(ev))
  }

  // ---------------------------------------------------------------- searches

  function FirstRule(flows: seq<Flow>, rule: Rule): (i: nat)
    ensures i <= |flows|
    ensures i < |flows| ==> flows[i].rule == rule
    ensures forall j | 0 <= j < i :: flows[j].rule != rule
  {
    if flows == [] || flows[0].rule == rule then 0 else 1 + FirstRule(flows[1..], rule)
  }

  function FirstCookie(flows: seq<Flow>, c: Cookie): (i: nat)
    ensures i <= |flows|
    ensures i < |flows| ==> c in flows[i].cookies
    ensures forall j | 0 <= j < i :: c !in flows[j].cookies
  {
    if flows == [] || c in flows[0].cookies then 0 else 1 + FirstCookie(flows[1..], c)
  }

  /** Where the slice cut of a removal stops: at the cookie, or at an empty cookie list. */
  function FirstStop(flows: seq<Flow>, c: Cookie): (i: nat)
    ensures i <= |flows|
    ensures i < |flows| ==> flows[i].cookies == [] || c in flows[i].cookies
    ensures forall j | 0 <= j < i :: flows[j].cookies != [] && c !in flows[j].cookies
  {
    if flows == [] || flows[0].cookies == [] || c in flows[0].cookies then 0 else 1 + FirstStop(flows[1..], c)
  }

  function FirstRemoval(removes: seq<Removal>, rule: Rule): (i: nat)
    ensures i <= |removes|
    ensures i < |removes| ==> removes[i].rule == rule
    ensures forall j | 0 <= j < i :: removes[j].rule != rule
  {
    if removes == [] || removes[0].rule == rule then 0 else 1 + FirstRemoval(removes[1..], rule)
  }

  function FirstIndex<T(==)>(s: seq<T>, x: T): (i: nat)
    ensures i <= |s|
    ensures i < |s| ==> s[i] == x
    ensures forall j | 0 <= j < i :: s[j] != x
    ensures i < |s| <==> x in s
  {
    if s == [] || s[0] == x then 0 else 1 + FirstIndex(s[1..], x)
  }

  function Cut<T>(s: seq<T>, i: nat): seq<T>
    requires i < |s|
  {
    s[..i] + s[i + 1..]
  }

  /** The requested cookies that a rule does not have yet, in request order. */
  function Missing(wanted: seq<Cookie>, have: seq<Cookie>): seq<Cookie> {
    if wanted == [] then []
    else (if wanted[0] in have then [] else [wanted[0]]) + Missing(wanted[1..], have)
  }

  function WithCookies(flows: seq<Flow>, f: nat, more: seq<Cookie>): (r: seq<Flow>)
    requires f < |flows|
    ensures more == [] ==> r == flows
  {
    assert more == [] ==> flows[f].cookies + more == flows[f].cookies && flows[f := flows[f]] == flows;
    flows[f := flows[f].(cookies := flows[f].cookies + more)]
  }

  // ---------------------------------------------------------------- state entries

  function EnterConfigVtfd(e: Engine): Engine
    requires e.state == ConfigVtfd
  {
    var e1 := e.(tpWaitingFor := 0);
    if Transparent(e.actual.rule) then Moved(e1, EvRxConfigVtfd)
    else e1.(slots := e.slots[0 := e.actual.rule.setVid], numFilters := 1)
  }

  function EnterStarting(e: Engine, tpDone: bool): Engine
    requires e.state == Starting
  {
    if e.rules == [] then Moved(e, EvReset)
    else
      var e1 := e.(actual := e.rules[0], tpWaitingFor := e.rules[0].rule.tpId);
      if tpDone then EnterConfigVtfd(Moved(e1, EvStartConfig)) else Moved(e1, EvWaitTechProf)
  }

  function EnterConfigIncrFlow(e: Engine): Engine
    requires e.state == ConfigIncrFlow
  {
    var e1 := e.(tpWaitingFor := 0);
    if Transparent(e.actual.rule) then e1
    else if e.numFilters == TABLE_SIZE then e1.(state := Crashed)
    else e1.(slots := e.slots[e.numFilters := e.actual.rule.setVid], numFilters := e.numFilters + 1)
  }

  /** Takes the next flow that is not configured yet; the index is the configured counter. */
  function StartIncrement(e: Engine, tpDone: bool): Engine
    requires e.state == ConfigDone
  {
    if |e.rules| <= e.configured then e.(state := Crashed)
    else
      var next := e.rules[e.configured];
      var e1 := e.(actual := next, tpWaitingFor := next.rule.tpId);
      if tpDone then EnterConfigIncrFlow(Moved(e1, EvIncrFlowConfig)) else Moved(e1, EvWaitTPIncr)
  }

  function EnterRemoveFlow(e: Engine): Engine
    requires e.state == RemoveFlow
  {
    if e.removes == [] then e.(state := Crashed) else e
  }

  function EnterConfigDone(e: Engine, tpDone: bool): Engine
    requires e.state == ConfigDone
  {
    if e.removes != [] then EnterRemoveFlow(Moved(e, EvRemFlowConfig))
    else if e.numFlows > e.configured then
      if e.configured == 0 then EnterStarting(Moved(e, EvRenew), tpDone)
      else if |e.rules| < e.configured then Moved(e, EvReset)
      else StartIncrement(e, tpDone)
    else e
  }

  // ---------------------------------------------------------------- add requests

  datatype AddOutcome = Stored | Rejected | SuspendedOnRule | SuspendedOnCookie

  predicate DelayNeeded(e: Engine, cookies: seq<Cookie>) {
    && e.delayCookie == 0 && |cookies| == 1 && cookies[0] != 0
    && FirstCookie(e.rules, cookies[0]) < |e.rules|
  }

  function AppendFlow(e: Engine, req: Request, tpDone: bool): (Engine, AddOutcome) {
    if e.state.Resetting? || e.state.Disabled? || e.numFlows >= TABLE_SIZE then (e, Rejected)
    else if e.numFlows > |e.rules| then (e.(state := Crashed), Rejected)   // the new entry is read at this index
    else
      var e1 := e.(rules := e.rules + [Flow(req.rule, req.cookies)], numFlows := Inc8(e.numFlows));
      if e.state != ConfigDone then (e1, Stored)
      else if e.configured == 0 then (EnterStarting(Moved(e1, EvRenew), tpDone), Stored)
      else if |e1.rules| < e.configured then (e1, Rejected)
      else (StartIncrement(e1, tpDone), Stored)
  }

  /** The part of an add request that follows the check on pending removals. */
  function StoreFlow(e: Engine, req: Request, tpDone: bool): (Engine, AddOutcome) {
    var f := FirstRule(e.rules, req.rule);
    if f < |e.rules| && Missing(req.cookies, e.rules[f].cookies) == [] then (e, Stored)
    else if DelayNeeded(e, req.cookies) then (e.(delayCookie := req.cookies[0]), SuspendedOnCookie)
    else if f < |e.rules| then
      (e.(rules := WithCookies(e.rules, f, Missing(req.cookies, e.rules[f].cookies))), Stored)
    else AppendFlow(e, req, tpDone)
  }

  function AddFlow(e: Engine, req: Request, tpDone: bool): (Engine, AddOutcome) {
    var k := FirstRemoval(e.removes, req.rule);
    if k < |e.removes| then (e.(removes := e.removes[k := e.removes[k].(suspendsAdd := true)]), SuspendedOnRule)
    else StoreFlow(e, req, tpDone)
  }

  /** Continuation of an add that waited for its cookie to leave another rule. */
  function ReviseFlow(e: Engine, req: Request, tpDone: bool): (Engine, AddOutcome)
    requires |req.cookies| == 1
  {
    var e0 := e.(delayCookie := 0);
    var f := FirstRule(e.rules, req.rule);
    if f == |e.rules| then AppendFlow(e0, req, tpDone)
    else if req.cookies[0] in e.rules[f].cookies then (e0, Stored)
    else (e0.(rules := WithCookies(e.rules, f, req.cookies)), Stored)
  }

  // ---------------------------------------------------------------- removal requests

  datatype CutResult = NotFound | Found(engine: Engine)

  function CutFlow(e: Engine, c: Cookie, wasConfigured: bool): CutResult {
    var i := FirstStop(e.rules, c);
    if i == |e.rules| || e.rules[i].cookies == [] then NotFound
    else if |e.rules| <= 1 then Found(e.(rules := [], numFlows := 0, configured := 0))
    else Found(e.(rules := Cut(e.rules, i), numFlows := Dec8(e.numFlows),
                  configured := if wasConfigured && e.configured > 0 then e.configured - 1 else e.configured))
  }

  function RemoveRule(e: Engine, rule: Rule, c: Cookie, tpDone: bool): Engine {
    if e.state == WaitingTechProf then
      match CutFlow(e, c, false)
      case NotFound => Moved(e, EvReset)
      case Found(e1) => EnterConfigDone(Moved(e1, EvCancelOutstandingConfig), tpDone)
    else
      var e1 := e.(removes := e.removes + [Removal(rule, c, false)]);
      if e.state == ConfigDone then EnterRemoveFlow(Moved(e1, EvRemFlowConfig)) else e1
  }

  function RemoveCookie(e: Engine, c: Cookie, tpDone: bool): Engine {
    var i := FirstCookie(e.rules, c);
    if i == |e.rules| then e
    else if |e.rules[i].cookies| == 1 then RemoveRule(e, e.rules[i].rule, c, tpDone)
    else
      var left := Cut(e.rules[i].cookies, FirstIndex(e.rules[i].cookies, c));
      e.(rules := e.rules[i := e.rules[i].(cookies := left)],
         delayCookie := if e.delayCookie == c then left[0] else e.delayCookie)
  }

  // ---------------------------------------------------------------- answers of the ONU

  /** Filter list after the entry at `pos` was taken out of the first `n`. */
  function Shifted(slots: Slots, n: nat, pos: nat): Slots
    requires pos < n < TABLE_SIZE
  {
    seq(TABLE_SIZE, i requires 0 <= i < TABLE_SIZE =>
      if i < pos || n < i then slots[i] else if i < n then slots[i + 1] else 0)
  }

  function CutFilter(e: Engine, rule: Rule): Engine {
    if Transparent(rule) then e
    else if e.numFilters == 1 then e.(slots := e.slots[0 := 0], numFilters := 0)
    else
      var p := FirstIndex(e.slots[..e.numFilters], rule.setVid);
      if p == e.numFilters then e
      else if e.numFilters == TABLE_SIZE then e.(state := Crashed)
      else e.(slots := Shifted(e.slots, e.numFilters, p), numFilters := e.numFilters - 1)
  }

  /** Second part of the cleanup: drop the processed removal and look for more work. */
  function FinishCleanup(e: Engine, tpDone: bool): Engine
    requires e.state == CleanupDone && e.removes != []
  {
    EnterConfigDone(Moved(e.(removes := e.removes[1..]), EvFlowDataRemoved), tpDone)
  }

  /** First part of the cleanup: the flow leaves the slice.  An add that waits for this removal is woken
      before the removal entry is dropped. */
  function StartCleanup(e: Engine, tpDone: bool): Engine
    requires e.state == CleanupDone && e.removes != []
  {
    match CutFlow(e, e.removes[0].cookie, true)
    case NotFound => Moved(e, EvReset)
    case Found(e1) => if e.removes[0].suspendsAdd then e1 else FinishCleanup(e1, tpDone)
  }

  /** VTFD and EVTOCD removal acknowledged (or skipped): the filter list and the flow slice shrink. */
  function RemovalAcked(e: Engine, tpDone: bool): Engine
    requires e.state == RemoveFlow && e.removes != []
  {
    var e1 := CutFilter(e, e.removes[0].rule);
    if e1.state == Crashed then e1 else StartCleanup(Moved(e1, EvRemFlowDone), tpDone)
  }

  lemma {:induction false} CutFilterState(e: Engine, rule: Rule)
    ensures var e1 := CutFilter(e, rule);
            (e1.state == e.state || e1.state.Crashed?) && e1 ==
                e.(state := e1.state, slots := e1.slots, numFilters := e1.numFilters)
  {
  }

  lemma {:induction false} AckStartsCleanup(e: Engine, tpDone: bool)
    requires e.state.RemoveFlow? && e.removes != [] && CutFilter(e, e.removes[0].rule).state == e.state
    ensures CutFilter(e, e.removes[0].rule).removes == e.removes
    ensures RemovalAcked(e, tpDone) == StartCleanup(CutFilter(e, e.removes[0].rule).(state := CleanupDone), tpDone)
  {
  }

  function EvtocdAcked(e: Engine, tpDone: bool): Engine
    requires e.state.ConfigEvtocd? || e.state.ConfigIncrFlow?
  {
    EnterConfigDone(Moved(e.(configured := Inc8(e.configured)), EvRxConfigEvtocd), tpDone)
  }

  function TechProfReady(e: Engine, tpId: bv8): Engine {
    if e.tpWaitingFor != tpId then e
    else if e.state == WaitingTechProf then EnterConfigVtfd(Moved(e, EvContinueConfig))
    else if e.state == IncrFlowWaitTP then EnterConfigIncrFlow(Moved(e, EvIncrFlowConfig))
    else e
  }

  function ResetEngine(e: Engine): Engine {
    if Accepts(EvReset, e.state) then Moved(e, EvReset) else e
  }

  /** The engine right after it was created for its first flow and started. */
  function Created(incremental: bool, req: Request, tpDone: bool): Engine {
    var e := Engine(Disabled, incremental, [Flow(req.rule, req.cookies)], [], Flow(req.rule, req.cookies), 1, 0,
                    seq(TABLE_SIZE, _ => 0), 0, 0, 0);
    EnterStarting(Moved(Moved(e, EvStart), EvPrepareDone), tpDone)
  }
}
