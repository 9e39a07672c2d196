/**
  The tagging table of the ONU over whole runs of the VLAN engine: after every run the table holds exactly the
  rows of the installed rules, on top of what it held before.
*/
module EvtocdTable {
  import opened Words
  import opened VlanModel
  import opened VlanRuns
  import opened VlanSteps
  import opened VlanTheorems
  import opened Evtocd

  /** Rows are sent with the acknowledged EVTOCD exchange and withdrawn with the acknowledged removal. */
  function TableNext(w: World, s: Step, table: Table): Table {
    var e := w.fsm;
    if s.EvtocdAck? && (e.state.ConfigEvtocd? || e.state.ConfigIncrFlow?) then
      Install(e.incremental, table, e.actual.rule)
    else if s.RemoveAck? && e.state.RemoveFlow? && e.removes != [] then
      Withdraw(e.incremental, e.configured, table, e.removes[0].rule)
    else table
  }

  function TableRun(w: World, steps: seq<Step>, table: Table): Table
    decreases |steps|
  {
    if steps == [] then table else TableRun(Next(w, steps[0]), steps[1..], TableNext(w, steps[0], table))
  }

  predicate Simple(r: Rule) {
    InRange(r) && !Transparent(r) && r.innerCvlan == OFPVID_NONE
  }

  /** Stored rules are single-tagged and match on different filter words, none of them used by `base`. */
  ghost predicate Clean(flows: seq<Flow>, base: Table) {
    && (forall i | 0 <= i < |flows| :: Simple(flows[i].rule) && SingleKey(flows[i].rule) !in base)
    && (forall i, j | 0 <= i < j < |flows| :: SingleKey(flows[i].rule) != SingleKey(flows[j].rule))
  }

  ghost predicate CleanRun(w: World, steps: seq<Step>, base: Table)
    decreases |steps|
  {
    Clean(w.fsm.rules, base) && (steps != [] ==> CleanRun(Next(w, steps[0]), steps[1..], base))
  }

  /** The table that holds `base` and one row for each of the rules. */
  function RowsOf(base: Table, rules: seq<Rule>): Table {
    if rules == [] then base
    else var last := rules[|rules| - 1];
         RowsOf(base, rules[..|rules| - 1])[SingleKey(last) := SingleTreat(last)]
  }

  ghost predicate CleanRules(rules: seq<Rule>, base: Table) {
    && (forall i | 0 <= i < |rules| :: SingleKey(rules[i]) !in base)
    && (forall i, j | 0 <= i < j < |rules| :: SingleKey(rules[i]) != SingleKey(rules[j]))
  }

  /** What the table of rows means, key by key. */
  lemma {:induction false} RowsMeaning(base: Table, rules: seq<Rule>, key: Match)
    requires CleanRules(rules, base)
    ensures key in RowsOf(base, rules) <==> key in base || exists i :: 0 <= i < |rules| && SingleKey(rules[i]) == key
    ensures key in base ==> RowsOf(base, rules)[key] == base[key]
    ensures forall i | 0 <= i < |rules| && SingleKey(rules[i]) == key ::
            RowsOf(base, rules)[key] == SingleTreat(rules[i])
  {
    if rules != [] {
      var front := rules[..|rules| - 1];
      assert forall i | 0 <= i < |front| :: front[i] == rules[i];
      RowsMeaning(base, front, key);
      if key in RowsOf(base, rules) && key !in base {
        if key != SingleKey(rules[|rules| - 1]) {
          var i :| 0 <= i < |front| && SingleKey(front[i]) == key;
          assert SingleKey(rules[i]) == key;
        }
      }
    }
  }

  lemma {:induction false} RowsAbsent(base: Table, rules: seq<Rule>, key: Match)
    requires key !in base && forall i | 0 <= i < |rules| :: SingleKey(rules[i]) != key
    ensures key !in RowsOf(base, rules)
  {
    if rules != [] { RowsAbsent(base, rules[..|rules| - 1], key); }
  }

  lemma {:induction false} RowsAppend(base: Table, rules: seq<Rule>, r: Rule)
    ensures RowsOf(base, rules + [r]) == RowsOf(base, rules)[SingleKey(r) := SingleTreat(r)]
  {
    assert (rules + [r])[..|rules|] == rules;
  }

  lemma {:induction false} DropAfterSet(m: Table, k: Match, t: Treat)
    requires k !in m
    ensures m[k := t] - {k} == m
  {
  }

  lemma {:induction false} DropOther(m: Table, k: Match, t: Treat, other: Match)
    requires k != other
    ensures (m - {other})[k := t] == m[k := t] - {other}
  {
  }

  lemma {:induction false} RowsCut(base: Table, rules: seq<Rule>, i: nat)
    requires CleanRules(rules, base) && i < |rules|
    ensures RowsOf(base, Cut(rules, i)) == RowsOf(base, rules) - {SingleKey(rules[i])}
  {
    var n := |rules| - 1;
    var front, last := rules[..n], rules[n];
    if i == n {
      assert Cut(rules, i) == front;
      RowsAbsent(base, front, SingleKey(last));
      DropAfterSet(RowsOf(base, front), SingleKey(last), SingleTreat(last));
    } else {
      assert Cut(rules, i) == Cut(front, i) + [last];
      RowsAppend(base, Cut(front, i), last);
      RowsCut(base, front, i);
      DropOther(RowsOf(base, front), SingleKey(last), SingleTreat(last), SingleKey(rules[i]));
    }
  }

  // ---------------------------------------------------------------- one step

  lemma {:induction false} InstalledAreClean(flows: seq<Flow>, num: nat, configured: nat, installed: seq<Rule>,
                                             base: Table)
    requires StockInv(flows, num, configured, installed) && Clean(flows, base)
    ensures CleanRules(installed, base) && forall i | 0 <= i < |installed| :: Simple(installed[i])
  {
  }

  lemma {:induction false} WithdrawIs(table: Table, r: Rule, configured: nat)
    requires Simple(r)
    ensures Withdraw(true, configured, table, r) == table - {SingleKey(r)}
    ensures Install(true, table, r) == table[SingleKey(r) := SingleTreat(r)]
  {
    SingleRoundTrip(table, r, configured);
    SetOne(table, Row(SingleKey(r), Delete));
  }

  lemma {:induction false} AckInstalls(w: World, table: Table, base: Table, tpDone: bool)
    requires Live(w) && w.fsm.incremental && Clean(w.fsm.rules, base) && table == RowsOf(base, w.installed)
    ensures TableNext(w, EvtocdAck(tpDone), table) == RowsOf(base, Raw(w, EvtocdAck(tpDone)).installed)
  {
    var e := w.fsm;
    if e.state.ConfigEvtocd? || e.state.ConfigIncrFlow? {
      assert e.actual.rule == e.rules[e.configured].rule;
      WithdrawIs(table, e.actual.rule, 0);
      RowsAppend(base, w.installed, e.actual.rule);
    }
  }

  lemma {:induction false} RowsUninstall(base: Table, installed: seq<Rule>, r: Rule)
    requires CleanRules(installed, base) && r in installed
    ensures RowsOf(base, Uninstall(installed, r)) == RowsOf(base, installed) - {SingleKey(r)}
  {
    RowsCut(base, installed, FirstIndex(installed, r));
  }

  lemma {:induction false} RemovalUninstalls(w: World, tpDone: bool)
    requires Live(w) && w.fsm.state.RemoveFlow? && !OverrunsFilters(w.fsm)
    ensures w.fsm.removes[0].rule in w.installed
    ensures exists i :: 0 <= i < |w.fsm.rules| && w.fsm.rules[i].rule == w.fsm.removes[0].rule
    ensures AfterRemoval(w, tpDone).installed == Uninstall(w.installed, w.fsm.removes[0].rule)
  {
    RemovedIsInstalled(w.fsm, w.installed);
    LiveRemovalIs(w, tpDone);
    var i := FirstRule(w.fsm.rules, w.fsm.removes[0].rule);
    assert w.installed[i] == w.fsm.removes[0].rule;
  }

  lemma {:induction false} AckWithdraws(w: World, table: Table, base: Table, tpDone: bool)
    requires Live(w) && w.fsm.incremental && Clean(w.fsm.rules, base) && table == RowsOf(base, w.installed)
    requires w.fsm.state.RemoveFlow? && !OverrunsFilters(w.fsm)
    ensures TableNext(w, RemoveAck(tpDone), table) == RowsOf(base, AfterRemoval(w, tpDone).installed)
  {
    var r := w.fsm.removes[0].rule;
    RemovalUninstalls(w, tpDone);
    InstalledAreClean(w.fsm.rules, w.fsm.numFlows, w.fsm.configured, w.installed, base);
    RowsUninstall(base, w.installed, r);
    WithdrawIs(table, r, w.fsm.configured);
  }

  lemma {:induction false} OthersKeepInstalled(w: World, s: Step)
    requires !s.EvtocdAck? && !(s.RemoveAck? && w.fsm.state.RemoveFlow? && w.fsm.removes != [])
    ensures Raw(w, s).installed == w.installed && forall table :: TableNext(w, s, table) == table
  {
  }

  lemma {:induction false} TableRaw(w: World, s: Step, table: Table, base: Table)
    requires Live(w) && !Panics(w, s)
    requires w.fsm.incremental && Clean(w.fsm.rules, base) && table == RowsOf(base, w.installed)
    ensures TableNext(w, s, table) == RowsOf(base, Raw(w, s).installed)
  {
    match s
    case EvtocdAck(tpDone) => AckInstalls(w, table, base, tpDone);
    case RemoveAck(tpDone) => RemoveAckTable(w, table, base, tpDone);
    case _ => OthersKeepInstalled(w, s);
  }

  lemma {:induction false} RemoveAckTable(w: World, table: Table, base: Table, tpDone: bool)
    requires Live(w) && !OverrunsFilters(w.fsm)
    requires w.fsm.incremental && Clean(w.fsm.rules, base) && table == RowsOf(base, w.installed)
    ensures TableNext(w, RemoveAck(tpDone), table) == RowsOf(base, Raw(w, RemoveAck(tpDone)).installed)
  {
    if w.fsm.state.RemoveFlow? && w.fsm.removes != [] {
      AckWithdraws(w, table, base, tpDone);
      RemoveAckIs(w, tpDone);
    } else {
      OthersKeepInstalled(w, RemoveAck(tpDone));
    }
  }

  lemma {:induction false} TableStep(w: World, s: Step, table: Table, base: Table)
    requires Live(w) && !Panics(w, s)
    requires w.fsm.incremental && Clean(w.fsm.rules, base) && table == RowsOf(base, w.installed)
    ensures TableNext(w, s, table) == RowsOf(base, Next(w, s).installed)
  {
    TableRaw(w, s, table, base);
    SettledIs(Raw(w, s));
  }

  lemma {:induction false} IncrementalDone(e: Engine, tpDone: bool)
    requires e.state.ConfigDone?
    ensures EnterConfigDone(e, tpDone).incremental == e.incremental
  {
  }

  lemma {:induction false} IncrementalAppend(e: Engine, req: Request, tpDone: bool)
    ensures AppendFlow(e, req, tpDone).0.incremental == e.incremental
  {
  }

  lemma {:induction false} IncrementalStore(e: Engine, req: Request, tpDone: bool)
    ensures StoreFlow(e, req, tpDone).0.incremental == e.incremental
  {
    IncrementalAppend(e, req, tpDone);
  }

  lemma {:induction false} IncrementalRevise(e: Engine, req: Request, tpDone: bool)
    requires |req.cookies| == 1
    ensures ReviseFlow(e, req, tpDone).0.incremental == e.incremental
  {
    IncrementalAppend(e.(delayCookie := 0), req, tpDone);
  }

  lemma {:induction false} IncrementalRemove(e: Engine, c: Cookie, tpDone: bool)
    ensures RemoveCookie(e, c, tpDone).incremental == e.incremental
  {
    var cut := CutFlow(e, c, false);
    if e.state.WaitingTechProf? && cut.Found? {
      IncrementalDone(Moved(cut.engine, EvCancelOutstandingConfig), tpDone);
    }
  }

  lemma {:induction false} IncrementalAck(e: Engine, tpDone: bool)
    ensures e.state.ConfigEvtocd? || e.state.ConfigIncrFlow? ==> EvtocdAcked(e, tpDone).incremental == e.incremental
    ensures e.state.CleanupDone? && e.removes != [] ==> FinishCleanup(e, tpDone).incremental == e.incremental
  {
    if e.state.ConfigEvtocd? || e.state.ConfigIncrFlow? {
      IncrementalDone(Moved(e.(configured := Inc8(e.configured)), EvRxConfigEvtocd), tpDone);
    } else if e.state.CleanupDone? && e.removes != [] {
      IncrementalDone(Moved(e.(removes := e.removes[1..]), EvFlowDataRemoved), tpDone);
    }
  }

  lemma {:induction false} IncrementalCleanup(e: Engine, tpDone: bool)
    requires e.state.CleanupDone? && e.removes != []
    ensures StartCleanup(e, tpDone).incremental == e.incremental
  {
    var cut := CutFlow(e, e.removes[0].cookie, true);
    if cut.Found? { IncrementalAck(cut.engine, tpDone); }
  }

  lemma {:induction false} IncrementalRemoval(e: Engine, tpDone: bool)
    requires e.state.RemoveFlow? && e.removes != []
    ensures RemovalAcked(e, tpDone).incremental == e.incremental
  {
    var e1 := CutFilter(e, e.removes[0].rule);
    CutFilterState(e, e.removes[0].rule);
    if !e1.state.Crashed? { IncrementalCleanup(Moved(e1, EvRemFlowDone), tpDone); }
  }

  lemma {:induction false} IncrementalRaw(w: World, s: Step)
    ensures Raw(w, s).fsm.incremental == w.fsm.incremental
  {
    var e := w.fsm;
    match s
    case Add(req, tpDone) => IncrementalStore(e, req, tpDone);
    case ResumeAdd(tpDone) =>
      if w.add.RuleGone? { IncrementalStore(e, w.add.req, tpDone); }
      if w.add.CookieGone? && |w.add.req.cookies| == 1 { IncrementalRevise(e, w.add.req, tpDone); }
    case Remove(c, tpDone) => IncrementalRemove(e, c, tpDone);
    case RemoveAck(tpDone) =>
      if e.state.RemoveFlow? && e.removes != [] {
        IncrementalRemoval(e, tpDone);
        RemoveAckIs(w, tpDone);
      }
    case EvtocdAck(tpDone) => IncrementalAck(e, tpDone);
    case CleanupRest(tpDone) => IncrementalAck(e, tpDone);
    case _ =>
  }

  lemma {:induction false} IncrementalStays(w: World, s: Step)
    ensures Next(w, s).fsm.incremental == w.fsm.incremental
  {
    IncrementalRaw(w, s);
    SettledIs(Raw(w, s));
  }

  /** With incremental rows: after every admissible run the table holds exactly the rows of the installed rules. */
  lemma {:induction false} TableIsInstalled(w: World, steps: seq<Step>, table: Table, base: Table)
    requires Sound(w) && w.fsm.incremental && table == RowsOf(base, w.installed)
    requires AdmissibleRun(w, steps) && !HasReset(steps) && !PanicsSomewhere(w, steps) && CleanRun(w, steps, base)
    ensures TableRun(w, steps, table) == RowsOf(base, Run(w, steps).installed)
    decreases |steps|
  {
    if steps != [] {
      TableStep(w, steps[0], table, base);
      StepStaysLive(w, steps[0]);
      IncrementalStays(w, steps[0]);
      TableIsInstalled(Next(w, steps[0]), steps[1..], TableNext(w, steps[0], table), base);
    }
  }

  lemma {:induction false} CleanAtEnd(w: World, steps: seq<Step>, base: Table)
    requires CleanRun(w, steps, base)
    ensures Clean(Run(w, steps).fsm.rules, base)
    decreases |steps|
  {
    if steps != [] { CleanAtEnd(Next(w, steps[0]), steps[1..], base); }
  }

  /** From the creation of the engine on: the installed rules match on different new keys, and the table holds their
      rows. */
  lemma {:induction false} RowsAfterRun(req: Request, tpDone: bool, steps: seq<Step>, base: Table)
    requires GoodCookies(req.cookies)
    requires var w := Begin(true, req, tpDone);
             AdmissibleRun(w, steps) && !HasReset(steps) && !PanicsSomewhere(w, steps) && CleanRun(w, steps, base)
    ensures var w := Begin(true, req, tpDone);
            && TableRun(w, steps, base) == RowsOf(base, Run(w, steps).installed)
            && CleanRules(Run(w, steps).installed, base)
            && forall i | 0 <= i < |Run(w, steps).installed| :: Simple(Run(w, steps).installed[i])
  {
    var w := Begin(true, req, tpDone);
    BeginIsLive(true, req, tpDone);
    BeginIncremental(req, tpDone);
    TableIsInstalled(w, steps, base, base);
    CrashIff(w, steps);
    CleanAtEnd(w, steps, base);
    var w1 := Run(w, steps);
    InstalledAreClean(w1.fsm.rules, w1.fsm.numFlows, w1.fsm.configured, w1.installed, base);
  }

  /** The same from the creation of the engine on, key by key: a row is in the table if and only if it was there
      before or belongs to an installed rule, and it carries the treatment of that rule. */
  lemma {:induction false} TableAfterRun(req: Request, tpDone: bool, steps: seq<Step>, base: Table, key: Match)
    requires GoodCookies(req.cookies)
    requires var w := Begin(true, req, tpDone);
             AdmissibleRun(w, steps) && !HasReset(steps) && !PanicsSomewhere(w, steps) && CleanRun(w, steps, base)
    ensures var w := Begin(true, req, tpDone);
            var installed, table := Run(w, steps).installed, TableRun(w, steps, base);
            && (key in table <==> key in base || exists i :: 0 <= i < |installed| && SingleKey(installed[i]) == key)
            && (key in base ==> table[key] == base[key])
            && forall i | 0 <= i < |installed| && SingleKey(installed[i]) == key ::
               table[key] == SingleTreat(installed[i])
  {
    RowsAfterRun(req, tpDone, steps, base);
    RowsMeaning(base, Run(Begin(true, req, tpDone), steps).installed, key);
  }

  lemma {:induction false} BeginIncremental(req: Request, tpDone: bool)
    ensures Begin(true, req, tpDone).fsm.incremental
  {
  }
}
