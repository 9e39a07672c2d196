/**
  The tagging table over whole runs beyond the single-tagged incremental case: rules with an inner VLAN next to others, and
  ONUs without incremental rows.
*/
module EvtocdModes {
  import opened VlanModel
  import opened VlanRuns
  import opened VlanSteps
  import opened VlanTheorems
  import opened Evtocd
  import opened EvtocdFrames
  import opened EvtocdTable

  predicate Plain(r: Rule) {
    InRange(r) && !Transparent(r)
  }

  // ---------------------------------------------------------------- incremental rows, one or two tags

  /** The filter words under which a rule is withdrawn; with an inner VLAN they are not those of its row. */
  function WithdrawKey(r: Rule): Match {
    if r.innerCvlan == OFPVID_NONE then SingleKey(r) else DoubleDeleteKey(r)
  }

  /** The stored rules use different filter words, and none is withdrawn under the words of another. */
  ghost predicate Apart(flows: seq<Flow>) {
    && (forall i | 0 <= i < |flows| :: Plain(flows[i].rule))
    && (forall i, j | 0 <= i < |flows| && 0 <= j < |flows| && i != j ::
          OwnRow(flows[i].rule).key != OwnRow(flows[j].rule).key && WithdrawKey(flows[i].rule) != OwnRow(flows[j].rule).key)
  }

  ghost predicate ApartRun(w: World, steps: seq<Step>)
    decreases |steps|
  {
    Apart(w.fsm.rules) && (steps != [] ==> ApartRun(Next(w, steps[0]), steps[1..]))
  }

  predicate Served(table: Table, r: Rule) {
    match OwnRow(r)
    case Row(key, treat) => key in table && table[key] == treat
  }

  ghost predicate AllServed(table: Table, installed: seq<Rule>) {
    forall i | 0 <= i < |installed| :: Served(table, installed[i])
  }

  lemma {:induction false} InstallSets(table: Table, r: Rule)
    requires Plain(r)
    ensures Install(true, table, r) == table[OwnRow(r).key := OwnRow(r).treat]
  {
    RowsAreNotDeletes(r);
    SetOne(table, OwnRow(r));
  }

  lemma {:induction false} WithdrawDrops(table: Table, r: Rule, configured: nat)
    requires Plain(r)
    ensures Withdraw(true, configured, table, r) == table - {WithdrawKey(r)}
  {
    SetOne(table, Row(WithdrawKey(r), Delete));
  }

  lemma {:induction false} SnocServed(table: Table, flows: seq<Flow>, installed: seq<Rule>)
    requires Apart(flows) && AllServed(table, installed) && |installed| < |flows|
    requires forall j | 0 <= j < |installed| :: installed[j] == flows[j].rule
    ensures var r := flows[|installed|].rule; AllServed(Install(true, table, r), installed + [r])
  {
    var n := |installed|;
    var r := flows[n].rule;
    InstallSets(table, r);
    forall j | 0 <= j < n ensures Served(Install(true, table, r), installed[j]) {
      assert Served(table, installed[j]);
      assert OwnRow(flows[n].rule).key != OwnRow(flows[j].rule).key;
    }
  }

  lemma {:induction false} NextInstalled(w: World)
    requires Live(w) && (w.fsm.state.ConfigEvtocd? || w.fsm.state.ConfigIncrFlow?)
    ensures |w.installed| == w.fsm.configured < |w.fsm.rules| && w.fsm.actual.rule == w.fsm.rules[w.fsm.configured].rule
    ensures forall j | 0 <= j < |w.installed| :: w.installed[j] == w.fsm.rules[j].rule
  {
  }

  lemma {:induction false} InstalledServed(w: World, table: Table, tpDone: bool)
    requires Live(w) && w.fsm.incremental && Apart(w.fsm.rules) && AllServed(table, w.installed)
    ensures AllServed(TableNext(w, EvtocdAck(tpDone), table), Raw(w, EvtocdAck(tpDone)).installed)
  {
    if w.fsm.state.ConfigEvtocd? || w.fsm.state.ConfigIncrFlow? {
      NextInstalled(w);
      SnocServed(table, w.fsm.rules, w.installed);
    }
  }

  lemma {:induction false} CutServed(table: Table, flows: seq<Flow>, installed: seq<Rule>, i: nat)
    requires Apart(flows) && AllServed(table, installed) && |installed| <= |flows| && i < |installed|
    requires forall j | 0 <= j < |installed| :: installed[j] == flows[j].rule
    ensures AllServed(table - {WithdrawKey(installed[i])}, Cut(installed, i))
  {
    var left := table - {WithdrawKey(installed[i])};
    forall j | 0 <= j < |installed| && j != i ensures Served(left, installed[j]) {
      assert Served(table, installed[j]);
      assert WithdrawKey(flows[i].rule) != OwnRow(flows[j].rule).key;
    }
    assert forall j | 0 <= j < |Cut(installed, i)| :: Cut(installed, i)[j] == installed[if j < i then j else j + 1];
  }

  lemma {:induction false} WithdrawServed(w: World, table: Table, tpDone: bool)
    requires Live(w) && w.fsm.incremental && Apart(w.fsm.rules) && AllServed(table, w.installed)
    requires w.fsm.state.RemoveFlow? && !OverrunsFilters(w.fsm)
    ensures AllServed(TableNext(w, RemoveAck(tpDone), table), AfterRemoval(w, tpDone).installed)
  {
    var r := w.fsm.removes[0].rule;
    RemovalUninstalls(w, tpDone);
    var i := FirstIndex(w.installed, r);
    assert w.installed[i] == w.fsm.rules[i].rule;
    WithdrawDrops(table, r, w.fsm.configured);
    CutServed(table, w.fsm.rules, w.installed, i);
  }

  lemma {:induction false} StepServed(w: World, s: Step, table: Table)
    requires Live(w) && !Panics(w, s) && w.fsm.incremental && Apart(w.fsm.rules) && AllServed(table, w.installed)
    ensures AllServed(TableNext(w, s, table), Next(w, s).installed)
  {
    SettledIs(Raw(w, s));
    if s.EvtocdAck? {
      InstalledServed(w, table, s.tpDone);
    } else if s.RemoveAck? && w.fsm.state.RemoveFlow? && w.fsm.removes != [] {
      WithdrawServed(w, table, s.tpDone);
      RemoveAckIs(w, s.tpDone);
    } else {
      OthersKeepInstalled(w, s);
    }
  }

  lemma {:induction false} RunServed(w: World, steps: seq<Step>, table: Table)
    requires Sound(w) && w.fsm.incremental && AllServed(table, w.installed)
    requires AdmissibleRun(w, steps) && !HasReset(steps) && !PanicsSomewhere(w, steps) && ApartRun(w, steps)
    ensures AllServed(TableRun(w, steps, table), Run(w, steps).installed)
    decreases |steps|
  {
    if steps != [] {
      StepServed(w, steps[0], table);
      StepStaysLive(w, steps[0]);
      IncrementalStays(w, steps[0]);
      RunServed(Next(w, steps[0]), steps[1..], TableNext(w, steps[0], table));
    }
  }

  lemma {:induction false} ServedDouble(table: Table, r: Rule, f: Frame)
    requires Served(table, r) && InRange(r) && r.innerCvlan != OFPVID_NONE && r.tagsToRemove <= 1 && r.setVid < 4096
    requires SelectsDouble(r, f)
    ensures DoubleKey(r) in table && Matches(DoubleKey(r), f) && f != []
    ensures Apply(table[DoubleKey(r)], f) == Restacked(f, r.setVid as bv32, r.tagsToRemove != 0)
  {
    DoubleMatches(r, f);
    DoubleApplies(r, f);
  }

  /** After every run of plain rules, with one tag or two, that use different filter words: every installed rule has its own
      row, so a frame that an installed rule with an inner VLAN asks for leaves with the outer tag that the rule sets. */
  lemma {:induction false} DoubleAfterRun(req: Request, tpDone: bool, steps: seq<Step>, base: Table, i: nat, f: Frame)
    requires GoodCookies(req.cookies)
    requires var w := Begin(true, req, tpDone);
             AdmissibleRun(w, steps) && !HasReset(steps) && !PanicsSomewhere(w, steps) && ApartRun(w, steps)
    requires i < |Run(Begin(true, req, tpDone), steps).installed|
    requires var r := Run(Begin(true, req, tpDone), steps).installed[i];
             InRange(r) && r.innerCvlan != OFPVID_NONE && r.tagsToRemove <= 1 && r.setVid < 4096 && SelectsDouble(r, f)
    ensures var w := Begin(true, req, tpDone);
            var r, table := Run(w, steps).installed[i], TableRun(w, steps, base);
            && DoubleKey(r) in table && Matches(DoubleKey(r), f) && f != []
            && Apply(table[DoubleKey(r)], f) == Restacked(f, r.setVid as bv32, r.tagsToRemove != 0)
  {
    var w := Begin(true, req, tpDone);
    BeginIsLive(true, req, tpDone);
    BeginIncremental(req, tpDone);
    RunServed(w, steps, base);
    ServedDouble(TableRun(w, steps, base), Run(w, steps).installed[i], f);
  }

  // ---------------------------------------------------------------- without incremental rows

  ghost predicate PlainRun(w: World, steps: seq<Step>)
    decreases |steps|
  {
    && (forall i | 0 <= i < |w.fsm.rules| :: Plain(w.fsm.rules[i].rule))
    && (steps != [] ==> PlainRun(Next(w, steps[0]), steps[1..]))
  }

  /** Nothing installed, nothing in the table; a single rule that was installed on the empty table has its two rows. */
  ghost predicate Stacks(table: Table, installed: seq<Rule>, alone: bool) {
    && (installed == [] ==> table == map[])
    && (alone ==> |installed| <= 1 && (|installed| == 1 ==> table == Install(false, map[], installed[0])))
  }

  ghost predicate NeverTwo(w: World, steps: seq<Step>)
    decreases |steps|
  {
    |w.installed| <= 1 && (steps != [] ==> NeverTwo(Next(w, steps[0]), steps[1..]))
  }

  lemma {:induction false} LastWithdrawn(w: World, table: Table, tpDone: bool)
    requires Live(w) && !w.fsm.incremental && w.fsm.state.RemoveFlow? && !OverrunsFilters(w.fsm)
    requires forall i | 0 <= i < |w.fsm.rules| :: Plain(w.fsm.rules[i].rule)
    ensures |AfterRemoval(w, tpDone).installed| + 1 == |w.installed|
    ensures |w.installed| == 1 ==> TableNext(w, RemoveAck(tpDone), table) == map[]
  {
    RemovalUninstalls(w, tpDone);
    assert |w.installed| == w.fsm.configured;
  }

  lemma {:induction false} StackingStep(w: World, s: Step, table: Table, alone: bool)
    requires Live(w) && !Panics(w, s) && !w.fsm.incremental && Stacks(table, w.installed, alone)
    requires forall i | 0 <= i < |w.fsm.rules| :: Plain(w.fsm.rules[i].rule)
    requires alone ==> |Next(w, s).installed| <= 1
    ensures Stacks(TableNext(w, s, table), Next(w, s).installed, alone)
  {
    SettledIs(Raw(w, s));
    if s.RemoveAck? && w.fsm.state.RemoveFlow? && w.fsm.removes != [] {
      LastWithdrawn(w, table, s.tpDone);
      RemoveAckIs(w, s.tpDone);
    } else if !s.EvtocdAck? {
      OthersKeepInstalled(w, s);
    }
  }

  lemma {:induction false} StackingRun(w: World, steps: seq<Step>, table: Table, alone: bool)
    requires Sound(w) && !w.fsm.incremental && Stacks(table, w.installed, alone) && (alone ==> NeverTwo(w, steps))
    requires AdmissibleRun(w, steps) && !HasReset(steps) && !PanicsSomewhere(w, steps) && PlainRun(w, steps)
    ensures Stacks(TableRun(w, steps, table), Run(w, steps).installed, alone)
    decreases |steps|
  {
    if steps != [] {
      StackingStep(w, steps[0], table, alone);
      StepStaysLive(w, steps[0]);
      IncrementalStays(w, steps[0]);
      StackingRun(Next(w, steps[0]), steps[1..], TableNext(w, steps[0], table), alone);
    }
  }

  lemma {:induction false} BeginStacks(req: Request, tpDone: bool)
    ensures !Begin(false, req, tpDone).fsm.incremental && Begin(false, req, tpDone).installed == []
  {
  }

  /** Without incremental rows, after every run of plain rules: when nothing is installed, the table is empty. */
  lemma {:induction false} EmptyAfterLast(req: Request, tpDone: bool, steps: seq<Step>)
    requires GoodCookies(req.cookies)
    requires var w := Begin(false, req, tpDone);
             AdmissibleRun(w, steps) && !HasReset(steps) && !PanicsSomewhere(w, steps) && PlainRun(w, steps)
    ensures var w := Begin(false, req, tpDone); Run(w, steps).installed == [] ==> TableRun(w, steps, map[]) == map[]
  {
    BeginIsLive(false, req, tpDone);
    BeginStacks(req, tpDone);
    StackingRun(Begin(false, req, tpDone), steps, map[], false);
  }

  lemma {:induction false} StackedRows(req: Request, tpDone: bool, steps: seq<Step>)
    requires GoodCookies(req.cookies)
    requires var w := Begin(false, req, tpDone);
             && AdmissibleRun(w, steps) && !HasReset(steps) && !PanicsSomewhere(w, steps) && PlainRun(w, steps)
             && NeverTwo(w, steps)
    ensures var w := Begin(false, req, tpDone); Stacks(TableRun(w, steps, map[]), Run(w, steps).installed, true)
  {
    BeginIsLive(false, req, tpDone);
    BeginStacks(req, tpDone);
    StackingRun(Begin(false, req, tpDone), steps, map[], true);
  }

  /** Exactly the untagged and priority-tagged frames are taken, and leave with one tag that has the VID of the rule. */
  ghost predicate TagsUntagged(table: Table, r: Rule, f: Frame) {
    match r
    case Rule(_, _, _, setVid, _, _, _) =>
      && (UntaggedOrPriority(f) <==> exists key :: key in table && Matches(key, f))
      && forall key | key in table && Matches(key, f) ::
           Apply(table[key], f) == [Tag(if f == [] then 0 else f[0].pcp, setVid as bv32)]
  }

  lemma {:induction false} StackedTags(table: Table, installed: seq<Rule>, f: Frame)
    requires Stacks(table, installed, true) && installed != [] && Plain(installed[0]) && installed[0].setVid < 4096
    ensures TagsUntagged(table, installed[0], f)
  {
    StackingTags(installed[0], f);
  }

  /** As long as no two rules are installed at once: an installed rule gives every untagged and priority-tagged frame, and no
      other, one tag with its VID, whatever was installed and removed before. */
  lemma {:induction false} StackingAfterRun(req: Request, tpDone: bool, steps: seq<Step>, f: Frame)
    requires GoodCookies(req.cookies)
    requires var w := Begin(false, req, tpDone);
             && AdmissibleRun(w, steps) && !HasReset(steps) && !PanicsSomewhere(w, steps) && PlainRun(w, steps)
             && NeverTwo(w, steps) && Run(w, steps).installed != []
             && Plain(Run(w, steps).installed[0]) && Run(w, steps).installed[0].setVid < 4096
    ensures var w := Begin(false, req, tpDone);
            TagsUntagged(TableRun(w, steps, map[]), Run(w, steps).installed[0], f)
  {
    var w := Begin(false, req, tpDone);
    StackedRows(req, tpDone, steps);
    StackedTags(TableRun(w, steps, map[]), Run(w, steps).installed, f);
  }
}
