/**
  What the ONU does to a received frame after a run of the VLAN engine: the tagging table that the run left behind,
  read with the field meanings of section 9.3.13 of G.988.
*/
module EvtocdEffect {
  import opened VlanModel
  import opened VlanRuns
  import opened VlanTheorems
  import opened Evtocd
  import opened EvtocdFrames
  import opened EvtocdTable

  /** A plain VID and a priority to set; a rule that looks at a tag pops it. */
  predicate Plain(r: Rule) {
    r.setVid < 4096 && r.setPcp <= 8 && (r.matchPcp != PRIO_IGNORE_TAG ==> r.tagsToRemove == 1)
  }

  /** The last condition holds for every request. */
  lemma {:induction false} NormalizedIsPlain(tpId: bv8, matchVlan: bv16, matchPcp: bv8, setVlan: bv16, setPcp: bv8,
                                             innerCvlan: bv16)
    requires setVlan < 4096 && setPcp <= 8
    ensures Plain(Normalize(true, tpId, matchVlan, matchPcp, setVlan, setPcp, innerCvlan))
  {
  }

  ghost predicate PlainRules(rules: seq<Rule>) {
    forall i | 0 <= i < |rules| :: InRange(rules[i]) && Plain(rules[i])
  }

  /** Every row that takes a frame was there before, or belongs to a rule that asks for the frame and treats it as the
      rule promises. */
  ghost predicate RowsTranslate(table: Table, base: Table, rules: seq<Rule>, f: Frame) {
    forall key | key in table && Matches(key, f) ::
      || (key in base && table[key] == base[key])
      || exists i :: 0 <= i < |rules| && SingleKey(rules[i]) == key && Selects(rules[i], f)
                     && Apply(table[key], f) == Translated(rules[i], f)
  }

  /** And every rule that asks for a frame has a row of its own that takes it. */
  ghost predicate RulesServed(table: Table, base: Table, rules: seq<Rule>, f: Frame) {
    forall i | 0 <= i < |rules| && Selects(rules[i], f) ::
      var key := SingleKey(rules[i]);
      key in table && key !in base && Matches(key, f) && Apply(table[key], f) == Translated(rules[i], f)
  }

  lemma {:induction false} RowOfRule(base: Table, rules: seq<Rule>, f: Frame, i: nat)
    requires CleanRules(rules, base) && PlainRules(rules) && i < |rules|
    ensures var key, table := SingleKey(rules[i]), RowsOf(base, rules);
            && key in table && key !in base && (Matches(key, f) <==> Selects(rules[i], f))
            && (Matches(key, f) ==> Apply(table[key], f) == Translated(rules[i], f))
  {
    RowsMeaning(base, rules, SingleKey(rules[i]));
    TranslationTags(rules[i], f);
  }

  lemma {:induction false} RowsEffect(base: Table, rules: seq<Rule>, f: Frame)
    requires CleanRules(rules, base) && PlainRules(rules)
    ensures RowsTranslate(RowsOf(base, rules), base, rules, f) && RulesServed(RowsOf(base, rules), base, rules, f)
  {
    var table := RowsOf(base, rules);
    forall i | 0 <= i < |rules| && Selects(rules[i], f)
      ensures var key := SingleKey(rules[i]);
              key in table && key !in base && Matches(key, f) && Apply(table[key], f) == Translated(rules[i], f)
    {
      RowOfRule(base, rules, f, i);
    }
    forall key | key in table && Matches(key, f)
      ensures || (key in base && table[key] == base[key])
              || exists i :: 0 <= i < |rules| && SingleKey(rules[i]) == key && Selects(rules[i], f)
                             && Apply(table[key], f) == Translated(rules[i], f)
    {
      RowsMeaning(base, rules, key);
      if key !in base {
        var i :| 0 <= i < |rules| && SingleKey(rules[i]) == key;
        RowOfRule(base, rules, f, i);
      }
    }
  }

  /** After every clean run from the creation of the engine, for every frame: the rows that take it are those of the
      installed rules that ask for it, and rows that were there before; each row of a rule makes it a frame with one
      tag that carries the VID and the priority of the rule. */
  lemma {:induction false} FrameAfterRun(req: Request, tpDone: bool, steps: seq<Step>, base: Table, f: Frame)
    requires GoodCookies(req.cookies)
    requires var w := Begin(true, req, tpDone);
             && AdmissibleRun(w, steps) && !HasReset(steps) && !PanicsSomewhere(w, steps) && CleanRun(w, steps, base)
             && forall i | 0 <= i < |Run(w, steps).installed| :: Plain(Run(w, steps).installed[i])
    ensures var w := Begin(true, req, tpDone);
            var installed, table := Run(w, steps).installed, TableRun(w, steps, base);
            RowsTranslate(table, base, installed, f) && RulesServed(table, base, installed, f)
  {
    var w := Begin(true, req, tpDone);
    RowsAfterRun(req, tpDone, steps, base);
    RowsEffect(base, Run(w, steps).installed, f);
  }

  /** With an empty table at the start: a frame is taken if and only if an installed rule asks for it. */
  lemma {:induction false} FrameTakenIff(req: Request, tpDone: bool, steps: seq<Step>, f: Frame)
    requires GoodCookies(req.cookies)
    requires var w := Begin(true, req, tpDone);
             && AdmissibleRun(w, steps) && !HasReset(steps) && !PanicsSomewhere(w, steps) && CleanRun(w, steps, map[])
             && forall i | 0 <= i < |Run(w, steps).installed| :: Plain(Run(w, steps).installed[i])
    ensures var w := Begin(true, req, tpDone);
            var installed, table := Run(w, steps).installed, TableRun(w, steps, map[]);
            (exists key :: key in table && Matches(key, f)) <==>
                exists i :: 0 <= i < |installed| && Selects(installed[i], f)
  {
    var w := Begin(true, req, tpDone);
    FrameAfterRun(req, tpDone, steps, map[], f);
    TakenIff(TableRun(w, steps, map[]), Run(w, steps).installed, f);
  }

  lemma {:induction false} TakenIff(table: Table, rules: seq<Rule>, f: Frame)
    requires RowsTranslate(table, map[], rules, f) && RulesServed(table, map[], rules, f)
    ensures (exists key :: key in table && Matches(key, f)) <==> exists i :: 0 <= i < |rules| && Selects(rules[i], f)
  {
    if i :| 0 <= i < |rules| && Selects(rules[i], f) { assert SingleKey(rules[i]) in table; }
  }
}
