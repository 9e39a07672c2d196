/**
  What moves the tech-profile engine in each kind of state, and what does not: a configuration is not interrupted by
  removals, a removal takes only stored GEM ports and sends its deletes in a fixed order, and at rest only the three
  requests of the callers have an effect.
*/
module AniMoves {
  import opened Words
  import opened AniFsm
  import opened AniScript
  import opened AniRemoval

  // ---------------------------------------------------------------- configuration

  /** A new configuration begins: its ports are stored, its first request goes out, and its script lies ahead. */
  ghost predicate Restarted(a: Ani, b: Ani, setup: Setup) {
    match a
    case Ani(_, _, _, _, _, _, log, _, _) =>
      && Awaits(b, setup, Script(setup)) && Follows(b) && b.params == setup.params
      && Messages(b.log) == Messages(log) + [Opening[0]]
  }

  /** A configuration moves by the answer to its open request, by a retry with another setup, and by a reset; nothing else
      that happens meanwhile has any effect. */
  lemma {:induction false} ConfigurationMoves(a: Ani, ev: Event, pending: bool)
    requires Running(a.state) && Follows(a)
    ensures var b := Next(a, ev, pending);
            match ev
            case Rx(kind, target, ok) =>
              if ok && Accepted(Open(a), kind, target) then Advanced(a.setup, a.log, Rest(a), b) else b == a
            case Retry(setup) => Restarted(a, b, setup)
            case Reset => b.state.Disabled? && b.log == a.log
            case _ => b == a
  {
    match ev
    case Rx(kind, target, ok) => AnswerAdvances(a, kind, target, pending);
    case Retry(setup) => StartFollows(a, setup, pending);
    case _ =>
  }

  // ---------------------------------------------------------------- removal

  predicate Removing(st: AniState) {
    st.RemovingGemIW? || st.RemovingGemNCTP? || st.RemovingTD? || st.RemDot1PMapper? || st.RemAniBPCD?
  }

  /** The deletes of one removal; the last two go out for the last unicast port only. */
  function Deletes(id: uint16): seq<Msg> {
    GemDeletes(id) + [DeleteOf(Mapper), DeleteOf(BridgePort)]
  }

  /** How many of them were sent. */
  function Place(st: AniState): (n: nat)
    ensures n <= 5 && (n > 0 <==> Removing(st))
  {
    match st
    case RemovingGemIW => 1
    case RemovingGemNCTP => 2
    case RemovingTD => 3
    case RemDot1PMapper => 4
    case RemAniBPCD => 5
    case _ => 0
  }

  /** A removal works on a stored port and the log ends with its deletes up to the open one. */
  ghost predicate RemovalInv(a: Ani) {
    match a
    case Ani(state, _, _, _, awaited, _, log, params, removing) =>
      && (Removing(state) || state.WaitingFlowRem? ==> removing in params)
      && (Removing(state) ==>
            && awaited == Some(Deletes(removing)[Place(state) - 1].target)
            && EndsWith(Messages(log), Deletes(removing)[..Place(state)]))
  }

  /** The next delete of the same removal went out. */
  ghost predicate NextDelete(a: Ani, b: Ani) {
    match a
    case Ani(state, setup, _, _, _, _, log, params, removing) =>
      && 0 < Place(state) < 5 && Removing(b.state) && Place(b.state) == Place(state) + 1
      && b.setup == setup && b.params == params && b.removing == removing
      && b.awaited == Some(Deletes(removing)[Place(state)].target)
      && Messages(b.log) == Messages(log) + [Deletes(removing)[Place(state)]]
  }

  /** The port is forgotten and nothing more is sent. */
  ghost predicate PortGone(a: Ani, b: Ani, st: AniState) {
    match a
    case Ani(_, setup, _, _, _, _, log, params, removing) =>
      b.state == st && b.setup == setup && b.params == params - {removing} && b.log == log
  }

  lemma {:induction false} DeleteIsNext(a: Ani, st: AniState, target: Me, pending: bool)
    requires a.awaited.Some? && 0 < Place(a.state) < 5 && Place(st) == Place(a.state) + 1
    requires DeleteOf(target) == Deletes(a.removing)[Place(a.state)]
    ensures NextDelete(a, Send(Gone(a, a.awaited.value), st, Msg(Delete, target, {}), pending))
  {
    MessagesSnoc(a.log, Sent(Msg(Delete, target, {}), Gone(a, a.awaited.value).acked, pending));
  }

  /** The answer to a delete sends the next one; while other unicast ports are stored the removal ends after the third, and
      with the last unicast port it goes on to the mapper and the bridge port and disables the engine. */
  lemma {:induction false} DeleteAnswer(a: Ani, pending: bool)
    requires Removing(a.state) && RemovalInv(a)
    ensures var b := AfterDelete(a, Deletes(a.removing)[Place(a.state) - 1].target, pending);
            if a.state.RemovingTD? && |Unicast(a.params)| > 1 then PortGone(a, b, ConfigDone)
            else if a.state.RemAniBPCD? then PortGone(a, b, Disabled)
            else NextDelete(a, b)
  {
    match a.state
    case RemovingGemIW => DeleteIsNext(a, RemovingGemNCTP, Ctp(a.removing), pending);
    case RemovingGemNCTP => DeleteIsNext(a, RemovingTD, Descriptor(a.removing), pending);
    case RemovingTD => if |Unicast(a.params)| <= 1 { DeleteIsNext(a, RemDot1PMapper, Mapper, pending); }
    case RemDot1PMapper => DeleteIsNext(a, RemAniBPCD, BridgePort, pending);
    case RemAniBPCD =>
  }

  predicate AnswersDelete(a: Ani, kind: Kind, target: Me)
    requires Removing(a.state)
  {
    kind.Delete? && target == Deletes(a.removing)[Place(a.state) - 1].target
  }

  lemma {:induction false} RemovalMoves(a: Ani, ev: Event, pending: bool)
    requires Removing(a.state) && RemovalInv(a)
    ensures var b := Next(a, ev, pending);
            match ev
            case Rx(kind, target, ok) =>
              if !(ok && AnswersDelete(a, kind, target)) then b == a
              else if a.state.RemovingTD? && |Unicast(a.params)| > 1 then PortGone(a, b, ConfigDone)
              else if a.state.RemAniBPCD? then PortGone(a, b, Disabled)
              else NextDelete(a, b)
            case Retry(setup) => Restarted(a, b, setup)
            case Reset => b.state.Disabled? && b.log == a.log && b.params == a.params
            case _ => b == a
  {
    match ev
    case Rx(kind, target, ok) => DeleteAnswer(a, pending);
    case Retry(setup) => StartFollows(a, setup, pending);
    case _ =>
  }

  // ---------------------------------------------------------------- the gate, rest and reset

  /** The removal of this port begins: it waits while flow removals are pending, and sends its first delete otherwise. */
  ghost predicate Gated(a: Ani, b: Ani, id: uint16, pending: bool) {
    match a
    case Ani(_, setup, _, _, _, _, log, params, _) =>
      && b.removing == id && b.params == params && b.setup == setup
      && if pending then b.state.WaitingFlowRem? && b.log == log
         else && b.state.RemovingGemIW? && b.awaited == Some(Iwtp(id))
              && Messages(b.log) == Messages(log) + [DeleteOf(Iwtp(id))]
  }

  lemma {:induction false} GateDecides(a: Ani, id: uint16, pending: bool)
    ensures Gated(a, EnterRemovingGemIW(a.(removing := id), pending), id, pending)
  {
    MessagesSnoc(a.log, Sent(DeleteOf(Iwtp(id)), a.acked, pending));
  }

  /** A removal that waits for the VLAN engine asks again when its wait ends, and is given up when that is aborted. */
  lemma {:induction false} WaitMoves(a: Ani, ev: Event, pending: bool)
    requires a.state.WaitingFlowRem?
    ensures var b := Next(a, ev, pending);
            match ev
            case FlowWaitEnds(aborted) =>
              if aborted then b.state.Disabled? && b.log == a.log else Gated(a, b, a.removing, pending)
            case Reset => b.state.Disabled? && b.log == a.log
            case _ => b == a
  {
    GateDecides(a, a.removing, pending);
    assert a.(removing := a.removing) == a;
  }

  /** At rest only the removal of a stored port, the release of the T-CONT and a reset do anything. */
  lemma {:induction false} RestMoves(a: Ani, ev: Event, pending: bool)
    requires a.state.ConfigDone?
    ensures var b := Next(a, ev, pending);
            match ev
            case RemoveGem(id) => if id in a.params then Gated(a, b, id, pending) else b == a
            case RemoveTcont =>
              && b.state.ResetTcont? && b.awaited == Some(TCont) && b.params == a.params
              && Messages(b.log) == Messages(a.log) + [Msg(Set, TCont, {})]
            case Reset => b.state.Disabled? && b.log == a.log
            case _ => b == a
  {
    match ev
    case RemoveGem(id) => GateDecides(a, id, pending);
    case RemoveTcont => MessagesSnoc(a.log, Sent(Msg(Set, TCont, {}), a.acked, pending));
    case _ =>
  }

  /** A disabled engine is moved by the start of a valid profile only. */
  lemma {:induction false} DisabledMoves(a: Ani, ev: Event, pending: bool)
    requires a.state.Disabled?
    ensures var b := Next(a, ev, pending);
            if ev.Start? && ev.valid then Restarted(a, b, ev.setup)
            else b.state.Disabled? && b.log == a.log && b.params == a.params
  {
    if ev.Start? { StartFollows(a, ev.setup, pending); }
  }

  /** The release of a T-CONT ends with its answer, back at rest. */
  lemma {:induction false} TcontMoves(a: Ani, ev: Event, pending: bool)
    requires a.state.ResetTcont? && a.awaited == Some(TCont)
    ensures var b := Next(a, ev, pending);
            match ev
            case Rx(kind, target, ok) =>
              if ok && kind.Set? && target.TCont? then b.state.ConfigDone? && b.log == a.log && b.params == a.params
              else b == a
            case Retry(setup) => Restarted(a, b, setup)
            case Reset => b.state.Disabled? && b.log == a.log
            case _ => b == a
  {
    if ev.Retry? { StartFollows(a, ev.setup, pending); }
  }

  // ---------------------------------------------------------------- runs

  /** The stored ports are ports of the last setup, all of them while it is being configured. */
  ghost predicate PortsInv(a: Ani) {
    match a
    case Ani(state, setup, _, _, _, _, _, params, _) =>
      && (forall id | id in params :: id in setup.params && params[id] == setup.params[id])
      && (Running(state) ==> params == setup.params)
  }

  ghost predicate MoveInv(a: Ani) {
    match a
    case Ani(state, _, _, _, awaited, _, _, _, _) =>
      Follows(a) && RemovalInv(a) && PortsInv(a) && (state.ResetTcont? ==> awaited == Some(TCont))
  }

  lemma {:induction false} IwtpFrame(a: Ani, i: nat, pending: bool)
    ensures var b := SendIwtp(a, i, pending); b.params == a.params && !Removing(b.state) && !b.state.WaitingFlowRem?
    ensures !SendIwtp(a, i, pending).state.ResetTcont?
    decreases |a.setup.gems| - i
  {
    if i < |a.setup.gems| && a.setup.gems[i].multicast && a.setup.mcastElsewhere { IwtpFrame(a, i + 1, pending); }
  }

  /** An answer during the configuration leaves the stored ports alone. */
  lemma {:induction false} ConfigFrame(a: Ani, kind: Kind, target: Me, pending: bool)
    requires Running(a.state)
    ensures OnResponse(a, kind, target, pending).params == a.params
  {
    var a1 := Acked(a, target);
    IwtpFrame(a1, a.next + 1, pending);
    IwtpFrame(a1, 0, pending);
  }

  lemma {:induction false} RestartKeeps(a: Ani, b: Ani, setup: Setup)
    requires Restarted(a, b, setup)
    ensures MoveInv(b)
  {
  }

  /** Nothing is under way and the stored ports are those of before, or fewer. */
  lemma {:induction false} RestKeeps(a: Ani, b: Ani)
    requires MoveInv(a) && b.setup == a.setup && (b.state.Disabled? || b.state.ConfigDone?)
    requires forall id | id in b.params :: id in a.params && b.params[id] == a.params[id]
    ensures MoveInv(b)
  {
  }

  lemma {:induction false} AnswerKeeps(a: Ani, kind: Kind, target: Me, pending: bool)
    requires MoveInv(a) && Running(a.state) && Accepted(Open(a), kind, target)
    ensures MoveInv(OnResponse(a, kind, target, pending))
  {
    AnswerAdvances(a, kind, target, pending);
    ConfigFrame(a, kind, target, pending);
    AdvancedFollows(a, OnResponse(a, kind, target, pending));
  }

  lemma {:induction false} ConfigurationKeeps(a: Ani, ev: Event, pending: bool)
    requires MoveInv(a) && Running(a.state)
    ensures MoveInv(Next(a, ev, pending))
  {
    ConfigurationMoves(a, ev, pending);
    var b := Next(a, ev, pending);
    match ev
    case Rx(kind, target, ok) =>
      if ok && Accepted(Open(a), kind, target) { AnswerKeeps(a, kind, target, pending); }
    case Retry(setup) => RestartKeeps(a, b, setup);
    case Reset => RestKeeps(a, b);
    case _ =>
  }

  lemma {:induction false} NextDeleteKeeps(a: Ani, b: Ani)
    requires MoveInv(a) && Removing(a.state) && NextDelete(a, b)
    ensures MoveInv(b)
  {
    EndsWithMore(Messages(a.log), Deletes(a.removing), Place(a.state));
  }

  lemma {:induction false} EndsWithMore(all: seq<Msg>, script: seq<Msg>, k: nat)
    requires k < |script| && EndsWith(all, script[..k])
    ensures EndsWith(all + [script[k]], script[..k + 1])
  {
    assert script[..k + 1] == script[..k] + [script[k]];
  }

  lemma {:induction false} RemovalKeepsMoves(a: Ani, ev: Event, pending: bool)
    requires MoveInv(a) && Removing(a.state)
    ensures MoveInv(Next(a, ev, pending))
  {
    RemovalMoves(a, ev, pending);
    var b := Next(a, ev, pending);
    match ev
    case Rx(kind, target, ok) =>
      if ok && AnswersDelete(a, kind, target) {
        if (a.state.RemovingTD? && |Unicast(a.params)| > 1) || a.state.RemAniBPCD? { RestKeeps(a, b); }
        else { NextDeleteKeeps(a, b); }
      }
    case Retry(setup) => RestartKeeps(a, b, setup);
    case Reset => RestKeeps(a, b);
    case _ =>
  }

  lemma {:induction false} GateKeeps(a: Ani, b: Ani, id: uint16, pending: bool)
    requires MoveInv(a) && !Running(a.state) && id in a.params && Gated(a, b, id, pending)
    ensures MoveInv(b)
  {
    if !pending { assert EndsWith(Messages(b.log), Deletes(id)[..1]); }
  }

  lemma {:induction false} IdleKeeps(a: Ani, ev: Event, pending: bool)
    requires MoveInv(a) && (a.state.WaitingFlowRem? || a.state.ConfigDone?)
    ensures MoveInv(Next(a, ev, pending))
  {
    var b := Next(a, ev, pending);
    if a.state.WaitingFlowRem? {
      WaitMoves(a, ev, pending);
      if ev.FlowWaitEnds? && !ev.aborted { GateKeeps(a, b, a.removing, pending); }
    } else {
      RestMoves(a, ev, pending);
      if ev.RemoveGem? && ev.id in a.params { GateKeeps(a, b, ev.id, pending); }
    }
  }

  lemma {:induction false} OtherKeeps(a: Ani, ev: Event, pending: bool)
    requires MoveInv(a) && (a.state.Disabled? || a.state.ResetTcont?)
    ensures MoveInv(Next(a, ev, pending))
  {
    var b := Next(a, ev, pending);
    if a.state.Disabled? {
      DisabledMoves(a, ev, pending);
      if ev.Start? && ev.valid { RestartKeeps(a, b, ev.setup); }
    } else {
      TcontMoves(a, ev, pending);
      if ev.Retry? { RestartKeeps(a, b, ev.setup); }
    }
  }

  lemma {:induction false} MovesKeep(a: Ani, ev: Event, pending: bool)
    requires MoveInv(a)
    ensures MoveInv(Next(a, ev, pending))
  {
    if Running(a.state) { ConfigurationKeeps(a, ev, pending); }
    else if Removing(a.state) { RemovalKeepsMoves(a, ev, pending); }
    else if a.state.WaitingFlowRem? || a.state.ConfigDone? { IdleKeeps(a, ev, pending); }
    else { OtherKeeps(a, ev, pending); }
  }

  /** For every sequence of inputs: a configuration has sent its script up to the open request, and a removal its deletes;
      a removal is always of a port that its setup brought and that is still stored. */
  lemma {:induction false} RunMoves(a: Ani, inputs: seq<Input>)
    requires MoveInv(a)
    ensures MoveInv(Run(a, inputs))
    decreases |inputs|
  {
    if inputs != [] {
      MovesKeep(a, inputs[0].ev, inputs[0].pending);
      RunMoves(Next(a, inputs[0].ev, inputs[0].pending), inputs[1..]);
    }
  }

  /** In every run of a fresh engine, while a removal is under way or waits: its port is one of the setup and still stored,
      and what was sent ends with the deletes of that port, in order, up to the open one. */
  lemma {:induction false} RemovalsAreOfStoredPorts(inputs: seq<Input>)
    ensures var a := Run(Fresh, inputs);
            Removing(a.state) || a.state.WaitingFlowRem? ==>
              && a.removing in a.params && a.removing in a.setup.params
              && EndsWith(Messages(a.log), Deletes(a.removing)[..Place(a.state)])
  {
    assert MoveInv(Fresh);
    RunMoves(Fresh, inputs);
    var a := Run(Fresh, inputs);
    if a.state.WaitingFlowRem? { assert Deletes(a.removing)[..0] == []; }
  }
}
