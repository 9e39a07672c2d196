/**
  The configuration of a tech profile as a fixed script: the list of requests that one setup leads to, computed from the
  setup alone.  Whatever happens to the state machine, what it has sent since the configuration began is a beginning of
  that script, and the answers of the ONU take it to the end one request at a time.
*/
module AniScript {
  import opened Words
  import opened AniMapper
  import opened AniFsm

  // ---------------------------------------------------------------- the script

  const Opening: seq<Msg> := [Msg(Create, Mapper, {}), Msg(Create, BridgePort, {Mapper})]

  function Tconts(setup: Setup): seq<Msg> {
    if setup.tcontBefore then [] else [Msg(Set, TCont, {})]
  }

  function CtpMsg(g: Gem): Msg { Msg(Create, Ctp(g.id), {TCont}) }

  function Ctps(gems: seq<Gem>): seq<Msg> {
    seq(|gems|, i requires 0 <= i < |gems| => CtpMsg(gems[i]))
  }

  /** A multicast port is created and gets its address table, unless another tech profile has configured it. */
  function IwtpMsgs(g: Gem, elsewhere: bool): seq<Msg> {
    if !g.multicast then [Msg(Create, Iwtp(g.id), {Ctp(g.id), Mapper})]
    else if elsewhere then []
    else [Msg(Create, McastIwtp(g.id), {Ctp(g.id)}), Msg(Set, McastIwtp(g.id), {})]
  }

  function Iwtps(gems: seq<Gem>, elsewhere: bool): seq<Msg> {
    if gems == [] then [] else Iwtps(gems[..|gems| - 1], elsewhere) + IwtpMsgs(gems[|gems| - 1], elsewhere)
  }

  function QueueMsgs(setup: Setup): seq<Msg> {
    var pqs := QueuesToSet(setup.gems, setup.schedulerPointer);
    seq(|pqs|, i requires 0 <= i < |pqs| => QueueMsg(setup, pqs[i]))
  }

  function Mapping(setup: Setup): seq<Msg> {
    if AnyMapped(setup.gems) then [MapperMsg(Pointers(setup.gems))] else []
  }

  /** The queues of a T-CONT are set when it is new; if its data cannot be read, the configuration is given up there. */
  function Closing(setup: Setup): seq<Msg> {
    if setup.tcontBefore then Mapping(setup)
    else if !setup.qosReadable then []
    else QueueMsgs(setup) + Mapping(setup)
  }

  function Script(setup: Setup): seq<Msg> {
    Opening + (Tconts(setup) + (Ctps(setup.gems) + (Iwtps(setup.gems, setup.mcastElsewhere) + Closing(setup))))
  }

  function Ends(setup: Setup): AniState {
    if !setup.tcontBefore && !setup.qosReadable then Disabled else ConfigDone
  }

  // ---------------------------------------------------------------- what is still to be sent

  function FromQueue(setup: Setup, i: nat): seq<Msg>
    decreases |QueuesToSet(setup.gems, setup.schedulerPointer)| - i
  {
    var pqs := QueuesToSet(setup.gems, setup.schedulerPointer);
    if i >= |pqs| then Mapping(setup) else [QueueMsg(setup, pqs[i])] + FromQueue(setup, i + 1)
  }

  function FromClosing(setup: Setup): seq<Msg> {
    if setup.tcontBefore then Mapping(setup) else if !setup.qosReadable then [] else FromQueue(setup, 0)
  }

  function FromIwtp(setup: Setup, i: nat): seq<Msg>
    decreases |setup.gems| - i
  {
    if i >= |setup.gems| then FromClosing(setup)
    else IwtpMsgs(setup.gems[i], setup.mcastElsewhere) + FromIwtp(setup, i + 1)
  }

  function FromCtp(setup: Setup, i: nat): seq<Msg>
    decreases |setup.gems| - i
  {
    if i >= |setup.gems| then FromIwtp(setup, 0) else [CtpMsg(setup.gems[i])] + FromCtp(setup, i + 1)
  }

  function FromTcont(setup: Setup): seq<Msg> {
    if setup.tcontBefore then FromCtp(setup, 0) else [Msg(Set, TCont, {})] + FromCtp(setup, 0)
  }

  predicate Running(st: AniState) { st.CreatingDot1PMapper? || Configuring(st) || st.SettingDot1PMapper? }

  /** The requests that follow the open one. */
  function Rest(a: Ani): seq<Msg> {
    match a.state
    case CreatingDot1PMapper => [Msg(Create, BridgePort, {Mapper})] + FromTcont(a.setup)
    case CreatingMBPCD => FromTcont(a.setup)
    case SettingTconts => FromCtp(a.setup, 0)
    case CreatingGemNCTPs => FromCtp(a.setup, a.next + 1)
    case CreatingGemIWs =>
      if a.next < |a.setup.gems| && a.setup.gems[a.next].multicast && !a.tableSet then
        [Msg(Set, McastIwtp(a.setup.gems[a.next].id), {})] + FromIwtp(a.setup, a.next + 1)
      else FromIwtp(a.setup, a.next + 1)
    case SettingPQs => FromQueue(a.setup, a.next + 1)
    case _ => []
  }

  /** The request that is open. */
  function Open(a: Ani): Msg {
    match a.state
    case CreatingMBPCD => Msg(Create, BridgePort, {Mapper})
    case SettingTconts => Msg(Set, TCont, {})
    case CreatingGemNCTPs => if a.next < |a.setup.gems| then CtpMsg(a.setup.gems[a.next]) else Msg(Create, Mapper, {})
    case CreatingGemIWs =>
      if a.next >= |a.setup.gems| then Msg(Create, Mapper, {})
      else
        var g := a.setup.gems[a.next];
        if !g.multicast then Msg(Create, Iwtp(g.id), {Ctp(g.id), Mapper})
        else if a.tableSet then Msg(Set, McastIwtp(g.id), {}) else Msg(Create, McastIwtp(g.id), {Ctp(g.id)})
    case SettingPQs =>
      var pqs := QueuesToSet(a.setup.gems, a.setup.schedulerPointer);
      if a.next < |pqs| then QueueMsg(a.setup, pqs[a.next]) else Msg(Create, Mapper, {})
    case SettingDot1PMapper => MapperMsg(Pointers(a.setup.gems))
    case _ => Msg(Create, Mapper, {})
  }

  /** The positions of the loops are in range, and the state is one that this setup passes through. */
  ghost predicate Placed(a: Ani) {
    match a
    case Ani(state, setup, next, _, _, _, _, _, _) =>
      match state
      case CreatingGemNCTPs => next < |setup.gems|
      case CreatingGemIWs => next < |setup.gems|
      case SettingPQs => next < |QueuesToSet(setup.gems, setup.schedulerPointer)| && Ends(setup).ConfigDone?
      case SettingDot1PMapper => Ends(setup).ConfigDone?
      case _ => true
  }

  ghost predicate EndsWith(all: seq<Msg>, last: seq<Msg>) {
    |last| <= |all| && all[|all| - |last|..] == last
  }

  /** What was sent ends with the script up to these last requests. */
  ghost predicate SentUpTo(msgs: seq<Msg>, script: seq<Msg>, rest: seq<Msg>) {
    exists sofar :: sofar + rest == script && EndsWith(msgs, sofar)
  }

  /** While a tech profile is configured, the log ends with its script up to the open request, and that one is awaited. */
  ghost predicate Follows(a: Ani) {
    match a
    case Ani(state, setup, _, _, awaited, _, log, _, _) =>
      Running(state) ==>
        Placed(a) && awaited == Some(Open(a).target) && SentUpTo(Messages(log), Script(setup), Rest(a))
  }

  /** The first of these requests was sent and is open, or there was none and the configuration is over. */
  ghost predicate Advanced(setup: Setup, log: seq<Sent>, rest: seq<Msg>, b: Ani) {
    match b
    case Ani(state, asked, _, _, awaited, _, longer, _, _) =>
      && asked == setup
      && if rest == [] then state == Ends(setup) && longer == log
         else && Running(state) && Placed(b) && Open(b) == rest[0] && Rest(b) == rest[1..]
              && awaited == Some(rest[0].target) && Messages(longer) == Messages(log) + [rest[0]]
  }

  // ---------------------------------------------------------------- each phase sends the next request

  lemma {:induction false} SendAdvances(a: Ani, st: AniState, msg: Msg, pending: bool)
    requires var b := Send(a, st, msg, pending); Running(st) && Placed(b) && Open(b) == msg
    ensures var b := Send(a, st, msg, pending); Advanced(a.setup, a.log, [msg] + Rest(b), b)
  {
    MessagesSnoc(a.log, Sent(msg, a.acked, pending));
    assert ([msg] + Rest(Send(a, st, msg, pending)))[1..] == Rest(Send(a, st, msg, pending));
  }

  lemma {:induction false} MappingAdvances(a: Ani, pending: bool)
    requires Ends(a.setup).ConfigDone?
    ensures Advanced(a.setup, a.log, Mapping(a.setup), EnterSettingMapper(a, pending))
  {
    if AnyMapped(a.setup.gems) {
      SendAdvances(a, SettingDot1PMapper, MapperMsg(Pointers(a.setup.gems)), pending);
    }
  }

  lemma {:induction false} QueueAdvances(a: Ani, i: nat, pending: bool)
    requires Ends(a.setup).ConfigDone?
    ensures Advanced(a.setup, a.log, FromQueue(a.setup, i), SendQueue(a, i, pending))
  {
    var pqs := QueuesToSet(a.setup.gems, a.setup.schedulerPointer);
    if i >= |pqs| { MappingAdvances(a, pending); }
    else { SendAdvances(a.(next := i), SettingPQs, QueueMsg(a.setup, pqs[i]), pending); }
  }

  lemma {:induction false} ClosingAdvances(a: Ani, pending: bool)
    ensures Advanced(a.setup, a.log, FromClosing(a.setup), EnterSettingPQs(a, pending))
  {
    if a.setup.tcontBefore { MappingAdvances(a, pending); }
    else if a.setup.qosReadable { QueueAdvances(a, 0, pending); }
  }

  lemma {:induction false} GemAdvances(a: Ani, i: nat, pending: bool)
    requires i < |a.setup.gems| && !(a.setup.gems[i].multicast && a.setup.mcastElsewhere)
    ensures Advanced(a.setup, a.log, FromIwtp(a.setup, i), SendIwtp(a, i, pending))
  {
    var g, a1 := a.setup.gems[i], a.(next := i, tableSet := false);
    if g.multicast {
      SendAdvances(a1, CreatingGemIWs, Msg(Create, McastIwtp(g.id), {Ctp(g.id)}), pending);
    } else {
      SendAdvances(a1, CreatingGemIWs, Msg(Create, Iwtp(g.id), {Ctp(g.id), Mapper}), pending);
    }
  }

  lemma {:induction false} IwtpAdvances(a: Ani, i: nat, pending: bool)
    ensures Advanced(a.setup, a.log, FromIwtp(a.setup, i), SendIwtp(a, i, pending))
    decreases |a.setup.gems| - i
  {
    if i >= |a.setup.gems| { ClosingAdvances(a, pending); }
    else if a.setup.gems[i].multicast && a.setup.mcastElsewhere {
      IwtpAdvances(a, i + 1, pending);
      assert FromIwtp(a.setup, i) == FromIwtp(a.setup, i + 1);
    } else { GemAdvances(a, i, pending); }
  }

  lemma {:induction false} CtpAdvances(a: Ani, i: nat, pending: bool)
    ensures Advanced(a.setup, a.log, FromCtp(a.setup, i), SendCtp(a, i, pending))
  {
    if i >= |a.setup.gems| { IwtpAdvances(a, 0, pending); }
    else { SendAdvances(a.(next := i), CreatingGemNCTPs, CtpMsg(a.setup.gems[i]), pending); }
  }

  lemma {:induction false} TcontAdvances(a: Ani, pending: bool)
    ensures Advanced(a.setup, a.log, FromTcont(a.setup), EnterSettingTconts(a, pending))
  {
    if a.setup.tcontBefore { CtpAdvances(a, 0, pending); }
    else { SendAdvances(a, SettingTconts, Msg(Set, TCont, {}), pending); }
  }

  // ---------------------------------------------------------------- answers

  /** An answer is accepted if it is for the open request; the two requests of a multicast port are told apart by their
      order alone. */
  predicate Accepted(open: Msg, kind: Kind, target: Me) {
    target == open.target && (kind == open.kind || (open.target.McastIwtp? && !kind.Delete?))
  }

  lemma {:induction false} TableAdvances(a: Ani, pending: bool)
    requires a.state.CreatingGemIWs? && Placed(a) && Open(a).target.McastIwtp?
    ensures Advanced(a.setup, a.log, Rest(a), AfterMcast(a, Open(a).target, pending))
  {
    var target := Open(a).target;
    if a.tableSet { IwtpAdvances(Acked(a, target), a.next + 1, pending); }
    else { SendAdvances(Acked(a, target).(tableSet := true), CreatingGemIWs, Msg(Set, target, {}), pending); }
  }

  lemma {:induction false} CreateAdvances(a: Ani, pending: bool)
    requires Running(a.state) && Placed(a) && Open(a).kind.Create? && !Open(a).target.McastIwtp?
    ensures Advanced(a.setup, a.log, Rest(a), AfterCreate(a, Open(a).target, pending))
  {
    var a1 := Acked(a, Open(a).target);
    match a.state
    case CreatingDot1PMapper => SendAdvances(a1, CreatingMBPCD, Msg(Create, BridgePort, {Mapper}), pending);
    case CreatingMBPCD => TcontAdvances(a1, pending);
    case CreatingGemNCTPs => CtpAdvances(a1, a.next + 1, pending);
    case CreatingGemIWs => IwtpAdvances(a1, a.next + 1, pending);
  }

  lemma {:induction false} SetAdvances(a: Ani, pending: bool)
    requires Running(a.state) && Placed(a) && Open(a).kind.Set? && !Open(a).target.McastIwtp?
    ensures Advanced(a.setup, a.log, Rest(a), AfterSet(a, Open(a).target, pending))
  {
    var a1 := Acked(a, Open(a).target);
    match a.state
    case SettingTconts => CtpAdvances(a1, 0, pending);
    case SettingPQs => QueueAdvances(a1, a.next + 1, pending);
    case SettingDot1PMapper =>
  }

  /** A positive answer to the open request sends the next request of the script, or ends the configuration after the
      last one; any other answer changes nothing. */
  lemma {:induction false} AnswerAdvances(a: Ani, kind: Kind, target: Me, pending: bool)
    requires Running(a.state) && Placed(a) && a.awaited == Some(Open(a).target)
    ensures var b := OnResponse(a, kind, target, pending);
            if Accepted(Open(a), kind, target) then Advanced(a.setup, a.log, Rest(a), b) else b == a
  {
    if Accepted(Open(a), kind, target) {
      if target.McastIwtp? { TableAdvances(a, pending); }
      else if kind.Create? { CreateAdvances(a, pending); }
      else { SetAdvances(a, pending); }
    }
  }

  // ---------------------------------------------------------------- runs

  lemma {:induction false} SentOneMore(msgs: seq<Msg>, script: seq<Msg>, rest: seq<Msg>)
    requires SentUpTo(msgs, script, rest) && rest != []
    ensures SentUpTo(msgs + [rest[0]], script, rest[1..])
  {
    var sofar :| sofar + rest == script && EndsWith(msgs, sofar);
    assert (sofar + [rest[0]]) + rest[1..] == script && EndsWith(msgs + [rest[0]], sofar + [rest[0]]);
  }

  lemma {:induction false} SentAll(msgs: seq<Msg>, script: seq<Msg>)
    requires SentUpTo(msgs, script, [])
    ensures EndsWith(msgs, script)
  {
    var sofar :| sofar + [] == script && EndsWith(msgs, sofar);
    assert sofar == script;
  }

  /** The next place of the script, or its end with the whole script in the log. */
  lemma {:induction false} AdvancedFollows(a: Ani, b: Ani)
    requires Running(a.state) && Follows(a) && Advanced(a.setup, a.log, Rest(a), b)
    ensures Follows(b) && (!Running(b.state) ==> EndsWith(Messages(b.log), Script(a.setup)))
  {
    if Rest(a) != [] { SentOneMore(Messages(a.log), Script(a.setup), Rest(a)); }
    else { SentAll(Messages(a.log), Script(a.setup)); }
  }

  lemma {:induction false} StartFollows(a: Ani, setup: Setup, pending: bool)
    ensures var b := EnterCreatingMapper(a, setup, pending);
            Follows(b) && Awaits(b, setup, Script(setup)) && Messages(b.log) == Messages(a.log) + [Opening[0]]
  {
    var b := EnterCreatingMapper(a, setup, pending);
    MessagesSnoc(a.log, b.log[|a.log|]);
    ScriptIs(setup);
    assert Script(setup) == [Opening[0]] + Rest(b);
    assert EndsWith(Messages(b.log), [Opening[0]]);
  }

  lemma {:induction false} DeleteRests(a: Ani, target: Me, pending: bool)
    requires !Running(a.state)
    ensures !Running(AfterDelete(a, target, pending).state)
  {
  }

  lemma {:induction false} RestingAnswer(a: Ani, kind: Kind, target: Me, pending: bool)
    requires !Running(a.state)
    ensures !Running(OnResponse(a, kind, target, pending).state)
  {
    DeleteRests(a, target, pending);
  }

  lemma {:induction false} AnswerFollows(a: Ani, kind: Kind, target: Me, pending: bool)
    requires Follows(a)
    ensures Follows(OnResponse(a, kind, target, pending))
  {
    if Running(a.state) {
      AnswerAdvances(a, kind, target, pending);
      if Accepted(Open(a), kind, target) { AdvancedFollows(a, OnResponse(a, kind, target, pending)); }
    } else {
      RestingAnswer(a, kind, target, pending);
    }
  }

  lemma {:induction false} NextFollows(a: Ani, ev: Event, pending: bool)
    requires Follows(a)
    ensures Follows(Next(a, ev, pending))
  {
    match ev
    case Start(setup, _) => StartFollows(a, setup, pending);
    case Retry(setup) => StartFollows(a, setup, pending);
    case Rx(kind, target, _) => AnswerFollows(a, kind, target, pending);
    case _ =>
  }

  /** For every sequence of inputs: while a tech profile is being configured, the log ends with the beginning of its
      script up to the open request. */
  lemma {:induction false} RunFollows(a: Ani, inputs: seq<Input>)
    requires Follows(a)
    ensures Follows(Run(a, inputs))
    decreases |inputs|
  {
    if inputs != [] {
      NextFollows(a, inputs[0].ev, inputs[0].pending);
      RunFollows(Next(a, inputs[0].ev, inputs[0].pending), inputs[1..]);
    }
  }

  /** Whenever an answer ends a configuration, in any run of a fresh state machine, the log ends with the whole script, and
      the profile is given up exactly if its T-CONT is new and its queue data cannot be read. */
  lemma {:induction false} WholeScriptSent(inputs: seq<Input>, kind: Kind, target: Me, pending: bool)
    requires Running(Run(Fresh, inputs).state)
    ensures var a := Run(Fresh, inputs);
            var b := OnResponse(a, kind, target, pending);
            !Running(b.state) ==>
              && EndsWith(Messages(b.log), Script(a.setup))
              && b.state == if a.setup.tcontBefore || a.setup.qosReadable then ConfigDone else Disabled
  {
    var a := Run(Fresh, inputs);
    RunFollows(Fresh, inputs);
    AnswerAdvances(a, kind, target, pending);
    if Accepted(Open(a), kind, target) { AdvancedFollows(a, OnResponse(a, kind, target, pending)); }
  }

  /** Each input is the positive answer to the request at its place. */
  ghost predicate Answers(inputs: seq<Input>, requests: seq<Msg>) {
    && |inputs| == |requests|
    && forall i | 0 <= i < |inputs| :: inputs[i].ev == Rx(requests[i].kind, requests[i].target, true)
  }

  lemma {:induction false} AnswersTail(inputs: seq<Input>, requests: seq<Msg>)
    requires Answers(inputs, requests) && inputs != []
    ensures Answers(inputs[1..], requests[1..])
    ensures inputs[0].ev == Rx(requests[0].kind, requests[0].target, true)
  {
  }

  /** The first of these requests is open and the others follow. */
  ghost predicate Awaits(a: Ani, setup: Setup, requests: seq<Msg>) {
    match a
    case Ani(state, asked, _, _, awaited, _, _, _, _) =>
      && asked == setup && Running(state) && Placed(a) && requests != []
      && Open(a) == requests[0] && Rest(a) == requests[1..] && awaited == Some(requests[0].target)
  }

  ghost predicate Finished(a: Ani, setup: Setup) {
    match a
    case Ani(state, asked, _, _, _, _, _, _, _) => asked == setup && state == Ends(setup)
  }

  lemma {:induction false} OneAnswer(a: Ani, setup: Setup, requests: seq<Msg>, input: Input)
    requires Awaits(a, setup, requests) && input.ev == Rx(requests[0].kind, requests[0].target, true)
    ensures var b := Next(a, input.ev, input.pending);
            if |requests| == 1 then Finished(b, setup) && Messages(b.log) == Messages(a.log)
            else Awaits(b, setup, requests[1..]) && Messages(b.log) == Messages(a.log) + [requests[1]]
  {
    AnswerAdvances(a, requests[0].kind, requests[0].target, input.pending);
  }

  lemma {:induction false} SentMore(before: seq<Msg>, after: seq<Msg>, requests: seq<Msg>)
    requires |requests| > 1 && after == before + [requests[1]]
    ensures after + requests[1..][1..] == before + requests[1..]
  {
  }

  lemma {:induction false} AnswersComplete(a: Ani, setup: Setup, requests: seq<Msg>, inputs: seq<Input>)
    requires Awaits(a, setup, requests) && Answers(inputs, requests)
    ensures Finished(Run(a, inputs), setup) && requests != []
    ensures Messages(Run(a, inputs).log) == Messages(a.log) + requests[1..]
    decreases |inputs|
  {
    AnswersTail(inputs, requests);
    OneAnswer(a, setup, requests, inputs[0]);
    var b := Next(a, inputs[0].ev, inputs[0].pending);
    if |requests| > 1 {
      AnswersComplete(b, setup, requests[1..], inputs[1..]);
      SentMore(Messages(a.log), Messages(b.log), requests);
    } else {
      assert Run(b, inputs[1..]) == b && requests[1..] == [];
    }
  }

  lemma {:induction false} RunFirst(a: Ani, first: Input, inputs: seq<Input>)
    ensures Run(a, [first] + inputs) == Run(Next(a, first.ev, first.pending), inputs)
  {
    assert ([first] + inputs)[1..] == inputs;
  }

  lemma {:induction false} AnswersAll(a: Ani, b: Ani, setup: Setup, script: seq<Msg>, answers: seq<Input>)
    requires Awaits(b, setup, script) && Answers(answers, script)
    requires script != [] && Messages(b.log) == Messages(a.log) + [script[0]]
    ensures Finished(Run(b, answers), setup) && Messages(Run(b, answers).log) == Messages(a.log) + script
  {
    AnswersComplete(b, setup, script, answers);
    assert script == [script[0]] + script[1..];
  }

  /** From a disabled state machine, a start and one positive answer to each request take a tech profile through its whole
      script, with nothing else sent in between, and end the configuration. */
  lemma {:induction false} Configures(a: Ani, setup: Setup, pending: bool, answers: seq<Input>)
    requires a.state.Disabled? && Answers(answers, Script(setup))
    ensures var b := Run(a, [Input(Start(setup, true), pending)] + answers);
            Finished(b, setup) && Messages(b.log) == Messages(a.log) + Script(setup)
  {
    StartFollows(a, setup, pending);
    AnswersAll(a, EnterCreatingMapper(a, setup, pending), setup, Script(setup), answers);
    RunFirst(a, Input(Start(setup, true), pending), answers);
  }

  // ---------------------------------------------------------------- the script as what is still to be sent

  lemma {:induction false} FromQueueIs(setup: Setup, i: nat)
    requires i <= |QueueMsgs(setup)|
    ensures FromQueue(setup, i) == QueueMsgs(setup)[i..] + Mapping(setup)
    decreases |QueueMsgs(setup)| - i
  {
    if i < |QueueMsgs(setup)| {
      FromQueueIs(setup, i + 1);
      assert QueueMsgs(setup)[i..] == [QueueMsgs(setup)[i]] + QueueMsgs(setup)[i + 1..];
    }
  }

  lemma {:induction false} FromIwtpIs(setup: Setup, i: nat)
    requires i <= |setup.gems|
    ensures Iwtps(setup.gems[..i], setup.mcastElsewhere) + FromIwtp(setup, i) ==
            Iwtps(setup.gems, setup.mcastElsewhere) + FromClosing(setup)
    decreases |setup.gems| - i
  {
    var gems, elsewhere := setup.gems, setup.mcastElsewhere;
    if i < |gems| {
      FromIwtpIs(setup, i + 1);
      assert gems[..i + 1][..i] == gems[..i];
      assert Iwtps(gems[..i + 1], elsewhere) == Iwtps(gems[..i], elsewhere) + IwtpMsgs(gems[i], elsewhere);
    } else {
      assert gems[..i] == gems;
    }
  }

  lemma {:induction false} FromCtpIs(setup: Setup, i: nat)
    requires i <= |setup.gems|
    ensures FromCtp(setup, i) == Ctps(setup.gems)[i..] + FromIwtp(setup, 0)
    decreases |setup.gems| - i
  {
    if i < |setup.gems| {
      FromCtpIs(setup, i + 1);
      assert Ctps(setup.gems)[i..] == [Ctps(setup.gems)[i]] + Ctps(setup.gems)[i + 1..];
    }
  }

  lemma {:induction false} FromClosingIs(setup: Setup)
    ensures FromClosing(setup) == Closing(setup)
  {
    FromQueueIs(setup, 0);
    assert QueueMsgs(setup)[0..] == QueueMsgs(setup);
  }

  lemma {:induction false} FromIwtpsIs(setup: Setup)
    ensures FromIwtp(setup, 0) == Iwtps(setup.gems, setup.mcastElsewhere) + Closing(setup)
  {
    FromClosingIs(setup);
    FromIwtpIs(setup, 0);
    assert Iwtps(setup.gems[..0], setup.mcastElsewhere) == [];
  }

  lemma {:induction false} ScriptIs(setup: Setup)
    ensures Script(setup) == Opening + FromTcont(setup)
  {
    FromIwtpsIs(setup);
    FromCtpIs(setup, 0);
    assert Ctps(setup.gems)[0..] == Ctps(setup.gems);
    assert Tconts(setup) + FromCtp(setup, 0) == FromTcont(setup);
  }

  // ---------------------------------------------------------------- what the script asks for

  /** The queues that a list of requests sets, in their order. */
  function QueuesOf(msgs: seq<Msg>): seq<uint16> {
    if msgs == [] then []
    else QueuesOf(msgs[..|msgs| - 1]) +
         var m := msgs[|msgs| - 1]; if m.kind.Set? && m.target.Queue? then [m.target.id] else []
  }

  lemma {:induction false} QueuesOfJoin(a: seq<Msg>, b: seq<Msg>)
    ensures QueuesOf(a + b) == QueuesOf(a) + QueuesOf(b)
    decreases |b|
  {
    if b == [] {
      assert a + b == a;
    } else {
      assert (a + b)[..|a + b| - 1] == a + b[..|b| - 1];
      QueuesOfJoin(a, b[..|b| - 1]);
    }
  }

  lemma {:induction false} NoQueues(msgs: seq<Msg>)
    requires forall i | 0 <= i < |msgs| :: !msgs[i].target.Queue?
    ensures QueuesOf(msgs) == []
  {
    if msgs != [] { NoQueues(msgs[..|msgs| - 1]); }
  }

  lemma {:induction false} AllQueues(msgs: seq<Msg>, pqs: seq<uint16>)
    requires |msgs| == |pqs| && forall i | 0 <= i < |pqs| :: msgs[i].kind.Set? && msgs[i].target == Queue(pqs[i])
    ensures QueuesOf(msgs) == pqs
  {
    if msgs != [] {
      AllQueues(msgs[..|msgs| - 1], pqs[..|pqs| - 1]);
      assert pqs == pqs[..|pqs| - 1] + [pqs[|pqs| - 1]];
    }
  }

  lemma {:induction false} IwtpsKind(gems: seq<Gem>, elsewhere: bool)
    ensures forall i | 0 <= i < |Iwtps(gems, elsewhere)| ::
              Iwtps(gems, elsewhere)[i].target.Iwtp? || Iwtps(gems, elsewhere)[i].target.McastIwtp?
  {
    if gems != [] { IwtpsKind(gems[..|gems| - 1], elsewhere); }
  }

  lemma {:induction false} ClosingQueues(setup: Setup)
    ensures QueuesOf(Closing(setup)) ==
            if setup.tcontBefore || !setup.qosReadable then [] else QueuesToSet(setup.gems, setup.schedulerPointer)
  {
    NoQueues(Mapping(setup));
    if !setup.tcontBefore && setup.qosReadable {
      QueuesOfJoin(QueueMsgs(setup), Mapping(setup));
      AllQueues(QueueMsgs(setup), QueuesToSet(setup.gems, setup.schedulerPointer));
    }
  }

  lemma {:induction false} QueuesBehind(front: seq<Msg>, back: seq<Msg>)
    requires forall i | 0 <= i < |front| :: !front[i].target.Queue?
    ensures QueuesOf(front + back) == QueuesOf(back)
  {
    NoQueues(front);
    QueuesOfJoin(front, back);
  }

  /** A configuration sets queues only for a new T-CONT whose data is readable: a queue is set if and only if a unicast port
      uses it and either the scheduler can be pointed to or all its unicast ports are weighted round robin; each once, and
      one before another if it is used first. */
  lemma {:induction false} ScriptQueues(setup: Setup, q: uint16)
    ensures var gems, list := setup.gems, QueuesOf(Script(setup));
            && (q in list <==>
                  && !setup.tcontBefore && setup.qosReadable
                  && (exists i :: 0 <= i < |gems| && Uses(gems[i], q))
                  && (setup.schedulerPointer || forall i | 0 <= i < |gems| && Uses(gems[i], q) :: gems[i].wrr))
            && (forall x, y | 0 <= x < y < |list| :: list[x] != list[y]) && InUseOrder(gems, list)
  {
    QueuesInScript(setup);
    QueueSetIff(setup.gems, setup.schedulerPointer, q);
    QueuesInOrder(setup.gems, setup.schedulerPointer);
  }

  lemma {:induction false} QueuesAtEnd(a: seq<Msg>, b: seq<Msg>, c: seq<Msg>, d: seq<Msg>, e: seq<Msg>)
    requires forall m: Msg | m in a || m in b || m in c || m in d :: !m.target.Queue?
    ensures QueuesOf(a + (b + (c + (d + e)))) == QueuesOf(e)
  {
    QueuesBehind(d, e);
    QueuesBehind(c, d + e);
    QueuesBehind(b, c + (d + e));
    QueuesBehind(a, b + (c + (d + e)));
  }

  lemma {:induction false} QueuesInScript(setup: Setup)
    ensures QueuesOf(Script(setup)) ==
            if setup.tcontBefore || !setup.qosReadable then [] else QueuesToSet(setup.gems, setup.schedulerPointer)
  {
    IwtpsKind(setup.gems, setup.mcastElsewhere);
    ClosingQueues(setup);
    QueuesAtEnd(Opening, Tconts(setup), Ctps(setup.gems), Iwtps(setup.gems, setup.mcastElsewhere), Closing(setup));
  }

  lemma {:induction false} InParts(m: Msg, a: seq<Msg>, b: seq<Msg>, c: seq<Msg>, d: seq<Msg>, e: seq<Msg>)
    ensures m in a + (b + (c + (d + e))) <==> m in a || m in b || m in c || m in d || m in e
  {
    assert m in d + e <==> m in d || m in e;
    assert m in c + (d + e) <==> m in c || m in d + e;
  }

  lemma {:induction false} InScript(setup: Setup, m: Msg)
    ensures m in Script(setup) <==>
            || m in Opening || m in Tconts(setup) || m in Ctps(setup.gems)
            || m in Iwtps(setup.gems, setup.mcastElsewhere) || m in Closing(setup)
  {
    InParts(m, Opening, Tconts(setup), Ctps(setup.gems), Iwtps(setup.gems, setup.mcastElsewhere), Closing(setup));
  }

  lemma {:induction false} QueuePlace(setup: Setup, m: Msg)
    requires m in Script(setup) && m.target.Queue?
    ensures m in QueueMsgs(setup)
  {
    IwtpsKind(setup.gems, setup.mcastElsewhere);
    InScript(setup, m);
    assert m in Closing(setup);
  }

  /** What each queue is set to: with a strict user it is taken off the traffic scheduler; otherwise it gets the weight of
      its first user, and the traffic scheduler where that can be pointed to. */
  lemma {:induction false} ScriptQueueAttributes(setup: Setup, m: Msg)
    requires m in Script(setup) && m.target.Queue?
    ensures var gems, sp := setup.gems, setup.schedulerPointer;
            var q := m.target.id;
            && m.kind.Set?
            && if exists i :: 0 <= i < |gems| && Uses(gems[i], q) && !gems[i].wrr then sp && m.queue == ToScheduler(0)
               else exists i :: 0 <= i < |gems| && Uses(gems[i], q) && (forall j | 0 <= j < i :: !Uses(gems[j], q))
                                && m.queue == if sp then ToWeighted(TRAFFIC_SCHEDULER, gems[i].weight)
                                              else WeightOnly(gems[i].weight)
  {
    QueuePlace(setup, m);
    var pqs := QueuesToSet(setup.gems, setup.schedulerPointer);
    var i :| 0 <= i < |pqs| && m == QueueMsg(setup, pqs[i]);
    QueueAttributesRight(setup.gems, setup.schedulerPointer, pqs[i]);
  }

  predicate OnMcast(m: Msg, kind: Kind, id: uint16) { m.kind == kind && m.target == McastIwtp(id) }

  /** Creates and table Sets of multicast ports come in pairs. */
  ghost predicate Paired(msgs: seq<Msg>) {
    && (forall k, id | 0 <= k < |msgs| && OnMcast(msgs[k], Create, id) ::
          k + 1 < |msgs| && msgs[k + 1] == Msg(Set, McastIwtp(id), {}))
    && (forall k, id | 0 <= k < |msgs| && OnMcast(msgs[k], Set, id) ::
          k > 0 && msgs[k - 1] == Msg(Create, McastIwtp(id), {Ctp(id)}))
  }

  lemma {:induction false} PairedJoin(a: seq<Msg>, b: seq<Msg>)
    requires Paired(a) && Paired(b)
    ensures Paired(a + b)
  {
    var c := a + b;
    forall k, id | 0 <= k < |c| && OnMcast(c[k], Create, id)
      ensures k + 1 < |c| && c[k + 1] == Msg(Set, McastIwtp(id), {})
    {
      if k < |a| { assert OnMcast(a[k], Create, id); } else { assert OnMcast(b[k - |a|], Create, id); }
    }
    forall k, id | 0 <= k < |c| && OnMcast(c[k], Set, id)
      ensures k > 0 && c[k - 1] == Msg(Create, McastIwtp(id), {Ctp(id)})
    {
      if k < |a| { assert OnMcast(a[k], Set, id); } else { assert OnMcast(b[k - |a|], Set, id); }
    }
  }

  lemma {:induction false} NoMcastIsPaired(msgs: seq<Msg>)
    requires forall k | 0 <= k < |msgs| :: !msgs[k].target.McastIwtp?
    ensures Paired(msgs)
  {
    assert forall k, kind, id | 0 <= k < |msgs| :: !OnMcast(msgs[k], kind, id);
  }

  lemma {:induction false} PairedParts(a: seq<Msg>, b: seq<Msg>, c: seq<Msg>, d: seq<Msg>, e: seq<Msg>)
    requires Paired(a) && Paired(b) && Paired(c) && Paired(d) && Paired(e)
    ensures Paired(a + (b + (c + (d + e))))
  {
    PairedJoin(d, e);
    PairedJoin(c, d + e);
    PairedJoin(b, c + (d + e));
    PairedJoin(a, b + (c + (d + e)));
  }

  lemma {:induction false} IwtpsPaired(gems: seq<Gem>, elsewhere: bool)
    ensures Paired(Iwtps(gems, elsewhere))
  {
    if gems != [] {
      IwtpsPaired(gems[..|gems| - 1], elsewhere);
      PairedJoin(Iwtps(gems[..|gems| - 1], elsewhere), IwtpMsgs(gems[|gems| - 1], elsewhere));
    }
  }

  /** In every configuration each create of a multicast interworking TP is followed at once by one Set of its address
      table, and there is no other such Set. */
  lemma {:induction false} TableFollowsCreate(setup: Setup)
    ensures Paired(Script(setup))
  {
    IwtpsPaired(setup.gems, setup.mcastElsewhere);
    NoMcastIsPaired(Closing(setup));
    NoMcastIsPaired(Ctps(setup.gems));
    NoMcastIsPaired(Tconts(setup));
    NoMcastIsPaired(Opening);
    PairedParts(Opening, Tconts(setup), Ctps(setup.gems), Iwtps(setup.gems, setup.mcastElsewhere), Closing(setup));
  }

  lemma {:induction false} IwtpCreatedIff(gems: seq<Gem>, elsewhere: bool, id: uint16)
    ensures Msg(Create, Iwtp(id), {Ctp(id), Mapper}) in Iwtps(gems, elsewhere) <==>
            exists i :: 0 <= i < |gems| && gems[i].id == id && !gems[i].multicast
    ensures Msg(Create, McastIwtp(id), {Ctp(id)}) in Iwtps(gems, elsewhere) <==>
            !elsewhere && exists i :: 0 <= i < |gems| && gems[i].id == id && gems[i].multicast
  {
    if gems != [] {
      var front := gems[..|gems| - 1];
      IwtpCreatedIff(front, elsewhere, id);
      assert gems == front + [gems[|gems| - 1]];
    }
  }

  /** Requests on interworking TPs stand in that part of the script only. */
  lemma {:induction false} IwtpPart(setup: Setup, m: Msg)
    requires m.target.Iwtp? || m.target.McastIwtp?
    ensures m in Script(setup) <==> m in Iwtps(setup.gems, setup.mcastElsewhere)
  {
    InScript(setup, m);
    assert m !in Opening && m !in Tconts(setup) && m !in Ctps(setup.gems) && m !in Closing(setup);
  }

  /** The interworking TPs that a configuration creates: one for each unicast port, and one for each multicast port unless
      another tech profile has it. */
  lemma {:induction false} ScriptCreatesIff(setup: Setup, id: uint16)
    ensures Msg(Create, Iwtp(id), {Ctp(id), Mapper}) in Script(setup) <==>
            exists i :: 0 <= i < |setup.gems| && setup.gems[i].id == id && !setup.gems[i].multicast
    ensures Msg(Create, McastIwtp(id), {Ctp(id)}) in Script(setup) <==>
            !setup.mcastElsewhere && exists i :: 0 <= i < |setup.gems| && setup.gems[i].id == id && setup.gems[i].multicast
  {
    IwtpCreatedIff(setup.gems, setup.mcastElsewhere, id);
    IwtpPart(setup, Msg(Create, Iwtp(id), {Ctp(id), Mapper}));
    IwtpPart(setup, Msg(Create, McastIwtp(id), {Ctp(id)}));
  }
}
