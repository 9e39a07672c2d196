# Verification model of the ONU adapter's OMCI control logic

The adapter drives optical network units through OMCI (ITU-T G.988). This project models the parts of it whose
correctness is hard to see from the code, and proves what they keep over whole runs:

- **UNI VLAN flow engine** (`VlanModel`, `VlanFsm`, `VlanRuns`, `VlanSteps`, `VlanTheorems`, `VlanProgress`, `VlanDrain`,
  `VlanCookies`, `VlanLimits`, `VlanRaces`): the rule store with cookie lists, the two flow counters, the queue of pending
  removals, the 64-slot VLAN filter list and the twelve-state machine, under an environment that adds and removes flows,
  answers, delays and resets at will; what it keeps, what each request brings about, and that it comes to rest.
- **EVTOCD rows** (`Evtocd`, `EvtocdTable`, `EvtocdFrames`, `EvtocdEffect`, `EvtocdModes`): packing of a rule into 16-byte
  rows of the tagging table (section 9.3.13 of G.988), the table of the ONU over whole runs, and what it does to frames.
- **Alarm manager** (`Alarms`, `AlarmUpload`, `AlarmManager`): the bitmap database against the set of active alarms, the
  upload loop (section 9.1.3 of G.988) and the resynchronisation.
- **Tech-profile engine** (`AniMapper`, `AniFsm`, `AniMachine`, `AniScript`, `AniRemoval`, `AniMoves`, `AniVlan`): the create
  and remove protocol of the ANI side as scripts of requests, its order-sensitive choices, and its waiting for the VLAN
  engine.
- **OMCI channel** (`OmciTid`, `OmciTransmit`, `OmciSupervision`): transaction ids, the two transmit queues, retries.
- **Entity ids** (`EntityIds`): mixed-radix ids and bit strings. `Words` holds the integer types that the modules share.

How it is modelled:

- Objects that the code updates in place are classes (`UniVlanConfigFsm`, `OnuAlarmManager`, `UniPonAniConfigFsm`,
  `TidAllocator`, `OmciCC`, `Supervisor`). Their methods are proved against functions or relations on values, and the
  properties of whole runs are proved about those.
- A lock section together with its test of the state machine is one step. A decoupled event is delivered before the next
  step of the same state machine. A Go panic (index out of range) is the state `Crashed`, which is never assumed away.
- `installed` in `VlanRuns.World` is what the ONU acknowledged. It follows the rule that each exchange really carries, not
  the flow slice, so that "the slice agrees with the ONU" is a theorem and not a definition.
- Loops over Go maps take their elements in an arbitrary order.
- The ONU, timers, tech-profile completion, the alarm tables of the OMCI library and the ONU database are inputs.

What the VLAN theorems assume of the callers (`VlanRuns.Admissible`), and what happens without it:

- Add requests bring a non-empty, duplicate-free cookie list without cookie 0, and more than one cookie only if none of
  them belongs to another rule. A cookie ends up in two rules if and only if a request is written that names a cookie of
  another rule (`VlanLimits.SharedCookieIff`, for every request): the delay that should prevent this does not apply to
  cookie 0, to several cookies at once, or while another add is delayed.
- At most one add is suspended. While one waits, others bring cookies of their own rule only, do not name a rule under
  removal, and do not name a cookie for which the waiting one will not look again. The device handler holds a lock through
  the whole of `SetUniFlowParams` (internal/pkg/core/device_handler.go:4072-4082), so it never sends an add while another
  is suspended; the case exists only at the interface of the state machine.
- Between the two halves of a cleanup an add may name the deleted cookie unless it would have to wait for it, or would take
  it from a woken add. A released add keeps the store sound if and only if, at the moment it goes on, its cookie is free
  or it writes nothing (`VlanLimits.ResumeIff`). Two runs from the creation of the engine on fail this: the release comes
  too early (`VlanRaces.RaceSharesCookie`), or it is right and another add takes the cookie before the released one goes on
  (`VlanRaces.OvertakenSharesCookie`).
- An add whose wait for a cookie times out goes on as if the cookie were free. The theorems assume that it is; without
  that the store stays sound on the condition of a release (`VlanLimits.TimeoutIff`). An add whose wait for its rule times
  out gives up, at any time.
- A cookie is not deleted again while its removal is queued: the second cleanup resets the engine
  (`VlanLimits.CleanupResetsIff`, `VlanRaces.RemovedTwiceResets`).
- A removal of a whole rule names a rule that is installed or being installed, or comes in WaitingTechProf. Otherwise the
  counter and the installed rules part (`VlanLimits.CleanupPrefixIff`, `VlanRaces.QueuedRemovalBreaksPrefix`).
- With all 64 filter slots in use, the next acknowledged removal of a filtering rule panics; this is the only panic
  (`VlanTheorems.CrashIff`), and it is reachable (`VlanLimits.FullListPanics`).

What these assumptions do not give: an acknowledged removal takes no cookie but its own if and only if its rule has no other
by then (`VlanLimits.RemovalTakesOneCookieIff`). A waiting add that goes on does not look at the queued removals again, so
its cookie can join a rule that is about to go; `VlanRaces.AcceptedCookieIsLost` is a fully admissible run from the creation
of the engine on in which a cookie is accepted, never deleted and gone. That is the only way: every rule under removal keeps
its single cookie if and only if no waiting add joins it (`VlanCookies.StepCarriesIff`), a cookie that is reported as stored
is held if and only if its add was not late (`VlanCookies.AcceptedIff`), and it then stays until its removal is asked for
(`VlanCookies.AcceptedStays`).

The result about both engines (`AniVlan.GemsOutliveFlows`) assumes nothing of the callers of the VLAN engine; any number of
adds may wait, time out and go on.

A request with an inner VLAN that does not filter on the outer VID gets a row whose outer priority code says that there is
no outer tag, so it takes frames with one tag and not with two (`EvtocdFrames.DoubleRequest`). A row with an inner VLAN
survives the withdrawal of its rule (`Evtocd.OwnRowGoneIff`, `EvtocdFrames.DoubleWithdrawn`).

Where code and comments disagree the code is followed: cleanup passes "was configured" for every removal, withdrawing a
double-tagged rule uses other filter words than installing it, an audit replays the OLT bitmap for alarms that only the OLT
knows, and buffered notifications are buffered once more instead of being applied.

`dafny verify dfyconfig.toml` checks the project.

## Model

| member | source | states |
|---|---|---|
| VlanModel.Normalize | internal/pkg/avcfg/omci_vlan_config.go:300-325 | a rule without VID filtering never pops a tag, ignores the match priority and never copies a priority; all other rules are stored as requested |
| VlanFsm.UniVlanConfigFsm.constructor | internal/pkg/avcfg/omci_vlan_config.go:326-349 | the engine after its first flow was stored and started |
| VlanFsm.UniVlanConfigFsm.EnterStartingState | internal/pkg/avcfg/omci_vlan_config.go:1165-1216 | first flow taken up, waits for its tech profile or configures the VTFD |
| VlanFsm.UniVlanConfigFsm.EnterConfigVtfdState | internal/pkg/avcfg/omci_vlan_config.go:1218-1281 | first filter entry, or none for a transparent rule |
| VlanFsm.UniVlanConfigFsm.EnterVlanConfigDone | internal/pkg/avcfg/omci_vlan_config.go:1330-1446 | removals first, then outstanding flows, then rest |
| VlanFsm.UniVlanConfigFsm.StartNextIncrement | internal/pkg/avcfg/omci_vlan_config.go:1396-1431 | next flow is the one at the configured counter; out of range is a crash |
| VlanFsm.UniVlanConfigFsm.EnterConfigIncrFlowState | internal/pkg/avcfg/omci_vlan_config.go:1448-1545 | one more filter entry, or none for a transparent rule |
| VlanFsm.UniVlanConfigFsm.SetUniFlowParams | internal/pkg/avcfg/omci_vlan_config.go:409-557 | an add for a rule under removal waits and marks the removal; otherwise the request is stored |
| VlanFsm.UniVlanConfigFsm.StoreCookies | internal/pkg/avcfg/omci_vlan_config.go:494-533 | a stored rule gets exactly the missing cookies in request order, or the request waits |
| VlanFsm.UniVlanConfigFsm.AppendNewFlow | internal/pkg/avcfg/omci_vlan_config.go:559-681 | rejection in reset states and above 64 flows, append and start otherwise |
| VlanFsm.UniVlanConfigFsm.DelayNewRuleForCookie | internal/pkg/avcfg/omci_vlan_config.go:755-774 | a delay is asked for if and only if no other one runs and the single cookie is not 0 and in some flow |
| VlanFsm.UniVlanConfigFsm.ReviseFlowConstellation | internal/pkg/avcfg/omci_vlan_config.go:789-840 | what a released add does to the store |
| VlanFsm.UniVlanConfigFsm.RemoveUniFlowParams | internal/pkg/avcfg/omci_vlan_config.go:847-926 | the first flow with the cookie loses it, or goes with its last cookie; no flow, no change |
| VlanFsm.UniVlanConfigFsm.RemoveRuleComplete | internal/pkg/avcfg/omci_vlan_config.go:930-1021 | removal queued and started, or a waiting configuration cancelled |
| VlanFsm.UniVlanConfigFsm.RemoveFlowFromParamsSlice | internal/pkg/avcfg/omci_vlan_config.go:1030-1104 | flow cut out of the slice and counters adjusted, or not found and nothing changed |
| VlanFsm.UniVlanConfigFsm.RemoveVlanFilter | internal/pkg/avcfg/omci_vlan_config.go:1643-1757 | filter list without the VID of the removed rule; crash when the copy back runs past slot 63 |
| VlanFsm.UniVlanConfigFsm.ShiftFilters | internal/pkg/avcfg/omci_vlan_config.go:1689-1754 | the two copy loops shift the later entries down by one and leave the rest |
| VlanFsm.UniVlanConfigFsm.CleanupRemovedFlow | internal/pkg/avcfg/omci_vlan_config.go:1775-1813 | first half of the cleanup; an add is woken if and only if the flow was found and its removal is marked, and the rest of the cleanup follows otherwise |
| VlanFsm.UniVlanConfigFsm.EnterVlanCleanupDone | internal/pkg/avcfg/omci_vlan_config.go:1814-1866 | second half: removal dropped, more work looked for; the tech-profile engine is signalled if and only if it asked and no removal is left, the waiting add if and only if its cookie went |
| VlanFsm.UniVlanConfigFsm.HandleRemovalAcked | internal/pkg/avcfg/omci_vlan_config.go:1625-1866 | filter, slice and state after an acknowledged removal, and exactly when the waiting add is woken, by its rule or its cookie, or the tech-profile engine signalled |
| VlanFsm.UniVlanConfigFsm.HandleEvtocdAcked | internal/pkg/avcfg/omci_vlan_config.go:2579-2586 | counter and state after the acknowledged EVTOCD exchange |
| VlanFsm.UniVlanConfigFsm.HandleTechProfReady | internal/pkg/core/device_handler.go:4228-4275 | the engine follows the step of the model for every completed tech profile |
| VlanFsm.UniVlanConfigFsm.IsFlowRemovePending | internal/pkg/avcfg/omci_vlan_config.go:3313-3327 | true exactly while removals are queued, and then the end of the last one is to be signalled |
| VlanRuns.FilterCut | internal/pkg/avcfg/omci_vlan_config.go:1643-1757 | removing an installed rule takes out one occurrence of its own VID, also through the single-entry shortcut, and zeros stay behind the list |
| VlanRuns.ShiftedIsCut | internal/pkg/avcfg/omci_vlan_config.go:1689-1754 | taking an entry out of the filter list keeps the others in their order |
| VlanRuns.FilterCutVid | internal/pkg/avcfg/omci_vlan_config.go:1649-1656 | the only entry of a one-entry list is the VID to remove |
| VlanRuns.NextFilter | internal/pkg/avcfg/omci_vlan_config.go:1473-1538 | appending keeps the list equal, as a multiset, to the VIDs of the configured rules, and there is room |
| VlanRuns.DoneKeeps | internal/pkg/avcfg/omci_vlan_config.go:1330-1446 | entering ConfigDone keeps the invariant and takes no reset or crash branch |
| VlanSteps.StoreKeeps | internal/pkg/avcfg/omci_vlan_config.go:484-681 | storing a request keeps rules distinct and cookie lists disjoint; only a single cookie that sits in another rule is delayed |
| VlanSteps.AddKeeps | internal/pkg/avcfg/omci_vlan_config.go:409-724 | every admissible add keeps the invariant |
| VlanSteps.ResumeRuleKeeps | internal/pkg/avcfg/omci_vlan_config.go:726-752 | so does an add resumed after its rule was removed |
| VlanSteps.ResumeCookieKeeps | internal/pkg/avcfg/omci_vlan_config.go:775-840 | so does an add released by the deletion of its cookie |
| VlanSteps.TimeoutKeeps | internal/pkg/avcfg/omci_vlan_config.go:726-752 | so does a wait that times out, wherever the mark of the removal is taken back; an add that waited for its cookie must find it free |
| VlanSteps.DropCookieKeeps | internal/pkg/avcfg/omci_vlan_config.go:869-903 | removing one cookie of several keeps it, also when it is the awaited one |
| VlanSteps.QueueKeeps | internal/pkg/avcfg/omci_vlan_config.go:930-1021 | queued removals always name different installed rules that still hold their cookie |
| VlanSteps.CancelKeeps | internal/pkg/avcfg/omci_vlan_config.go:976-999 | cancelling in WaitingTechProf keeps it |
| VlanSteps.EvtocdAckKeeps | internal/pkg/avcfg/omci_vlan_config.go:2579-2586 | an acknowledged rule is the next one of the slice |
| VlanSteps.TechProfKeeps | internal/pkg/core/device_handler.go:4228-4275 | tech-profile completion keeps it |
| VlanSteps.RemoveAckKeeps | internal/pkg/avcfg/omci_vlan_config.go:1625-1866 | an acknowledged removal takes exactly its own rule out of slice, filter list and ONU |
| VlanSteps.RemoveAckOverrun | internal/pkg/avcfg/omci_vlan_config.go:1751-1753 | with all slots in use it crashes |
| VlanSteps.CleanupRestKeeps | internal/pkg/avcfg/omci_vlan_config.go:1814-1866 | the second half of a cleanup keeps it and releases only an add whose cookie is free |
| VlanTheorems.StepStaysLive | internal/pkg/avcfg/omci_vlan_config.go:224-257 | under every admissible step a live engine stays live, never resets itself, and crashes exactly on the full filter list |
| VlanTheorems.StepListsRemoval | internal/pkg/avcfg/omci_vlan_config.go:1625-1866 | every step, admissible or not, keeps the removal list non-empty while a removal or its cleanup runs |
| VlanTheorems.RunKeepsInv | internal/pkg/avcfg/omci_vlan_config.go:224-257 | the invariant holds after every admissible run |
| VlanTheorems.ReachableStore | internal/pkg/avcfg/omci_vlan_config.go:450-557 | in every reachable state the ONU holds exactly the first ConfiguredUniFlow flows, NumUniFlows is the length of the slice, rules are distinct, cookie lists non-empty and disjoint |
| VlanTheorems.AtRest | internal/pkg/avcfg/omci_vlan_config.go:1382-1407 | at rest in ConfigDone all flows are installed in slice order, at most 64, and nothing is queued |
| VlanTheorems.FiltersAtRest | internal/pkg/avcfg/omci_vlan_config.go:1241-1246 | at rest the filter list is, VID by VID, the multiset of SetVids of the installed filtering rules, zeros behind |
| VlanTheorems.RemovalHitsItsVid | internal/pkg/avcfg/omci_vlan_config.go:1649-1656 | whenever a removal runs, its rule is installed, its VID is listed, and a single entry is that VID |
| VlanTheorems.CrashIff | internal/pkg/avcfg/omci_vlan_config.go:628-639 | a run without external reset ends crashed if and only if some removal met 64 filters, and live otherwise; so every slice access at ConfiguredUniFlow is in range |
| VlanProgress.WaitsForNextFlow | internal/pkg/avcfg/omci_vlan_config.go:1165-1216 | while the engine waits for a tech profile, the one it waits for is that of the next flow to configure, which it holds |
| VlanProgress.TechProfIff | internal/pkg/core/device_handler.go:4240-4256 | a completed tech profile moves a waiting engine on if and only if it is that of its own flow, to the VTFD or the EVTOCD exchange; in every other state it changes nothing |
| VlanProgress.TechProfContinues | internal/pkg/core/device_handler.go:4228-4275 | the same in every state that a run from creation on reaches |
| VlanProgress.TakenUpIff | internal/pkg/avcfg/omci_vlan_config.go:1396-1431 | whenever a step takes up a flow, the engine waits if and only if the tech profile was not reported as done |
| VlanProgress.AddHasItsEffect | internal/pkg/avcfg/omci_vlan_config.go:409-681 | how an add ends and what it leaves: it waits for its rule exactly while a removal of it is queued, for its cookie exactly if another rule has it, is rejected exactly at 64 flows, and otherwise its cookies are in its rule and nothing else has changed |
| VlanProgress.RuleGoneEffect | internal/pkg/avcfg/omci_vlan_config.go:726-752 | the same for an add that goes on after the removal of its rule |
| VlanProgress.CookieGoneEffect | internal/pkg/avcfg/omci_vlan_config.go:775-840 | the same for an add that goes on after its cookie was freed |
| VlanProgress.MissingInOrder | internal/pkg/avcfg/omci_vlan_config.go:494-533 | missing cookies are added in the order of the request |
| VlanProgress.RemoveHasItsEffect | internal/pkg/avcfg/omci_vlan_config.go:847-1021 | an unknown cookie changes nothing; a cookie leaves its flow and no other; with the last cookie the removal is queued last and started at rest, or a waiting flow is cancelled |
| VlanProgress.RemovedIsGone | internal/pkg/avcfg/omci_vlan_config.go:1625-1866 | after an acknowledged removal nobody has its rule or its cookie, the ONU does not have the rule, and the other flows keep their order |
| VlanProgress.ResetEffect | internal/pkg/avcfg/omci_vlan_config.go:1880-1930 | a reset keeps the flow data, aborts a waiting add and frees its cookie; it is lost while the engine waits for a tech profile with flows installed |
| VlanProgress.TimeoutEffect | internal/pkg/avcfg/omci_vlan_config.go:726-793 | what a wait that takes too long leaves |
| VlanDrain.AnswersAreFew | internal/pkg/avcfg/omci_vlan_config.go:224-257 | every answer the engine waits for brings it closer to rest, so no run of answers is longer than the bound, and none changes which flows will remain |
| VlanDrain.RestIff | internal/pkg/avcfg/omci_vlan_config.go:1330-1446 | no answer is waited for if and only if the engine is at rest |
| VlanDrain.AnsweredIsInstalled | internal/pkg/avcfg/omci_vlan_config.go:1330-1446 | when all answers have come, the ONU has exactly the flows that nobody removed, in their order |
| VlanDrain.WokenAtRest | internal/pkg/avcfg/omci_vlan_config.go:1775-1866 | and the waiting add was woken if and only if a queued removal was marked for it or took its cookie |
| VlanDrain.AnswersDoNotPanic | internal/pkg/avcfg/omci_vlan_config.go:1643-1757 | below 64 flows no run of answers panics |
| VlanDrain.ComesToRest | internal/pkg/avcfg/omci_vlan_config.go:1330-1446 | from every state that a run from creation on reaches with fewer than 64 flows: answers lead to rest, in boundedly many steps, with exactly the remaining flows installed |
| VlanLimits.CleanupPrefixIff | internal/pkg/avcfg/omci_vlan_config.go:1798 | cleanup leaves the installed rules a prefix if and only if the removed flow was configured or none was |
| VlanLimits.CutCounts | internal/pkg/avcfg/omci_vlan_config.go:1030-1104 | a cut takes the first flow with the cookie and adjusts both counters, and fails exactly behind a flow without cookies |
| VlanLimits.CancelResetsIff | internal/pkg/avcfg/omci_vlan_config.go:976-999 | a cancelled configuration resets the engine if and only if a flow without cookies comes before it |
| VlanLimits.DelayAskedIff | internal/pkg/avcfg/omci_vlan_config.go:755-774 | for every engine and cookie list: exactly when a delay is asked for |
| VlanLimits.CleanupResetsIff | internal/pkg/avcfg/omci_vlan_config.go:1798-1807 | cleanup resets the engine if and only if no stored flow has the cookie of the removal |
| VlanLimits.SharedCookieIff | internal/pkg/avcfg/omci_vlan_config.go:488-557 | for every request: a cookie gets into two rules if and only if the request is written although it names a cookie of another rule; with good cookies the whole store invariant is kept on the same condition |
| VlanLimits.SharedByAddIff | internal/pkg/avcfg/omci_vlan_config.go:450-557 | the same for a whole add step, where a rule under removal makes the request wait |
| VlanLimits.ResumeIff | internal/pkg/avcfg/omci_vlan_config.go:807-840 | whenever a released add goes on, the store stays sound if and only if its cookie is free at that moment, or it writes nothing |
| VlanLimits.ReleaseIff | internal/pkg/avcfg/omci_vlan_config.go:1842-1852 | from the deletion of the awaited cookie on: the same condition when the add goes on at once |
| VlanLimits.TimeoutIff | internal/pkg/avcfg/omci_vlan_config.go:775-793 | the same condition for an add that goes on because it waited too long |
| VlanLimits.ReleasedTooEarly | internal/pkg/avcfg/omci_vlan_config.go:1842-1852 | an add that waits, in the middle of a cleanup, for the cookie being deleted breaks the store if and only if its rule is written |
| VlanLimits.RemovalTakesOneCookieIff | internal/pkg/avcfg/omci_vlan_config.go:1047-1057 | an acknowledged removal leaves every other stored cookie in place if and only if its rule has no other cookie by then |
| VlanLimits.FullListPanics | internal/pkg/avcfg/omci_vlan_config.go:1751-1753 | any 64 different filtering rules, once installed, make the first acknowledged removal panic |
| VlanRaces.QueuedRemovalBreaksPrefix | internal/pkg/avcfg/omci_vlan_config.go:1798 | a run from creation on: after the removal of a queued flow no flow counts as configured while one is installed |
| VlanRaces.RemovedTwiceResets | internal/pkg/avcfg/omci_vlan_config.go:1798-1807 | a run from creation on: two removals of one cookie reset the engine |
| VlanRaces.RaceSharesCookie | internal/pkg/avcfg/omci_vlan_config.go:1808-1852 | a run from creation on: a rule removed and requested again, and a second rule in the middle of the cleanup, end with one cookie in two rules |
| VlanRaces.OvertakenSharesCookie | internal/pkg/avcfg/omci_vlan_config.go:794-840 | a run from creation on: another rule takes the freed cookie before the released add goes on, and both end with it |
| VlanRaces.AcceptedCookieIsLost | internal/pkg/avcfg/omci_vlan_config.go:1047-1057 | a fully admissible run from creation on: an accepted cookie that nobody deletes goes with its rule |
| VlanCookies.StepCarriesIff | internal/pkg/avcfg/omci_vlan_config.go:807-840 | for every step: rules under removal keep only their deleted cookie if and only if no waiting add writes to one of them; a held cookie stays held unless its removal is asked for |
| VlanCookies.CookiesAreKept | internal/pkg/avcfg/omci_vlan_config.go:1030-1105 | over every admissible run without such an add, a held cookie stays held until its removal is asked for |
| VlanCookies.AcceptedIff | internal/pkg/avcfg/omci_vlan_config.go:807-840 | a cookie reported as stored is held, with no removal that takes it, if and only if its rule was not under removal when the waiting add went on |
| VlanCookies.RunStaysAlone | internal/pkg/avcfg/omci_vlan_config.go:1035-1057 | over every admissible run without such an add, the doubted cookie list of another length is never met |
| VlanCookies.AcceptedStays | internal/pkg/avcfg/omci_vlan_config.go:409-557 | from creation on: a cookie accepted in time stays in the store over everything that follows until its removal is asked for |
| Evtocd.FilterRoundTrip | internal/pkg/avcfg/omci_vlan_config.go:58-68 | filter words decode to the packed fields |
| Evtocd.TreatRoundTrip | internal/pkg/avcfg/omci_vlan_config.go:58-68 | treatment words decode to the packed fields |
| Evtocd.Put32 | internal/pkg/avcfg/omci_vlan_config.go:2374-2390 | big-endian write of one word, nothing else changed |
| Evtocd.EncodeRow | internal/pkg/avcfg/omci_vlan_config.go:69-75 | the 16 bytes of a row decode back to the row |
| Evtocd.SingleKeyDecodes | internal/pkg/avcfg/omci_vlan_config.go:2369-2379 | the filter words of a translation row decode to the match fields of its rule |
| Evtocd.SingleTreatDecodes | internal/pkg/avcfg/omci_vlan_config.go:2381-2390 | the treatment words decode to the set fields of its rule |
| Evtocd.RowsAreNotDeletes | internal/pkg/avcfg/omci_vlan_config.go:2369-2420 | no installed row is mistaken for a delete; what the rows do is stated by the rows of EvtocdFrames |
| Evtocd.SingleRoundTrip | internal/pkg/avcfg/omci_vlan_config.go:2657-2679 | withdrawing a single-tagged rule removes exactly the row that installing set |
| Evtocd.OwnRowGoneIff | internal/pkg/avcfg/omci_vlan_config.go:2680-2700 | withdrawing leaves no row of a rule behind if and only if it has no inner VLAN, apart from the reset default row |
| EvtocdTable.RowsMeaning | internal/pkg/avcfg/omci_vlan_config.go:2355-2390 | the table of rows read key by key |
| EvtocdTable.TableIsInstalled | internal/pkg/avcfg/omci_vlan_config.go:2355-2390 | with incremental rows and different matches the table equals the rows of the installed rules after every run |
| EvtocdTable.TableAfterRun | internal/pkg/avcfg/omci_vlan_config.go:2657-2679 | the same from creation on: a row is there if and only if it was before or belongs to an installed rule, with the treatment of that rule |
| EvtocdFrames.StackingTags | internal/pkg/avcfg/omci_vlan_config.go:2450-2576 | without incremental rows exactly untagged and priority-tagged frames match, and leave with one tag that carries SetVid |
| EvtocdFrames.TranslationTags | internal/pkg/avcfg/omci_vlan_config.go:2363-2390 | a translation row matches exactly the frames its rule asks for (one fitting tag, or untagged when it filters on no tag), and a matching frame leaves with one tag with SetVid and the set or copied priority |
| EvtocdFrames.DoubleTags | internal/pkg/avcfg/omci_vlan_config.go:2392-2427 | for a rule with an inner VLAN: the table takes exactly the frames with the asked outer priority, outer VID and inner VID on two tags (or, with the code for no outer tag, one tag with the inner VID), and each leaves with a new outer tag with SetVid and its old outer priority over the tags that stay |
| EvtocdFrames.OuterVidReplaced | internal/pkg/avcfg/omci_vlan_config.go:2408-2417 | with one tag removed and a plain VID, such a frame leaves as its outer priority with SetVid, and its inner tag unchanged |
| EvtocdFrames.DoubleRequest | internal/pkg/avcfg/omci_vlan_config.go:300-325 | which frames the row of an incremental request with an inner VLAN takes, from the request itself |
| EvtocdFrames.TransparentPasses | internal/pkg/avcfg/omci_vlan_config.go:2300-2322 | the row of a transparent rule takes every single-tagged frame and leaves it as it is, and so does the row that withdrawing sets |
| EvtocdFrames.StackingWithdrawn | internal/pkg/avcfg/omci_vlan_config.go:2729-2880 | without incremental rows the last flow deletes the whole table; otherwise untagged frames pass unchanged, the priority-tagged row is gone and all other rows stay |
| EvtocdFrames.DoubleWithdrawn | internal/pkg/avcfg/omci_vlan_config.go:2680-2700 | withdrawing a rule with an inner VLAN takes out no row that takes a tagged frame |
| EvtocdEffect.FrameAfterRun | internal/pkg/avcfg/omci_vlan_config.go:2355-2390 | after every clean run, for every frame: each row that takes it was there before or belongs to an installed rule that asks for it, and each such rule has a row that gives the frame one tag with SetVid and its priority |
| EvtocdEffect.FrameTakenIff | internal/pkg/avcfg/omci_vlan_config.go:2355-2390 | on an empty table: a frame is taken if and only if an installed rule asks for it |
| EvtocdEffect.NormalizedIsPlain | internal/pkg/avcfg/omci_vlan_config.go:300-325 | every incremental request with a plain VID and priority to set is of the kind these two results cover |
| EvtocdModes.DoubleAfterRun | internal/pkg/avcfg/omci_vlan_config.go:2392-2427 | after every run with rules of both kinds and different matches: each installed rule with an inner VLAN has its row, which treats every frame it asks for as asked |
| EvtocdModes.EmptyAfterLast | internal/pkg/avcfg/omci_vlan_config.go:2729-2880 | without incremental rows, after every run: nothing installed means an empty table |
| EvtocdModes.StackingAfterRun | internal/pkg/avcfg/omci_vlan_config.go:2450-2576 | without incremental rows, after every run in which no two rules were installed at once: the installed rule gives exactly the untagged and priority-tagged frames one tag with its VID |
| Alarms.ProcessedInStep | internal/pkg/almgr/alarm_manager.go:643-713 | after a fully processed notification active alarms and set bits agree and raises and clears alternate |
| Alarms.TraceInStep | internal/pkg/almgr/alarm_manager.go:547-557 | so they do in every state between a start and the next stop |
| Alarms.PlannedNext | internal/pkg/almgr/alarm_manager.go:919-953 | replaying one more entity changes that entity only |
| Alarms.PlannedUnique | internal/pkg/almgr/alarm_manager.go:919-953 | every visiting order leads to the same database and active alarms |
| Alarms.ResyncAdoptsOnu | internal/pkg/almgr/alarm_manager.go:257-290 | every reported entity with a known ME gets the bitmap of the ONU, every other keeps its entry, and the views stay in step |
| AlarmManager.NextSequence | internal/pkg/almgr/alarm_manager.go:785-792 | notification numbers run from 1 to 255 and wrap to 1 |
| AlarmManager.RestartInStepIff | internal/pkg/almgr/alarm_manager.go:549-554 | a second start without stop keeps the views in step if and only if no alarm was active |
| AlarmManager.OnuAlarmManager.RaiseAlarm | internal/pkg/almgr/alarm_manager.go:689-697 | alarm active and raise notice sent |
| AlarmManager.OnuAlarmManager.ClearAlarm | internal/pkg/almgr/alarm_manager.go:699-713 | alarm inactive, clear notice sent, zero bitmap dropped |
| AlarmManager.OnuAlarmManager.ProcessAlarmData | internal/pkg/almgr/alarm_manager.go:599-687 | error cases, buffering during audits, sequence check and effect of a processed notification; within a session both views stay in step |
| AlarmManager.OnuAlarmManager.CompareAll | internal/pkg/almgr/alarm_manager.go:643-685 | the loop over the supported alarms has the same effect in every order |
| AlarmManager.OnuAlarmManager.Resynchronize | internal/pkg/almgr/alarm_manager.go:257-290 | the three difference loops and the buffered ones amount to one plan, whatever the order |
| AlarmManager.OnuAlarmManager.ReplayBuffered | internal/pkg/almgr/alarm_manager.go:955-963 | buffered notifications change neither bitmaps nor active alarms; those of known entities are buffered once more, in their order |
| AlarmManager.OnuAlarmManager.Start | internal/pkg/almgr/alarm_manager.go:547-571 | bitmaps dropped, active alarms kept; both views in step if and only if none was active, as after a stop |
| AlarmManager.OnuAlarmManager.Stop | internal/pkg/almgr/alarm_manager.go:361-370 | active alarms, bitmaps and counters dropped |
| AlarmManager.OnuAlarmManager.EnterAuditing | internal/pkg/almgr/alarm_manager.go:234-252 | copies, buffer and counters reset |
| AlarmManager.OnuAlarmManager.HandleGetAllAlarmsResponse | internal/pkg/almgr/alarm_manager.go:399-467 | ignored when disabled; otherwise total stored, snapshot taken, first request sent or upload finished; from Auditing to Resynchronizing if and only if the tables differ, to InSync if and only if not, and the failing count |
| AlarmManager.OnuAlarmManager.HandleGetAllAlarmsNextResponse | internal/pkg/almgr/alarm_manager.go:469-544 | entries stored and counted, next request sent or upload finished; from Auditing to Resynchronizing if and only if the tables differ, to InSync if and only if not |
| AlarmManager.OnuAlarmManager.FinishUpload | internal/pkg/almgr/alarm_manager.go:445-459 | the comparison of the tables and the transition it leads to in every state |
| AlarmManager.OnuAlarmManager.FailUpload | internal/pkg/almgr/alarm_manager.go:188-193 | a failure starts a new audit out of a resynchronisation and changes nothing else |
| AlarmUpload.UploadProgress | internal/pkg/almgr/alarm_manager.go:487-516 | request k carries the number of entries received before it, and the upload waits exactly while entries are missing, also when the last reply brings more than were announced |
| AlarmUpload.UploadTerminates | internal/pkg/common/omci_cc.go:1119-1150 | at most N replies, never the invalid-count failure, finished exactly with at least N entries, baseline requests numbered 0 to N-1 and N entries |
| AlarmUpload.CollectIsLast | internal/pkg/almgr/alarm_manager.go:487-513 | the copy of the ONU table is the last bitmap of each key |
| AlarmUpload.CountFailsIff | internal/pkg/almgr/alarm_manager.go:461-466 | the upload fails if and only if a count other than 0 is announced that was reached already |
| AlarmUpload.AuditEndsIn | internal/pkg/almgr/alarm_manager.go:517-541 | after any number of replies: auditing while entries are missing, resynchronising if and only if the reported table differs from the stored one, in sync otherwise |
| AlarmUpload.AuditAdoptsOnu | internal/pkg/almgr/alarm_manager.go:234-290 | a whole audit, with the resynchronisation that the state machine reaches, ends with the last reported bitmap for every reported known entity and leaves the others |
| AniMapper.BuildMapper | internal/pkg/avcfg/omci_ani_config.go:824-877 | the loops compute first-claim pointers and whether any exists |
| AniMapper.FirstClaimIsFirst | internal/pkg/avcfg/omci_ani_config.go:826-857 | a priority maps to the first unicast GEM port that claims it |
| AniMapper.MapperOrderIndependent | internal/pkg/avcfg/omci_ani_config.go:826-857 | with disjoint claims every visiting order gives the same mapper |
| AniMapper.BuildQueues | internal/pkg/avcfg/omci_ani_config.go:1882-1899 | the loop computes the queue weights and the order in which queues are met |
| AniMapper.StrictIff | internal/pkg/avcfg/omci_ani_config.go:1882-1899 | a queue is set up if and only if a unicast port uses it and strict if and only if one of them is not WRR, in every order |
| AniMapper.WeightIsFirst | internal/pkg/avcfg/omci_ani_config.go:1890-1894 | a weighted queue has the weight of its first user |
| AniMapper.SelectQueues | internal/pkg/avcfg/omci_ani_config.go:1945-1974 | the loop over the ordered queues passes over the strict ones where the scheduler cannot be pointed to |
| AniMapper.QueueSetIff | internal/pkg/avcfg/omci_ani_config.go:1945-1974 | a queue is set if and only if a unicast port uses it and the scheduler can be pointed to or all unicast ports that use it are WRR |
| AniMapper.QueuesInOrder | internal/pkg/avcfg/omci_ani_config.go:1882-1899 | each queue once, and in the order of first use |
| AniMapper.QueueAttributesRight | internal/pkg/avcfg/omci_ani_config.go:1945-1985 | a queue with a strict user is taken off the traffic scheduler; any other gets the weight of its first user, and the scheduler where it can be pointed to |
| AniFsm.RunKeeps | internal/pkg/avcfg/omci_ani_config.go:203-252 | for every sequence of inputs each Create and Set points at the right entities and only at acknowledged ones, the mapper only at GEM IWTPs, and a GEM IWTP is deleted only when no flow removal was reported |
| AniFsm.EveryMessageIsSound | internal/pkg/avcfg/omci_ani_config.go:1682-1865 | message by message: right pointers, acknowledged targets, gated deletes |
| AniFsm.ConfigResponseKeeps | internal/pkg/avcfg/omci_ani_config.go:1436-1459 | a response keeps this, and a configuration that ends has everything acknowledged |
| AniFsm.MapperResponseCompletes | internal/pkg/avcfg/omci_ani_config.go:1518-1560 | the same for the mapper response |
| AniFsm.MapperFollowsClaims | internal/pkg/avcfg/omci_ani_config.go:859-877 | the mapper message points each priority at its first claimant and unclaimed ones at 0xFFFF |
| AniScript.RunFollows | internal/pkg/avcfg/omci_ani_config.go:203-252 | for every sequence of inputs: while a profile is configured, what was sent ends with its script, a list computed from the setup alone, up to the open request |
| AniScript.AnswerAdvances | internal/pkg/avcfg/omci_ani_config.go:1422-1577 | the answer to the open request sends the next request of the script or ends the configuration after the last one; any other answer changes nothing |
| AniScript.WholeScriptSent | internal/pkg/avcfg/omci_ani_config.go:203-252 | whenever an answer ends a configuration, in any run, the whole script was sent; the profile is given up exactly if its T-CONT is new and its queue data cannot be read |
| AniScript.Configures | internal/pkg/avcfg/omci_ani_config.go:1682-1985 | a start and one answer to each request take the profile through its whole script with nothing else sent |
| AniScript.ScriptQueues | internal/pkg/avcfg/omci_ani_config.go:1867-1985 | between the interworking TPs and the mapper exactly these queues are set: those of unicast ports that can be set, each once, in order of first use, and none for a known T-CONT |
| AniScript.ScriptQueueAttributes | internal/pkg/avcfg/omci_ani_config.go:1945-1985 | and with these attributes |
| AniScript.TableFollowsCreate | internal/pkg/avcfg/omci_ani_config.go:1794-1822 | each create of a multicast interworking TP is followed at once by one Set of its address table, and there is no other such Set |
| AniScript.ScriptCreatesIff | internal/pkg/avcfg/omci_ani_config.go:1748-1865 | an interworking TP is created for exactly the unicast ports, and for the multicast ports unless configured elsewhere |
| AniMachine.UniPonAniConfigFsm.PerformCreatingGemNCTPs | internal/pkg/avcfg/omci_ani_config.go:1682-1737 | next CTP create of the loop, or the next phase |
| AniMachine.UniPonAniConfigFsm.PerformCreatingGemIWs | internal/pkg/avcfg/omci_ani_config.go:1748-1865 | next interworking TP create, multicast ports configured elsewhere skipped |
| AniMachine.UniPonAniConfigFsm.PerformSettingPQs | internal/pkg/avcfg/omci_ani_config.go:1867-1985 | queues skipped for a known T-CONT, reset without QoS data, else the selected ones set one by one with their attributes |
| AniMachine.UniPonAniConfigFsm.EnterSettingDot1PMapper | internal/pkg/avcfg/omci_ani_config.go:810-932 | the mapper is set with the eight pointers that the loops computed, or nothing is sent when no priority is claimed |
| AniMachine.UniPonAniConfigFsm.RemoveGemIW | internal/pkg/avcfg/omci_ani_config.go:969-1036 | gate on pending flow removals |
| AniMachine.UniPonAniConfigFsm.Remove1pMapper | internal/pkg/avcfg/omci_ani_config.go:1215-1271 | removal ends early while other unicast ports are stored |
| AniMachine.UniPonAniConfigFsm.IsTechProfileConfigCleared | internal/pkg/avcfg/onu_uni_tp.go:539-565 | true exactly for a stored profile without unicast ports or alloc id, which is then dropped and its state machine reset |
| AniMachine.UniPonAniConfigFsm.HandleCreateResponse | internal/pkg/avcfg/omci_ani_config.go:1422-1482 | only a create response to the last request moves a state that accepts its event |
| AniMachine.UniPonAniConfigFsm.HandleSetResponse | internal/pkg/avcfg/omci_ani_config.go:1512-1577 | the same for set responses |
| AniMachine.UniPonAniConfigFsm.HandleDeleteResponse | internal/pkg/avcfg/omci_ani_config.go:1579-1651 | the same for delete responses |
| AniMachine.UniPonAniConfigFsm.DeleteTpResource | internal/pkg/avcfg/onu_uni_tp.go:354-420 | a stored GEM port is removed from ConfigDone only, through the gate on pending flow removals |
| AniMachine.UniPonAniConfigFsm.HandleFlowWait | internal/pkg/avcfg/omci_ani_config.go:1039-1107 | the end of a wait asks the gate again, an abort resets |
| AniMachine.UniPonAniConfigFsm.Handle | internal/pkg/avcfg/omci_ani_config.go:203-252 | the object follows the transition function for every event |
| AniRemoval.OneRemoval | internal/pkg/avcfg/omci_ani_config.go:223-232 | one removal sends three deletes, and mapper and bridge port deletes exactly for the last unicast port, however often it waited |
| AniRemoval.AllRemovals | internal/pkg/avcfg/onu_uni_tp.go:354-448 | removing all unicast ports in any order sends their deletes and then one mapper and one bridge-port delete |
| AniRemoval.CountGemDeletes | internal/pkg/avcfg/omci_ani_config.go:223-232 | n IWTP, n CTP and n TD deletes, one for each port |
| AniRemoval.ClearedAtEnd | internal/pkg/avcfg/onu_uni_tp.go:539-563 | along the run of removals the profile counts as cleared after k of n removals if and only if k is n |
| AniFsm.Cleared | internal/pkg/avcfg/onu_uni_tp.go:539-563 | a profile is cleared if and only if its T-CONT is released or only multicast ports are stored |
| AniMoves.ConfigurationMoves | internal/pkg/avcfg/omci_ani_config.go:203-252 | a configuration moves by the answer to its open request, a retry or a reset, and by nothing else |
| AniMoves.RemovalMoves | internal/pkg/avcfg/omci_ani_config.go:223-232 | a removal moves by the answer to its open delete, a retry or a reset; after the third delete it ends while other unicast ports are stored, and goes on to mapper and bridge port otherwise |
| AniMoves.WaitMoves | internal/pkg/avcfg/omci_ani_config.go:1039-1107 | a removal that waits for the VLAN engine asks again or is given up |
| AniMoves.RestMoves | internal/pkg/avcfg/onu_uni_tp.go:354-448 | at rest only the removal of a stored port, the release of the T-CONT and a reset have an effect |
| AniMoves.DisabledMoves | internal/pkg/avcfg/omci_ani_config.go:203-252 | a disabled engine is moved by the start of a valid profile only |
| AniMoves.TcontMoves | internal/pkg/avcfg/omci_ani_config.go:203-252 | the release of a T-CONT ends with its answer, back at rest |
| AniMoves.RunMoves | internal/pkg/avcfg/omci_ani_config.go:203-252 | all this over every sequence of inputs |
| AniMoves.RemovalsAreOfStoredPorts | internal/pkg/avcfg/onu_uni_tp.go:354-448 | in every run a removal under way is of a port that the setup brought and that is still stored, and what was sent ends with its deletes in order |
| AniVlan.GemsOutliveFlows | internal/pkg/avcfg/omci_ani_config.go:979-1087 | in every interleaving of both engines, whatever is asked of the VLAN engine and however many adds wait and go on, a GEM IWTP is deleted only while no flow removal is queued or under way |
| AniVlan.FromScratch | internal/pkg/avcfg/omci_vlan_config.go:3313-3327 | the same from the start of both engines |
| OmciTid.TidAllocator.GetNextTid | internal/pkg/common/omci_cc.go:772-792 | current id of the priority, counter moved on |
| OmciTid.TidAllocator.GetOnuSwSecNextTid | internal/pkg/common/omci_cc.go:797-804 | section id, wrapped before it is taken; the counter moves on by one and the id is a low one |
| OmciTid.CountersAfter | internal/pkg/common/omci_cc.go:772-792 | counters after any interleaving in terms of the number of calls |
| OmciTid.IdsAreDistinct | internal/pkg/common/omci_cc.go:772-792 | ids stay in their ranges, 0 is never issued, and ids within one round are distinct |
| OmciTid.SectionLastIsNext | internal/pkg/common/omci_cc.go:797-812 | the last section id is the one just issued |
| OmciTid.MixedIdIff | internal/pkg/common/omci_cc.go:797-804 | mixing the allocators leaves the low range if and only if the section got 0x7FFF |
| OmciTid.SectionsConsecutive | internal/pkg/common/omci_cc.go:797-804 | section ids are consecutive from the current counter and go round within 1 to 0x7FFF |
| OmciTid.SectionsDistinct | internal/pkg/common/omci_cc.go:797-804 | within one round no two sections get the same id |
| OmciTid.MixedIds | internal/pkg/common/omci_cc.go:772-812 | in any mix of calls: sections get low ids, and an ordinary low-priority call gets a high one, 0x8000, if and only if the last call on its counter was a section that got 0x7FFF |
| OmciTransmit.OmciCC.SendQueuedHighPrioRequests | internal/pkg/common/omci_cc.go:642-673 | drained first in first out; success if and only if no send failed, with the queue found empty; a failure is the last departure, and every departure has the fate of its moment |
| OmciTransmit.OmciCC.SendQueuedLowPrioRequests | internal/pkg/common/omci_cc.go:675-739 | the same for the low queue, each send right after the high queue was observed empty; only a failed send leaves requests behind |
| OmciTransmit.OmciCC.SendQueuedRequests | internal/pkg/common/omci_cc.go:623-640 | both drains: success if and only if no send failed, and then everything that arrived has left; without a failing moment there is success |
| OmciTransmit.DrainedMore | internal/pkg/common/omci_cc.go:689-739 | drains one after the other are one drain: what arrived is what the moments brought, and the first failure is the last send |
| OmciTransmit.DepartSound | internal/pkg/common/omci_cc.go:642-739 | one departure keeps both queues first in first out, the priority, and the fate of every send |
| OmciTransmit.HighFirstSnoc | internal/pkg/common/omci_cc.go:728-734 | how a departure extends the log without breaking the priority |
| OmciTransmit.ObservedBetween | internal/pkg/common/omci_cc.go:728-734 | between two low-priority sends all high-priority requests that had arrived were gone |
| OmciSupervision.SupervisionBounds | internal/pkg/common/omci_cc.go:5081-5165 | at most retries+1 enqueues; timed out if and only if all of them were made and timed out |
| OmciSupervision.SupervisionExact | internal/pkg/common/omci_cc.go:5081-5165 | enqueues, retries, timeouts and elapsed time, exactly, from the attempt at which the request stops |
| OmciSupervision.DefaultRetriesInTime | internal/pkg/common/omci_cc.go:5185-5189 | default retries take strictly less than GetMaxOmciTimeoutWithRetries |
| OmciSupervision.Supervisor.SendWithRxSupervision | internal/pkg/common/omci_cc.go:5081-5165 | the loop does exactly that and leaves no monitored entry |
| EntityIds.MapperId | internal/pkg/common/utils.go:121-129 | rejects exactly the inputs out of range, and gives the mixed-radix id without wrap |
| EntityIds.AniPortId | internal/pkg/common/utils.go:132-140 | rejects exactly the inputs out of range, and gives the mixed-radix id without wrap |
| EntityIds.UniPortId | internal/pkg/common/utils.go:143-148 | rejects exactly the bridge ports out of range, and offsets the others without wrap |
| EntityIds.McastPortId | internal/pkg/common/utils.go:151-157 | rejects exactly the bridge ports out of range, and offsets the others without wrap |
| EntityIds.AniPortNo | internal/pkg/common/utils.go:188-193 | port number within the range |
| EntityIds.IdInverse | internal/pkg/common/utils.go:121-140 | no 16-bit wrap on accepted inputs, and division gives bridge port and tech profile back |
| EntityIds.IdInjective | internal/pkg/common/utils.go:121-140 | different inputs get different ids |
| EntityIds.RangesDisjoint | internal/pkg/common/defines.go:311-327 | UNI, multicast and ANI bridge-port ids never meet |
| EntityIds.VoipSharesMapperRange | internal/pkg/common/defines.go:319-327 | voice UNI ids do coincide with mapper ids, and with which ones |
| EntityIds.AsByteSlice | internal/pkg/common/utils.go:64-82 | the bytes have the value of the bit string; other characters panic |

## Left out

- Reconcile mode (`IsSkipOnuConfigReconciling`, `reconcileVlanFilterList`, the skip events), the KV store, response channels, meters and traffic descriptor creation, and multicast subscriber MEs: inputs or outputs around the modelled state.
- Blocking: a removal marked for an add that has given up makes the cleanup wait on its channel; the model lets the cleanup go on at any later time, so it says nothing about when.
- `updateTechProfileToDelete` and the deletion marks of tech profiles.
- EvtocdTable.TableIsInstalled: only for incremental, single-tagged, non-transparent rules with different matches; for double-tagged rules it is false, see Evtocd.OwnRowGoneIff; what does hold for them is EvtocdModes.DoubleAfterRun.
- EvtocdModes.StackingAfterRun: with two rules installed at once the rows of the later one replace those of the earlier, and its withdrawal does not bring them back.
- EvtocdTable: rows that the ONU creates by itself are covered as an arbitrary initial table.
- EvtocdFrames: TPID and DEI of tags, downstream treatment, and which row the ONU prefers when rows with wildcards overlap.
- AniFsm.RunKeeps: priority queues and traffic schedulers exist on the ONU from the start, so pointers to them are not claimed to follow an acknowledgement; a T-CONT set by an earlier run counts as acknowledged.
- AniFsm: parsing of the tech profile (`parseAndValidateTechProfileConfig`), T-CONT allocation, and responses with an error code, which change nothing.
- AniFsm: traffic management attributes of CTPs, and the contents of the multicast address table.
- AlarmManager: a request that cannot be sent, and a resynchronisation while the manager is stopped.
- VlanFsm: the case of a signal to the tech-profile engine whose channel is in use already.
- Alarms: a bitmap is the set of its set bits; the bit tests of the OMCI library are taken as a complementary pair that does not fail for supported alarms.
- AlarmUpload: unanswered requests, and uploads of 65536 entries or more, where the 16-bit count wraps.
- OmciTransmit: deletion of the device during a drain, software-section windows, and the callback map.
- OmciSupervision: time is spent only in the wait of each attempt.
- Mutexes: lock sections are atomic steps, so paths that return with a lock held are not shown.
- Encoding of OMCI messages, gRPC, Kafka, MIB upload and download, the device handler and software upgrade.
