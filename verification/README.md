# Verified model of the ICE link

A Dafny 4.11 model of an ICE agent (RFC 8445) and of the wire formats around it: the connectivity-check state machine,
role conflicts, nomination, consent, ordered delivery, path-MTU search, STUN, TURN framing and channels, the signalling
blob and multicast DNS names. `dafny verify dfyconfig.toml` checks everything.

## How it is organised

- `Bytes`, `Sequences`: fixed-width integers in network order, bitwise exclusive or, counting, sums, loops as folds.
- `Candidates`, `CheckList`, `CheckListLaws`: candidates and priorities, the check list, what a build may leave behind,
  and what each list operation keeps.
- `Session`, `SessionLaws`: one function per strand handler, the step function over events, and the theorems about every
  run. A handler is one atomic step. What the code leaves open (transaction ids, the order among pairs of equal priority,
  the verdict of the auto-restart budget) is a `Choices` argument, and the theorems hold for all sound choices.
- `TimerLaws`: timers left behind. `Silence`: what a checking session does when nothing arrives. `Mirror`: two agents'
  lists. `Roles`: two agents and a network that loses, repeats and reorders.
- `Agent` (in `IceSession.dfy`): the session object, with the source's loops and assignments. Each method's new state
  equals the function of the same meaning, and `Dispatch` carries the run invariant over to every object.
- `Ordered`, `PathMtu`, `Stun`, `StunBuild`, `Framing`, `Channels`, `Signal`, `Dns`: each a specification, its theorems,
  and the imperative code proved against it.

Conventions: times are microseconds, one value per handler. Addresses are 4 or 16 bytes, or an unresolved name. HMAC-SHA1,
CRC-32 and the foundation hash are arbitrary functions; nothing assumes they avoid collisions, so the list is keyed by the
foundation strings themselves. The configured ranges are those the plugin enforces (link_ice.cpp:302-309).

Where the code and its comments differ the model follows the code. Triggered pairs get a foundation and start in progress
(a comment at session.cpp:2318-2321 says otherwise). Padding reaches the target rounded down to a multiple of four
(stun.hpp says exactly). The deferred nomination the code labels section 8.1.2 is section 8.1.1 of RFC 8445.

Properties that turned out to hold only in part, each with its exact condition:

- mirror lists: `Mirror.MirrorLists`, broken by `Mirror.NamelessBreaksMirror`, and always there for signalled candidates,
  `Mirror.SignalledMirror`
- opposite roles after a run: `Roles.OppositeExactly`, broken by a late 487 in `Roles.CrossedExchanges`, with all
  crossing orders in `Roles.CrossingOrder`
- in-order delivery through the reorder window: `Ordered.DeliversExactly`, broken by `Ordered.WindowOverflows`
- the integrity check inside its buffer: `StunBuild.InsideExactly`, broken by `StunBuild.ShortIntegrityPastEnd`
- distinct numbers for distinct pairs: `Candidates.PairPriorityCollision`, broken by `Candidates.CollisionAboveBound`,
  and always there up to 2^31, `Candidates.PairPriorityLexicographic`
- failure only of an exhausted list: `Silence.FailurePending`, broken by `Silence.WaitSurvivesRebuild`
- channel tables: `Channels.TablesAreInverse` and `Channels.BoundPeerRoundTrip`
- the signalling round trip, both ways: `Signal.RoundTripExact` and `Signal.ReadThenSerialize`
- oversized TCP payloads: `Framing.TruncationLosesPayload`; padding: `StunBuild.PaddingReachesTarget`
- error codes from 25600 up: `StunBuild.EveryAttributeRecovered`

## Model

| member | source | states |
|---|---|---|
| `SessionLaws.StepOk` | session.cpp:2141-2299 | every handler keeps the invariant the run theorems are read from: live timer while checking, frozen pairs represented, pacing counters, at most one well-chosen nominee, every past connection justified |
| `SessionLaws.RunOk` | session.cpp:2141-2299 | the invariant holds after every finite run of gathering, timers, answers, errors, requests, signals, rebuilds, restarts and closes from the initial state |
| `SessionLaws.NoSilentStall` | session.cpp:2141-2299 | in every run a full agent with a timer context that is still checking has a check timer or a nomination-wait timer to fire whose generation is the current one |
| `SessionLaws.FrozenPairsAreRepresented` | session.cpp:2309-2361 | in every run each frozen pair shares its foundation tuple with a waiting or in-progress pair, so the rescue of stuck pairs never changes the list |
| `SessionLaws.PacingLimits` | session.cpp:2216-2223 | in every run at most ten pairs that are not triggered checks are in progress, no pair is sent more often than the retry budget, and at most n times the budget checks leave between rebuilds of an n-pair list |
| `SessionLaws.OneNominee` | session.cpp:2897-2919 | in every run at most one pair is nominated between restarts, and it was valid and of highest priority among the valid when chosen |
| `SessionLaws.RegularControllerConnects` | session.cpp:2874-2895 | whenever a regular-mode agent connects as controller, the answer that caused it carries the transaction id of the one nominee, and the session connects to that pair's remote endpoint |
| `SessionLaws.ControlledAgentConnects` | session.cpp:3054-3128 | in every run whose USE-CANDIDATE requests name one endpoint, a controlled agent connects only to that endpoint and only with a succeeded pair to it, whether at once, deferred, or through a triggered pair |
| `SessionLaws.ConnectionsAreRecorded` | session.cpp:3281-3291 | in every run the connection a connected session uses is the last one recorded, so what holds of recorded connections holds of it |
| `SessionLaws.MergeIsUnion` | session.cpp:467-497 | merging trickled candidates keeps the old ones in place, takes in every new one exactly once up to address, port, type and transport, and invents none |
| `SessionLaws.AnswerResolves` | session.cpp:1012-1043 | a useful multicast DNS answer puts a host candidate at every address found, with the port of the candidate asked for |
| `SessionLaws.AnswerIsLocal` | session.cpp:985-1010 | an answer touches no other candidate and is taken once: the slot it was for no longer asks for it |
| `SessionLaws.OneRelay` | session.cpp:1841-1863 | after a relay failover the relay candidates are the new one, if the filter lets it, or none, and all others stay |
| `TimerLaws.ArmedInEveryRun` | session.cpp:2281-2299 | in every run no pending check or wait timer carries a generation its counter has not reached |
| `TimerLaws.CancelledTimersNeverAct` | session.cpp:2253-2293 | in every run a timer armed before a nomination, a restart or a close never acts: whenever it fires, in any continuation, all that changes is that it is no longer pending |
| `TimerLaws.NothingLive` | session.cpp:3281-3291 | nomination, restart and close leave no timer whose generation is current |
| `CheckListLaws.UnfreezeStuckIsIdle` | session.cpp:2332-2361 | on a list whose frozen pairs are all represented the rescue pass is the identity |
| `CheckListLaws.BuiltHeads` | session.cpp:2076-2095 | in a built list each foundation tuple has exactly one waiting pair and it has the tuple's highest priority |
| `CheckListLaws.BuiltOk` | session.cpp:1923-2074 | every list a build can leave behind has its frozen pairs represented, nothing in flight and nothing sent |
| `CheckListLaws.KeyInjective` | session.cpp:2087-2088 | the joined foundation key determines the pair of foundations |
| `CheckListLaws.ArrangedIsBuilt` | session.cpp:2068-2074 | sorting by descending priority and assigning states keeps every raw pair, whatever the transaction ids and the order among equals |
| `CheckListLaws.CanonicalIsBuilt` | session.cpp:1995-2074 | for all candidates, roles and strides some outcome of a build exists |
| `CheckListLaws.SendBudget` | session.cpp:2452-2466 | on a list that meets the invariant the checks sent are at most pairs times budget |
| `Silence.FailureMeansExhausted` | session.cpp:2207-2280 | a tick that declares failure leaves no frozen, waiting or in-progress pair anywhere in the list |
| `Silence.FailurePending` | session.cpp:2253-2280 | a timer that fails a checking session leaves pending pairs exactly if it is a nomination-wait timer and the list had some |
| `Silence.WaitTimerFails` | session.cpp:2253-2265 | a wait timer fails a session exactly when its generation is current and the session is not connected, and does not touch the list |
| `Silence.WaitSurvivesRebuild` | session.cpp:2141-2299 | a rebuild that yields any pair leaves an armed wait timer current, and its firing fails the session over pairs still pending |
| `Silence.TickWork` | session.cpp:2171-2223 | every tick on a list with a pending pair strictly lowers the work left: pair rank, sends left and time to the next retransmission |
| `Silence.SilenceTerminates` | session.cpp:2171-2280 | when only timers fire, connect and keepalive timers included, the number of check and wait timers that fire while still checking is bounded by a measure of the first state, and until checking is left a live timer remains |
| `Silence.SilenceEndsEveryRun` | session.cpp:2171-2280 | from every reachable state of a full agent, silence leaves checking within that bound |
| `Silence.SilenceEndsInFailure` | session.cpp:2250-2280 | in silence checking is left only for the failed state |
| `Silence.UnansweredPairIsInProgress` | session.cpp:2171-2199 | with ticks one interval apart and any retry budget R, an unanswered pair is in progress and the session checking after every number of ticks below 5(3*2^(R-1)-2) from its first send for R up to 6, and below 310+160(R-6)+5*2^(R-1) above |
| `Silence.UnansweredPairFails` | session.cpp:2171-2199 | after exactly that many ticks the pair has failed |
| `Silence.PatienceTicks` | session.cpp:2170-2197 | the wait after the r-th send is 5*2^min(r,5) check intervals while sends remain, and 5*2^(R-1) after the last of R |
| `Silence.SendTickClosed` | session.cpp:2170-2197 | the r-th send comes 5(2^r-2) ticks after the first for r up to 6 and 310+160(r-6) above, and failure 5*2^(R-1) ticks after the last |
| `Mirror.MirrorLists` | session.cpp:1966-2070 | two agents with each other's candidates, opposite roles and no port prediction have mirror-image lists if and only if no admissible pairing joins a nameless mDNS candidate with one that is not mDNS |
| `Mirror.NamelessBreaksMirror` | session.cpp:1966-2070 | the condition can fail: a nameless mDNS candidate against a host candidate gives lists that are not mirror images |
| `Mirror.SignalledMirror` | candidate.hpp:388-436 | candidates read from accepted signalling blobs always give mirror lists |
| `Mirror.BuiltExactly` | session.cpp:1995-2060 | without prediction a list holds exactly the compatible pairings of a local with a remote candidate |
| `Mirror.MirrorPriority` | candidate.hpp:219-227 | mirror pairs have equal priority on the two lists |
| `Mirror.MirrorOrder` | session.cpp:2068-2070 | of two mirrored pairs with different priorities the same one is ahead on both lists |
| `Mirror.MirrorTies` | candidate.hpp:219-227 | two pairs tie exactly when their candidate priorities share a number, which with priorities up to 2^31 means that both agree |
| `Candidates.PriorityOrder` | candidate.hpp:206-217 | the candidate priority orders by type, then local preference (whose lowest bit component 0 sets), and is equal exactly when type, that preference and component are |
| `Candidates.PairPriorityExact` | candidate.hpp:219-227 | the 64-bit result is the formula of section 6.1.2.3 of RFC 8445 exactly when the two priorities are not both the largest 32-bit value |
| `Candidates.PairPriorityMirror` | candidate.hpp:219-227 | opposite roles give a pair and its mirror the same number |
| `Candidates.PairPriorityLexicographic` | candidate.hpp:219-227 | up to 2^31 the number orders by minimum, then maximum, and never collides |
| `Candidates.PairPriorityCollision` | candidate.hpp:219-227 | for all 32-bit priorities, two pairs share a number exactly when they are equal, when one minimum is one larger and its maximum 2^31 smaller with the same side ahead, or when one is the wrapped pair of largest values and the other is 0 and 2^31-1 |
| `Candidates.CollisionAboveBound` | candidate.hpp:219-227 | every priority above 2^31 shares a number with another pair, so the bound is the best one |
| `Roles.StepRole` | session.cpp:2413-2450 | only a 487, or a request from a same-role peer with the larger tie-breaker, changes the role; no other handler does |
| `Roles.LargerKeepsRole` | session.cpp:2427-2436 | under any loss, repetition and reordering of requests and 487s the owner of the larger tie-breaker never changes role, unless a 487 to it was already in flight |
| `Roles.SettledForever` | session.cpp:2940-2998 | opposite roles with no 487 and no stale-role request in flight stay as they are for ever |
| `Roles.ExchangeResolves` | session.cpp:2952-2998 | from a quiet network one whole exchange, whoever starts it, leaves opposite roles and a quiet network, and does not disturb roles already opposite |
| `Roles.OppositeExactly` | session.cpp:2701-2712 | over every run from a state where no 487 to the larger tie-breaker's owner is in flight and its requests in flight carry its role, or with equal tie-breakers from any state, the roles end opposite exactly when a fold over the delivered packets says so: the owner's request makes them opposite, a 487 to anyone else turns them over |
| `Roles.ExchangeEndsOpposed` | session.cpp:2952-2998 | so a run that delivers one request, and the 487 when its sender loses a conflict, ends in opposite roles |
| `Roles.CrossingOrder` | session.cpp:2701-2712 | when both requests and the 487 of agents sharing a role are delivered, in any order, the conflict is resolved exactly if the 487 comes before the request of the larger tie-breaker's owner |
| `Roles.CrossedExchanges` | session.cpp:2701-2712 | both orders happen: with the late 487 the loser switches for the request and back, with the early one it switches once |
| `Agent.IceSession.constructor` | session.cpp:117-147 | the object starts as the initial state, no timer pending; a lite agent is controlled |
| `Agent.IceSession.InProgressCount` | session.cpp:2301-2307 | the number of in-progress pairs |
| `Agent.IceSession.HasActive` | session.cpp:2339-2346 | whether a pair is waiting or in progress |
| `Agent.IceSession.HasPending` | session.cpp:2207-2215 | whether any pair anywhere in the list is frozen, waiting or in progress |
| `Agent.IceSession.HasValid` | session.cpp:2239-2241 | whether any pair is valid |
| `Agent.IceSession.UnfreezeSiblings` | session.cpp:2309-2330 | exactly the frozen pairs of the foundation tuple start waiting; nothing happens for an empty foundation |
| `Agent.IceSession.UnfreezeStuckPairs` | session.cpp:2332-2361 | with nothing active, the first frozen pair of each foundation tuple starts waiting |
| `Agent.IceSession.AssignInitialPairStates` | session.cpp:2076-2095 | the first pair of each foundation tuple waits and the others are frozen |
| `Agent.IceSession.SendCheck` | session.cpp:2452-2475 | one more send at this time, or failure and thawed siblings when the budget is spent |
| `Agent.IceSession.RetransmitDue` | session.cpp:2176-2199 | the walk over in-progress pairs: retransmit what is due, fail what is spent, leave what still waits |
| `Agent.IceSession.PromoteWaiting` | session.cpp:2216-2223 | waiting pairs start in list order until ten are in flight; leaving the loop at the cap loses nothing |
| `Agent.IceSession.PrefireFamilies` | session.cpp:2119-2136 | the first waiting pair of each address family starts, once each |
| `Agent.IceSession.AddPredictions` | session.cpp:2038-2064 | one pair per predicted port up to the first above 65535, one rung lower, with its own foundation |
| `Agent.IceSession.AddPairs` | session.cpp:2003-2064 | a compatible pairing and its predictions, and nothing for an incompatible one |
| `Agent.IceSession.AssignFoundations` | session.cpp:1981-1993 | every candidate without a foundation gets one |
| `Agent.IceSession.BuildCheckList` | session.cpp:1923-2074 | the new list is one of the outcomes a build may have for the current candidates, role and stride |
| `Agent.IceSession.RunNextCheck` | session.cpp:2141-2299 | one scheduling tick: walk, promote, then arm the check timer, or the nomination wait, or fail |
| `Agent.IceSession.BeginChecks` | session.cpp:2097-2139 | happy eyeballs and a first tick, and nothing at all for a lite agent |
| `Agent.IceSession.EnterChecking` | session.cpp:1903-1905 | checking starts on a fresh list |
| `Agent.IceSession.RebuildAndRun` | session.cpp:537-541 | a fresh list and a tick |
| `Agent.IceSession.CancelTimers` | session.cpp:3288-3290 | both generations move on, and of timers whose generations their counters have reached none is live afterwards |
| `Agent.IceSession.Restart` | session.cpp:580-662 | a session that has not failed goes back to gathering with no candidates, pairs or nominee; the pending nomination survives |
| `Agent.IceSession.Close` | session.cpp:664-677 | the session has failed and, under the same condition, no pending timer is live |
| `Agent.IceSession.OnKeepalive` | session.cpp:3478-3497 | a missed answer is counted; too many mean another round of checks within the recovery budget, then the loss policy |
| `Agent.IceSession.LoseConsent` | session.cpp:3427-3476 | the three outcomes of a lost consent: restart, coalesced, failed |
| `Agent.IceSession.OnNominated` | session.cpp:3281-3345 | timers cancelled, counters cleared, connected, and the first keepalive already counted |
| `Agent.IceSession.FindBestValid` | session.cpp:2908-2912 | the valid pair of highest priority, the earliest of equals |
| `Agent.IceSession.SelectNominee` | session.cpp:437-454 | the best valid pair becomes the nominee and is sent the nominating check |
| `Agent.IceSession.OnCheckTimer` | session.cpp:2290-2293 | a stale generation is ignored, the current one ticks |
| `Agent.IceSession.OnWaitTimer` | session.cpp:2253-2265 | the current generation ends an unconnected session |
| `Agent.IceSession.MergeRemotes` | session.cpp:467-497 | duplicates by address, port, type and transport are dropped |
| `Agent.IceSession.SetRemoteCandidates` | session.cpp:237-253 | remote candidates replaced; a waiting or gathering agent with local candidates starts checking |
| `Agent.IceSession.AddRemoteCandidates` | session.cpp:397-548 | new credentials drop the peer's old state, the end of candidates lets a regular controller commit, then merge and check |
| `Agent.IceSession.RecheckRemotes` | session.cpp:502-541 | changed remote candidates start the checks of an agent that waited for them and restart running ones |
| `Agent.IceSession.SetPeerSignalFlags` | session.cpp:550-569 | a change of the symmetric flag while checking rebuilds the list |
| `Agent.IceSession.RewriteSlot` | session.cpp:990-1043 | the slot the query was for takes the first address, further addresses become candidates, an empty answer clears the name, a stale one changes nothing |
| `Agent.IceSession.OnMdnsAnswer` | session.cpp:985-1066 | an answer is folded into the remote candidates unless the session has failed, and a useful one starts or restarts the checks |
| `Agent.IceSession.OnGatheringComplete` | session.cpp:1887-1919 | gathering ends in checking if remote candidates are known and in waiting otherwise |
| `Agent.IceSession.FoldRelay` | session.cpp:1647-1656 | a late relay candidate is folded into a running check list |
| `Agent.IceSession.PromoteTurnBackup` | session.cpp:1835-1885 | the failed relay's candidates give way to the new one's, a running list is rebuilt and a connected session goes back to checking |
| `Agent.IceSession.FindTransaction` | session.cpp:2775-2776 | the first pair with the transaction id |
| `Agent.IceSession.MarkSucceeded` | session.cpp:2818-2852 | the pair is valid and succeeded, its siblings thaw, and a new mapped address becomes a local candidate |
| `Agent.IceSession.HandleCheckResponse` | session.cpp:2767-2929 | an answer while checking: deferred nomination, aggressive or nominee commitment, or the choice of a nominee |
| `Agent.IceSession.HandleResponse` | session.cpp:2726-2752 | consent for a path-MTU probe and while connected, otherwise the answer to a check |
| `Agent.IceSession.SwitchRole` | session.cpp:2701-2712 | a 487 flips the role unconditionally and rebuilds a running list |
| `Agent.IceSession.HandleError` | session.cpp:2713-2725 | another error fails the pair and thaws its siblings |
| `Agent.IceSession.OnTcpConnectTimeout` | session.cpp:1203-1229 | every in-progress TCP pair to the endpoint fails and its siblings thaw |
| `Agent.IceSession.HandleRoleConflict` | session.cpp:2413-2450 | we switch exactly when the sender's tie-breaker is larger |
| `Agent.IceSession.DeferNomination` | session.cpp:3092-3125 | an unverified nominated pair is thawed and marked, or the nomination is remembered for a pair to come |
| `Agent.IceSession.HandleUseCandidate` | session.cpp:3054-3128 | a succeeded pair is nominated at once, otherwise the nomination is deferred |
| `Agent.IceSession.MintTriggeredPair` | session.cpp:3161-3211 | the peer-reflexive pair for a new source endpoint, already marked when its nomination is pending |
| `Agent.IceSession.MaybeTriggerCheck` | session.cpp:3143-3219 | an uncovered endpoint gets a pair, sent at once while checking or connected; a lite agent adds none |
| `Agent.IceSession.HandleBindingRequest` | session.cpp:2931-3141 | a same-role request is answered with a 487 and nothing else exactly when we hold the tie-breaker; otherwise role, USE-CANDIDATE and triggered check follow |
| `Agent.IceSession.Dispatch` | session.cpp:2578-2765 | every event takes the object one step of the state machine, keeps the invariant of all runs and the bound on armed generations, and outdates every timer when it nominates, restarts or closes |
| `Ordered.SenderOrder` | session.cpp:262-282 | in every run frames reach the wire with consecutive numbers as a subsequence of submission order, and a frame neither there nor parked was dropped with at least 64 newer ones behind it |
| `Ordered.DeliversGapFreePrefix` | session.cpp:284-320 | if no arrival finds the window full the receiver has delivered exactly the longest gap-free prefix of what arrived, once each and in order, and holds the rest |
| `Ordered.CloseFits` | session.cpp:309-317 | arrivals at most 63 ahead of the first missing frame never find the window full |
| `Ordered.OverflowLosesFrame` | session.cpp:309-317 | after an arrival that finds the window full the first missing frame is never delivered, in any continuation |
| `Ordered.DeliversExactly` | session.cpp:284-320 | for all arrivals below the last number the receiver has delivered exactly the longest gap-free prefix, once each and in order, if and only if no arrival finds the window full |
| `Ordered.WindowOverflows` | session.cpp:309-317 | the window can fill: frames 1 to 64 and then 65 while frame 0 is missing |
| `Ordered.EndToEnd` | session.cpp:262-351 | what is delivered is, in order and once each, a prefix of what was sent and a subsequence of what was submitted |
| `Ordered.DataPlane.Send` | session.cpp:262-282 | a frame is numbered and sent when connected and parked otherwise, dropping the oldest of 64 |
| `Ordered.DataPlane.SendOnStrand` | session.cpp:322-351 | the next number is written in front, in network order, and the counter wraps at 2^32 |
| `Ordered.DataPlane.FlushPending` | session.cpp:385-395 | parked frames leave oldest first |
| `Ordered.DataPlane.OnConnected` | session.cpp:3335-3341 | connecting flushes the parked frames |
| `Ordered.DataPlane.DeliverInOrder` | session.cpp:284-320 | one arrival: short frames and duplicates ignored, the due frame delivered with all it releases, an early one stored |
| `Ordered.DataPlane.SmallestBuffered` | session.cpp:313-313 | the smallest buffered number |
| `PathMtu.RungsExact` | path_mtu.cpp:16-24 | the ladder is the configured sizes above the base, each once, ascending |
| `PathMtu.SearchIsExact` | path_mtu.cpp:41-99 | against a path that carries exactly the sizes up to M the finished search never claims more than M and is within 7 bytes of it, unless there is no rung or the top one was reached |
| `PathMtu.EffectiveNeverDrops` | path_mtu.cpp:41-99 | on any history of acknowledgements and losses the confirmed size never drops |
| `PathMtu.ProbesBelowBad` | path_mtu.cpp:75-99 | every probe is above the confirmed size and below every size declared bad |
| `PathMtu.SearchEnds` | path_mtu.cpp:41-99 | the search completes within 2(rungs + ceil(log2(top - base))) events |
| `PathMtu.CeilLog2Exact` | path_mtu.cpp:98-98 | the logarithm in that bound is the least power of two covering the span |
| `PathMtu.PathMtuProbe.constructor` | path_mtu.cpp:10-33 | the search starts at the first rung, or is complete without one |
| `PathMtu.PathMtuProbe.PruneSteps` | path_mtu.cpp:16-24 | sort, remove repeats, remove what is not above the base |
| `PathMtu.PathMtuProbe.NextProbeSize` | path_mtu.cpp:35-39 | a size while searching, above the confirmed one, and none when complete |
| `PathMtu.PathMtuProbe.OnProbeAck` | path_mtu.cpp:41-72 | an acknowledgement confirms the size and climbs or bisects |
| `PathMtu.PathMtuProbe.OnProbeLoss` | path_mtu.cpp:75-99 | the second loss in a row makes the size the upper bound and bisects |
| `Stun.XorAddrRoundTrip` | stun.cpp:57-119 | an IPv4 or IPv6 address and port survive masking, and text that is no address is read as none |
| `Stun.ParseMessage` | stun.cpp:346-444 | a message of any attributes under 65536 bytes parses to the effect of those attributes in order |
| `StunBuild.BuildThenParse` | stun.cpp:143-444 | for any sequence of builder calls under 65536 bytes the parser recovers what the calls mean; of repeated kinds the last one counts |
| `StunBuild.EveryAttributeRecovered` | stun.cpp:153-263 | a call with no later call of its kind has its argument read back; an error code exactly when it is below 25600 |
| `StunBuild.PaddingReachesTarget` | stun.cpp:304-325 | padding brings the message to the target rounded down to a multiple of four exactly when a filler of at most 65535 bytes can, and otherwise leaves its size |
| `StunBuild.SignerAndVerifierAgree` | stun.cpp:265-302 | for any MAC the first MESSAGE-INTEGRITY of a built message is accepted under a key exactly when that key gives the same MAC on the bytes signed, whatever attributes follow |
| `StunBuild.SignedAgain` | stun.cpp:466-473 | the bytes the verifier puts together, under the rewritten length, are the bytes signed |
| `StunBuild.InsideExactly` | stun.cpp:446-483 | the check of a message of any attributes under 65536 bytes reads only the buffer exactly when the message is under 44 bytes, has no MESSAGE-INTEGRITY, or takes at least 24 bytes from the first one on |
| `StunBuild.ParsedPastEnd` | stun.cpp:446-483 | on anything that parses the check leaves the buffer exactly when fewer than 24 bytes remain at the first MESSAGE-INTEGRITY; the walk to it never does |
| `StunBuild.ShortIntegrityPastEnd` | stun.cpp:446-483 | it can: a 44-byte message ending in an empty MESSAGE-INTEGRITY parses with its integrity flag set and is compared past its end |
| `StunBuild.StunBuilder.AddAttr` | stun.cpp:143-151 | type, length, value and zero padding to a multiple of four |
| `StunBuild.StunBuilder.Add` | stun.cpp:153-263 | the attribute of a call that does not depend on earlier ones |
| `StunBuild.StunBuilder.AddIntegrity` | stun.cpp:265-286 | the MAC of everything so far under a length that already counts it |
| `StunBuild.StunBuilder.AddFingerprint` | stun.cpp:288-302 | the masked CRC of everything so far |
| `StunBuild.StunBuilder.AddPaddingTo` | stun.cpp:304-325 | a filler attribute, when one fits |
| `StunBuild.StunBuilder.Build` | stun.cpp:327-342 | header and attributes |
| `StunBuild.ParseStun` | stun.cpp:346-444 | the cursor loop computes the parse, inside the buffer on every input |
| `StunBuild.VerifyIntegrity` | stun.cpp:446-483 | on every input the cursor loop computes acceptance, rejection, or a read past the end |
| `Framing.ChunksDoNotMatter` | turn.cpp:138-146 | two ways of cutting a byte stream dispatch the same frames and leave the same bytes over |
| `Framing.StreamRoundTrip` | turn.cpp:27-52 | however the encodings of payloads up to 65535 bytes are cut up, exactly those payloads are dispatched and nothing is left over |
| `Framing.TruncationLosesPayload` | session.cpp:1162-1174 | the session's framing carries a payload exactly when it is at most 65535 bytes |
| `Framing.TurnStream.TryTake` | turn.cpp:41-52 | the first complete frame is taken off the buffer, if there is one |
| `Framing.TurnStream.OnInbound` | turn.cpp:126-146 | a chunk is appended and every complete frame dispatched |
| `Framing.SessionStreams.OnTcpCarrierData` | session.cpp:1176-1200 | the same, per connection, without touching the other connections |
| `Channels.KeyInjective` | turn.cpp:289-289 | the peer key determines address and port |
| `Channels.TablesAreInverse` | turn.cpp:282-307 | channels lie in 0x4000 to 0x7FFF exactly for the first 49152 numbers taken, and the two tables are mutual inverses exactly for the first 65536 |
| `Channels.ChannelsAreNotReused` | turn.cpp:297-305 | within those 65536 a channel never passes to another peer |
| `Channels.ChannelDataRoundTrip` | stun.cpp:487-522 | a ChannelData frame parses to its channel and payload and passes the demultiplexer |
| `Channels.ParsedIsChannelData` | stun.hpp:228-232 | the demultiplexer's bit test accepts exactly the channel range |
| `Channels.BoundPeerRoundTrip` | turn.cpp:255-273 | while the tables are inverse a frame for a bound peer maps back to that peer and payload exactly when its channel is in range; channel 0 is not used, and frames on channels 1 to 0x3FFF are sent but are no ChannelData to any receiver |
| `Channels.ChannelTable.BindChannel` | turn.cpp:282-307 | a new peer takes the next number, bound only inside the range; TCP allocations bind nothing |
| `Channels.ChannelTable.SendIndication` | turn.cpp:255-273 | ChannelData for a bound peer |
| `Channels.ChannelTable.HandleChannelData` | turn.cpp:216-229 | the payload and the peer of its channel, if bound |
| `Signal.RoundTripExact` | candidate.hpp:293-349 | serializing and reading back gives the credentials, upper flags and candidates exactly for at most 256 candidates with a 1 to 64 byte name on the mDNS ones and on no other |
| `Signal.SerializeThenRead` | candidate.hpp:358-437 | such candidates are read back without their local foundations |
| `Signal.ReadThenSerialize` | candidate.hpp:293-437 | an accepted blob serializes to the same bytes exactly when its reserved bits are clear and its credentials zero-padded |
| `Signal.AcceptedIsNamed` | candidate.hpp:388-436 | every accepted blob names exactly its mDNS candidates and holds at most 256 candidates |
| `Signal.SizeWithoutMdns` | candidate.hpp:323-327 | without mDNS candidates the size is 44 + 24n |
| `Signal.FromToWire` | candidate.hpp:244-267 | a candidate survives its wire form, without name and foundation |
| `Signal.SerializeSignal` | candidate.hpp:293-349 | the blob, candidate by candidate and name by name |
| `Signal.DeserializeSignal` | candidate.hpp:358-437 | the reader, with an advancing offset |
| `Signal.FillNames` | candidate.hpp:414-431 | names are read in step with the mDNS candidates |
| `Dns.EncodeThenDecode` | mdns.cpp:78-154 | an encoded name, wherever it stands in a message, decodes to the lower-cased name without trailing dot and the offset just past it |
| `Dns.QueryRoundTrip` | mdns.cpp:205-228 | a query parses back to its transaction id, canonical name and type, and no query is built exactly for names that cannot be encoded |
| `Dns.DecodeFrom` | mdns.cpp:110-154 | decoding ends on every input, pointer cycles included, with an offset inside the message and a name of at most 255 bytes |
| `Dns.AppendName` | mdns.cpp:78-101 | the label loop computes the encoding or refuses |
| `Dns.ReadName` | mdns.cpp:110-154 | the pointer-following loop computes the decoding |
| `Dns.ParseDnsMessage` | mdns.cpp:282-352 | the question and answer loops compute the parse |
| `Dns.TakeAnswer` | mdns.cpp:306-349 | one record: its name and, for an internet A or AAAA record of the right size, its address |

## Left out

- Gathering: how host, reflexive, relay and mapped candidates are found; new local candidates arrive as one event.
- Carriers, connection ids, the relay flag and which socket a packet leaves by; a send that finds no connection id counts as lost.
- Credentials, and which packets pass the integrity gate; the state machine sees the packets that did.
- The auto-restart budget and its back-off: each loss of consent takes one of its three outcomes freely.
- The keepalive timer's own generations, the RTT average, and the driving of path-MTU probes from the session.
- Generation counters are unbounded numbers; the code's wrap at 2^32.
- Retransmission times are unbounded; the code's are 64-bit, and the shift stays small for the configured budgets.
- Mutexes, atomics and the executor: handlers are atomic steps, so nothing is said about lock order.
- Channels.ChannelTable.SendIndication: gives only the ChannelData frame; the Send indication for a peer without a channel is a builder message and is not composed here.
- Agent.IceSession.HandleResponse: whether a response answers the path-MTU probe in flight is part of the event; the probe's own state is modelled apart, in PathMtu.
- Ordered.DataPlane.SendOnStrand: models the numbered UDP path; over TCP, or with ordered delivery off, frames carry no number.
- Dns.AppendName: drops what was written before a name is refused; the response encoder, which keeps it, is not modelled.
- Addresses as text: parsing and printing of IP strings; the multicast responder and resolver around the DNS codec.
- TURN allocation, permissions beyond the set kept by binding, refresh, and TCP data connections after ConnectionBind.
- The plugin layer, configuration reading, interface watching, port mapping and the external DNS client: plumbing with easy invariants.
