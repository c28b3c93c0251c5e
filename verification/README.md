# 3AX-UI: verified models of its control parts

3AX-UI is a panel for proxy servers. This project models the parts of it in which several functions, processes or
machines have to agree, and proves what they guarantee together:

- **The proxy chain's wave** (`proxy/`, `chain/`). Boxes poll inward for a truncated chain document, cache it, relay
  by it, serve a further truncated copy outward and pass acknowledgements inward. `ChainDocument`, `Truncation`,
  `DocumentDiff`, `Relay`, `ChainWave`, `ChainDrain`, `ChainConvergence`, `Acks`, `Base64`, `JoinForward`, `Polling`.
- **The nginx front** (`nginx/`). The SNI map and the servers compiled with it, where connections then end up, the marked
  block in nginx.conf, the file transaction with rollback and its clients, and the netfilter chain with its verdicts on
  packets. `SniMap`, `FrontRouting`, `StreamInclude`, `FileTx`, `NginxManager`, `AcmeFront`, `Firewall`.
- **The mtg process manager** (`mtproto/manager.go`): the config of a process and the fingerprint that is to tell when it
  changes, lifecycle operations under two locks, and traffic from counters that start over. `MtgInstance`, `MtgManager`,
  `MtgTraffic`.
- **The subscription cache** (`sub/inbound_cache.go`, `shared/datagen`): private copies on the heap, and the cache among
  concurrent lookups, announced edits and traffic writes that nothing announces. `InboundCache`, `CacheProtocol`.
- **The tunnel rules** (`tunnel/`, `shared/tproxy`, `shared/portfwd`): generated setup and teardown programs over kernel
  state, the healing tick, and the port-list parser that feeds them. `Kernel`, `TunnelHooks`, `TunnelLifecycle`, `Portfwd`.

`Prelude` and `Text` hold shared datatypes, sequence facts and string functions.

Objects whose methods update them are classes whose contracts give the whole new state as a function of the old one;
protocols are transition systems over atomic steps; the main results are lemmas over every run, every input or every
interleaving. What the environment decides (a write that fails, a process that does not start, an answer that gets lost)
is a parameter of the step concerned and may take any value.

## Where the code and its comments disagree

The models follow the code. These are the places where that matters, each with the lemma that shows it or bounds it:

- The comments in `proxy/chain.go` and `proxy/relay.go` say a relay that failed to start is retried on the next revision.
  It is retried only when the ports or the next hop's host change (`Relay.FailedStartIsNotRetried`).
- A cached document that could not be written lets a restart take a box back to an earlier revision, so the two results
  on the order of revisions assume saves succeed (`ChainWave.LostSaveGoesBack`). No other result on the wave does.
- `samePorts` is set equality only on lists that name each port once (`DocumentDiff.SamePortsNeedsDistinct`).
- `TruncateDocument` copies name, role, host and state into `self` but not the Reality target and server name. A box reads
  the registry's `self` exactly when it polls the panel or has neither (`ChainWave.SelfIsWholeIff`); an edge behind an
  inner box reads no target there (`ChainWave.EdgeReadsNoTarget`). Its own entry in the list is whole in any case.
- `X-Chain-Outer` is cut by dropping the alphabetically first acks, not the oldest (`Acks.HeaderCarriesLongestSuffix`).
- The cap of 16 join forwards holds exactly for requests that arrive with a count from 0 up to but not including the
  largest int64 (`JoinForward.SixteenForwardsIffCountIsSane`); the observed address is the first receiver's own
  observation exactly when the request brings no other (`JoinForward.ObservedIsSeenIffHeaderAgrees`).
- A begin marker without its end marker in nginx.conf makes adding the block neither idempotent nor reversible
  (`StreamInclude.AddingTwiceIsOnce`, `StreamInclude.StrippingUndoesAdding`).
- `Validate` promises to catch what would break nginx or send a protocol to the wrong place. It accepts a route whose
  upstream is another route's relay, whose clients then reach the other inbound (`FrontRouting.UpstreamOnRelayIsMisrouted`,
  `FrontRouting.ValidateAcceptsMisrouting`); a route whose upstream is the public port, whose clients come back to the
  front (`FrontRouting.UpstreamOnFrontComesBack`, `FrontRouting.ValidateAcceptsLoop`); and a site on the public port, with
  which nginx does not come up (`FrontRouting.ValidateAcceptsUnbindableSite`).
- A rollback does not always bring modes back. A file there when it begins keeps the mode it then has, one that is not
  comes back under the umask (`FileTx.RollbackRestores`); a private file removed and written anew comes back readable to
  all (`FileTx.RewrittenFileKeepsNewMode`).
- The comment on the header constant in `nginx/config.go` says Apply refuses to overwrite a file without it. `Stage` does
  not look at the header (`NginxManager.HandWrittenFileIsReplaced`); only the port-80 file is protected
  (`AcmeFront.WriteAcmeConf`).
- A check for the firewall's jump that fails for a reason of its own makes `rebuild` insert a second jump
  (`Firewall.FailedCheckAddsJump`). The comment on the order of the commands says a rebuild that fails halfway leaves an
  unhooked or an empty chain; it can leave a hooked one that holds RETURN rules (`Firewall.FailedAppendLeavesReturns`).
- `rebuild` hooks its chain first in INPUT so that no ACCEPT of others comes before its DROP, but a jump that is already
  there stays where it is: what the chain drops is let in exactly when a rule above the jump accepts it
  (`Firewall.FinishedVerdict`, `Firewall.JumpBelowLeavesOpen`).
- `PostDown` stops at its first failing command, so two enabled clients with one IPv6 address leave rules behind
  (`TunnelLifecycle.PostDownEffect`, `TunnelLifecycle.UpThenDownRestores`).
- `policyRuleInstalled` looks for the mark as a substring of what `ip rule` shows, so another mark can pass for the
  tunnel's own (`TunnelLifecycle.HealRestores`).
- The comment on an mtg instance's fingerprint says it changes whenever a value of the generated TOML does. It joins its
  parts with `|`, URLs with `,` and the parts of a client with `=`, none of them escaped, so a change can hide
  (`MtgInstance.SeparatorHidesChange`, `MtgInstance.CommaHidesChange`, `MtgInstance.BlankUrlHidesChange`,
  `MtgInstance.EqualsSignHidesChange`). Among settings free of these the comment is right (`MtgInstance.ConfigChangeShows`),
  and what is hidden where only `|` is missing is given exactly (`MtgInstance.HiddenChangeIff`).
- `sweepOrphansOnce` sets its flag before it kills, so a second caller can start a process beside an orphan
  (`MtgManager.OrphanCanOverlap`), but only between the two (`MtgManager.OverlapOnlyWhileSweeping`).
- The comment on the subscription cache says a changed inbound drops entries immediately. Inbounds read before an edit and
  stored after its bump are served until the TTL (`CacheProtocol.LateStampServesStaleRows`). Client rows are kept with
  them but nothing announces a write to those, on purpose: they are served as they were read
  (`CacheProtocol.TrafficIsServedLate`).

## Model

| member | source | states |
|---|---|---|
| Truncation.FindSecret | proxy/chain_http.go:85-99 | a presented secret finds a listed hop other than this one whose hash it has, and finds none only if there is none |
| Truncation.TruncationConfines | proxy/chain_http.go:156-192 | the cut document belongs to its reader, starts with the reader, names no hop inward of it; an edge sees only itself and learns activeEdge only when it is the active one |
| Truncation.TruncationNonInterference | proxy/chain_http.go:156-192 | two boxes that agree from the reader outward and on the address they hand out give it the same document, whatever stands inward |
| Truncation.TruncateTwice | proxy/chain_http.go:156-192 | two cuts in a row are the second alone, the handed address apart |
| Truncation.TruncationIsPathIndependent | proxy/chain_http.go:156-192 | through any sequence of intermediate hops a reader gets the self, hops, activeEdge, ports and revision one cut would give |
| Truncation.PanelPathsSurvive | proxy/chain_http.go:162-174 | the panel's paths reach every hop unchanged, and the one inward address is that of a box on the way or the one it began with |
| DocumentDiff.SamePorts | proxy/chain.go:369-383 | the loop over the port index decides the declarative predicate Same |
| DocumentDiff.SamePortsIsSetEquality | proxy/chain.go:369-383 | on lists without a repeated port it is equality of the two lists as sets, by pigeonhole |
| DocumentDiff.SamePortsNeedsDistinct | proxy/chain.go:369-383 | with a repeated port it accepts lists with different members |
| DocumentDiff.PortDiff | proxy/chain.go:386-406 | added counts listed ports outside the previous numbers, removed is the size of the set that went |
| DocumentDiff.NoneOutside | proxy/chain.go:386-406 | nothing was added exactly when every port number was there before |
| DocumentDiff.SecretsDiffer | proxy/chain.go:410-427 | true exactly when the number of hops differs or some hop is new or has another hash |
| Relay.BuildRelayConfig | proxy/relay.go:50-88 | succeeds exactly on non-empty lists of distinct, in-range ports with known networks, with one listener per port, all to the next hop; an error names a port that is wrong in the way it says |
| Relay.RelayProcess.Apply | proxy/relay.go:115-140 | a refused list changes nothing, a failed start leaves nothing running, a good one replaces process, ports and host |
| Relay.RelayProcess.Stop | proxy/relay.go:164-175 | afterwards nothing runs and, if something did, no ports are reported |
| Relay.RelayMatchesIffLastCallOk | proxy/chain.go:314-356 | over every run of restarts and documents, saves and starts failing at will, the relay runs what the current document asks for exactly when its last call succeeded |
| Relay.RelayFollowsDocument | proxy/chain.go:327-353 | with no failed relay call it always matches the document and is restarted exactly when the set of ports or the next hop's host changes |
| Relay.QuietStepKeepsRelayable | proxy/chain.go:327-349 | a document that needs no relay call asks for the same ports and host, and for a startable relay exactly when the previous one did |
| Relay.FailedStartIsNotRetried | proxy/chain.go:310-353 | a relay that failed to start stays down through revisions with the same ports and host |
| ChainWave.AnswerIsGenuine | proxy/chain_http.go:102-133 | what a box or the panel answers is the document the asker should hold at the answering side's revision |
| ChainWave.StepKeepsSound | proxy/chain.go:178-238 | bump, poll, answer, loss and restart, saves going through or not, keep every document, file and answer under way genuine |
| ChainWave.StepKeepsInv | proxy/chain.go:178-238 | with saves succeeding they keep files and revisions in order as well, and none takes a box to an earlier revision |
| ChainWave.RevisionsNeverDecrease | proxy/chain.go:178-238 | in every run in which saves succeed no box's revision ever decreases |
| ChainWave.RevisionsFallOutward | proxy/chain_http.go:102-133 | in every such run a box is never ahead of the one it polls, nor that one of the registry |
| ChainWave.TruncatedIsTheRegistrys | proxy/chain_http.go:156-192 | one more cut of the registry's document for a hop is its document for that hop's outer neighbour, next hop apart and without the two Reality fields of self |
| ChainWave.EveryDocumentIsTheRegistrys | proxy/chain.go:314-325 | in every run, lost saves and restarts included, whatever a box holds at revision r is the registry's revision-r document for that box as its source serves it, next hop and time stamp apart: whole from the panel, without the two Reality fields of self from a box |
| ChainWave.SelfIsWholeIff | proxy/chain_http.go:161 | in every run a box's self is the registry's for it exactly when it polls the panel or has no Reality target and server name, and its own list entry always is |
| ChainWave.EdgeReadsNoTarget | proxy/chain_http.go:161 | a run in which an edge behind an inner box holds the registry's revision and reads no target in self |
| ChainWave.LostSaveGoesBack | proxy/chain.go:320-325 | without the saves it fails: a lost write and a restart go from revision 2 to 1 |
| ChainConvergence.ListedHasDocument | proxy/chain_http.go:102-133 | at every revision that lists a box outward of the one it polls, the cuts on the way leave it a document |
| ChainConvergence.CurrentSourceAnswers | proxy/chain_http.go:118-133 | a source at the registry's revision answers with that revision, or 304 to a box that has it, never 404 |
| ChainConvergence.OnePollEachSyncs | proxy/chain.go:178-238 | from every reachable world, lost saves behind it or not, once the registry stands still and lists every box, one poll of each from the innermost out, saved or not, brings all of them to its revision |
| ChainDrain.NextHopIsTheLiveOne | proxy/chain_http.go:156-171 | the host a document names is the address of the first inward box that is not draining, past any number of draining ones |
| ChainDrain.RelayTarget | proxy/chain.go:327-353 | in every reachable world, lost saves and restarts included, a relay leads to exactly one place, strictly inward and not draining at the relaying box's revision |
| ChainDrain.RelayPathsGoInward | proxy/chain_http.go:156-171 | in every such world, when all boxes hold one revision every relay path runs strictly inward and enters no draining box |
| ChainDrain.RelaysReachThePanel | proxy/chain_http.go:156-171 | in every such world in which every box has a document, mid-wave included, the relays lead from any box to the panel |
| ChainDrain.RelayPathIsUnique | proxy/chain_http.go:156-171 | and there is only one such path |
| Acks.RecordKeepsTheFreshest | proxy/chain_state.go:158-170 | whatever was delivered in whatever order, each name's ack is one that was delivered for it, with the largest LastSeen |
| Acks.TiesKeepTheFirst | proxy/chain_state.go:165-167 | of equally fresh acks the one delivered first is held |
| Acks.RecordIgnoresOrder | proxy/chain_state.go:158-170 | order and repetition show neither in who is known nor in when they were last seen |
| Acks.InsertKeepsOrder | proxy/chain_state.go:174-183 | putting one more ack in place keeps the list ordered by name and its members |
| Acks.ListIsUnique | proxy/chain_state.go:174-183 | the held acks have one ordered list, so the header is stable between polls |
| Acks.EncodeOuterAcks | proxy/chain.go:247-260 | the loop returns the encoding of the first suffix that fits, or nothing |
| Acks.HeaderCarriesLongestSuffix | proxy/chain.go:247-279 | decoding the header gives the longest suffix of the list that fits 8 KiB |
| Acks.HeldAcksAreGenuine | proxy/chain_http.go:138-142 | over every run the ack held for a hop was said by a poll of a hop of that name, and none fresher was delivered |
| Base64.EncodeLength | proxy/chain.go:253-256 | the encoded length is four characters for every three bytes begun |
| Base64.DecodeEncode | proxy/chain.go:270-273 | decoding what was encoded gives the bytes back |
| Polling.HealthIsHonest | proxy/chain.go:281-308 | for every poll history and any clock: reachable exactly when the latest poll succeeded, stale exactly when one failed long enough after the last success |
| Polling.State.constructor | proxy/chain_state.go:99 | a new state has no document, no poll and no acks |
| Polling.State.SetDocument | proxy/chain_state.go:109-113 | replaces the document and nothing else |
| Polling.State.MarkPoll | proxy/chain_state.go:129-138 | records the attempt; success also records its time and clears staleness |
| Polling.State.SetStale | proxy/chain_state.go:142-146 | sets the flag and nothing else |
| Polling.State.RecordOuter | proxy/chain_state.go:158-170 | the ack map becomes the record of the delivered acks over the old one |
| Polling.State.OuterAcks | proxy/chain_state.go:174-183 | returns every held ack, ordered by name |
| Polling.DocumentStore.Save | proxy/chain_state.go:48-57 | the file becomes the document, or stays as it was when it cannot be written |
| Polling.Poller.Apply | proxy/chain.go:314-356 | document, file and relay become what ReceiveDocument says, and an error is reported exactly when a relay call was due and failed |
| Polling.Poller.Okay | proxy/chain.go:281-284 | failures are forgotten and the poll is marked as succeeded |
| Polling.Poller.Fail | proxy/chain.go:289-308 | one more failure, the health after it, and the hourly stale line exactly when the last success is old and the last line an hour ago |
| Polling.Poller.PollOnce | proxy/chain.go:178-220 | for every outcome of the request: the new health, failure count, document, file, relay and whether an error is reported |
| Polling.DocumentDiffers | proxy/chain.go:360-366 | decides the predicate the applied-again check uses |
| Polling.EtagIsInjective | proxy/chain.go:242 | equal ETags come from equal revisions |
| Polling.FindOuterNeighbour | proxy/chain_http.go:85-99 | the loop finds the neighbour the specification names |
| Polling.TruncateDocument | proxy/chain_http.go:156-192 | step by step it builds the truncated document |
| Polling.ChainHandler.HandleDocument | proxy/chain_http.go:102-142 | answers 404, 304 or the cut document, and records the poller's ack before those its header carries, for known neighbours only |
| Polling.ServeIsTheWavesAnswer | proxy/chain_http.go:118-133 | the handler's answer to the header a poller sends is the one the transition system takes |
| Polling.ReceiptIsTheWaves | proxy/chain.go:314-325 | a box of the transition system receives a document as Apply does |
| JoinForward.CountIsRead | proxy/chain_http.go:251 | whatever int64 a box writes as the count, the next box reads back |
| JoinForward.TravelIsFaithful | proxy/chain_http.go:229-297 | in every graph each forward carries the body as it came, the next count and one observed address, and the panel gets the last of them |
| JoinForward.ForwardsAreBounded | proxy/chain_http.go:251-256 | in every graph, cycles included, forwards are bounded by what the arriving count leaves |
| JoinForward.LoopUsesEveryForward | proxy/chain_http.go:251-256 | a box that is its own next hop uses all of them and then refuses |
| JoinForward.SixteenForwardsIffCountIsSane | proxy/chain_http.go:251-256 | at most 16 forwards in every graph exactly when the arriving count is in range |
| JoinForward.ArrivesIffPanelIsNear | proxy/chain_http.go:229-274 | whatever count it arrives with, the request reaches the panel exactly when the panel is within the forwards it has left |
| JoinForward.ObservedIsSeenIffHeaderAgrees | proxy/chain_http.go:258-263 | what travels on is what the first receiver saw exactly when the header was absent or said the same |
| Firewall.Merge | nginx/firewall.go:309-328 | the result is sorted, without repetitions, and holds exactly the valid ranges of the lists |
| Firewall.MergeIsUnique | nginx/firewall.go:309-328 | only one list has that property |
| Firewall.Rules | nginx/firewall.go:258-306 | the loops build the rule list of the specification |
| Firewall.CanCloseNeverOpen | nginx/firewall.go:17-22 | wherever the chain is hooked, INPUT accepts only what it accepts without it, and decides as without it on packets the chain does not drop |
| Firewall.FinishedDropsExactly | nginx/firewall.go:258-306 | the finished chain drops exactly the packets outside loopback, listed interfaces, tracked traffic, ICMP, DHCP, the allowed ports and SSH |
| Firewall.Family.Run | nginx/firewall.go:30-32 | one command: its effect on the table, or a refusal that leaves it |
| Firewall.Family.Fill | nginx/firewall.go:235-239 | at every point the chain holds a prefix of its rules |
| Firewall.Family.Clear | nginx/firewall.go:227-231 | the chain is created if missing and emptied, or the flush fails and the table is as it was or has an empty chain |
| Firewall.Family.Hook | nginx/firewall.go:248-253 | one jump more in front, unless the check finds one |
| Firewall.Family.Rebuild | nginx/firewall.go:225-254 | at every point, failing anywhere, the table is as it was, filling, or finished; table and error are those of the value-level rebuild for the commands that fail; without faults it is the rebuilt one |
| Firewall.Family.Remove | nginx/firewall.go:145-155 | without faults it leaves the table Removed names; with any faults no rule of others changes |
| Firewall.ApplyFirewall | nginx/firewall.go:115-135 | each usable family ends closed or some rebuild reports why; unusable ones are untouched; none usable is an error |
| Firewall.RemoveFirewall | nginx/firewall.go:140-157 | each usable family is cleared, rules of others stand |
| Firewall.RebuildIsSafeThroughout | nginx/firewall.go:225-254 | at every intermediate or failed point our chain drops the old set, nothing or the finished set, others' rules keep their order, and INPUT accepts nothing it would not accept without us |
| Firewall.FinishedVerdict | nginx/firewall.go:241-254 | the finished table lets in a packet the chain drops exactly when a rule of others above the first jump accepts it, never with the jump first, and otherwise decides as INPUT did |
| Firewall.DroppedUnlessDecidedAhead | nginx/firewall.go:245-249 | wherever the jump stands, a dropped packet gets in exactly when what stands above the first jump accepts it |
| Firewall.JumpBelowLeavesOpen | nginx/firewall.go:248-250 | a jump that stands below an accepting rule is left there by a rebuild, and what the chain drops is let in |
| Firewall.FailedCheckAddsJump | nginx/firewall.go:248-253 | when only the check fails, a hooked table gets a second jump and no error is reported |
| Firewall.FailedAppendLeavesReturns | nginx/firewall.go:235-239 | when only the k-th append fails, the chain stays hooked with the rules before it and drops nothing |
| Firewall.RulesAreUnique | nginx/firewall.go:118-119 | the settings and the SSH ports determine the rule list |
| Firewall.ApplyTwiceIsOnce | nginx/firewall.go:109-114 | applying twice ends as applying the second time alone |
| Firewall.RemoveIsCompleteUpToTen | nginx/firewall.go:145-155 | removal leaves no jump and no chain exactly when there were at most ten jumps, and never changes other rules |
| Firewall.RemoveUndoesApply | nginx/firewall.go:115-157 | on a table without our chain, removing after applying gives the table back |
| FileTx.Transaction.KeepFile | nginx/tx.go:37-62 | the first state of a path is kept once |
| FileTx.Transaction.WriteTo | nginx/tx.go:64-75 | the new files and records, whatever fails |
| FileTx.Transaction.RemoveAt | nginx/tx.go:77-85 | the new files and records, whatever fails |
| FileTx.Transaction.Rollback | nginx/tx.go:88-115 | the loop restores every kept path, newest first, once |
| FileTx.Transaction.Commit | nginx/tx.go:117 | nothing but the flag changes |
| FileTx.WriteIsUndoable | nginx/tx.go:64-75 | a write to a path that is no link keeps everything recorded that a rollback needs |
| FileTx.RemoveIsUndoable | nginx/tx.go:77-85 | so does the removal of a file or a link |
| FileTx.RollbackRestores | nginx/tx.go:88-115 | a rollback puts the contents of every path back that it is let; a file gets its mode back exactly when it is there with that mode or is gone and the umask takes nothing from it |
| FileTx.AnyRunRollsBack | nginx/tx.go:37-121 | any sequence of writes and removals, failing anywhere, rolls back to the contents of every file and link, and to a file's mode exactly under that condition |
| FileTx.RewrittenFileKeepsNewMode | nginx/tx.go:64-115 | a file of mode 0600 removed, written with 0644 and rolled back is 0644 |
| FileTx.RollbackPutsBack | nginx/tx.go:88-115 | where no removed file was written anew, every file has its mode back or, if it was removed, what the umask leaves of it |
| FileTx.FinishedIsFinal | nginx/tx.go:88-121 | after commit or rollback a rollback is a no-op |
| StreamInclude.StreamBlockIsProper | nginx/manager.go:35-39 | the panel's markers and block have the shape the text results need |
| StreamInclude.HasForeignStreamBlock | nginx/manager.go:586-602 | the depth counter finds a block exactly when some line outside all braces opens one |
| StreamInclude.RenderedMatch | nginx/manager.go:39 | our rendered block is matched whole, whatever follows it |
| StreamInclude.StripLeavesNoBlock | nginx/manager.go:548-550 | whatever nginx.conf holds, stripping leaves nothing to match |
| StreamInclude.AddingTwiceIsOnce | nginx/manager.go:569-582 | adding again gives the same text exactly when there was no stray begin marker |
| StreamInclude.AddingLeavesOneBlock | nginx/manager.go:569-582 | there are as many blocks as before, or one where there was none |
| StreamInclude.StrippingUndoesAdding | nginx/manager.go:548-582 | stripping what was added gives nginx.conf back up to trailing line breaks exactly when there was no stray begin marker |
| StreamInclude.StrayMatch | nginx/manager.go:569-582 | after a stray begin marker the match swallows text up to our end marker |
| SniMap.Claim | nginx/config.go:131-143 | a name is claimed exactly if it is not blank and unclaimed |
| SniMap.ValidateRoutes | nginx/config.go:145-173 | accepts exactly the valid route lists and knows their names, relays and fallbacks |
| SniMap.Validate | nginx/config.go:116-215 | no error exactly for the configurations the declarative predicate admits |
| SniMap.RenderingIsStable | nginx/config.go:423-432 | the same names in any order, case and padding render the same |
| SniMap.FindFallbackUpstream | nginx/config.go:223-237 | the first fallback route, else the site, else the first route |
| SniMap.StreamConf | nginx/config.go:240-307 | fails exactly on invalid configurations and otherwise gives the map's lines and default, the public port and the relay servers |
| SniMap.WriteRelayServers | nginx/config.go:294-305 | the loop gives one server for each route with a relay, on the relay, to the route's upstream |
| SniMap.MapKeys | nginx/config.go:240-275 | the map's keys are distinct: the claimed names, and the empty name with an IP certificate |
| FrontRouting.RouteArrives | nginx/config.go:276-305 | through its own relay if it has one, a route's target leads to its upstream exactly when no server of nginx, the public one included, sits on that address |
| FrontRouting.ClaimedNameReachesClaimant | nginx/config.go:262-305 | a claimed name is looked up to its claimant, and a connection for it reaches the claimant's upstream exactly when nginx can bind its servers and none sits on that address |
| FrontRouting.SiteNamesReachSite | nginx/config.go:253-261 | the domain, and the empty name with an IP certificate, reach the site exactly when it is not on the public port |
| FrontRouting.OtherNamesReachFallback | nginx/config.go:223-237 | every other name goes to the single fallback, and arrives under the same conditions |
| FrontRouting.UpstreamOnRelayIsMisrouted | nginx/config.go:145-160 | an upstream that is another route's relay sends a route's clients to the other inbound |
| FrontRouting.UpstreamOnFrontComesBack | nginx/config.go:276-291 | an upstream that is the public port sends them back to the front |
| FrontRouting.ValidateAcceptsMisrouting | nginx/config.go:145-160 | configurations of the first kind pass validation |
| FrontRouting.ValidateAcceptsLoop | nginx/config.go:116-215 | so does a fallback on the public port, with which no name reaches anything |
| FrontRouting.ValidateAcceptsUnbindableSite | nginx/config.go:116-215 | and a site on the public port, with which nginx does not come up |
| NginxManager.WriteConfig | nginx/manager.go:352-370 | the three files are changed in turn up to the first failure |
| NginxManager.Prepare | nginx/manager.go:314-343 | passes exactly when every check does, with the main file as read and as it should be, which holds our block exactly when the front is on |
| NginxManager.Stage | nginx/manager.go:314-380 | it succeeds exactly when every check passes and every change is made; then the files are what the config wants and can still be rolled back, otherwise every file is as it was |
| NginxManager.SmoothlyWritten | nginx/manager.go:352-370 | with nothing in the way every change is made |
| NginxManager.HandWrittenFileIsReplaced | nginx/manager.go:352-370 | with a willing environment a stream file without our header is replaced like any other |
| NginxManager.Activate | nginx/manager.go:390-404 | success commits and changes no file, failure puts every file back |
| NginxManager.RollbackLate | nginx/manager.go:465-476 | after a finished transaction it changes nothing |
| NginxManager.NeedsUpdate | nginx/manager.go:493-535 | when every file can be read it decides the declarative difference |
| NginxManager.OtherConfigNeedsUpdate | nginx/manager.go:493-535 | where one configuration is on disk another needs an update exactly when its words differ or one front is off, so a changed port, relay or upstream shows |
| NginxManager.Apply | nginx/manager.go:539-545 | it succeeds exactly when staging, reload and the port check do, and ends with everything on disk and nothing to update, or with every file as it began |
| AcmeFront.WriteAcmeConf | nginx/acme.go:80-97 | the port-80 file is ours or untouched; a file without our header is never overwritten |
| AcmeFront.DisableDebianSite | nginx/acme.go:124-147 | the link to the stock site goes, an edited site that claims the port stops the run |
| AcmeFront.DisableAlpineDefault | nginx/acme.go:149-161 | a default that claims the port is kept under another name and removed |
| AcmeFront.StageACMEFront | nginx/acme.go:75-102 | success leaves everything settled, changed is false only with nothing written, and where everything was settled nothing is written; it succeeds when only our and the distro's own files are in the way |
| AcmeFront.EnsureACMEFront | nginx/acme.go:186-257 | it ends with everything settled or with every file as it was, a second run writes nothing, and with a willing nginx and nothing of others in the way it succeeds |
| MtgInstance.FingerprintsAgreeIff | mtproto/manager.go:103-135 | for any settings, fingerprints are equal exactly when the rendered parts cut at every separator are the same pieces in the same order |
| MtgInstance.SeparableAgreeIff | mtproto/manager.go:103-135 | without a separator in any text, exactly when every single setting is equal, the URL lists are the same cut at every comma and the clients cut at every equals sign |
| MtgInstance.HiddenChangeIff | mtproto/manager.go:681-794 | then instances with one fingerprint have different configs exactly when the URL lists that are written or the clients' ids and secrets differ |
| MtgInstance.FingerprintDecides | mtproto/manager.go:103-135 | for settings without a separator, URLs that are not blank and hold no comma, and ids and secrets without an equals sign, fingerprints are equal exactly when all settings are |
| MtgInstance.ConfigChangeShows | mtproto/manager.go:100-102 | among such settings equal fingerprints mean equal configs |
| MtgInstance.SeparatorHidesChange | mtproto/manager.go:111-112 | for any instance, a separator moved from the public IPv4 to the public IPv6 setting changes the config and not the fingerprint |
| MtgInstance.CommaHidesChange | mtproto/manager.go:118 | so does a URL with a comma split in two there |
| MtgInstance.BlankUrlHidesChange | mtproto/manager.go:118 | and one blank URL taken away |
| MtgInstance.EqualsSignHidesChange | mtproto/manager.go:132 | and an equals sign moved from a client's id to its secret |
| MtgManager.OneProcessPerInbound | mtproto/manager.go:363-471 | in every interleaving of all operations and spontaneous exits no inbound has two live processes, and every live one is in the map or held by the lock's owner |
| MtgManager.NoOrphansAfterSweep | mtproto/manager.go:340-358 | once the sweep is through no orphan is left |
| MtgManager.OverlapOnlyWhileSweeping | mtproto/manager.go:340-358 | in every run a live process beside an orphan is found only between the sweep's flag and its killing |
| MtgManager.OrphanCanOverlap | mtproto/manager.go:340-348 | and there a second caller can start one |
| MtgManager.EnsureIsItsSteps | mtproto/manager.go:363-412 | the undisturbed operation is a run of the interleaved steps |
| MtgManager.Manager.EnsureOne | mtproto/manager.go:363-412 | the new map and processes, whether it was running, outdated or missing, and whether the start succeeds |
| MtgManager.Manager.RemoveOne | mtproto/manager.go:423-436 | the inbound's entry and process are gone, nothing else changes |
| MtgManager.Manager.StopAll | mtproto/manager.go:494-507 | nothing is left in the map or alive |
| MtgManager.Manager.Reconcile | mtproto/manager.go:441-471 | no undesired inbound is left; without failures exactly the desired ones run, each with the fingerprint last asked for it |
| MtgTraffic.CollectUsers | mtproto/manager.go:555-583 | the loop reports the lines and new baselines of the specification |
| MtgTraffic.LinesSumToDelta | mtproto/manager.go:559-583 | the lines report each answered client once, by its non-negative difference, and nobody else |
| MtgTraffic.NeverOverReported | mtproto/manager.go:513-623 | over any interleaving of one collector with restarts and replaced entries, what is reported never exceeds what the incarnations counted |
| MtgTraffic.ExactWithoutRestart | mtproto/manager.go:513-623 | with one process and no answer that leaves the client out, it is the last reading less the first; failed scrapes lose nothing |
| InboundCache.CloneInbounds | sub/inbound_cache.go:89-103 | fresh objects, client rows included, with the same contents and the gaps dropped |
| InboundCache.Cache.Lookup | sub/inbound_cache.go:40-56 | a hit exactly for a usable entry, returned as fresh copies of its rows; an unusable entry is dropped, others stay |
| InboundCache.Cache.DropExpired | sub/inbound_cache.go:74-79 | exactly the expired entries go, none changes |
| InboundCache.Cache.Store | sub/inbound_cache.go:59-84 | the map becomes the old one with room made and the entry put, holding copies of its own |
| InboundCache.RoomIsEnough | sub/inbound_cache.go:69-83 | making room never invents entries and leaves at most 1024 after the insertion |
| InboundCache.HitMutateHit | sub/inbound_cache.go:37-56 | nothing done to the inbounds of one hit changes the next |
| InboundCache.Generation.Bump | shared/datagen/datagen.go:15-17 | the generation grows by one |
| CacheProtocol.StepKeepsInv | sub/subService.go:149-173 | every atomic step of lookups, stores, edits, traffic writes and bumps keeps the invariant |
| CacheProtocol.HitsAreFaithful | sub/inbound_cache.go:40-84 | a hit returns the inbounds and the client rows read for its entry, in a lookup begun no later than the TTL after the store, from a map within its bound; with no edit between query and stamp and every edit announced at the load, the inbounds are those of a version current since that load, whatever traffic is written |
| CacheProtocol.CurrentIffTrafficIs | database/db.go:220-232 | with no edit since the load either, such a hit is what the database resolves to exactly when the client rows of its inbounds are unchanged since they were read |
| CacheProtocol.TrafficIsServedLate | database/db.go:220-232 | with a traffic write after the store and every edit announced, the old client rows are served |
| CacheProtocol.LateStampServesStaleRows | sub/inbound_cache.go:59-64 | with an edit and its bump between query and stamp, outdated inbounds are served as current |
| Portfwd.Specs | shared/portfwd/portfwd.go:43-70 | every parsed spec is a valid range, none appears twice |
| Portfwd.Parse | shared/portfwd/portfwd.go:43-70 | the loop with its seen map gives the specification's list |
| Portfwd.KeyIsInjective | shared/portfwd/portfwd.go:58-66 | the key of the seen map tells specs apart |
| Portfwd.Normalize | shared/portfwd/portfwd.go:100-114 | prints the parsed list |
| Portfwd.ReadPrinted | shared/portfwd/portfwd.go:73-97 | a printed spec reads back |
| Portfwd.ParseOfNormalized | shared/portfwd/portfwd.go:43-114 | parsing the normal form of any input gives what parsing the input gives |
| Portfwd.NormalizeIsIdempotent | shared/portfwd/portfwd.go:100-114 | normalising twice is normalising once |
| Portfwd.NormalFormsClassify | shared/portfwd/portfwd.go:100-114 | two inputs share a normal form exactly when they parse alike |
| TunnelHooks.Rules | shared/portfwd/portfwd.go:145-189 | the loop gives the rule set of the specification |
| TunnelHooks.CollectNeighs | tunnel/config.go:322-331 | the neighbour entries of the enabled clients with an IPv6 address, in order |
| TunnelHooks.CollectForwards | tunnel/config.go:336-343 | the forwarding rules of the enabled clients, in order |
| TunnelHooks.GenerateDefaultPostUp | tunnel/config.go:296-350 | the command list of the specification |
| TunnelHooks.GenerateDefaultPostDown | tunnel/config.go:353-397 | the command list of the specification |
| Kernel.WireOne | shared/tproxy/tproxy.go:36-66 | one family's wiring leaves exactly one policy rule, its route and its rules besides what was there |
| Kernel.UnwireOne | shared/tproxy/tproxy.go:81-98 | its teardown takes the rules, the route and every copy of the policy rule |
| TunnelLifecycle.PostUpEffect | tunnel/config.go:296-350 | from any kernel state PostUp succeeds and adds its rules, entries and one policy rule per wired family |
| TunnelLifecycle.PostDownEffect | tunnel/config.go:353-397 | where the tunnel is up it runs to its end exactly when no two enabled clients share an IPv6 address, and what it takes in either case |
| TunnelLifecycle.UpThenDownRestores | tunnel/config.go:296-397 | up then down restores every chain as a multiset exactly under that condition or with nothing behind the entries, leaves no policy rule of its own exactly under that condition, and touches no other in any case |
| TunnelLifecycle.Machine.EnsureTproxyRouting | tunnel/healing.go:31-64 | the loops over families and checks make the repairs of the specification, whatever the queries and commands answer |
| TunnelLifecycle.NothingToHealAfterUp | tunnel/healing.go:31-64 | right after PostUp a tick repairs nothing |
| TunnelLifecycle.HealthyNeedsNoRepair | tunnel/healing.go:31-64 | a healthy state is left as it is |
| TunnelLifecycle.HealRestores | tunnel/healing.go:31-102 | after a tick the next has nothing to do, and the tunnel's own policy rule is there exactly when no other passed for it |
| TunnelLifecycle.AtMostOnePolicyRule | tunnel/healing.go:31-102 | across every run of ups, downs, each cut off anywhere, ticks and foreign removals there is at most one policy rule per family |

## Left out

- The panel's side of the chain: its registry and document builder are taken as a well-formed input, its acceptance of joins and its drain sweep are not modelled; the set of boxes of a run is fixed.
- JSON, SHA-256 and MD5: an injective codec and injective hashes. How a document or an ack list looks as text is not modelled.
- Poller.Interval and its jitter, the HTTP client, TLS, timers and logging apart from the hourly stale line. Clocks are in milliseconds.
- A control-plane address that follows a draining next hop: the poller keeps asking the next hop of its configuration file, and so does the model.
- The status endpoint's field copying; the two flags it derives from polling are in Polling.HealthIsHonest.
- SSHPorts' reading of sshd_config: the ports sshd listens on are a parameter of the firewall.
- An empty interface name in the firewall's settings, which some versions of iptables refuse and others take for every interface: `tunnelInterfaces` (web/service/nginx_apply.go) passes none, and the model matches it with an empty name only.
- Rules of others that jump into our netfilter chain, rules that change packets, and REJECT: others' rules decide on a packet or pass it on.
- nginx's wildcard names, map keywords used as server names, Unicode case folding, and two spellings of one address: names and addresses are compared as written, letters lower-cased in ASCII.
- The HTTP side's rendering and the words of the stream block: a configuration's text is a function of its modelled content.
- Which hosts are the machine's own is a parameter of FrontRouting. A server on an address itself is taken to come before the public server, which listens on every address of its port; of servers that nginx cannot bind, only the site on the public port is modelled.
- What a connection that comes back to the front, or reaches a server that expects the PROXY header without one, does there.
- Directories made on the way, and writes through symbolic links, which FileTx does not undo; links are taken to hold normalised absolute targets.
- FileTx.AnyRunRollsBack: requires that no write goes through a symbolic link, because the source keeps the link and not the file behind it.
- nginx's own state (running, enabled at boot) and its probing; their outcomes are parameters.
- An mtg scrape answered by another inbound's process on a reused port: a snapshot's port is answered by a process of the same inbound or by nobody.
- MtgTraffic.NeverOverReported: for one collector and one direction of traffic at a time; the two directions go through the same steps.
- MtgTraffic keys a single-secret mtg by its inbound; that each report names the client who was first while it was counted, across a change of the first client, is not covered.
- MtgManager.OneProcessPerInbound: takes Stop to succeed and processes to be told apart by more than their system number; the stats port is not modelled.
- InstanceFromInbound, and the TOML as text: a config is what its keys say.
- Wrap-around of the 64-bit generation counter and of 64-bit byte counts.
- The database, GORM and migrations: for the cache the database is two tables, inbounds with the sub ids they serve and client rows by inbound; a write is one step at its statement, and the bump after an edit another. Transactions rolled back are not modelled.
- Shell quoting and the text form of the tunnel hooks: hooks are lists of commands run one after the other and stopped at the first failure.
- Tunnel client addresses are compared as written: two spellings of one IPv6 address are two entries in TunnelLifecycle and one to the kernel, and PostDown then stops at the second as it does for one spelled alike.
- The healing tick's look at `ip rule` compares the table as written; a table that `ip rule` shows by a name of its own is not modelled.
- The drain loop of policy rules is taken to end with no copy left; each hook and each tick runs without another in between.
- Subscription links, Telegram, controllers, the web interface, keys and random values: they would only add easy members.
