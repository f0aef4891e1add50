# keen-pbr in Dafny

keen-pbr turns a routing configuration into kernel state: firewall chains and address
sets, routing tables and `ip rule` entries, dnsmasq directives. It keeps that state
consistent while lists are refreshed, commands fail and callers overlap. This project
models the parts where that is hard and proves what they keep.

| part | modules |
|---|---|
| iptables generation swap | `Kernel`, `RestoreScript`, `ScriptRefs`, `GenerationSwap`, `ApplyOutcome`, `SwapTheorems`, `StagedPolicy`, `SwapExamples`, `IptablesFirewall`, `FirewallRuntime` |
| rule compiler and packet semantics | `Netfilter`, `RuleCompiler`, `DispatcherScript` |
| nftables document | `NftDocument`, `NftApply`, `NftFirewall`, `NftStaging` |
| marks, tables and the routing plan | `Bits`, `Fwmark`, `TableIds`, `RoutingPlan`, `KillSwitch`, `KillSwitchTheorems`, `RouteCoverage`, `Planner` |
| single-flight list refresh | `SingleFlight`, `ListRefresh` |
| MD5 and the dnsmasq generator | `Rfc1321`, `Md5`, `ListDomains`, `DnsmasqRows`, `DnsmasqBatches`, `DnsmasqConfig`, `DnsmasqGen`, `DnsmasqPass`, `DnsmasqText`, `DnsmasqMeaning`, `DnsmasqHash`, `DnsmasqDirectives`, `DnsmasqFile` |
| DNS test server | `DnsWire`, `DnsProbe`, `DnsQueries`, `TcpFrames` |
| verifier and status stream | `Verifier`, `VerifierInput`, `ListedRules`, `StatusStream` |
| shared | `Common`, `ConfigTags`, `Ordering` |

Code that works by changing things is modelled as methods and classes, each proved equal
to a specification function; the theorems are about those functions. External commands
are part of the state: an `iptables-restore` or an nft transaction happens whole or not
at all, an ipset restore may stop after any prefix, a cleanup command may fail by itself,
and an oracle value says how each of them turned out. The nft kernel side is taken to
refuse deleting a set that an existing rule matches, and adding a set that exists with
another schema.

`dafny verify dfyconfig.toml` covers the whole project.

## Where the code differs from what it promises

Each of these has a lemma with the failing case and, where the failure depends on the
input, a lemma saying exactly when the promise is met.

- In the A/B script, set-matched DROP and RETURN lines go to the dispatcher instead of the
  generation chain. They act after every mark rule (`SpilledPassLosesToLaterMark`), and a
  packet that the prefilter returns, such as one from another interface, meets them all
  the same (`ReturnedPacketMeetsSpilledDrop`). `SpillExact` gives the exact condition for
  every packet.
- A negated address list with two or more different blocks of a family becomes an OR of
  negations (`NegationExact`).
- With IPv6 enabled and its backend probe failing, IPv6 sets are skipped while IPv6 rules
  are still restored. The probe is two separate commands, so the restore can work when it
  failed: three refreshes then leave a live chain over a stale set
  (`DisagreeingProbeServesStaleSet`). `SixSoundExactly` says which applies do this, from
  the state and the command results before the call. IPv4 is not affected (`FourSound`).
- A destructive apply whose cleanup removes neither the hook nor the dispatcher's lines
  leaves a live chain over emptied sets (`MissedCleanupStopsBlocking`, exact condition
  `LeftOpenExactly`).
- The validator counts one priority pair per outbound while a detour adds a second, so a
  guard can wrap to priority 0 and block its own detour (`ValidatedStartStillWraps`,
  exact conditions `SomeGuardWrapsExactly` and `RoutesUsableExactly`).
- Outbound tags are not required to be unique; two outbounds with one tag share a mark and
  the second one's packets can leave through the first one's table
  (`SharedTagUsesFirstTable`, exact condition `KillSwitchExactly`).
- The mask 0xFFFFFFFF is accepted and leaves room for no mark at all (`FullMaskHasNoRoom`).
- docs/content/docs/configuration/outbounds.md says a URLTEST table always ends with
  unreachable routes; the code adds them only when the table would otherwise be empty. The
  model follows the code (`UrltestAlwaysCovered`).
- When the live nft table cannot be read, static sets are not flushed
  (`UnreadTableKeepsEntries`).
- The nft document deletes a set with a changed schema before it deletes the chains, so a
  live rule that matches the set makes the kernel refuse the whole document
  (`ApplyIsExact`). The comment beside that code expects the opposite order.
- A TCP frame of 15360 to 16382 bytes arrives or overflows depending on how the stream was
  cut (`CutDecides`).

## Model

| member | source | states |
|---|---|---|
| `Netfilter.RenderInjective` | src/firewall/iptables.cpp:146-153 | set names of different family, kind, generation or list never collide as text |
| `Bits.RestoreReadsBack` | src/firewall/iptables.cpp:359-393 | a mark restored from the connection equals the connection's bits under the mask, for all values |
| `RuleCompiler.NegationExact` | src/firewall/iptables.cpp:395-493 | the expanded address test agrees with the stated one on every address if and only if the list is not negated or has at most one distinct block of the family |
| `RuleCompiler.UnitEval` | src/firewall/iptables.cpp:395-493 | the lines of one expanded rule (mark, optional connection-mark save, return) act as a whole or not at all |
| `RuleCompiler.ExpansionFires` | src/firewall/iptables.cpp:186-223 | some member of the protocol, source and destination product matches a packet exactly when the unexpanded rule's tests do |
| `RuleCompiler.RuleEval` | src/firewall/iptables.cpp:186-257 | the lines of one rule give its verdict or pass the packet on unchanged |
| `RuleCompiler.ListEval` | src/firewall/iptables.cpp:395-516 | the lines of a rule list give the verdict of the first matching unexpanded rule |
| `RuleCompiler.PrefilterEval` | src/firewall/iptables.cpp:359-393 | the prefilter lines restore, return, accept or continue as the prefilter settings say |
| `RuleCompiler.SingleChainMeansPolicy` | src/firewall/iptables.cpp:495-516 | for every rule list, set contents and packet, the single-chain script has the policy's outcome |
| `RuleCompiler.MarkIsSet` | src/firewall/iptables.cpp:395-493 | a mark rule gives the packet the rule's bits under its mask |
| `RuleCompiler.ConnectionKeepsMark` | src/firewall/iptables.cpp:359-393 | a connection keeps the mark its first packet got: a later packet of it returns with the same bits, whatever the rules and sets have become |
| `RuleCompiler.ConnectionMarkUntouched` | src/firewall/iptables.cpp:359-393 | with restoring off the connection mark is neither read nor written |
| `DispatcherScript.ScriptMeansActual` | src/firewall/iptables.cpp:518-556 | the two-chain script does what `Actual` says: policy of the rules that stay, then the spilled ones |
| `DispatcherScript.PolicyWithoutSpills` | src/firewall/iptables.cpp:479-487 | without set-matched drop or pass rules the two-chain script has the policy's fate for every packet |
| `DispatcherScript.SpillExact` | src/firewall/iptables.cpp:386-487 | for every rule list, prefilter, set contents and packet, the two-chain script gives the policy's fate if and only if the spilled rules are harmless for that packet: inside the chain, or behind it for a packet the prefilter returned |
| `DispatcherScript.ReturnedPacketMeetsSpilledDrop` | src/firewall/iptables.cpp:386-487 | a packet from another interface is kept by the policy and dropped by a spilled line |
| `DispatcherScript.SpilledPassLosesToLaterMark` | src/firewall/iptables.cpp:479-487 | a set-matched pass rule ahead of a mark rule is overridden: policy keeps the packet, script marks it |
| `Kernel.RunIpsetFrame` | src/firewall/iptables.cpp:630-667 | no prefix of an ipset script changes a set it does not name |
| `Kernel.CleanupEffect` | src/firewall/iptables.cpp:738-856 | a cleanup takes one hook unless that command fails, and the dispatcher's lines exactly unless their flush fails |
| `Kernel.CleanupIdlesExactly` | src/firewall/iptables.cpp:738-856 | a cleanup leaves no rule reachable from PREROUTING if and only if none was before, its dispatcher flush works, or the removal of the only hook works |
| `RestoreScript.IptScriptInstalls` | src/firewall/iptables.cpp:518-556 | a restore succeeds exactly when it declares the dispatchers or they exist, then installs the new generation whole and leaves the other generation's chain alone |
| `RestoreScript.IpsetFrame` | src/firewall/iptables.cpp:630-667 | an ipset restore cut anywhere leaves every set it does not target as it was |
| `RestoreScript.IpsetLoads` | src/firewall/iptables.cpp:630-667 | a complete ipset restore leaves each staged static set with exactly the streamed entries, whatever it held before, and adds exactly the staged sets the mode creates |
| `ScriptRefs.ScriptSets` | src/firewall/iptables.cpp:395-556 | a restore script names a missing set exactly when a pending rule of its family does |
| `IptablesFirewall.FilterAddrsByFamily` | src/firewall/iptables.cpp:23-36 | the loop keeps exactly the addresses of the family, in order |
| `IptablesFirewall.CrossProduct` | src/firewall/iptables.cpp:186-223 | the nested loops produce the expansion the theorems are about |
| `IptablesFirewall.BuildRuleLines` | src/firewall/iptables.cpp:395-493 | the line builder produces the lines of the compiler model |
| `IptablesFirewall.BuildIptScript` | src/firewall/iptables.cpp:518-556 | the script builder produces the two-chain script |
| `IptablesFirewall.BuildIpsetScript` | src/firewall/iptables.cpp:630-667 | the set builder produces create, flush and add commands in script order |
| `IptablesFirewall.Firewall.PrepareApply` | src/firewall/iptables.cpp:128-144 | staging is emptied and each family targets the generation that is not active |
| `IptablesFirewall.Firewall.CreateIpset` | src/firewall/iptables.cpp:167-184 | a set is staged once and its family remembered |
| `IptablesFirewall.Firewall.AppendRulesForFamily` | src/firewall/iptables.cpp:186-223 | staged rules grow by exactly the family's expansion |
| `IptablesFirewall.Firewall.CreateRule` | src/firewall/iptables.cpp:225-257 | a rule is staged for its set's family, or for both |
| `IptablesFirewall.Firewall.CleanupRules` | src/firewall/iptables.cpp:738-856 | both families are cleaned command by command and no generation stays active |
| `IptablesFirewall.Firewall.LoadSets` | src/firewall/iptables.cpp:630-667 | the set phase has the effect of the script up to where it stopped |
| `IptablesFirewall.Firewall.RestoreFamily` | src/firewall/iptables.cpp:683-730 | a family's generation is recorded as active exactly when its restore went through |
| `IptablesFirewall.Firewall.RebuildIfMissing` | src/firewall/iptables.cpp:669-681 | missing dispatchers of an active family force a full cleanup first |
| `IptablesFirewall.Firewall.Apply` | src/firewall/iptables.cpp:610-736 | apply refines the step `GenerationSwap.Apply` for every mode and every way its commands turn out |
| `FirewallRuntime.ApplyRuntimeFirewall` | src/firewall/firewall_runtime.cpp:34-227 | the driver's whole cycle, staging and apply, refines one step of the transition system and returns whether that apply succeeded |
| `ApplyOutcome.ApplyExactly` | src/firewall/iptables.cpp:610-736 | from the state and the command results before the call: exactly when an apply succeeds, and for each family exactly when it is switched to this staging, cleaned, or left as it was |
| `ApplyOutcome.SuccessRunsThisStaging` | src/firewall/iptables.cpp:610-736 | after a successful apply IPv4, and IPv6 when it is wanted, run the rules, sets and prefilter of this staging |
| `ApplyOutcome.FourSound` | src/firewall/iptables.cpp:610-736 | one apply keeps the IPv4 generation invariant in every mode, with any command failing |
| `ApplyOutcome.SixSoundExactly` | src/firewall/iptables.cpp:610-736 | one apply keeps the IPv6 generation invariant if and only if it does not switch, its probe having failed, over sets that did not already hold what was staged |
| `ApplyOutcome.LeftOpenExactly` | src/firewall/iptables.cpp:738-933 | exactly when an apply leaves a family without an active generation but with reachable rules |
| `SwapTheorems.StepSoundExactly` | src/firewall/iptables.cpp:128-736 | one cycle, abandoned cycle or outside table reload keeps a family's generation invariant, for IPv6 if and only if it is not stale |
| `SwapTheorems.RunKeepsFamily` | src/firewall/iptables.cpp:128-736 | every run keeps the IPv4 generation invariant, and the IPv6 one if none of its steps is stale |
| `SwapTheorems.AgreeingProbesNeverStale` | src/util/ipv6_support.cpp:32-37 | no step is stale when the restore fails whenever the probe does |
| `SwapTheorems.StepQuietExactly` | src/firewall/iptables.cpp:738-856 | one step keeps a family without an active generation closed if and only if its cleanup does not miss it |
| `SwapTheorems.RunEnforcesActivation` | src/firewall/iptables.cpp:610-736 | after any run (for IPv6: one without a stale step), a live family is hooked and decides packets as the rules and set contents staged by the apply that activated it |
| `SwapTheorems.LiveReferencesInEveryRun` | src/firewall/iptables.cpp:128-153 | after any run without a missed cleanup (for IPv6: nor a stale step), every static set a packet can be matched against is of that family's active generation and holds exactly the entries its activating apply loaded |
| `SwapTheorems.LiveSetsKept` | src/firewall/iptables.cpp:630-667 | no non-destructive apply, failed or not, touches a dynamic set or a static set of an active generation |
| `SwapTheorems.ResolvedAddressesSurvive` | src/firewall/iptables.cpp:630-667 | a dynamic set keeps its entries through every apply that is not told to clear it, whatever fails |
| `SwapTheorems.WorkingRefreshHeals` | src/firewall/iptables.cpp:610-736 | from any state of the chains, an apply whose commands work succeeds and leaves both families running the staging |
| `SwapTheorems.FailedRefreshIsInvisible` | src/firewall/iptables.cpp:610-736 | a failed non-destructive apply switches at most IPv4, leaves the other chains alone unless a dispatcher was missing, and leaves every set a live chain consults unchanged |
| `SwapExamples.DisagreeingProbeServesStaleSet` | src/firewall/iptables.cpp:616-730 | three refreshes from a clean start, the last with a failed probe and a working restore, leave a reachable IPv6 line over a set with the first refresh's entries |
| `SwapTheorems.MissedCleanupLeavesEmptySetsLive` | src/firewall/iptables.cpp:738-933 | a destructive apply whose cleanup misses IPv4 and whose set restore is cut leaves the old dispatcher line reachable over an emptied set |
| `SwapExamples.MissedCleanupStopsBlocking` | src/firewall/iptables.cpp:738-933 | two refreshes from a clean start in which only unhooking and flushing the dispatcher fail: the drop line stays reachable and its set is empty |
| `StagedPolicy.StagingMeansRoutes` | src/firewall/firewall_runtime.cpp:34-227 | the first staged rule that matches a packet has the action of the first route rule whose criteria hold and whose lists, by entry or resolved address, cover the destination |
| `StagedPolicy.RefreshEnforcesRoutesExactly` | src/firewall/firewall_runtime.cpp:34-227 | after a refresh that switches a family, its chains give a packet the fate the route rules state if and only if the spilled rules are harmless for it |
| `StagedPolicy.RefreshEnforcesRoutes` | src/firewall/firewall_runtime.cpp:34-227 | which is every packet when no rule over a list drops or passes |
| `NftDocument.SetStep` | src/firewall/nftables.cpp:678-697 | the commands of one pending set fail exactly when the kernel refuses it and otherwise leave the set as planned |
| `NftApply.SetsPhase` | src/firewall/nftables.cpp:678-697 | all set commands, duplicates included, leave every pending set as planned and touch no other |
| `NftApply.ChainPhase` | src/firewall/nftables.cpp:699-714 | the chain commands leave exactly the kept and new rules in each chain |
| `NftApply.LoadPhase` | src/firewall/nftables.cpp:716-729 | the element commands leave every loaded set as planned and touch no other |
| `NftFirewall.DocumentMeans` | src/firewall/nftables.cpp:661-732 | for every table, plan and staging, the document is refused exactly when one of its sets is, and otherwise leaves the described table |
| `NftFirewall.ApplyIsExact` | src/firewall/nftables.cpp:734-751 | after a true read, loaded static sets hold exactly the streamed entries, existing dynamic sets are unchanged unless cleared, chains hold the new rules, and refusal happens exactly when a set changes schema under a live rule |
| `NftFirewall.UnreadTableKeepsEntries` | src/firewall/nftables.cpp:590-659 | after a failed read a loaded set keeps its old entries too, so it is exact if and only if it held only streamed ones |
| `NftFirewall.StagedRulesSound` | src/firewall/nftables.cpp:78-160 | every staged rule names its own set and only addresses of its own family, and never loses an address list that the criteria had |
| `NftStaging.StagedRulesExactly` | src/firewall/nftables.cpp:78-160 | a rule is staged if and only if it is on the OUTPUT chain exactly for output criteria, is of an admitted family, one of tcp and udp or the one protocol, and keeps every other criterion with exactly its family's addresses |
| `NftStaging.StagedRuleIsLive` | src/firewall/nftables.cpp:699-714 | after an accepted document a staged rule is in the prerouting chain exactly when its criteria are not for output, and in the output chain exactly when they are |
| `NftStaging.ChainKeepsOrder` | src/firewall/nftables.cpp:699-714 | each chain holds its rules in the order they were staged |
| `NftStaging.DynamicByName` | src/firewall/nftables.cpp:267-269 | the name test for dynamic sets holds exactly of the names of dynamic sets |
| `NftStaging.AppliedSets` | src/firewall/nftables.cpp:661-732 | a loaded static set holds exactly the streamed entries; an existing dynamic set keeps its own unless it is cleared |
| `NftFirewall.AddLoadKeeps` | src/firewall/nftables.cpp:162-170 | buffers stay one per set and each holds everything streamed into it, in order |
| `NftFirewall.Backend.CreateIpset` | src/firewall/nftables.cpp:64-76 | a set is staged with its schema unless its family is disabled |
| `NftFirewall.Backend.AppendRulesForFamily` | src/firewall/nftables.cpp:78-114 | staged rules grow by exactly the family's rules |
| `NftFirewall.Backend.CreateRule` | src/firewall/nftables.cpp:116-160 | a rule is staged for its set's family, for both, or once when no family matters |
| `NftFirewall.Backend.BatchLoad` | src/firewall/nftables.cpp:162-170 | entries are appended to the set's one buffer |
| `NftFirewall.Backend.BuildApplyDocument` | src/firewall/nftables.cpp:661-732 | the loops produce the document the theorems are about |
| `NftFirewall.Backend.Apply` | src/firewall/nftables.cpp:734-766 | an accepted document becomes the live table and empties the staging; anything else changes nothing |
| `Fwmark.LowestBitExact` | src/config/config.cpp:572-575 | two's-complement isolation gives the lowest set bit and normalising by it the odd part, for every 32-bit mask |
| `Fwmark.HasConsecutiveFullFNibbles` | src/config/config.cpp:577-590 | the digit loop accepts exactly the numbers whose hex digits are all F |
| `Fwmark.ValidateFwmarkMask` | src/config/config.cpp:597-625 | accepted masks are exactly 16^a * (16^k - 1) with k at least 1, and each error has its exact cause |
| `Fwmark.CapacityIs` | src/config/config.cpp:592-594 | an accepted mask has room for 16^k marks, none when k is 8 |
| `Fwmark.FullMaskHasNoRoom` | src/config/config.cpp:592-594 | the 32-bit mask's capacity wraps to zero |
| `Fwmark.MarksDiffer` | src/config/config.cpp:1215-1260 | any two of the first 16^k marks differ under the mask, for every start and across the 32-bit wrap |
| `Fwmark.MarkKeys` | src/config/config.cpp:1215-1260 | exactly the routable tags and their detour keys receive a mark |
| `Fwmark.AllocationDistinct` | src/config/config.cpp:1215-1260 | every accepted allocation is pairwise distinct under the mask |
| `Fwmark.AllocationIgnoresOrder` | src/config/config.cpp:1215-1260 | the tag-to-mark map does not depend on the order of the outbounds |
| `KillSwitchTheorems.MarkByRank` | src/config/config.cpp:1215-1260 | the i-th tag in name order gets the marks start + 2i and start + 2i + 1 steps, in 32-bit arithmetic |
| `Fwmark.AllocateOutboundMarks` | src/config/config.cpp:1215-1260 | allocation succeeds exactly when the mask is accepted and two marks per routable tag fit, and then returns that distinct map |
| `TableIds.FindSafeTableId` | src/config/routing_state.cpp:319-329 | for every start and offset the search ends, at a number that is not reserved and is the offset-th free one counted around the 32-bit range |
| `TableIds.SameTableExactly` | src/config/routing_state.cpp:319-329 | two offsets give one table if and only if they differ by a multiple of 31987 |
| `TableIds.TablesDistinct` | src/config/routing_state.hpp:17-28 | offsets below 31987 give different tables, also across the wrap |
| `RoutingPlan.PlanIgnoresOrder` | src/config/routing_state.cpp:342-353 | the plan does not depend on the order of the outbounds |
| `RoutingPlan.OwnTables` | src/config/routing_state.cpp:404-498 | interface and URLTEST outbounds never share a table |
| `KillSwitch.GuardedMarkNeverLeaks` | src/config/routing_state.cpp:379-402 | a packet with a guarded mark takes a route of its own table or hits its guard, in every enabled family and for every order the kernel may keep the rules in |
| `KillSwitch.RoutesUsableExactly` | src/config/routing_state.cpp:379-402 | a guarded mark can reach its routes if and only if its guard's priority does not wrap |
| `KillSwitch.SomeGuardWrapsExactly` | src/config/routing_state.cpp:379-402 | some guard of n pairs wraps if and only if the first priority is odd and the pairs run past the 32-bit range |
| `KillSwitchTheorems.ValidatedStartStillWraps` | src/config/config.cpp:1002-1007 | for one outbound with a detour and a start the validator admits, the detour's packets are blocked whatever its table holds |
| `KillSwitchTheorems.RoutableMarked` | src/config/config.cpp:1215-1260 | every routable outbound has a mark of its own and one for its detours in the allocated marks |
| `KillSwitchTheorems.PairsInPlan` | src/config/routing_state.cpp:379-402 | every routable outbound has its own pair, guarded exactly for URLTEST and for `strict_enforcement` set or defaulted on, and behind it a guarded detour pair once something detours through it |
| `KillSwitchTheorems.TableIsOwn` | src/config/routing_state.cpp:319-329 | a TABLE outbound uses its configured table, any other one outside the reserved numbers |
| `KillSwitchTheorems.RoutesInOwnTable` | src/config/routing_state.cpp:404-498 | an outbound's routes are planned into the table its rules look up |
| `KillSwitchTheorems.DownInterfaceRoutes` | src/config/routing_state.cpp:404-427 | the table of an interface that is down holds exactly an unreachable default per enabled family when it is strict, and nothing otherwise |
| `KillSwitchTheorems.ProtectedPair` | src/config/routing_state.cpp:379-498 | every URLTEST outbound, every one that is strict by its own field or by the default, and every detour in use has its guarded pair in the plan with the outbound's own table |
| `KillSwitchTheorems.KillSwitchHolds` | src/config/routing_state.cpp:333-515 | for every configuration with unique tags and its allocated marks, read off the configuration's fields: a packet of a URLTEST or strict outbound, or of a detour, takes a route of that outbound's own table or is blocked by its own guard, for every content of the tables |
| `KillSwitchTheorems.LaxOutboundFallsThrough` | src/config/routing_state.cpp:379-402 | a packet of an outbound that is not strict takes a route of its own table, and falls through to the main table exactly when there is none |
| `KillSwitchTheorems.KillSwitchExactly` | src/config/routing_state.cpp:379-402 | for any plan, a guarded pair decides its own packets for every content of the tables if and only if no earlier pair of its key shadows it |
| `KillSwitchTheorems.SharedTagUsesFirstTable` | src/config/routing_state.cpp:379-402 | for two planned outbounds with one tag and different tables, some table contents send the second one's packets out through the first one's table |
| `RouteCoverage.CandidateCovers` | src/config/routing_state.cpp:196-267 | default and closure routes give each enabled family exactly one entry per candidate |
| `RouteCoverage.UrltestAlwaysCovered` | src/config/routing_state.cpp:438-498 | every URLTEST table has an entry in every enabled family |
| `RouteCoverage.SelectedChildWins` | src/config/routing_state.cpp:438-498 | a reachable selected child that carries the family holds the lowest metric alone |
| `RouteCoverage.FirstChildWins` | src/config/routing_state.cpp:438-498 | otherwise the first reachable child in weight and position order does |
| `RouteCoverage.GroupsByWeightThenPosition` | src/config/routing_state.cpp:284-316 | sorted groups have non-decreasing weights, are a permutation of the configured ones, and keep their order within a weight |
| `RouteCoverage.LighterGroupsFirst` | src/config/routing_state.cpp:284-316 | for every weight the children of lighter groups come before those of heavier groups |
| `RouteCoverage.ChildrenAre` | src/config/routing_state.cpp:284-316 | every outbound a group refers to is a child |
| `RouteCoverage.SelectionDecides` | src/config/routing_state.cpp:438-498 | a selected reachable interface that carries the family holds the best entry, with its own device and gateway, and every other entry has a higher metric |
| `RouteCoverage.FailoverDecides` | src/config/routing_state.cpp:438-498 | otherwise the first reachable interface among the children holds it |
| `RouteCoverage.InterfaceTableCovered` | src/config/routing_state.cpp:404-427 | a reachable interface table has exactly one entry per enabled family |
| `Planner.AddUrltest` | src/config/routing_state.cpp:438-498 | the URLTEST branch appends exactly the routes of the plan |
| `Planner.AddPairs` | src/config/routing_state.cpp:379-402 | the rule and guard loop appends exactly the rules of the plan, priorities included |
| `Planner.PopulateRoutingState` | src/config/routing_state.cpp:333-515 | the sorting and planning loops produce the plan the theorems are about |
| `SingleFlight.StartOk` | src/daemon/list_service.cpp:177-178 | any number of callers with any keys starts inside the protocol invariant |
| `SingleFlight.DoOk` | src/daemon/list_service.cpp:165-276 | every step of every caller, and every spurious wake-up, keeps the protocol invariant |
| `SingleFlight.RunInv` | src/daemon/list_service.cpp:165-276 | every state of every interleaving satisfies the protocol invariant |
| `SingleFlight.OneOwnerInEveryRun` | src/daemon/list_service.cpp:179-192 | in every run at most one caller downloads, and the slot is occupied exactly while it does, so different keys never overlap |
| `SingleFlight.SameKeyJoins` | src/daemon/list_service.cpp:179-200 | in every run a caller that enters while a download for its key runs waits on that flight or has returned its outcome from then on |
| `SingleFlight.JoinerNeverDownloads` | src/daemon/list_service.cpp:179-200 | such a caller downloads at no point of the run |
| `SingleFlight.CallersShareOneDownload` | src/daemon/list_service.cpp:179-200 | callers that entered during one flight for their key return the same outcome, of one download of its owner |
| `SingleFlight.EntersByKey` | src/daemon/list_service.cpp:179-192 | a free slot is taken and owned; a flight for another key is waited for |
| `SingleFlight.OutcomeWrittenOnce` | src/daemon/list_service.cpp:256-275 | a published outcome never changes and only its owner's download publishes it |
| `SingleFlight.ReturnsOwnersOutcome` | src/daemon/list_service.cpp:194-200 | in every interleaving a caller that returned got exactly what a download of its flight's owner produced, result or exception, and that owner has its key |
| `SingleFlight.NoLostWakeUp` | src/daemon/list_service.cpp:179-275 | in every run, while a caller is unfinished some caller can step without a spurious wake-up |
| `SingleFlight.EveryCallerReturns` | src/daemon/list_service.cpp:165-276 | n callers take at most n(2n + 6) steps, and when none is left every caller has returned |
| `ListRefresh.DownloadLists` | src/daemon/list_service.cpp:202-255 | the loop returns the classification of its targets in config order, or the first exception |
| `ListRefresh.NothingLost` | src/daemon/list_service.cpp:204-255 | targets split into cached and refreshed, refreshed into failed, unchanged and changed, with multiplicity |
| `ListRefresh.RefreshMeans` | src/daemon/list_service.cpp:202-255 | each class of the result holds exactly the requested lists with a URL to which that happened |
| `Rfc1321.PadIsBlocks` | src/crypto/md5.hpp:98-111 | padding reaches exactly a block boundary with 1 to 64 bytes before the length |
| `Md5.ConstantTable` | src/crypto/md5.hpp:33-50 | the code's 64 constants are those RFC 1321 lists |
| `Md5.WordTable` | src/crypto/md5.hpp:69-72 | the computed word index is the one RFC 1321 lists for each of the 64 operations |
| `Md5.MixIsOp` | src/crypto/md5.hpp:67-78 | one round of the code computes the RFC's operation value |
| `Md5.ShiftsRotate` | src/crypto/md5.hpp:52-54 | the two shifts are the 32-bit rotation for every amount the rounds use |
| `Md5.RollStep` | src/crypto/md5.hpp:66-78 | the rolling registers after a round are the fixed registers after the listed operation |
| `Md5.Rounds` | src/crypto/md5.hpp:66-78 | the 64-round loop computes the 64 listed operations |
| `Md5.Md5State.ProcessBlock` | src/crypto/md5.hpp:56-80 | the block function is the RFC's |
| `Md5.Md5State.Update` | src/crypto/md5.hpp:82-96 | the state after any update is that of the concatenated message |
| `Md5.Md5State.Finalize` | src/crypto/md5.hpp:98-122 | the result is the RFC digest of everything fed, for every length |
| `Md5.Md5State.DigestNow` | src/crypto/md5.hpp:124-127 | a digest taken midway is right and leaves the state as it was |
| `Md5.DigestOfChunks` | src/crypto/md5.hpp:82-127 | for every way of splitting a message every intermediate digest is the RFC's |
| `ListDomains.NormalizeDomain` | src/config/list_parser.cpp:107-138 | an entry is accepted exactly when it is a domain after dropping the wildcard and the root dot |
| `ListDomains.DomainIsPlain` | src/config/list_parser.cpp:107-138 | an accepted domain has 1 to 253 characters, all of them label characters or dots |
| `DnsmasqRows.LengthsAgree` | src/dns/dnsmasq_gen.cpp:282-350 | the predicted row length is the length of the emitted text for every kind of row |
| `DnsmasqRows.RowReadsPath` | src/dns/dnsmasq_gen.cpp:282-317 | splitting a row's text at slashes gives back the domains of its path |
| `DnsmasqBatches.PushKeeps` | src/dns/dnsmasq_gen.cpp:247-280 | a push loses no domain between the rows written and the path held, and drops only one that fits no row |
| `DnsmasqBatches.RowsHoldTheDomains` | src/dns/dnsmasq_gen.cpp:247-280 | the domains read back from a batch's rows are exactly the pushed ones that fit, in order, 1 to 50 a row and at most 1024 characters |
| `DnsmasqBatches.SetRowsSkipNothing` | src/config/config.cpp:178-203 | for a list name within the tag limit no domain is skipped for length |
| `DnsmasqBatches.SkippedExactly` | src/dns/dnsmasq_gen.cpp:264-276 | a lone domain is skipped if and only if its row would exceed 1024 characters |
| `DnsmasqBatches.BatchesIndependent` | src/dns/dnsmasq_gen.cpp:391-404 | each batch's rows in the shared output are those it would write alone |
| `DnsmasqConfig.AllListsAre` | src/dns/dnsmasq_gen.cpp:180-209 | every list a rule mentions is generated once, in name order |
| `DnsmasqConfig.StaticsUnique` | src/dns/dnsmasq_gen.cpp:122-145 | every static entry key is written once |
| `DnsmasqGen.Hasher.Feed` | src/dns/dnsmasq_gen.cpp:68-78 | the hash state holds the payload of the records fed |
| `DnsmasqGen.Emitter.Push` | src/dns/dnsmasq_gen.cpp:256-280 | push changes one batch and the output as specified |
| `DnsmasqGen.Emitter.Flush` | src/dns/dnsmasq_gen.cpp:247-254 | flush writes a non-empty batch once and empties it |
| `DnsmasqGen.StreamList` | src/dns/dnsmasq_gen.cpp:352-407 | streaming a list feeds its records and writes its section |
| `DnsmasqPass.CollectDnsLists` | src/dns/dnsmasq_gen.cpp:190-203 | for every list the first enabled DNS rule that mentions it is kept |
| `DnsmasqPass.GenerateDirectives` | src/dns/dnsmasq_gen.cpp:95-409 | the records fed do not depend on whether anything is written nor on the resolver |
| `DnsmasqPass.ComputeConfigHash` | src/dns/dnsmasq_gen.cpp:68-78 | the hash-only pass returns the digest of the canonical records |
| `DnsmasqPass.Generate` | src/dns/dnsmasq_gen.cpp:411-424 | the emitting pass prints that same digest, for either resolver |
| `DnsmasqPass.RowsAgreeWithRecords` | src/dns/dnsmasq_gen.cpp:352-404 | for every routed list with a valid name, the domains read back from its set rows are exactly the domains of its route records, in order |
| `DnsmasqText.TextTellsRows` | src/dns/dnsmasq_gen.cpp:282-317 | a line of the generated text names a list's sets behind its last slash exactly when it is a row of that list's set batch |
| `DnsmasqText.TextAgreesWithRecords` | src/dns/dnsmasq_gen.cpp:95-409 | a reader that sees only the text finds in a list's set directives exactly the domains of its route records, in order, at most 1024 characters a line |
| `DnsmasqText.NamesTheFirewallsSets` | src/dns/dnsmasq_gen.hpp:61-66 | the names behind the last slash are those of the dynamic sets the firewall matches, in the resolver's form |
| `DnsmasqMeaning.DnsChoiceIs` | src/dns/dnsmasq_gen.cpp:190-227 | a list's rebind permission and servers are those of the first enabled DNS rule that mentions it |
| `DnsmasqMeaning.RecordsExactly` | src/dns/dnsmasq_gen.cpp:95-409 | exactly which facts about rules, lists, servers and static entries the hash covers |
| `DnsmasqHash.RecordTextTells` | src/dns/dnsmasq_gen.cpp:95-409 | two different records never have the same text |
| `DnsmasqHash.PayloadTells` | src/dns/dnsmasq_gen.cpp:68-78 | the hashed bytes determine the sequence of records |
| `DnsmasqFile.SectionTold` | src/dns/dnsmasq_gen.cpp:352-404 | a list's section of the file depends on that list's records alone |
| `DnsmasqFile.SameBytesSameFile` | src/dns/dnsmasq_gen.cpp:68-424 | configurations that feed the hash the same bytes generate the same directives in the same order, for either resolver |
| `DnsmasqDirectives.ServersExactly` | src/dns/dnsmasq_gen.cpp:95-409 | the text sends a domain to a server if and only if the first enabled DNS rule for a list holding it names that server, or it is the probe name |
| `DnsmasqDirectives.RebindExactly` | src/dns/dnsmasq_gen.cpp:95-409 | the text lets a domain resolve to private addresses if and only if that rule allows it |
| `DnsWire.ReadLabelsSound` | src/dns/dns_probe_server.cpp:357-378 | what the name reader returns is encoded by the bytes it consumed |
| `DnsWire.ReadLabelsComplete` | src/dns/dns_probe_server.cpp:357-378 | every encoding of valid labels is read back as those labels |
| `DnsWire.NameEndSound` | src/dns/dns_probe_server.cpp:162-189 | a measured name is at most 128 labels with a root or pointer ending |
| `DnsWire.NameEndComplete` | src/dns/dns_probe_server.cpp:162-189 | every such name is measured exactly |
| `DnsProbe.ReadNameLength` | src/dns/dns_probe_server.cpp:162-189 | the loop stops on every byte string, in bounds, with that measure |
| `DnsProbe.ParseEcsOption` | src/dns/dns_probe_server.cpp:191-231 | a client-subnet option is accepted exactly within the family's prefix and address bounds, zero-padded |
| `DnsProbe.ParseEdnsClientSubnet` | src/dns/dns_probe_server.cpp:233-280 | the additional section yields its first usable client subnet, or an error if malformed before it |
| `DnsProbe.SkipRecords` | src/dns/dns_probe_server.cpp:393-405 | the record loop ends although its 16-bit counter wraps, and succeeds exactly when the records are there and countable |
| `DnsProbe.CounterRefusesNothingShort` | src/dns/dns_probe_server.cpp:393-405 | the wrapping counter refuses nothing in a packet below 720896 bytes |
| `DnsProbe.ParseQuery` | src/dns/dns_probe_server.cpp:337-410 | every byte string is parsed or refused as specified, with every read in bounds |
| `DnsProbe.BuildResponse` | src/dns/dns_probe_server.cpp:412-441 | the builder produces the specified response bytes |
| `DnsProbe.ResponseParsesBack` | src/dns/dns_probe_server.cpp:337-441 | the response to any parsed query parses back to the same id, name and question bytes, with the response and recursion bits only and no client subnet |
| `DnsQueries.QueryReadsBack` | src/dns/dns_probe_server.cpp:191-410 | every query written out is parsed back, with the first usable option of code 8 as its client subnet; other options and records contribute nothing |
| `DnsQueries.NameReadsBack` | src/dns/dns_probe_server.cpp:39-49 | splitting the reported name at its dots gives the labels; the root is one dot |
| `DnsQueries.ResponseBytes` | src/dns/dns_probe_server.cpp:412-441 | the response, byte by byte |
| `DnsProbe.FrameLengthExact` | src/dns/dns_probe_server.cpp:555-569 | the 16-bit TCP length of a response is exact for every packet the buffer admits |
| `TcpFrames.Client.OnRead` | src/dns/dns_probe_server.cpp:571-617 | one read appends, then delivers, overflows or waits by the total buffered |
| `TcpFrames.ReceiveAll` | src/dns/dns_probe_server.cpp:571-617 | a connection ends with the first read that completes or overflows |
| `TcpFrames.SmallFrameArrives` | src/dns/dns_probe_server.cpp:571-617 | a frame of at most 15359 bytes arrives as exactly its bytes for every cut into reads of 1 to 1024 |
| `TcpFrames.BigFrameNeverArrives` | src/dns/dns_probe_server.cpp:583-587 | a frame whose prefixed length exceeds 16384 never arrives |
| `TcpFrames.ArrivesAt` | src/dns/dns_probe_server.cpp:583-600 | in between, the frame arrives if and only if the read that completes it does not overflow the buffer |
| `TcpFrames.CutDecides` | src/dns/dns_probe_server.cpp:583-600 | for every length in between one stream has a cut that delivers and a cut that overflows |
| `VerifierInput.ExpandExpected` | src/firewall/iptables_verifier.cpp:173-231 | the nested loops produce the specified expansion |
| `VerifierInput.ExpansionSound` | src/firewall/iptables_verifier.cpp:194-227 | every expanded rule comes from one protocol, source and destination of its target's family |
| `VerifierInput.ExpansionComplete` | src/firewall/iptables_verifier.cpp:194-227 | every such combination is expanded |
| `VerifierInput.FamilyByName` | src/firewall/iptables_verifier.cpp:173-231 | a set name's family is that of the set it stands for |
| `VerifierInput.TargetsExactly` | src/firewall/iptables_verifier.cpp:173-231 | each named set is expected in its own family; without sets both families are, if anything is selected |
| `VerifierInput.ForTargetExactly` | src/firewall/iptables_verifier.cpp:194-227 | exactly the rules expected of one target: tcp and udp apart, one address of the family on each side, all else as configured |
| `VerifierInput.ExpectedExactly` | src/firewall/iptables_verifier.cpp:173-231 | exactly which rules a list of rule states is expected to have installed |
| `ListedRules.ScanRule` | src/firewall/iptables_verifier.cpp:285-389 | the token loop yields what the specified scan yields, for every token sequence |
| `ListedRules.ScanReadsListing` | src/firewall/iptables_verifier.cpp:285-389 | scanning a written-out listing yields exactly its set, criteria, negations and action, whatever its parts and their order |
| `ListedRules.KeptExactly` | src/firewall/iptables_verifier.cpp:382-387 | a listing is kept exactly when its action was understood and it names a set or a criterion, and then has one action |
| `ListedRules.ListingIsRecognised` | src/firewall/iptables_verifier.cpp:97-389 | the listing of any expanded expected rule is kept and matches that rule |
| `Verifier.MatchIsKeyEquality` | src/firewall/iptables_verifier.cpp:97-109 | matching a live rule is equality of normalised keys |
| `Verifier.SameAddress` | src/firewall/iptables_verifier.cpp:73-86 | two addresses are the same exactly when their texts agree or one is the other with the prefix of a single host |
| `Verifier.MatchMeans` | src/firewall/iptables_verifier.cpp:97-109 | a live rule matches exactly when every criterion and negation agrees and its action is the expected one |
| `Verifier.VerdictMeans` | src/firewall/iptables_verifier.cpp:540-613 | each status says exactly what was left: the same key, only other actions, or nothing with those criteria |
| `Verifier.Claim` | src/firewall/iptables_verifier.cpp:540-613 | one expected rule takes at most one unclaimed live rule of its key, and its status says what was left |
| `Verifier.VerifyRules` | src/firewall/iptables_verifier.cpp:521-619 | each status depends only on the earlier expected keys and the multiset of live keys |
| `Verifier.VerifiedIsOverlap` | src/firewall/iptables_verifier.cpp:521-619 | ok checks number the overlap of the two multisets, and all are ok if and only if the expected rules are included with multiplicity |
| `Verifier.GreedyIsOptimal` | src/firewall/iptables_verifier.cpp:540-558 | no one-to-one matching is larger than the greedy one |
| `Verifier.GreedyAchieves` | src/firewall/iptables_verifier.cpp:540-558 | the greedy claims are a one-to-one matching of that size |
| `Verifier.KeysIgnoreOrder` | src/firewall/iptables_verifier.cpp:525-527 | live rules in another order have the same keys |
| `StatusStream.Subscription.Consume` | src/api/sse_broadcaster.hpp:17-22 | taking a frame changes nothing a client has seen or will see |
| `StatusStream.Broadcaster.Compact` | src/api/sse_broadcaster.cpp:101-117 | in-place compaction equals filtering out closed and expired subscriptions, in order |
| `StatusStream.Broadcaster.Publish` | src/api/sse_broadcaster.cpp:47-77 | every subscription that can take the frame has it and stays, in order; one that cannot is closed; others are dropped |
| `StatusStream.Broadcaster.CloseAll` | src/api/sse_broadcaster.cpp:79-99 | no listed subscription stays open |
| `StatusStream.Stream.Push` | src/api/sse_broadcaster.cpp:47-77 | one frame reaches every open subscriber with room, which stays open with its replayed view moved by that frame; one without room is closed |
| `StatusStream.Stream.PublishDiff` | src/api/status_stream.cpp:64-100 | a subscriber with room for one frame per changed part gets exactly those and stays open, one without is closed, and an unchanged status sends nothing |
| `StatusStream.Stream.Subscribe` | src/api/status_stream.cpp:30-57 | the new subscriber starts with the whole status, the others get exactly what changed, and every open one replays to the stored status |
| `StatusStream.Stream.Reconcile` | src/api/status_stream.cpp:64-100 | every open subscriber with room gets exactly what changed, one without is closed, and every open one replays to the stored status |
| `StatusStream.Stream.Take` | src/api/sse_broadcaster.hpp:17-22 | a client taking a frame keeps the invariant and its own replay |
| `StatusStream.Stream.Drop` | src/api/sse_broadcaster.cpp:53-56 | a client that goes away without unsubscribing keeps the invariant |
| `StatusStream.Stream.Unsubscribe` | src/api/status_stream.cpp:59-62 | unsubscribing keeps the invariant and closes that subscriber |
| `StatusStream.Stream.CloseAll` | src/api/status_stream.cpp:102-105 | closing all keeps the invariant and leaves no subscriber open |

## Left out

- Number and protocol parsing of listed rules: they are parameters of the scan.
- Text of iptables lines and scripts: lines are structured values; only set names and dnsmasq rows are modelled as text.
- Reachability from the OUTPUT hook: a closed family is one that packets arriving at PREROUTING do not reach.
- Raw-PREROUTING mode, the OUTPUT chain rules, DNS-detour rules and legacy chain names: they add cases to the apply without changing the invariant that is proved for the default mode.
- ipset timeouts and the `chain_created` flags: they do not affect which entries a rule consults.
- Order of set loads: kept in streaming order where the source iterates a map; loads of different sets commute.
- Sweep of saved sets during a destructive apply: an oracle chooses which sets survive and which are emptied, a superset of what the commands can do.
- Verdict agreement between nftables and iptables: nft excludes negated address sets as a whole, so the two agree only on a fragment; nft rules are kept as staged criteria, not evaluated on packets.
- Route metrics are unbounded numbers; the installation and rollback of planned routes and rules after planning is not part of the model.
- Detour marks chosen for a download, logging and the cache behind `download`: each download's outcome is a parameter.
- Exceptions while streaming a list into dnsmasq, and the timestamp of the config-hash record.
- Hexadecimal text of the digest, and the sine formula behind the MD5 table.
- Client-subnet text, the answer address parser, idle timeouts and the limit on TCP clients.
- Details and mark values printed in verifier checks: they name the first similar live rule, which does depend on the order.
- Interleavings inside the status stream: `reconcile` publishes after releasing its lock, so the invariant is about serialised operations.
- Table numbers printed by src/cmd/status.cpp: they follow configuration order and are not the planner's.
