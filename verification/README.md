# A verified model of the relay panel

The panel puts relays in front of proxy servers. It counts their traffic, keeps quotas, rewrites share links so that they point at
the relay, drives two engines (gost over a REST interface, sing-box as child processes) and guards its own login. This project
models the parts of it where one function cannot be understood without the others, and proves what they promise together.

Go strings are byte strings here: every `char` is one byte (`Text.Bytes`). Databases are maps with byte-ordered keys. The clock,
randomness, digests, the JSON text codec, and the outcomes of the writes and engine calls that a modelled function makes are
parameters, so that the theorems hold for all of them; what is not modelled stands under "Left out".

| files | what they model |
|---|---|
| `Traffic`, `Ledger`, `LedgerRuns` | the sampler: engine counters to totals and samples, for gost and for REALITY nodes, over whole runs |
| `BigEndian`, `Store`, `Rebucket` | the hourly buckets under byte-ordered keys, as an index over the log of samples; the statistics view |
| `Quota` | what a quota window has used, reconciling the engine's counters with it, the charge of REALITY nodes |
| `Text`, `Percent`, `Query`, `HostPort`, `Base64` | the text functions that links are made of |
| `Link`, `LinkReparse`, `LinkMeaning`, `LinkSS`, `LinkVmess`, `LinkReading` | share links: parsing, rewriting to a relay, what a rewrite keeps, and what a parsed link says |
| `Clash`, `ClashRelay`, `ClashOptions`, `Printers`, `GostURLs` | Clash proxies from links, and the two other printers of links |
| `LinkInputs` | links that parse and that a rewrite does not keep |
| `GostNode`, `GostConfig`, `GostFacts`, `GostLogins` | nodes, their validation, their compilation to gost resources, and how it agrees with their printed addresses |
| `GostEngine`, `GostApply`, `GostSync`, `GostRuns` | the live engine, patching it one node at a time, and the node handlers and restarts over whole runs |
| `Guard`, `GuardRuns` | the login guard, for one key and over runs of both its maps |
| `OneTime`, `Challenges` | one-time codes, recovery codes, login challenges |
| `YamlEdit`, `YamlLaws` | the in-place editor of the configuration file |

`dafny verify dfyconfig.toml` checks everything. Code that changes state is a class or a loop whose contract ties the new state to
a function of the old one; the theorems are about these functions and about runs of them.

## Main results

* **Traffic.** In every run of transfers, service losses, failing writes, crashes between the two writes, restarts and reloads, totals
  never exceed the bytes carried (`LedgerRuns.NeverOverCount`); without engine losses they are exact if and only if no reload dropped
  anything (`ExactWithoutEngineLoss`); buckets and totals differ by exactly the crashed rounds (`BucketsMatchTotals`), and every
  round lands in its own hour (`Ledger.RoundHours`, `LedgerRuns.RoundsLandInTheirHours`). The REALITY
  ledger does the same across processes and resets (`RealityNeverOverCounts`, `RealityExactAfterReset`).
* **Store.** The buckets are an index over the log after any sequence of additions and prunings (`Store.Store`), because eight-byte
  big-endian keys sort as the numbers they encode (`BigEndian.OrderPreserved`).
* **Links.** A rewrite changes the address and nothing else of meaning (`LinkMeaning.RelayTheorem`, `LinkSS.SSRelayTheorem`,
  `LinkVmess.VmessReparses`, `ClashRelay.URIClashRelay`), a chain of relays is invisible under exact conditions (`LinkMeaning.ChainInvisibleIff`,
  `LinkSS.SSChainInvisibleIff`, `LinkVmess.VmessChainIff`), and both other printers read back (`Printers`, `GostURLs`).
* **Proxies.** What each parsed link says is read off its query (`LinkReading.ParsedSays`), and so is every key of its Clash proxy
  (`ClashOptions`); from a REALITY node to its client's proxy nothing is lost or mixed up (`ClashOptions.RealityProxy`).
* **Quotas.** A window's use is the shares of all samples since the hours of both its starts (`Quota.UseIsDue`), and reconciling
  never lowers it (`Quota.ReconcileRaises`).
* **Engine.** From any engine state a successful apply leaves exactly what a full rebuild would (`GostApply.Controller.ApplyNode`), and
  every run of clean handlers and of restarts on a file in sync keeps the engine equal to a rebuild of the stored nodes
  (`GostRuns.RunKeepsSync`). Which outcomes are clean, failing store writes included, is exact for the engine
  (`GostRuns.StepSyncIff`) and for the file (`GostRuns.FileStepIff`). A local node's compiled service asks for exactly the login
  that its printed address carries, and serves what the address names (`GostLogins.AddressLogsIn`, `GostLogins.AddressReaches`).
* **Login.** Six failures span a minute on every run of the guard (`GuardRuns.SixAttemptsSpanAMinute`); accepted code steps strictly increase exactly when the
  rollback branch is not taken (`OneTime.StrictlyIncreasingIff`); a second factor passes exactly when an unspent code is right, and
  spends it (`OneTime.SecondFactorIff`, `OneTime.AdmittedIsSpent`); recovery codes are conserved (`OneTime.CodesConserved`); a challenge
  admits at most five failures and one session (`Challenges.ChallengeLife`).

The printers also show that there are links to speak of: `Printers.ClientURLReadsBack`, `Printers.GostSSReadsBackIff`,
`GostURLs.GostURLReadsBack`, `LinkInputs.OldStyleParses` and `LinkVmess.ParsePrinted` give families of links that parse.

## Where the code departs from what it means to do

Each of these is modelled as written, with a theorem that says exactly when it goes right.

* A live sing-box whose status read fails reports its process id with zero counters, and the next round counts everything again
  (`LedgerRuns.FailedReadRecounts`); gost service rows without status have what they hide counted again unless the rest of the
  reading makes up for it (`LedgerRuns.MissingStatusIff`, `LedgerRuns.MissingStatusRecounts`).
* Editing a node keeps the totals and drops the engine counters, so a running REALITY process is counted from zero
  (`LedgerRuns.EditRecounts`), and so is a gost node when the panel restarts before it has stored the next round
  (`LedgerRuns.GostEditRecounts`).
* Every node handler reloads all cached records. After a failed write of one of them the reload takes what was not stored out of its
  totals, while the live baseline stays, so those bytes are lost for good once the next round is stored (`LedgerRuns.ReloadDropsIff`,
  `LedgerRuns.ExactWithoutEngineLoss`, `LedgerRuns.LostForGood`).
* Resetting a gost node sets the baseline to zero, and the sentinel that is meant to say so is only read for REALITY nodes: the next
  round adds the whole counter back (`LedgerRuns.GostResetRecounts`). The buckets and the quota's start stay, so the next
  reconciliation restores the old use (`Quota.ResetComesBack`).
* A REALITY quota of direction `out` counts both directions (`Quota.DirectionsAgreeIff`).
* An SNI override is appended after an existing value and loses against it (`LinkMeaning.OverrideTakesEffectIff`), as it always does on
  a link that the panel itself prints for a REALITY node (`LinkInputs.RealityIgnoresSni`); a Host override does the
  same (`LinkInputs.HostOverrideIgnored`). An empty `sni=` or `host=` blocks the default in the same way
  (`LinkMeaning.RelayKeepsMeaning`, `LinkMeaning.ChainInvisibleIff`, `LinkInputs.EmptySniInput`, `LinkInputs.EmptyHostInput`).
* An old-style ss link with an at-sign in its query is rewritten to a link that cannot be read (`LinkSS.SSReparsesIff`, and
  `LinkInputs.AtQueryInput` for one such link); a printed Shadowsocks link whose node name holds one cannot be read either
  (`Printers.GostSSReadsBackIff`).
* A nameless link whose query ends in white space loses it in a rewrite, and with it possibly its meaning
  (`LinkMeaning.ShortenedMeaningIff`, `LinkInputs.BlankLost`).
* Deletion writes the configuration file while the node is still stored, so a deleted active node comes back when gost restarts
  before the next write (`GostSync.FileAfterDeleteIff`, `GostRuns.RestartAfterIff`). If the node cannot be deleted from the store it
  stays stored and enabled and is not running (`GostRuns.DeleteKeptSyncsIff`); the roll-back of a creation does the same
  (`GostRuns.CreateKeptSyncsIff`), and that of an update is skipped when the old node cannot be stored
  (`GostRuns.UpdateKeptSyncsIff`). A start of the panel repairs all of it (`GostRuns.PanelStartRepairs`).
* A change of mode to reality leaves the old gost resources running (`GostSync.RealitySwitchIff`), and a failed change of a reality
  node to gost leaves what was already applied (`GostRuns.StepSyncIff`).
* A local Shadowsocks node with the UDP extension over a UDP channel would listen twice on its port; only validation prevents it
  (`GostFacts.NoDoubleListenIff`, `GostFacts.ValidListensOnce`).
* The count of failures starts again once a cool-down is over, so the longer cool-downs from the tenth and twentieth failure on are
  out of reach unless a failure falls on the very instant at which one ends (`Guard.LadderIff`).
* The server name of a hysteria2 Clash proxy falls back to the obfuscation password (`ClashOptions.Hysteria2SniIff`).
* A clock set back by more than two steps makes the panel forget which codes were used (`OneTime.RollbackReplays`).
* Setting a key in a section that the file does not have, or whose header is indented, writes a line that is not read as that key
  (`YamlLaws.ReadsBackIff`). It lands in whatever section is open at that place and can become a key of it (`YamlLaws.OtherKeyKeptIff`,
  `YamlLaws.CaughtInput`). Setting a top-level key that is the header of a section loses the section (`YamlLaws.OrphanedInput`).
* A range read from an hour or more before 1970 starts past every stored hour (`Store.KeyOrder`, `Store.Store.RangeTraffic`).

## Model

| member | source | states |
|---|---|---|
| `Traffic.Delta` | internal/controller/sampler.go:232-238 | a counter that moved forward adds up to its new value; one that went back counts as not moved |
| `Traffic.HourHolds` | internal/controller/sampler.go:97 | the hour of a time is a full hour and, from 1970 on, starts less than an hour before it |
| `Ledger.Sampler.ReadRows` | internal/controller/sampler.go:109-132 | the reading keeps one entry a service, the last row winning, a row without status reading as zero |
| `Ledger.LastRowWins` | internal/controller/sampler.go:109-132 | a service's reading is what the last row of its name says, zero without status |
| `Ledger.NoRowNoReading` | internal/controller/sampler.go:109-132 | a service without a row has no reading |
| `Ledger.Sampler.SumServices` | internal/controller/sampler.go:156-171 | the sum over the node's services that appear in the reading |
| `Ledger.Sampler.GostNode` | internal/controller/sampler.go:173-192 | a gost round leaves the ledger that `GostRound` gives; in the log it leaves one sample of exactly what the totals grew by, under the round's hour, if they grew and the write succeeds |
| `Ledger.Sampler.RealityNode` | internal/controller/sampler.go:272-305 | the same for a sing-box node: replaced process, sentinel after a reset, ordinary difference |
| `Ledger.Sampler.SampleOnce` | internal/controller/sampler.go:89-107 | a busy sampler changes nothing; an unreadable engine skips the gost half and never the sing-box half; the log only grows, by samples of the hour that the clock is in |
| `Ledger.RoundPerNode` | internal/controller/sampler.go:150-192 | a whole round gives each node its own round's ledger whatever the other nodes and their writes do, and credits no sample to another node |
| `Ledger.RoundHours` | internal/controller/sampler.go:97-192 | for every node and every range of hours: a range that holds the round's hour grows by exactly what the node's total grew by, if its bucket write succeeds; every other range is as before |
| `Ledger.UnreadableHours` | internal/controller/sampler.go:97-107 | the same of a round that cannot read the gost API |
| `Ledger.CommitLog` | internal/controller/sampler.go:179-192 | one commit adds its delta to its own node's logged sum, if the write succeeds, and nothing to any other's |
| `Ledger.Sampler.ResetNodeTraffic` | internal/controller/controller.go:367-395 | a failed quota reset changes nothing; otherwise totals are zero, the live baseline is gone and the persisted one is the engine's, or the sentinel |
| `LedgerRuns.NeverOverCount` | internal/controller/sampler.go:156-192 | in every run of transfers, service resets and losses, rounds with failing writes, crashes between the two writes, restarts, reloads and re-stores of the cached record, cached and stored totals stay within the bytes carried |
| `LedgerRuns.GostStepCovered` | internal/controller/sampler.go:173-192 | the inductive step: total plus max(0, current - baseline) stays within the bytes carried, at once for the live and the persisted baseline |
| `LedgerRuns.ExactWithoutEngineLoss` | internal/controller/sampler.go:173-192 | while the engine loses no counter, total plus (current - baseline) plus what reloads dropped equals the bytes carried, after any number of restarts, crashes, failed writes and reloads; so the total is exact if and only if no reload dropped anything |
| `LedgerRuns.ReloadDropsIff` | internal/controller/controller.go:98-107 | a reload of the cached records drops nothing if and only if no round was sampled since the panel started or the stored total is the cached one |
| `LedgerRuns.LostForGood` | internal/controller/controller.go:98-107 | a run of six events from a new node at whose end all bytes carried are missing from the cached and the stored total |
| `LedgerRuns.NoReloadNothingDropped` | internal/controller/controller.go:98-107 | without reloads nothing is dropped |
| `LedgerRuns.BucketsMatchTotals` | internal/controller/sampler.go:181-192 | with no failed write the bucket sums equal the total plus exactly the deltas of the rounds a crash cut between their two writes, and reloads drop nothing |
| `LedgerRuns.RoundsLandInTheirHours` | internal/controller/sampler.go:97-192 | in every run, failing writes and crashes included, any range of hours holds what it held and exactly the credits of the rounds of those hours |
| `LedgerRuns.RealityNeverOverCounts` | internal/controller/sampler.go:268-305 | over process replacements, pid reuse, restarts, crashed rounds, reloads and resets, totals never exceed the bytes carried since the reset they go back to |
| `LedgerRuns.RealityStepCovered` | internal/controller/sampler.go:268-305 | the inductive step of the same, for the cached and the stored record at once |
| `LedgerRuns.RealityExactAfterReset` | internal/controller/controller.go:373-390 | after a stored reset with the engine running, while that process lives, totals plus what reloads dropped count exactly the later bytes, and totals alone do if and only if nothing was dropped |
| `LedgerRuns.RealityBucketsMatchTotals` | internal/controller/sampler.go:273-305 | with no failed write the bucket sums of a REALITY node equal its total plus exactly the deltas of crashed rounds and the totals that resets cleared |
| `LedgerRuns.PollsLandInTheirHours` | internal/controller/sampler.go:273-305 | the same for REALITY nodes, resets included |
| `LedgerRuns.FailedReadRecounts` | internal/singbox/singbox.go:526-569 | a live process read with zero counters is counted again from zero next time; right if and only if nothing had been counted |
| `LedgerRuns.EditRecounts` | internal/server/handlers_nodes.go:361-366 | an edit keeps totals and loses the engine counters: the next round over a REALITY node adds the whole counter; right if and only if nothing had been counted |
| `LedgerRuns.GostEditRecounts` | internal/server/handlers_nodes.go:361-366 | an edited gost node is counted right while the panel runs and has sampled it; after a restart before the next saving round its whole counter is added again; right if and only if nothing had been counted |
| `LedgerRuns.GostResetRecounts` | internal/controller/controller.go:391-394 | the first round after a gost reset re-adds the whole counter; right if and only if the counters stood at zero |
| `LedgerRuns.TwoReadingsIff` | internal/controller/sampler.go:156-192 | two rounds in place of one give the same total if and only if the first reading lies between the baseline and the second, in each direction |
| `LedgerRuns.MissingStatusIff` | internal/controller/sampler.go:113-132 | for any services, a round over a reading in which rows lack their status followed by one over a complete reading is right if and only if the incomplete one does not fall below what had been counted |
| `LedgerRuns.MissingStatusRecounts` | internal/controller/sampler.go:113-132 | for a node with one service that adds the whole counter; right if and only if nothing had been counted |
| `BigEndian.DecodeEncode` | internal/store/store.go:166-170 | decoding the eight-byte key gives back every number below 2^64 |
| `BigEndian.OrderPreserved` | internal/store/store.go:166-170 | byte order of equally long keys is the order of the numbers they encode, both ways |
| `Store.KeyOrder` | internal/store/store.go:166-170 | key order is time order, except that hours before 1970 sort after all others |
| `Store.UnpackPack` | internal/store/store.go:180-192 | a stored value reads back as both sums modulo 2^64 |
| `Store.Seek` | internal/store/store.go:206-207 | the cursor finds the smallest key not before the wanted one |
| `Store.SeekByHour` | internal/store/store.go:206-207 | seeking by key is seeking by hour; from before 1970 the cursor starts past every stored hour |
| `Store.Store.AddTraffic` | internal/store/store.go:173-194 | the bucket stays an index over the log, extended by the sample; a zero sample changes nothing |
| `Store.AddToIndexed` | internal/store/store.go:173-194 | adding to one hour keeps every hour of the bucket equal to the sum of its samples |
| `Store.Scan` | internal/store/store.go:206-219 | the cursor loop reads, strictly sorted, exactly the logged hours of the range |
| `Store.Store.RangeTraffic` | internal/store/store.go:197-223 | the points are strictly sorted and sum, modulo 2^64, to the unpruned samples with hour in [hour of from, to); a start an hour or more before 1970 reads nothing |
| `Store.PointsCoverRange` | internal/store/store.go:197-223 | sorted points that cover exactly the logged hours of a range sum to its samples |
| `Store.Doomed` | internal/store/store.go:231-247 | the keys collected for deletion are exactly those before the cut |
| `Store.Store.PruneTraffic` | internal/store/store.go:226-255 | pruning leaves an index over the log without the samples before the cut |
| `Store.RangeSince` | internal/store/store.go:226-255 | what a pruned log says of a range is what the log said of the part after the cut |
| `Rebucket.InsertionSort` | internal/store/store.go:444-450 | the in-place insertion sort leaves the same elements in order |
| `Rebucket.Rebucket` | internal/server/handlers_nodes.go:467-496 | merged points are strictly sorted, one for each step that has a point and none for another, each with its step's sum, and hold together exactly what the hourly points hold |
| `Rebucket.StepHolds` | internal/server/handlers_nodes.go:476 | steps start at multiples of their length; from 1970 on a point lies less than a step after its start |
| `Rebucket.SpansOf` | internal/server/handlers_nodes.go:467-496 | from 1970 on each merged point holds exactly what lies in the step's length after its start |
| `Rebucket.StepsConserve` | internal/server/handlers_nodes.go:467-480 | distinct steps that cover the points hold together what the points hold |
| `Quota.DirectionsAgreeIff` | internal/controller/sampler.go:323-334 | a REALITY quota counts like a gost quota if and only if its direction is not out, or nothing came in |
| `Quota.Reconciler.CountWindow` | internal/controller/controller.go:325-349 | the loop counts exactly the shares of all samples: bytes in the quota's direction whose hour is before the hour of neither start and not after now; a failed read counts nothing |
| `Quota.UseIsDue` | internal/controller/controller.go:325-349 | a window's use is the shares of all samples, from both starts on |
| `Quota.TotalIsBoth` | internal/controller/controller.go:337-346 | the use of a total quota is the sum of its in and out uses |
| `Quota.SamplingRaises` | internal/controller/controller.go:325-349 | a sample raises the use by exactly its bytes in the quota's direction if its hour is before the hour of neither start, and else leaves it alone |
| `Quota.Overshoot` | internal/controller/controller.go:325-349 | the use exceeds the traffic since the later of the two starts by exactly the part of that start's hour before it |
| `Quota.Reconciler.Restore` | internal/controller/controller.go:352-364 | the counter is set to the panel's count exactly when that is greater and the call succeeds |
| `Quota.Reconciler.Reconcile` | internal/controller/controller.go:257-306 | the loop over all nodes does each node's turn against one listing of the engine's quotas |
| `Quota.ReconcileRaises` | internal/controller/controller.go:257-306 | when the calls of an enabled gost node with a quota succeed, its quota ends as wanted with the counter at the greater of the engine's and the shares of all samples in the window; any other node's quota is not touched |
| `Quota.WantIsCompiled` | internal/gostmgr/config.go:150-166 | what reconciling wants is what compiling the node emits, so that an applied quota is found as wanted |
| `Quota.NeverLowered` | internal/controller/controller.go:257-306 | even with failing calls a counter listed as wanted is never lowered |
| `Quota.UnfoundTurn` | internal/controller/controller.go:282-304 | a quota that was made anew but cannot be found again is held against the old counter and window |
| `Quota.ResetComesBack` | internal/controller/controller.go:367-395 | a traffic reset leaves the buckets, so reconciling restores the window's use; the reset holds if and only if the window had counted nothing |
| `Quota.Reconciler.RealityUse` | internal/controller/sampler.go:312-334 | the charge of a REALITY node over its period's points, or over its totals when the quota never resets |
| `Text.AtoiItoa` | internal/link/link.go:663-668 | an int64 printed in decimal reads back |
| `Text.TrimSpaceFixed` | internal/link/link.go:46-48 | trimming is idempotent and leaves exactly the trimmed texts alone |
| `Percent.UrlEscapeLoop` | internal/singbox/singbox.go:82-94 | the byte loop computes `UrlEscape` |
| `Percent.EncodersAgree` | internal/link/link.go:699-702 | the link package's fragment encoder and the sing-box one are the same function |
| `Percent.FragmentRoundTrip` | internal/link/link.go:689-702 | decodeFragment inverts both encoders on every byte string (section 2.1 of RFC 3986) |
| `Percent.SmallRoundTrip` | internal/link/link.go:689-697 | small hexadecimal digits decode like capital ones (section 2.1 of RFC 3986) |
| `Percent.QueryRoundTrip` | internal/link/link.go:315-323 | QueryUnescape inverts QueryEscape on every byte string |
| `Percent.EscapeAlphabet` | internal/link/link.go:699-702 | encoded text has no link delimiter and is empty only for empty text |
| `Query.ParseJoin` | internal/link/link.go:325-333 | queries joined by an ampersand parse to both lists of pairs in order |
| `Query.GetJoin` | internal/link/link.go:325-333 | first-match lookup sees an appended pair only when the key was not there |
| `HostPort.JoinSplit` | internal/link/link.go:650-668 | a host without brackets and a port survive joining and splitting, IPv6 included |
| `HostPort.SplitHostClean` | internal/link/link.go:650-661 | a split-off host has no brackets, so trimming them does nothing |
| `HostPort.NetSplitIff` | internal/link/link.go:650-661 | an address is accepted exactly as host and port joined by the only colon, or with the host in brackets, and brackets stand nowhere else |
| `Base64.DecodeBase64Loose` | internal/link/link.go:704-726 | the loops over candidates and encodings compute `DecodeLoose` |
| `Base64.LooseInvertsAll` | internal/link/link.go:704-726 | the lenient decoder inverts all four encodings on every byte string (sections 4 and 5 of RFC 4648) |
| `Base64.DecodersAgree` | internal/link/link.go:712-724 | decoders that accept the same text decode it alike |
| `Base64.LooseAccepts` | internal/link/link.go:704-726 | text that decodes holds, between outer white space, only base64 symbols, equals signs and inner blanks |
| `Link.Rewriter.URI` | internal/link/link.go:313-371 | growing the query and writing the parts in order yields `RewriteURI` |
| `Link.Rewriter.Vmess` | internal/link/link.go:259-289 | patching the object key by key yields `NewObject` |
| `LinkReparse.ParsedForm` | internal/link/link.go:46-86 | every parsed link that is no vmess or ss has a valid scheme, a plain host, a port in range, and says nothing beyond its parts |
| `LinkReparse.ParseSpelled` | internal/link/link.go:198-245 | a link spelled from its parts reads back as these parts |
| `LinkReparse.RewriteReparses` | internal/link/link.go:313-371 | a rewritten link reads back with its scheme, userinfo and rewritten query at the new host, port and name; without a name the query loses the white space at its end |
| `LinkReparse.HostComesBackIff` | internal/link/link.go:249-257 | the new host is read back if and only if it is plain: not empty, no bracket, at-sign, question mark or number sign |
| `LinkMeaning.RelayTheorem` | internal/link/link.go:249-371 | every parsed URI link can be rewritten to any plain host and reads back at the new address; transport, TLS, UDP need and userinfo are kept, SNI and Host original or defaulted to the original address, if and only if the link carries a name or no white space at the end of its query said anything |
| `LinkMeaning.RelayKeepsMeaning` | internal/link/link.go:313-371 | the same about the parts of a link that keeps its query's end; an empty-valued sni= or host= is the one thing that blocks a default |
| `LinkReading.ParsedSays` | internal/link/link.go:90-245 | every parsed link says what its query says: transport, TLS, server name, Host and need for UDP by scheme and first non-empty key; a vmess link what its object says; an ss link is plain TCP |
| `LinkReading.SpelledSays` | internal/link/link.go:198-245 | a link spelled from any parts with any plain parameters parses and says what these parameters say |
| `LinkReading.UDPInputs` | internal/link/link.go:88-102 | every hysteria, hysteria2 and tuic link needs UDP, and every link of transport kcp or quic; no vless or trojan link without a transport does |
| `LinkReading.RelayFills` | internal/link/link.go:330-371 | a relay fills in the old address where a link with TLS has no server name and where a transport that carries a Host has none, and nothing else |
| `LinkReading.RefusedIff` | internal/link/link.go:249-252 | a rewrite is refused exactly for an empty host or a port out of range |
| `LinkReading.VmessTailIgnored` | internal/link/link.go:104-110 | a query or fragment behind a vmess object says nothing |
| `LinkReading.TruncateCuts` | internal/link/link.go:634-647 | a number of a vmess object is cut toward zero |
| `LinkReading.NumberSays` | internal/link/link.go:634-647 | text of a vmess number counts without the white space around it, and like the number it spells |
| `LinkMeaning.ShortenedMeaningIff` | internal/link/link.go:46-86 | a nameless link whose query ends in white space keeps its meaning if and only if that white space says nothing |
| `LinkMeaning.SpellInjective` | internal/link/link.go:353-371 | two links that differ only in query and name are the same text if and only if query and fragment are the same |
| `LinkMeaning.NewPairs` | internal/link/link.go:336-350 | the rewritten query has the old pairs, then sni, then host |
| `LinkMeaning.OverrideTakesEffectIff` | internal/link/link.go:337-345 | an SNI override takes effect if and only if there was no sni key, or it changes nothing |
| `LinkMeaning.HostOverrideTakesEffectIff` | internal/link/link.go:344-350 | a Host override takes effect if and only if there was no host key, or it changes nothing |
| `LinkMeaning.ChainInvisibleIff` | internal/link/link.go:249-371 | rewriting to relay A, parsing and rewriting to B is letter for letter rewriting to B, if and only if no empty-valued sni= or host= blocks a default, the first link does not end in white space, and the second relay names the link or the first left the name as it was |
| `LinkMeaning.RewriteIdempotentIff` | internal/link/link.go:249-371 | reading a rewritten link and rewriting it to the same relay gives the same link, under the same condition |
| `LinkSS.ParsedSS` | internal/link/link.go:144-196 | every parsed ss link, of either spelling, has a userinfo that decodes to its method and password |
| `LinkSS.CredentialKept` | internal/link/link.go:179-190 | an old-style credential printed in the new form decodes to the same method and password |
| `LinkSS.SSReparsesIff` | internal/link/link.go:249-371 | a rewritten ss link reads back if and only if its query holds no at-sign |
| `LinkSS.SSRelayTheorem` | internal/link/link.go:144-196 | every parsed ss link is rewritten to one with the same method and password at the new address, unless its query holds an at-sign |
| `LinkSS.SSChainInvisibleIff` | internal/link/link.go:249-371 | relay chaining is invisible for both spellings of ss if and only if the query holds no at-sign, the first link does not end in white space, and the second relay names the link or the first left the name as it was |
| `LinkVmess.ParsedVmess` | internal/link/link.go:104-142 | a parsed vmess link is what its object says, and the object has nothing to repair |
| `LinkVmess.NewObjectMeans` | internal/link/link.go:259-289 | a relay changes a vmess object's address, port, name, and with TLS its SNI and Host; every other key stays |
| `LinkVmess.RepairCommutes` | internal/link/link.go:259-311 | printing and reading a rewritten object repairs what was given for the rewrite and nothing that came from the link |
| `LinkVmess.VmessReparses` | internal/link/link.go:259-311 | a rewritten vmess link reads back with that meaning; overrides take effect; what was given comes back as the JSON codec prints it, bytes that are no UTF-8 replaced |
| `LinkVmess.VmessChainIff` | internal/link/link.go:259-311 | relay chaining is invisible for vmess if and only if the second relay names the link or the first left the name, as it is printed, as it was |
| `LinkInputs.OldStyleParses` | internal/link/link.go:144-196 | every old-style ss link with a name and a query reads back as its parts, at-signs in the query included |
| `LinkInputs.AtQueryLost` | internal/link/link.go:144-196 | each of them with an at-sign in its query parses, and rewritten to any relay does not parse |
| `LinkInputs.RealityIgnoresSni` | internal/link/link.go:336-345 | no SNI override takes effect on a link printed for a REALITY node |
| `LinkInputs.HostOverrideIgnored` | internal/link/link.go:344-350 | no Host override takes effect on a WebSocket link that names its Host |
| `LinkInputs.EmptySniInput` | internal/link/link.go:336-345 | a trojan link with an empty-valued sni= gets no default, and its chain of relays shows |
| `LinkInputs.EmptyHostInput` | internal/link/link.go:344-350 | the same for an empty-valued host= of a WebSocket link |
| `LinkInputs.EmptyMarkParses` | internal/link/link.go:198-245 | a link that ends in an empty fragment keeps the white space at the end of its query |
| `LinkInputs.BlankLost` | internal/link/link.go:313-371 | a nameless trojan link whose server name ends in a blank loses the blank on the way through a relay |
| `ClashRelay.URIClashRelay` | internal/link/link.go:379-415 | under the name the new link is shown by, the proxy of a relayed link agrees with the original's on every key but server, its name and the Host; when the link names both, only server and port change |
| `ClashRelay.SSClashRelay` | internal/link/link.go:446-465 | the relayed ss link can be converted if and only if its query holds no at-sign, and its proxy is then the original's with server and port replaced |
| `ClashRelay.VmessClashRelay` | internal/link/link.go:467-496 | the proxy of a relayed vmess link is the original's at the new address, as the JSON codec prints it |
| `ClashRelay.VlessCarries` | internal/link/link.go:498-534 | under every key but the options a vless proxy holds its name, address and uuid, the server name exactly when it is secured, and nothing else |
| `ClashRelay.TrojanCarries` | internal/link/link.go:536-557 | the same for trojan: name, address, password and SNI |
| `ClashRelay.Hysteria2Carries` | internal/link/link.go:559-585 | the same for hysteria2: name, address, password and SNI |
| `ClashRelay.TuicCarries` | internal/link/link.go:587-626 | the same for tuic: name, address, uuid, password and SNI |
| `ClashRelay.VmessCarries` | internal/link/link.go:467-482 | the same for vmess: name, address, uuid, alterId and cipher, and the server name exactly with TLS |
| `ClashRelay.SSCarries` | internal/link/link.go:446-465 | the same for ss: name, address, method and password |
| `ClashOptions.ProxyAddress` | internal/link/link.go:379-415 | a proxy's name is the given one, else the link's, else its host; kind by scheme, server and port are the link's |
| `ClashOptions.ConvertsIff` | internal/link/link.go:399-415 | a link is converted exactly when its scheme is known and what it needs (uuid, password or method) is not empty; an unknown scheme is refused as such |
| `ClashOptions.VlessOptions` | internal/link/link.go:498-534 | every optional key of a vless proxy is read off its own parameter of the query, those of TLS and REALITY only with TLS |
| `ClashOptions.TrojanOptions` | internal/link/link.go:536-557 | the same for trojan |
| `ClashOptions.Hysteria2Options` | internal/link/link.go:559-585 | the same for hysteria2 |
| `ClashOptions.TuicKeys` | internal/link/link.go:587-626 | the same for tuic |
| `ClashOptions.VmessOptions` | internal/link/link.go:467-496 | the same for vmess, from its object |
| `ClashOptions.SplitJoins` | internal/link/link.go:610-612 | a protocol list is cut at its commas and nowhere else |
| `ClashOptions.UuidPassCuts` | internal/link/link.go:587-596 | a tuic userinfo is cut at its first colon |
| `ClashOptions.Hysteria2SniIff` | internal/link/link.go:571-577 | a hysteria2 proxy has the server name of its link if and only if the link names one or has no obfuscation password |
| `ClashOptions.RealityProxy` | internal/singbox/singbox.go:76-94 | the proxy of the link printed for a REALITY node holds the node's address, uuid, server name, public key and short id, each under its own key, the fixed flow and fingerprint, and nothing else |
| `Printers.ClientURLReadsBack` | internal/singbox/singbox.go:76-80 | Parse recovers uuid, host (IPv6 included), port, any name, SNI and every parameter from what ClientURL prints for a delimiter-free credential |
| `Printers.PlainParses` | internal/singbox/singbox.go:76-80 | a query spelled without escapes reads back as its pairs |
| `Printers.GostSSReadsBackIff` | internal/gostmgr/protocol.go:188-213 | a Shadowsocks link printed for gost reads back with the same method, password, host and port if and only if the name holds no at-sign |
| `Printers.CredPrinted` | internal/gostmgr/protocol.go:168-173 | the URL-safe unpadded credential is printed unescaped and decodes to method and password |
| `GostURLs.GostURLReadsBack` | internal/gostmgr/protocol.go:188-213 | for every other protocol and transport the printed address of a valid node reads back, whatever its name, credential and path hold, with scheme, userinfo, host, port and path |
| `GostURLs.GostURLOfSS` | internal/gostmgr/protocol.go:188-213 | Shadowsocks over tcp is printed as the link of `GostSSReadsBackIff` |
| `GostURLs.SchemeOfValid` | internal/gostmgr/protocol.go:160-166 | the scheme of a valid node can stand in a link, is never vmess, and is ss exactly for Shadowsocks over tcp |
| `GostNode.NamesDistinct` | internal/model/model.go:140-145 | resource names tell nodes and roles apart |
| `GostConfig.BuildConfigLoop` | internal/gostmgr/config.go:132-215 | the loops that grow the slices and fill the services compute `BuildConfig` |
| `GostConfig.BuildProxyServices` | internal/gostmgr/config.go:243-281 | the step-by-step construction of local services computes `ProxyServices` |
| `GostConfig.BuildConcat` | internal/gostmgr/config.go:132-215 | compiling distributes over concatenation of node lists |
| `GostFacts.CompiledService` | internal/gostmgr/config.go:192-212 | every emitted service listens on the node's port, is counted, carries all its limits; by its name it serves the protocol over the channel with the login that the protocol's name asks for, or forwards to the target |
| `GostFacts.NamesAgreeIff` | internal/model/model.go:127-138 | the sampler's names are the emitted ones if and only if both sides agree on the second service |
| `GostFacts.SamplerAndCompilerAgree` | internal/model/model.go:127-138 | they agree on every enabled link node and on every valid gost node with normalised protocol |
| `GostFacts.NoDoubleListenIff` | internal/gostmgr/config.go:193-214 | a node listens twice on one port and network if and only if it is a local Shadowsocks node with the UDP extension over a UDP channel |
| `GostFacts.ValidListensOnce` | internal/gostmgr/protocol.go:124-158 | validation refuses just those nodes |
| `GostFacts.ValidCarriesLogin` | internal/gostmgr/protocol.go:143-151 | a valid local node's main service asks for username and password, username only, or cipher and password by the name of its protocol, over SSH for username and password; only sni asks for nothing, and Shadowsocks never runs over SSH |
| `GostFacts.ValidRelayNetwork` | internal/gostmgr/protocol.go:124-142 | a valid relayed node is forwarded over UDP exactly for the channels udp, dtls, kcp, quic, h3, http3 and wt; raw channels are local only |
| `GostFacts.ValidIff` | internal/gostmgr/protocol.go:124-158 | a node is valid exactly when its protocol and channel are known and it meets the rules on raw channels, udp, ssu, http2, SSH and the UDP extension |
| `GostFacts.LimitsRead` | internal/gostmgr/config.go:148-190 | what gost reads off the emitted limits is the rate in and out, the number of connections and the quota in its direction and window; a limit that is not set is not emitted |
| `GostLogins.AddressLogsIn` | internal/gostmgr/protocol.go:168-185 | the main service of every valid local node asks, over SSH in its channel and otherwise in its protocol, for exactly the login that the node's printed address carries |
| `GostLogins.AddressReaches` | internal/gostmgr/protocol.go:188-214 | it speaks the protocol that the address's scheme names, over the channel it names, with exactly the parameters of the address's query |
| `GostFacts.AllNamesDistinct` | internal/gostmgr/config.go:148-214 | for distinct ids no two resources of a kind share a name |
| `GostFacts.ReferencesResolveOnce` | internal/gostmgr/config.go:148-214 | every quota and limiter reference resolves to exactly one definition |
| `GostEngine.Engine.Upsert` | internal/gostmgr/client.go:164-173 | create, or update what exists: success means the resource is there as given; failure leaves it as given or as before |
| `GostEngine.Engine.Delete` | internal/gostmgr/client.go:118-124 | deleting what is not there succeeds; success means it is gone |
| `GostEngine.LoadOwn` | internal/gostmgr/config.go:132-215 | under a node's names the full configuration says what the node's own compilation says |
| `GostApply.Controller.ApplyNode` | internal/controller/controller.go:147-226 | from any engine state, half-failed ones included, success leaves exactly the node's compilation under its names and nothing else changed, but for a quota or limiter whose ignored deletion failed; a failure touches no other name |
| `GostApply.Controller.RemoveNode` | internal/controller/controller.go:229-253 | when every deletion succeeds nothing is left under the node's names; everything else is as it was; the file is written from the store; success is both |
| `GostApply.Controller.SyncConfigFile` | internal/controller/controller.go:131-144 | the file is replaced by the compilation of the stored nodes, or not at all |
| `GostRuns.RunKeepsSync` | internal/controller/controller.go:147-253 | any run of creations, edits, toggles and deletions of gost and reality nodes, with failing writes and calls, roll-backs and restarts, whose handlers are clean and which restarts gost only while the file is known to be in sync, leaves the engine equal to a full rebuild of the stored nodes |
| `GostRuns.StepSyncIff` | internal/server/handlers_nodes.go:312-430 | one outcome of a handler keeps the engine in sync if and only if it is clean: no active gost node turns into a reality node, no failed change of a reality node has touched the engine, a node whose apply failed is stored only if all of it arrived, and no active node stays stored that was removed from gost |
| `GostRuns.DeleteKeptSyncsIff` | internal/server/handlers_nodes.go:393-397 | a node removed from gost that cannot be deleted from the store leaves the engine in sync if and only if it is inactive |
| `GostRuns.CreateKeptSyncsIff` | internal/server/handlers_nodes.go:330-335 | the same for the roll-back of a creation |
| `GostRuns.UpdateKeptSyncsIff` | internal/server/handlers_nodes.go:374-383 | a node that stays stored after its apply failed leaves the engine in sync if and only if all of it had arrived |
| `GostRuns.FileStepIff` | internal/controller/controller.go:131-144 | one outcome of a handler keeps the file in sync with the stored nodes if and only if it is clean for the file; the deletion of an active node is not |
| `GostRuns.RestartAfterIff` | internal/gostmgr/manager.go:116-162 | when gost ends right after a handler and is started again on the file, the engine is in sync if and only if the handler was clean for the file |
| `GostRuns.PanelStartRepairs` | internal/controller/controller.go:64-96 | a start of the panel brings file and engine in sync from any state |
| `GostRuns.RunsConverge` | internal/controller/controller.go:147-253 | two runs that end with the same nodes end with the same engine, in whatever order |
| `GostSync.OrderFree` | internal/gostmgr/config.go:132-215 | the loaded configuration depends on which nodes there are, not on their order |
| `GostRuns.Server.Create` | internal/server/handlers_nodes.go:312-343 | creating stores and applies a node of either kind, or removes and forgets it again, for every outcome of the store's writes; other nodes' resources never change; unless an ignored engine call fails it is a step of such a run |
| `GostRuns.Server.Update` | internal/server/handlers_nodes.go:345-385 | updating stores and applies the new node, or stores and applies the old one again unless it cannot be stored; other nodes' resources never change |
| `GostRuns.Server.RollBack` | internal/server/handlers_nodes.go:374-383 | the roll-back stores the old node and applies it; whether the apply goes through is ignored |
| `GostRuns.Server.Toggle` | internal/server/handlers_nodes.go:405-430 | toggling is an edit without roll-back, for nodes of either kind and every outcome of the store's write |
| `GostRuns.Server.Delete` | internal/server/handlers_nodes.go:387-403 | deleting removes the node from the engine, then from the store if that succeeds; for a gost node the file written is the one of before |
| `GostSync.FileAfterDeleteIff` | internal/server/handlers_nodes.go:393-394 | the file written by a deletion lists exactly the remaining nodes if and only if the deleted one contributed nothing |
| `GostSync.RealitySwitchIff` | internal/controller/controller.go:147-150 | after a change of mode to reality the engine is in sync if and only if the node had contributed nothing |
| `GostSync.HeldSyncsIff` | internal/controller/controller.go:147-226 | an engine that is in sync outside one stored node's names is in sync if and only if those names hold what the node compiles to |
| `GostSync.ForgottenSyncsIff` | internal/server/handlers_nodes.go:393-397 | forgetting a node without removing it keeps an engine in sync if and only if the node is inactive |
| `Guard.LoginGuard.Blocked` | internal/server/security.go:137-154 | the wait is the longer of the address's and the account's, never negative |
| `Guard.LoginGuard.Fail` | internal/server/security.go:157-168 | both counts move; afterwards neither map holds more than 8192 entries |
| `Guard.LoginGuard.Success` | internal/server/security.go:171-176 | both keys are forgotten and nothing else |
| `Guard.BumpEntry` | internal/server/security.go:178-197 | a failure past its cool-down counts from one again; the count sets the next cool-down |
| `Guard.CleanTable` | internal/server/security.go:219-241 | the first pass removes exactly the idle entries past their cool-down; the second, over capacity, only entries no more recently seen than every survivor |
| `Guard.FailIsStep` | internal/server/security.go:178-197 | a failure moves its own key's entry by one step and no other |
| `Guard.CleanupIsStep` | internal/server/security.go:219-241 | a cleanup moves a key as the run model says, unless it takes it for capacity |
| `Guard.CoolingStays` | internal/server/security.go:219-241 | a cleanup never forgets a key that is in its cool-down or was seen within the hour, unless it takes it for capacity |
| `Guard.StaleGoes` | internal/server/security.go:219-241 | it forgets every other key |
| `Guard.CountsClimb` | internal/server/security.go:178-211 | in every run of a key each failure either goes on counting, after a cool-down only at the instant it ends, with waits of one, five and thirty minutes from the fifth, tenth and twentieth, or counts from one again, later than that |
| `Guard.LadderIff` | internal/server/security.go:178-211 | a count goes past five, to the longer cool-downs, if and only if some failure falls on the very instant at which a cool-down ends |
| `Guard.SixFailuresSpanAMinute` | internal/server/security.go:137-211 | six failures in a row of a key, each admitted, without success or capacity eviction, span at least a minute |
| `GuardRuns.RunForKey` | internal/server/security.go:137-241 | a run of both maps, with overflows and periodic cleanups, is for each key that is spared a legal run of its own entry with the same failures |
| `GuardRuns.SixAttemptsSpanAMinute` | internal/server/security.go:137-241 | in any run of both maps six failed attempts in a row of one address or account, without success or capacity eviction, span at least a minute, whatever others do |
| `OneTime.VerifyLoop` | internal/auth/totp.go:108-129 | the loop finds the earliest step within the skew whose code matches |
| `OneTime.VerifyIff` | internal/auth/totp.go:108-129 | a code is verified for a step if and only if it is six digits that the decoded secret gives for it, and it is the first such among the half minute of the clock, the one before and the one after |
| `OneTime.SecretSpellings` | internal/auth/totp.go:51-53 | a Base32 secret is its own normal form; blanks, tabs, dashes and small letters change nothing |
| `OneTime.Settings.VerifyCode` | internal/server/twofa.go:114-138 | without recording nothing is read or written; with it the step is stored or the login fails, and the reason is the first that applies |
| `OneTime.StrictlyIncreasingIff` | internal/server/twofa.go:114-138 | accepted steps strictly increase if and only if no accepted check took the clock for set back |
| `OneTime.SteadyClockOneTime` | internal/server/twofa.go:114-138 | with a clock whose step never falls more than one below its maximum no step is accepted twice |
| `OneTime.RollbackReplays` | internal/server/twofa.go:130-133 | a clock set back by more than two steps lets any code right for its own step in again |
| `OneTime.NormalizeLoop` | internal/auth/totp.go:156-164 | the loop computes `NormalizeRecoveryCode` |
| `OneTime.FormatReadsBack` | internal/auth/totp.go:156-173 | a displayed recovery code reads back as the code |
| `OneTime.FormatShape` | internal/auth/totp.go:167-173 | a recovery code is shown as two groups of five |
| `OneTime.RecoverySpellings` | internal/auth/totp.go:156-164 | a recovery code is its own normal form; small letters and other characters put anywhere change nothing |
| `OneTime.MatchRecoveryCode` | internal/auth/totp.go:184-193 | the index of the first matching hash, or -1 |
| `OneTime.TakeAt` | internal/server/twofa.go:141-154 | what is left is the list without its first match, the others in order |
| `OneTime.Settings.ConsumeRecoveryCode` | internal/server/twofa.go:141-154 | a success removes exactly the first match; a failure, or a failed write, nothing |
| `OneTime.CodesConserved` | internal/server/twofa.go:141-154 | over any run successes and hashes left add up to the codes issued, in all and for each code |
| `OneTime.Settings.CheckSecondFactor` | internal/server/twofa.go:157-169 | a code passes exactly when it is admitted, and leaves exactly the settings it is admitted with; a refused code leaves both settings alone |
| `OneTime.SecondFactorIff` | internal/server/twofa.go:114-169 | a login is admitted exactly when its six digits are right for a step later than the recorded one, whose text is then recorded, or its ten letters and digits have a stored digest, whose first copy then goes; the rest stays |
| `OneTime.AdmittedIsSpent` | internal/server/twofa.go:114-169 | whatever is admitted is spent: the recorded step is another one, or one recovery code fewer is left |
| `Challenges.LoginServer.CreateChallenge` | internal/server/twofa.go:185-200 | expired challenges go, the new one is stored with no attempts |
| `Challenges.LoginServer.LookupChallenge` | internal/server/twofa.go:203-218 | a challenge that is expired, foreign or used up is refused and deleted |
| `Challenges.LoginServer.FailChallenge` | internal/server/twofa.go:221-234 | one more attempt, and the fifth deletes the challenge |
| `Challenges.LoginServer.Login2FA` | internal/server/twofa.go:570-613 | who is refused, who waits, who fails and who gets one session; a session only on an admitted code, which is then spent; an admitted code on an open, unblocked challenge of the right address and client signs its user in |
| `Challenges.ChallengeLife` | internal/server/twofa.go:185-240 | on every run a stored challenge has fewer than five failures and no session; no token collects more than five failures or one session |
| `Challenges.OnlyBoundLogins` | internal/server/twofa.go:203-218 | a check or a session happens only while nobody is blocked, on an opened challenge, from its address and client, not after expiry, for its user |
| `YamlEdit.SetLines` | internal/cli/cli.go:177-244 | the scan with its flags and the splice compute `Set` |
| `YamlLaws.ReadsBackIff` | internal/cli/cli.go:177-244 | what is written is read back if and only if the key is top-level or present, or the section's first header is at column 0 |
| `YamlLaws.SecondWriteWinsIff` | internal/cli/cli.go:177-244 | a second write wins over the first as if it were alone, under exactly that condition |
| `YamlLaws.OneLine` | internal/cli/cli.go:215-242 | exactly one line is changed in place or added, all others stay in order |
| `YamlLaws.AddedAtBlockEnd` | internal/cli/cli.go:218-238 | a key added to a section goes to the end of the block under its first header |
| `YamlLaws.AddedAtEnd` | internal/cli/cli.go:218-241 | without a section or a header it goes to the end of the file |
| `YamlLaws.CommentsIgnored` | internal/cli/cli.go:186-190 | a blank line or a comment says nothing, wherever it stands |
| `YamlLaws.OtherKeyKeptIff` | internal/cli/cli.go:177-244 | another key of any section keeps its value if and only if the added line does not land in its section as its first such line, and no overwritten header moves it into or out of its section |
| `YamlLaws.OtherKeysKept` | internal/cli/cli.go:177-244 | so a write that can be read back and overwrites no header keeps every other key of every section |
| `YamlLaws.CaughtInput` | internal/cli/cli.go:177-244 | a file at which writing a key of a missing section gives the last section that key |
| `YamlLaws.OrphanedInput` | internal/cli/cli.go:177-244 | a file at which writing a top-level key over a header loses the section's key |
| `YamlLaws.FileLaws` | internal/cli/cli.go:177-244 | the same laws on the text of the file |

## Left out

- LedgerRuns.NeverOverCount: counters and totals are unbounded here; the wrap-around of uint64 at 2^64 bytes is not modelled.
- LedgerRuns.ExactWithoutEngineLoss: the same; edits of a node, which drop its engine counters, and gost resets are no events of these runs but stated round by round (`LedgerRuns.GostEditRecounts`, `LedgerRuns.GostResetRecounts`).
- Store.Store.RangeTraffic: sums are modulo 2^64, as the stored values are; a read from before 1970 is modelled as it is, and reads nothing.
- Quota.Reconciler.CountWindow: for windows whose bytes stay below 2^64; what the engine reports after a quota is created or updated is a parameter.
- Quota.Reconciler.Reconcile: every listed quota carries its status; one without is left alone by the code and not part of this model.
- LinkVmess.VmessReparses: the JSON text of an object is a parameter; taken from it is that a printed object reads back with bytes that are no UTF-8 replaced in its strings, that ASCII text is left alone, and that objects that were read need no repair. Which bytes are replaced is not modelled.
- Printers.GostSSReadsBackIff: the host is letters, digits, `-._~` and colons.
- GostURLs.GostURLReadsBack: the same; the link parser takes the userinfo as it is printed and does not unescape it.
- GostRuns.Server.Toggle: the list of nodes that the handlers look up is taken to be the stored one. The cached node is changed before its save, so after a failed save it differs until the next reload; likewise after a reload that fails.
- GostRuns.RunKeepsSync: what reality nodes do to sing-box is not part of the engine state, only whether applying them succeeds.
- GostRuns.PanelStartRepairs: for a panel that starts; it does not when the file cannot be written. The quota check after a restart of gost is `Quota.Reconciler.Reconcile` and no event of these runs.
- GostApply.Controller.ApplyNode: the engine is not changed by anybody else between two calls; the constant API and log sections of the configuration are not modelled.
- GuardRuns.SixAttemptsSpanAMinute: for keys that are not evicted for capacity; the check of an attempt and its failure are one step, so attempts that overlap are not modelled.
- Case mapping is ASCII: `strings.ToLower`, `ToUpper` and `EqualFold` on other letters are not modelled. White space is trimmed with all Unicode white-space runes, on their UTF-8 bytes.
- The limit of net/url on the number of query parameters.
- The text form of JSON and YAML, bbolt's file format and transactions: objects, maps and lines of text instead.
- SHA-1, SHA-256, HMAC, base32 and random tokens: function parameters and fresh inputs. That tokens are never drawn twice is an assumption of `Challenges.ChallengeLife`.
- Concurrency inside a handler or a round: each is one step, apart from the crash points and failing calls that are modelled.
- Starting and stopping sing-box processes, and the gate that pauses an instance over its quota: only its charge is modelled.
- The live view of a node (connections, state, quota status) and the alerts that follow it.
- The session cache over the session store: easier than the rest.
- Calendar arithmetic of quota windows: window bounds are parameters.
- Trusted-device tokens, enabling and disabling two-factor login, password hashing, HTTP routing, cookies and headers.
- ACME, Telegram, host metrics, public-address detection, the web interface and the installation scripts.
