# Verified model of the supply-audit toolkit

A Dafny model of the parts of the Harmony supply-audit toolkit on which its published figures
rest, with proofs of what those parts promise. `dafny verify dfyconfig.toml` checks everything.

The model follows the programs branch by branch. Loops that update variables are methods with
the same loops, objects and closures that update fields are classes, and each is proved against
a function on values; the theorems are about those functions. Amounts are unbounded integers.
Block numbers are 64-bit, with the wrap-around written out where the programs can reach it.
Databases are finite maps from byte keys to byte values together with the keys whose reads fail;
decoders, hashes, the log service and the archive are parameters about which nothing is assumed
unless a lemma says so.

| cluster | files |
|---|---|
| concurrent token-event replay | `TokenEvents`, `LogFetch`, `ScanSystem`, `ScanOutcome`, `Holders` |
| call traces and receipt classification | `PrecompileInput`, `Trace`, `TracePaths`, `TraceVerdict`, `ReceiptAudit`, `ValueEdges` |
| Bech32 addresses (BIP-173, section "Bech32") | `Binary`, `Checksum`, `Regroup`, `Bech32`, `AddressCodec` |
| cross-shard receipts and their reduced index | `CxKeys`, `ChainDb`, `CrossShard`, `ReceiptPartition`, `CxSnapshot`, `SnapshotRefinement` |
| claim accounting | `Streams`, `Ledger`, `Staking`, `StakingClaims`, `ClaimTotals` |
| recovery issuance, state difference, non-issuance, stage policy, creation search | `RecoveryIssuance`, `StateDiff`, `NonIssuance`, `StagePolicy`, `CreationSearch` |
| shared | `Base`, `Totals` |

The scan is a step system: one action is one send, receive, fetch, report, cancel, drop, close or
merge, and a run is any sequence of possible actions, so the theorems about runs are about every
interleaving. The trace semantics is small: a completed call of the precompile debits its sender
and emits a receipt, and a frame that fails undoes the debits, but not the receipts, of its
subtree.

Where the code does not do quite what it is meant to, the model keeps the code and the exact
condition is proved: an accepted address text is the canonical one exactly when it has 42
characters; blocks that pass the one-block test of a receipt group are all the same exactly
when the first is not block 0 or the last one is; the count of initial ranges is exact but for one
input; a scan of the reduced index ends like the scan of the complete databases exactly when that
scan meets no receipt whose lookup is missing although its group has a spent marker; and the inner
loop of the recovery scan ends exactly when its group ends below the last 64-bit block.

## Model

| member | source | states |
|---|---|---|
| `ScanOutcome.ScanIsReplay` | toolkit/cmd/wone-holders/main.go:500-640 | every interleaving of producer, workers and aggregator that ends without error has the ledger (balances and event counts) of one sequential replay of all logs of deployment..cutoff; every initial range is merged once; queries = ranges + 2 x splits |
| `ScanOutcome.OutcomeIsReplay` | toolkit/cmd/wone-holders/main.go:500-640 | when single blocks can be fetched for as long as nothing has cancelled the shared context, whatever else fails before and whatever fails after, a finished scan succeeds exactly when the sequential replay does, with the same ledger |
| `ScanOutcome.FailureIsReported` | toolkit/cmd/wone-holders/main.go:538-642 | a finished scan fails exactly when the error slot is filled and returns that error; a cancelled scan fails; the `completed N of M ranges` error is never returned |
| `ScanOutcome.DroppedResultFails` | toolkit/cmd/wone-holders/main.go:563-642 | a run in which a worker dropped a result on cancellation, or cancelled, ends with the reported error |
| `ScanSystem.FirstErrorStays` | toolkit/cmd/wone-holders/main.go:538-542 | once an error is in the slot it stays there for the rest of any run |
| `ScanSystem.ChannelsBounded` | toolkit/cmd/wone-holders/main.go:518-590 | over any run neither channel ever holds more than twice as many entries as there are workers |
| `ScanSystem.InvariantKept` | toolkit/cmd/wone-holders/main.go:500-640 | what every single step of the system keeps: no range lost or doubled while nothing failed, every result the replay of its range, nobody cancelled or gone early before an error is in the slot, counters in step |
| `ScanOutcome.NeverStuck` | toolkit/cmd/wone-holders/main.go:500-640 | in every state without an outcome some step is possible: bounded channels and cancellation cannot deadlock the scan |
| `ScanOutcome.EveryRunEnds` | toolkit/cmd/wone-holders/main.go:500-640 | no interleaving is longer than a bound in the number of blocks and workers, whatever the log service does |
| `ScanOutcome.StuckRunHasOutcome` | toolkit/cmd/wone-holders/main.go:500-640 | a run that cannot be continued has an outcome |
| `ScanOutcome.ArrivalOrder` | toolkit/cmd/wone-holders/main.go:601-610 | merging the results of some ranges in any order of arrival gives the replay of the ranges one after the other |
| `TokenEvents.RangeLedger.Apply` | toolkit/cmd/wone-holders/main.go:432-498 | one log changes balances and counters as its event says, or is rejected with the error of the first failing check and changes nothing |
| `TokenEvents.ReadIsWritten` | toolkit/cmd/wone-holders/main.go:432-498 | a log is read as an event if and only if it is that event written down: neither removed nor pending, of the contract, its signature and accounts as 32-byte topics, accounts below 2^160, its amount as 32 bytes of data |
| `TokenEvents.DepositPays` | toolkit/cmd/wone-holders/main.go:432-465 | a log [deposit, a] with amount n raises a by n, changes no other balance and counts one deposit; the zero address keeps none |
| `TokenEvents.WithdrawalTakes` | toolkit/cmd/wone-holders/main.go:432-478 | a log [withdrawal, a] with amount n lowers a by n, changes no other balance and counts one withdrawal |
| `TokenEvents.TransferMoves` | toolkit/cmd/wone-holders/main.go:432-495 | a log [transfer, a, b] with amount n lowers a by n, raises b by n, changes no other balance and counts one transfer |
| `TokenEvents.RangeLedger.Add` | toolkit/cmd/wone-holders/main.go:416-430 | a delta changes one balance; the zero address and zero amounts change nothing, not even the keys |
| `TokenEvents.RangeLedger.ApplyAll` | toolkit/cmd/wone-holders/main.go:548-561 | a worker's loop over a range leaves the replay of its logs or stops at the first rejected one |
| `TokenEvents.ReplayAppend` | toolkit/cmd/wone-holders/main.go:416-498 | replaying two lists of logs apart and merging is replaying one after the other, and succeeds exactly when both do |
| `TokenEvents.MergeCommutes` | toolkit/cmd/wone-holders/main.go:601-610 | merging range results does not depend on which side is the aggregate |
| `TokenEvents.MergeAssociates` | toolkit/cmd/wone-holders/main.go:601-610 | merging range results can be grouped in any way |
| `Holders.BalanceIsHistory` | toolkit/cmd/wone-holders/main.go:432-498 | a replayed balance of a non-zero address is the sum of what deposits and transfers paid to it less what withdrawals and transfers took from it |
| `Holders.ReplayConserves` | toolkit/cmd/wone-holders/main.go:432-498 | replayed balances add up to deposits less withdrawals, with transfers from and to the zero address counted as issue and burn |
| `Holders.EveryLogCounted` | toolkit/cmd/wone-holders/main.go:432-498 | each event counter grows by the number of replayed logs with its signature, the three together by the number of logs |
| `Holders.ListHolders` | toolkit/cmd/wone-holders/main.go:655-700 | the holder list is refused exactly when a balance is negative or the positive balances do not add up to the expected supply; otherwise it has exactly the positive balances in address order |
| `Holders.AcceptedSupplyIsIssued` | toolkit/cmd/wone-holders/main.go:903-965 | a supply that a scan and the holder list accept is the net issue of all logs from deployment to cutoff |
| `Holders.ScannedBalance` | toolkit/cmd/wone-holders/main.go:500-640 | after a successful scan, in any interleaving, every balance is its account's history up to the cutoff |
| `Holders.ScannedHolders` | toolkit/cmd/wone-holders/main.go:655-700 | the holder list of a successful scan, in any interleaving, has a row for exactly the accounts that were paid more than was taken from them, with the difference, and never one for the zero address |
| `LogFetch.FetchExact` | toolkit/cmd/wone-holders/main.go:328-382 | an adaptive fetch that succeeds, after any pattern of failures, has its range's logs once and in block order |
| `LogFetch.RangeLogsAt` | toolkit/cmd/wone-holders/main.go:328-382 | a range's logs are those of its blocks, each block's after those of the blocks before it |
| `LogFetch.FetchCost` | toolkit/cmd/wone-holders/main.go:328-382 | a successful fetch has made 1 + 2 x splits queries; none makes more, and a range splits at most once between neighbouring blocks |
| `LogFetch.FetchSucceeds` | toolkit/cmd/wone-holders/main.go:328-382 | splitting overcomes every failure but that of a single block |
| `LogFetch.ScanStats.FetchLogs` | toolkit/cmd/wone-holders/main.go:328-382 | the recursive fetch over the shared counters computes the specified result and counters, and terminates on the range's width |
| `LogFetch.TilesCover` | toolkit/cmd/wone-holders/main.go:573-590 | the producer's ranges follow each other from deployment to cutoff without gap or overlap, all but the last of the full size |
| `LogFetch.TilesHoldEveryLog` | toolkit/cmd/wone-holders/main.go:573-590 | the logs of the ranges in order are the logs of deployment..cutoff |
| `LogFetch.InitialRangesExact` | toolkit/cmd/wone-holders/main.go:572-590 | the expected range count, computed in 64 bits, is the number of ranges for every input but one: every block of the whole 64-bit range, one at a time |
| `LogFetch.FindDeploymentBlock` | toolkit/cmd/wone-holders/main.go:288-326 | the deployment search returns a real transition (code at the block, none just before, or block 0) without assuming code to stay; it reports missing code at the cutoff exactly when there is none, and a failed read only when one failed; it reads the archive no more often than two times and once for each bit of the range's width |
| `LogFetch.DeploymentIsFirst` | toolkit/cmd/wone-holders/main.go:288-326 | when code never disappears the transition found is the first block with code |
| `Trace.Inspector.Visit` | toolkit/scripts/forensics/cx-source-audit.py:267-309 | the recursion that updates six counters in place adds exactly the specified contribution of the subtree |
| `TracePaths.InspectByPaths` | toolkit/scripts/forensics/cx-source-audit.py:257-309 | the six counters are a sum over all paths from the root, each frame taken with the source of its nearest non-DELEGATECALL frame at or above it and with whether a non-root frame above it failed |
| `TracePaths.EveryPathOnce` | toolkit/scripts/forensics/cx-source-audit.py:257-309 | that sum takes every path of the trace, each once |
| `TracePaths.InspectIgnoresOrder` | toolkit/scripts/forensics/cx-source-audit.py:300-309 | reordering the calls of any frames, at any depth, leaves all six counters unchanged |
| `TracePaths.VisitedOrdered` | toolkit/scripts/forensics/cx-source-audit.py:258-299 | failed matching <= failed <= completed <= all precompile calls, and likewise for the matching counters |
| `Trace.CountersOfReceipts` | toolkit/scripts/forensics/cx-source-audit.py:267-309 | completed calls are the receipts of a subtree, failed paths those whose debit an errored frame above undoes |
| `Trace.CountersOfCalls` | toolkit/scripts/forensics/cx-source-audit.py:267-284 | the other two counters are those of all frames that call 0xf9 by CALL, CALLCODE, DELEGATECALL or STATICCALL, failed or not, and of those with the audited payload and sender |
| `Trace.EveryCallSettles` | toolkit/scripts/forensics/cx-source-audit.py:267-309 | in a subtree without failed frames every such call has its receipt and its debit, in calling order |
| `TraceVerdict.LeakVerdict` | toolkit/scripts/forensics/cx-source-audit.py:312-344 | `rollback_leak` is given exactly when the transaction and the root succeeded, the trace left one receipt, with exactly the audited sender, amount, receiver and shard, and no debit persists |
| `TraceVerdict.ValidVerdict` | toolkit/scripts/forensics/cx-source-audit.py:312-344 | `valid_source_debit` is given exactly when the trace left one receipt, with exactly the audited sender, amount, receiver and shard, and its debit persists |
| `TraceVerdict.VerdictBalances` | toolkit/scripts/forensics/cx-source-audit.py:312-344 | under both verdicts the receipt carries the audited amount of the audited sender, who has paid it in the end under the second and nothing under the first |
| `TraceVerdict.OneIdentity` | toolkit/scripts/forensics/cx-source-audit.py:273-344 | a trace authenticates one identity: two that get one of these verdicts from the same trace are equal, and so are the verdicts |
| `TraceVerdict.OtherVerdicts` | toolkit/scripts/forensics/cx-source-audit.py:312-344 | the other three classifications, each with the exact condition under which it is given, and when the replay counts as compatible |
| `TraceVerdict.ResolvedAgrees` | toolkit/scripts/forensics/cx-source-audit.py:347-385 | a final class is what transaction and evidence say about the debit, an error when they say opposite things, unclassified when neither says anything; evidence alone never makes a leak |
| `TraceVerdict.ResolvedSource` | toolkit/scripts/forensics/cx-source-audit.py:347-385 | the published source names exactly those of transaction, replay and evidence that have said something, and the evidence is published as given |
| `PrecompileInput.ParseCallData` | toolkit/scripts/forensics/cx-source-audit.py:239-254 | parsing the call data of a transfer gives its 256-bit amount, 160-bit receiver and 32-bit shard back, whatever fills the words and follows them |
| `PrecompileInput.ParsedIsCallData` | toolkit/scripts/forensics/cx-source-audit.py:239-254 | nothing else parses: whatever does is the call data of the amount, receiver and shard that were read |
| `ReceiptAudit.Audit` | toolkit/scripts/forensics/cx-source-audit.py:473-629 | the audit goes through exactly when no receipt repeats, no evidence contradicts its transaction or stands beside a failed one, and all evidence is used; its totals are the per-class sums |
| `ReceiptAudit.DifferentKeys` | toolkit/scripts/forensics/cx-source-audit.py:473-485 | no receipt repeats exactly when the rows' keys are pairwise different |
| `ReceiptAudit.AcceptedRows` | toolkit/scripts/forensics/cx-source-audit.py:496-520 | all rows are accepted exactly when each is, whatever its place |
| `ReceiptAudit.RowContradicted` | toolkit/scripts/forensics/cx-source-audit.py:347-385 | a row is refused exactly when its evidence stands beside a failed transaction or says the opposite of what its transaction or trace says |
| `ReceiptAudit.ProvenRow` | toolkit/scripts/forensics/cx-source-audit.py:257-344 | a row's replay proves something exactly when its traced transaction left one receipt, and that is the row's own in sender, amount, receiver and shard |
| `ReceiptAudit.AuditTotalsAgree` | toolkit/scripts/forensics/cx-source-audit.py:478-584 | the final totals, the replay totals and the receipt amounts have equal sums |
| `ReceiptAudit.LeakRowIsRollback` | toolkit/scripts/forensics/cx-source-audit.py:312-385 | whatever the evidence, the leak rows are exactly the traced receipts whose only debit was rolled back |
| `ReceiptAudit.PublishedTotals` | toolkit/scripts/forensics/cx-source-audit.py:478-584 | over an accepted audit the leak total is the amount of the receipts whose only debit was rolled back, which is what they credit beyond what their senders paid; the valid total is that of the receipts whose debit persists, the absent total that of those for which only evidence denies a debit, the unclassified total that of those of which nothing is known |
| `ValueEdges.Walker.Walk` | toolkit/scripts/forensics/historical-exploit-flow-export.py:466-506 | the walk updates record, edge list and edge index exactly as a fold over the frames in calling order |
| `ValueEdges.FrameAtPath` | toolkit/scripts/forensics/historical-exploit-flow-export.py:466-506 | the call at the end of any path has one frame in the walk: it stands behind the frames of all calls before it, its depth is the length of the path, and it is effective if and only if no call on the path failed |
| `ValueEdges.PathOfFrame` | toolkit/scripts/forensics/historical-exploit-flow-export.py:466-506 | every frame of the walk is that of some path |
| `ValueEdges.FramesRecorded` | toolkit/scripts/forensics/historical-exploit-flow-export.py:466-506 | calls, failed calls, positive edges, effective destructs and what these paid out are the numbers and sums over the frames |
| `ValueEdges.EdgesPlaced` | toolkit/scripts/forensics/historical-exploit-flow-export.py:466-506 | every edge carries the frame at its index, and edges are in that order |
| `ValueEdges.WalkSettles` | toolkit/scripts/forensics/historical-exploit-flow-export.py:466-506 | the effective edges of a trace are, in order, the payments that survive its failed frames, and the effective value is their sum |
| `ValueEdges.ReceivedIsPaid` | toolkit/scripts/forensics/historical-exploit-flow-export.py:547-560 | the amounts received per recipient add up to what the contract paid |
| `ValueEdges.DistributionSettles` | toolkit/scripts/forensics/historical-exploit-flow-export.py:540-560 | over any traces, a recipient's amounts by some edges and by the other edges are together what the contract's settled payments gave it |
| `ValueEdges.WholeDistribution` | toolkit/scripts/forensics/historical-exploit-flow-export.py:540-560 | where every edge is chosen the recipient's amount is what the settled payments of the contract gave it |
| `ValueEdges.CollectReceived` | toolkit/scripts/forensics/historical-exploit-flow-export.py:547-560 | the loop over the edges gives, for each recipient, what the contract paid it in the chosen effective edges, more than nothing when every edge moves value; all recipients together received what it paid |
| `ValueEdges.TraceTransactions` | toolkit/scripts/forensics/historical-exploit-flow-export.py:443-506 | the loop over the transactions lists the edges of all traces one after the other |
| `ValueEdges.Summarize` | toolkit/scripts/forensics/historical-exploit-flow-export.py:568-597 | distributed and held are the sums over the recipients; the intact, zero, partial and moved-by-nonce counts are the numbers of recipients whose balance and nonce satisfy the published conditions |
| `ValueEdges.RecipientMeans` | toolkit/scripts/forensics/historical-exploit-flow-export.py:568-597 | what a recipient keeps and which of the five standings it has, by its balance and nonce, which are 0 for an account the node does not know |
| `ValueEdges.SummaryConsistent` | toolkit/scripts/forensics/historical-exploit-flow-export.py:568-597 | when every recipient received something, intact, zero and partial partition the recipients, the two moved counts add up to the last two, and held equals distributed exactly when all are intact |
| `ValueEdges.SummarizeTraces` | toolkit/scripts/forensics/historical-exploit-flow-export.py:540-597 | from traces to figures: recipients, sums and counts are those of what the contract paid in the chosen effective edges, and they are consistent |
| `Bech32.DecodersAgree` | toolkit/scripts/addresses/blacklisted-address-audit.py:56-83 | the two decoders accept the same `one1` texts and return the same twenty bytes |
| `Bech32.AcceptancesAgree` | toolkit/scripts/forensics/cx-source-audit.py:47-78 | the short-data test and the padded left-over test of the second decoder decide like the unpadded tests of the first |
| `Bech32.BurstRefused` | toolkit/scripts/addresses/blacklisted-address-audit.py:45-69 | replacing symbols after the separator of an accepted address, of any length, within six consecutive positions by different charset symbols is always refused by both decoders |
| `Bech32.DecodeEncoded` | toolkit/scripts/addresses/build-non-issuance-audit.py:76-113 | decoding the encoding of any twenty-byte address returns it, with either decoder |
| `Bech32.EncodeDecoded` | toolkit/scripts/addresses/build-non-issuance-audit.py:76-113 | re-encoding the result of an accepted text gives the text back exactly when it has 42 characters, that is the prefix `one` and 38 data symbols |
| `Bech32.LongFormAccepted` | toolkit/scripts/addresses/blacklisted-address-audit.py:56-83 | for every address there is an accepted 43-character text, which is not how it is encoded |
| `Bech32.ChecksumCloses` | toolkit/scripts/addresses/build-non-issuance-audit.py:111-112 | the six appended symbols always bring the checksum register to 1 |
| `Bech32.HrpExpandExact` | toolkit/scripts/addresses/build-non-issuance-audit.py:108-110 | for every prefix, the expansion's first part times 32 plus its last part gives the characters back, position by position, with a zero between and the last part below 32 |
| `Bech32.HrpExpandOne` | toolkit/scripts/addresses/build-non-issuance-audit.py:108-110 | `one` expands to 3, 3, 3, 0, 15, 14, 5 |
| `Bech32.EncodedRegister` | toolkit/scripts/addresses/build-non-issuance-audit.py:103-113 | every encoded address is `one1` and symbols that, after 3, 3, 3, 0, 15, 14, 5, leave the register at 1 |
| `Bech32.DecodedRegister` | toolkit/scripts/addresses/blacklisted-address-audit.py:56-69 | whatever either decoder accepts behind `one1` leaves the register at 1 after 3, 3, 3, 0, 15, 14, 5 |
| `Bech32.AcceptedShape` | toolkit/scripts/addresses/blacklisted-address-audit.py:56-69 | an accepted text has no capitals, begins with `one1` and has only charset symbols after its last `1` |
| `Bech32.OnlySeal` | toolkit/scripts/addresses/build-non-issuance-audit.py:76-84 | no other six symbols do |
| `Checksum.Polymod` | toolkit/scripts/addresses/blacklisted-address-audit.py:45-53 | the checksum loop computes the register function that the proofs are about |
| `Checksum.GeneratorPolynomial` | toolkit/scripts/addresses/blacklisted-address-audit.py:45-53 | the five constants are the lower coefficients of the BIP-173 generator polynomial over the field of 32 elements, each doubled from the one before |
| `Checksum.RunLinear` | toolkit/scripts/addresses/blacklisted-address-audit.py:45-53 | the checksum register is linear over exclusive or, for words of any size and messages of any length |
| `Checksum.ZeroStepInjective` | toolkit/scripts/addresses/blacklisted-address-audit.py:45-53 | two 30-bit registers that a step with symbol 0 takes to the same register are equal |
| `Checksum.BurstDetected` | toolkit/scripts/addresses/blacklisted-address-audit.py:45-53 | two symbol strings that differ only within six consecutive positions never leave the same register |
| `Regroup.RegroupBits` | toolkit/scripts/addresses/build-non-issuance-audit.py:87-100 | the regrouping loop emits the leading digits of the number that its input spells out and keeps the rest |
| `Regroup.RegroupRoundTrip` | toolkit/scripts/addresses/build-non-issuance-audit.py:87-100 | bytes to symbols and back is the identity on byte strings of any length, with zero left-over bits |
| `Regroup.SymbolsRoundTrip` | toolkit/scripts/addresses/blacklisted-address-audit.py:70-83 | symbols to bytes and back is the identity for the data part of an address |
| `AddressCodec.DecodeBech32` | toolkit/scripts/addresses/blacklisted-address-audit.py:56-83 | the loops of the first decoder compute its specification |
| `AddressCodec.DecodeAddress` | toolkit/scripts/forensics/cx-source-audit.py:63-78 | the loops of the second decoder compute its specification |
| `AddressCodec.ToBech32` | toolkit/scripts/addresses/build-non-issuance-audit.py:103-113 | the loops of the encoder compute its specification |
| `AddressCodec.ConvertExact` | toolkit/scripts/forensics/cx-source-audit.py:47-60 | regrouping with the non-zero padding error |
| `AddressCodec.ConvertPadded` | toolkit/scripts/addresses/build-non-issuance-audit.py:87-100 | regrouping with the last value filled up |
| `CxKeys.KeyRoundTrip` | toolkit/cmd/cross-shard-supply/main.go:109-119 | a receipt key decodes to the parts it was made from |
| `CxKeys.PartsRoundTrip` | toolkit/cmd/cross-shard-supply/main.go:109-119 | every receipt key that decodes is the key of its parts, so no two keys decode alike |
| `CxKeys.SpentKeyHolds` | toolkit/cmd/cross-shard-supply/main.go:128-135 | a spent marker's key has length 26 and holds, after the prefix, the source shard and the block as big-endian numbers |
| `CxKeys.CanonicalKeyHolds` | toolkit/cmd/cross-shard-supply/main.go:137-143 | a canonical-hash key has length 10 and holds its block as a big-endian number between `h` and `n` |
| `CxKeys.KeysDisjoint` | toolkit/cmd/cross-shard-supply/main.go:109-143 | receipt, lookup, spent-marker and canonical-hash keys have four different lengths and never meet |
| `CxKeys.LookupKeysByLength` | toolkit/cmd/cx-lookup-snapshot/main.go:86-91 | the keys of length 34 under the lookup prefix are exactly the lookup keys |
| `ChainDb.ReadOptionalExact` | toolkit/cmd/cross-shard-supply/main.go:149-168 | a value is returned only when it is stored, absence reported only for absent keys, an error only when a read or an existence check failed |
| `ChainDb.ReadOptionalFails` | toolkit/cmd/cross-shard-supply/main.go:149-168 | a read fails exactly when the existence check is needed and fails, or when a stored value cannot be read |
| `ChainDb.CanonicalHashExact` | toolkit/cmd/cross-shard-supply/main.go:170-194 | absent, badly long and zero canonical hashes are told apart by what is stored, and any other is returned as stored |
| `ChainDb.LooseIsStrict` | toolkit/cmd/cross-shard-supply/main.go:170-194 | where the strict canonical-hash reader finds a hash the library's reader finds the same |
| `ChainDb.LooseAligned` | toolkit/cmd/cx-lookup-snapshot/main.go:102-105 | the library's hash of a block is the stored value's last 32 bytes, aligned at the end and filled up with zeros, and all zeros when the value is absent or unreadable |
| `CrossShard.SumReceipts` | toolkit/cmd/cross-shard-supply/main.go:196-422 | the scan's totals and group lists are the fold of the per-item outcomes, and on any error all totals come back zero |
| `CrossShard.IsSpent` | toolkit/cmd/cross-shard-supply/main.go:311-400 | the loop over a group's receipts, with its flag, its block and its early breaks, decides as specified |
| `ReceiptPartition.ScanPartitions` | toolkit/cmd/cross-shard-supply/main.go:234-415 | spent, pending and unsupported amounts add up to the value of all canonical, non-empty groups within the source cutoff, and each such group is in exactly one of the three |
| `ReceiptPartition.OutcomeMeans` | toolkit/cmd/cross-shard-supply/main.go:234-415 | an item is spent, pending, unsupported, empty, late or off the canonical chain under one exact condition each on the item and the databases, and its group is what is stored |
| `ReceiptPartition.EveryFigure` | toolkit/cmd/cross-shard-supply/main.go:234-415 | each figure of a successful scan on its own: the spent, pending and unsupported groups, their receipt counts and amounts, both group lists, and the empty, after-cutoff and non-canonical counts are those of the items that belong there |
| `CrossShard.CheckExact` | toolkit/cmd/cross-shard-supply/main.go:272-297 | a group passes the receipt checks exactly when each receipt is complete, of the right shards and not negative, and is kept whole and in order |
| `ReceiptPartition.SpentItem` | toolkit/cmd/cross-shard-supply/main.go:310-413 | a scanned group is spent exactly when every one of its receipts was applied in a canonical block at or below its destination's cutoff, and pending otherwise |
| `ReceiptPartition.SpentInOneBlock` | toolkit/cmd/cross-shard-supply/main.go:310-413 | the receipts of a spent group of a scan, each applied canonically by the cutoff, were all applied in one block if and only if the first was not applied in block 0 or the last one was |
| `ReceiptPartition.PassingBlocks` | toolkit/cmd/cross-shard-supply/main.go:396-399 | any list of blocks that passes the one-block test has them all the same if and only if the first is not block 0 or the last one is, since block 0 doubles as `none yet` |
| `ReceiptPartition.SplitMeansBlocks` | toolkit/cmd/cross-shard-supply/main.go:396-399 | a group whose receipts are all applied is spent or reported as split exactly as its blocks pass the test |
| `ReceiptPartition.OneBlockPasses` | toolkit/cmd/cross-shard-supply/main.go:396-399 | blocks that are all the same pass |
| `ReceiptPartition.TwoBlocksPass` | toolkit/cmd/cross-shard-supply/main.go:396-399 | a concrete database and a group of two receipts, applied canonically in blocks 0 and 7, that counts as spent |
| `ReceiptPartition.CutoffMoves` | toolkit/cmd/cross-shard-supply/main.go:370-373 | raising destination cutoffs moves value, receipts and whole groups from pending to spent and changes no other figure, when both scans succeed |
| `CxSnapshot.Build` | toolkit/cmd/cx-lookup-snapshot/main.go:83-153 | the export succeeds exactly when the iteration works and every lookup decodes, never reports conflicting hashes, and its table holds the lookups that name a canonical block within the cutoff, the canonical hashes of those blocks, and nothing else; the summary has the counters of the keys and the number of blocks whose hash was written |
| `CxSnapshot.ExportLookups` | toolkit/cmd/cx-lookup-snapshot/main.go:80-128 | the lookup loop exports the kept lookups; its counters are the numbers of keys, of lookups, and of lookups past the cutoff, off the canonical chain and kept, and the last three add up to the lookups |
| `CxSnapshot.CountersExact` | toolkit/cmd/cx-lookup-snapshot/main.go:84-117 | each counter of the summary on its own: keys, lookup keys, those past the cutoff, those within it that the canonical chain contradicts, those kept |
| `CxSnapshot.BatchWriter.Put` | toolkit/cmd/cx-lookup-snapshot/main.go:113-128 | writing through a batch that is flushed at its limit adds the entry to the contents |
| `CxSnapshot.BatchWriter.Close` | toolkit/cmd/cx-lookup-snapshot/main.go:148-152 | after the last, conditional write the output holds everything that was put |
| `SnapshotRefinement.SnapshotStandsIn` | toolkit/cmd/cx-lookup-snapshot/main.go:83-153 | a scan that succeeds on the full destination databases gives the same totals and groups on their reduced indexes, for indexes that reach at least the destination cutoffs |
| `SnapshotRefinement.IndexAnswers` | toolkit/cmd/cross-shard-supply/main.go:310-395 | what an index answers about a receipt, whatever its database: a kept lookup is judged by its block, every other receipt is pending |
| `SnapshotRefinement.ApplicationExact` | toolkit/cmd/cross-shard-supply/main.go:310-395 | over a complete database the index answers about a receipt like the database if and only if the receipt is not stray, that is, lookup missing though the group's spent marker is there |
| `SnapshotRefinement.SpentExact` | toolkit/cmd/cross-shard-supply/main.go:310-413 | over a complete database the index decides a group like the database unless the group has a stray receipt after receipts applied in passing blocks; then the full scan reports the marker |
| `SnapshotRefinement.SnapshotExact` | toolkit/cmd/cross-shard-supply/main.go:196-422 | over complete databases the reduced scan ends like the full one, in totals or error, if and only if the full scan meets no stray receipt |
| `SnapshotRefinement.SnapshotEquivalent` | toolkit/cmd/cross-shard-supply/main.go:196-422 | over complete databases in which no receipt of a group in scope is stray, the two scans end alike |
| `SnapshotRefinement.MarkerIsLost` | toolkit/cmd/cross-shard-supply/main.go:318-354 | a concrete pair of inputs whose full scan reports a missing lookup while the reduced scan succeeds and has the receipt pending |
| `Ledger.Merge` | toolkit/scripts/supply/actual-supply-ledger.py:106-244 | the four-cursor merge terminates and succeeds exactly when the inputs are sorted and every key's parts fit together; its output has one row for every key of any input, in key order, saying what the inputs say, and its summary columns are the sums of the input columns and of the rows |
| `Ledger.BuildRow` | toolkit/scripts/supply/actual-supply-ledger.py:181-226 | a row is built exactly when all present addresses agree, no amount is negative and the total is positive; it has the five components, their sum, and the first address |
| `Ledger.LoadPendingReceipts` | toolkit/scripts/supply/actual-supply-ledger.py:53-78 | the receipts load exactly when no amount is negative, no key has two addresses and the sum is the declared one; then the amounts by key add up to it |
| `Ledger.GroupLoads` | toolkit/scripts/supply/actual-supply-ledger.py:60-72 | grouping by key succeeds on exactly those receipts |
| `Ledger.GroupAmount` | toolkit/scripts/supply/actual-supply-ledger.py:60-72 | the amount behind a key is the sum of the receipts with that key, and only such keys occur |
| `Ledger.RowsCounted` | toolkit/scripts/supply/actual-supply-ledger.py:183-243 | the summary's row count and its count of rows without address are those of the rows |
| `Streams.StreamStep` | toolkit/scripts/supply/actual-supply-ledger.py:158-187 | a cursor that stands at the least remaining key or passes it by has handled exactly the list's keys up to it |
| `Staking.Accumulator.AddValidator` | toolkit/cmd/actual-supply/main.go:193-287 | a wrapper adds its delegations, rewards and undelegations to the totals, or is refused as a duplicate or for a missing or negative amount or epoch |
| `Staking.Accumulator.AddAll` | toolkit/cmd/actual-supply/main.go:366-432 | the trie loop in state-root discovery mode computes the specified totals, and the claims are their sum |
| `Staking.ExamineExact` | toolkit/cmd/actual-supply/main.go:182-405 | an account is a validator's if and only if it bears code that is stored, hashes to the code hash, decodes and names the account; any other code under the validator prefix is corrupt |
| `Staking.TotalsSucceed` | toolkit/cmd/actual-supply/main.go:193-432 | the totals succeed exactly when no balance, block reward, amount, reward or epoch is absent or negative, no account is corrupt and no validator occurs twice; the validators are then those whose wrappers were read |
| `Staking.TotalsTally` | toolkit/cmd/actual-supply/main.go:193-432 | the account, positive-balance, code and delegation counts, liquid balance and block rewards are the numbers and sums over accounts and wrappers |
| `StakingClaims.ClaimBook.ProcessValidator` | toolkit/cmd/staking-claims/main.go:217-295 | a wrapper adds each delegation to its delegator's claim, and is refused for a repeated validator or delegator, a secure-key collision, or an invalid amount |
| `StakingClaims.ClaimBook.Discover` | toolkit/cmd/staking-claims/main.go:297-312 | the discovery loop computes the specified claims |
| `StakingClaims.SummationsAgree` | toolkit/cmd/staking-claims/main.go:197-295 | when both programs get through the same accounts, claims grouped by delegator add up, column by column, to the totals summed without grouping, over the same validators |
| `StakingClaims.ClaimsSucceed` | toolkit/cmd/staking-claims/main.go:197-312 | where the plain summation gets through, grouping by delegator does if and only if no wrapper lists a delegator twice and no two delegators share a secure key; then there is one claim for every delegator, under its address |
| `StakingClaims.CleanWrappers` | toolkit/cmd/staking-claims/main.go:217-295 | the first condition without recursion: in every validator's wrapper the delegators are pairwise different |
| `StakingClaims.ClaimIsDue` | toolkit/cmd/staking-claims/main.go:197-295 | every claim is, column by column, the sum of what all validators' delegations owe to the delegator behind its key |
| `StakingClaims.TotalIsDue` | toolkit/cmd/actual-supply/main.go:193-287 | the active, pending and reward totals are the sums over all delegations of all validators |
| `StakingClaims.ListRows` | toolkit/cmd/staking-claims/main.go:338-348 | the rows are the non-zero claims in key order |
| `StakingClaims.ListedClaims` | toolkit/cmd/staking-claims/main.go:338-348 | a key has a row if and only if something is claimed behind it in one of the three columns |
| `StakingClaims.RowsKeepTotals` | toolkit/cmd/staking-claims/main.go:338-348 | dropping zero claims and sorting changes no column's sum |
| `ClaimTotals.LedgerTotal` | toolkit/cmd/actual-supply/main.go:426-432 | when all programs succeed on one state, the ledger's total is the account and staking claims plus the other shard's liquid balances plus the pending receipts |
| `ClaimTotals.LiquidRowsPositive` | toolkit/cmd/account-snapshot/main.go:146-170 | the liquid rows are as many as there are accounts with a positive balance, and none has a balance of zero |
| `RecoveryIssuance.AcceptedRanges` | toolkit/cmd/hip30-recovery-issuance/main.go:205-225 | a requested range is accepted exactly when it starts on a reward group other than the first and holds at least one whole group |
| `RecoveryIssuance.AcceptedWindow` | toolkit/cmd/hip30-recovery-issuance/main.go:92-103 | an accepted window has whole groups only and a tail shorter than 64 headers, and its arithmetic has not wrapped |
| `RecoveryIssuance.RewardBlocks` | toolkit/cmd/hip30-recovery-issuance/main.go:92-103 | closed forms of both reward-block functions, with the one place where 64-bit arithmetic wraps |
| `RecoveryIssuance.InnerLoopLeaves` | toolkit/cmd/hip30-recovery-issuance/main.go:264-297 | over fitting headers the inner loop is left if and only if its group does not end at the top of the 64-bit range, where its counter wraps to 0 |
| `RecoveryIssuance.TopRangeNeverEnds` | toolkit/cmd/hip30-recovery-issuance/main.go:248-297 | an accepted range that ends at the top has its last group there, and after any number of turns the inner loop over it is still going |
| `RecoveryIssuance.Scan` | toolkit/cmd/hip30-recovery-issuance/main.go:205-321 | for every range ending below the top, the nested loops finish without any wrap exactly when all headers fit, and have 64 x groups = headers, total = headers + included links, issuance = total x 35 x 10^17 |
| `RecoveryIssuance.CollectSettles` | toolkit/cmd/hip30-recovery-issuance/main.go:282-294 | every header keeps encoded = filtered + included, and included = the sum over the shards |
| `RecoveryIssuance.CollectCounts` | toolkit/cmd/hip30-recovery-issuance/main.go:278-294 | of every shard's crosslinks those counted for it are all in the headers, for shard 0 those in headers whose epoch is below 2964 or above 64 bits; filtered are the shard 0 links of the other headers |
| `RecoveryIssuance.WindowPays` | toolkit/cmd/hip30-recovery-issuance/main.go:248-321 | what a finished scan publishes: total = headers + encoded links - shard 0 links refused, issuance = total x 35 x 10^17, and the per-shard counts |
| `RecoveryIssuance.FittingHeaders` | toolkit/cmd/hip30-recovery-issuance/main.go:255-277 | all groups fit exactly when every header has its own number and shard 0 and every group's last header has an epoch from 1673 on that fits 64 bits |
| `RecoveryIssuance.WindowsAdd` | toolkit/cmd/hip30-recovery-issuance/main.go:248-321 | adjacent windows that meet on a group add up, in every figure, to the joined window |
| `StateDiff.Diff` | toolkit/cmd/historical-state-diff/main.go:162-245 | positive and negative are what the rows gain and lose, and their difference is net and that of the supplies; the three counts are the numbers of rows of each kind, and created - deleted is the difference of the account counts; there is exactly one row for every account the forward iterator lists and every account that is gone, hence for every account that differs, and it states the true change |
| `NonIssuance.AuditGoesThrough` | toolkit/scripts/addresses/build-non-issuance-audit.py:284-379 | over claims that bound the inputs, the rows and the summary that the builder writes pass the recheck and the final guard cannot fire |
| `NonIssuance.NeverMoreThanClaims` | toolkit/scripts/addresses/build-non-issuance-audit.py:203-234 | however the lists overlap, no address loses more than its claim and all together lose no more than all claims |
| `NonIssuance.BuilderPasses` | toolkit/scripts/addresses/build-revert-leak-retention.py:157-186 | what the builder writes the audit's recheck accepts, on the same inventories |
| `NonIssuance.Withhold` | toolkit/scripts/addresses/build-revert-leak-retention.py:157-186 | one row, in address order, for every credited address of which something is withheld: the credit, but no more than what earlier lists left of the claim |
| `NonIssuance.RowsExact` | toolkit/scripts/addresses/build-revert-leak-retention.py:157-186 | an address has a row if and only if it is credited and its claim is above what was withheld before; the row withholds its whole credit, or exactly up to the claim where that comes first |
| `NonIssuance.LoadLeaks` | toolkit/scripts/addresses/build-revert-leak-retention.py:97-119 | credits are the amounts of the leak receipts, each identity counted once; every credit is positive and together they are the counted amounts |
| `NonIssuance.CreditIsLeaked` | toolkit/scripts/addresses/build-revert-leak-retention.py:97-119 | every credit is the sum of its own address's leak receipts, those that repeat the identity of an earlier leak left out |
| `NonIssuance.BuildRetention` | toolkit/scripts/addresses/build-revert-leak-retention.py:144-220 | the builder succeeds exactly when no counted leak receipt is worth nothing or less; its rows follow the rule and its summary states their number and sum |
| `NonIssuance.CreditsAddUp` | toolkit/scripts/addresses/build-revert-leak-retention.py:97-194 | all credits together are the amounts of the counted leak receipts |
| `NonIssuance.LoadPrior` | toolkit/scripts/addresses/build-revert-leak-retention.py:122-128 | amounts are added up by address |
| `NonIssuance.AddedUpAt` | toolkit/scripts/addresses/build-revert-leak-retention.py:122-128 | the amount of an address is the sum of its own entries |
| `NonIssuance.ExistingAddedUp` | toolkit/scripts/addresses/build-revert-leak-retention.py:122-152 | on an inventory without repeated addresses, adding up by address gives each row's amount |
| `NonIssuance.LoadExisting` | toolkit/scripts/addresses/build-non-issuance-audit.py:120-138 | the inventories load exactly when no address repeats and no amount is outside its recorded claim |
| `NonIssuance.ExistingAccepted` | toolkit/scripts/addresses/build-non-issuance-audit.py:120-138 | the first condition without recursion: each amount between 0 and its claim, addresses pairwise different |
| `NonIssuance.LoadRetained` | toolkit/scripts/addresses/build-non-issuance-audit.py:141-200 | the retained balances load exactly when no address repeats, every cap follows from its inputs, no balance changed and all are at one block |
| `NonIssuance.RetainedAccepted` | toolkit/scripts/addresses/build-non-issuance-audit.py:141-200 | the second without recursion: each cap the lower of its two balances, both balance columns equal, unchanged, at the block, addresses pairwise different |
| `NonIssuance.LoadRevertLeak` | toolkit/scripts/addresses/build-non-issuance-audit.py:203-234 | the recheck accepts exactly rows with distinct addresses that follow the rule on the inventories and whose digest, number and sum are those of a passed summary |
| `NonIssuance.RecheckPasses` | toolkit/scripts/addresses/build-non-issuance-audit.py:203-234 | the recheck without recursion: each row takes its credit or exactly what both inventories leave of its claim, whichever is less, and addresses are pairwise different |
| `StagePolicy.Reconcile` | toolkit/scripts/verify/migration-policy-reconciliation.py:275-527 | the reconciliation passes exactly when every row fits and the tally, with the totals of every group of reviewed contracts, agrees with the summaries |
| `StagePolicy.AcceptedTable` | toolkit/scripts/verify/migration-policy-reconciliation.py:275-396 | the row loop accepts exactly tables in which every row fits and no address repeats |
| `StagePolicy.IssuedRows` | toolkit/scripts/verify/migration-policy-reconciliation.py:275-396 | a row that fits is issued, and staged, exactly when it has an allocation; a wallet that the incident deductions take below 1000 ONE is deferred; all amounts are non-negative and close |
| `StagePolicy.RowsCounted` | toolkit/scripts/verify/migration-policy-reconciliation.py:275-351 | row, stage, issued and not-issued counts are the numbers of such rows |
| `StagePolicy.InitialCounted` | toolkit/scripts/verify/migration-policy-reconciliation.py:353-396 | automatic, manual and validator counts are the numbers of initial rows so routed or classified |
| `StagePolicy.BelowCounted` | toolkit/scripts/verify/migration-policy-reconciliation.py:353-396 | the below-threshold count and amount are those of the wallets with an allocation that the incident deductions take below 1000 ONE |
| `StagePolicy.ColumnSums` | toolkit/scripts/verify/migration-policy-reconciliation.py:275-351 | each of the ten amount columns of the tally is the sum of that column |
| `StagePolicy.GroupColumns` | toolkit/scripts/verify/migration-policy-reconciliation.py:397-418 | the seven totals of a contract group are the number and the column sums of its genuine contracts |
| `StagePolicy.AcceptedRowsClose` | toolkit/scripts/verify/migration-policy-reconciliation.py:300-351 | over accepted rows the stage sums add up to the whole allocation, issued rows to the stage rows, and the five deductions close in aggregate |
| `StagePolicy.InitialExactly` | toolkit/scripts/verify/migration-policy-reconciliation.py:353-396 | of an accepted table exactly those rows are `initial` that are positive wallet rows of the two wallet stages, meet the threshold after deductions and are active in the window |
| `StagePolicy.InitialIsQualified` | toolkit/scripts/verify/migration-policy-reconciliation.py:300-396 | the initial stage holds exactly the allocations of the wallets that qualify, and the deferred wallets hold those of the rest |
| `StagePolicy.ReconciledCloses` | toolkit/scripts/verify/migration-policy-reconciliation.py:471-527 | when it passes, the gross snapshot is exactly non-issuance, retained backing, contract amounts and the three published buckets; the first two are the sums of the accepted rows, the first of the wallets that qualify, and every group with a genuine contract is published with the sums of its rows |
| `CreationSearch.Search` | toolkit/scripts/cutoff/verify-created-accounts.py:126-143 | for every account absent at the old block and present at the new one the search returns a block where it is present and just before which it is absent, without assuming that it stays; rounds are bounded by the bits of the range, for any number of accounts |
| `CreationSearch.Round` | toolkit/scripts/cutoff/verify-created-accounts.py:132-158 | a round narrows every open account on its own answer and no other |
| `CreationSearch.CreatedIsFirst` | toolkit/scripts/cutoff/verify-created-accounts.py:126-158 | an account that never goes away was created at the block found and nowhere before |
| `Binary.BitsBound` | toolkit/scripts/cutoff/verify-created-accounts.py:132-158 | the bits of a width are its logarithm |

## Left out

- TokenEvents.RangeLedger.Apply: the three event counters are unbounded here and 64-bit in the program; 2^64 logs would be needed to tell them apart. The same holds for the query, group, row and crosslink counters elsewhere.
- ScanOutcome.ScanIsReplay: a worker's whole fetch is one step, so the single queries of different workers do not interleave; they share only two counters, which are added to. Progress output is not modelled, nor is a context cancelled from outside, which the program never passes.
- LogFetch.FetchExact: retries inside one query, and what a query error was, are not modelled; a query either answers with exactly the logs of its range or fails.
- Bech32.DecodersAgree: lower case is decided for ASCII letters only, and the `0x` and absent-value branches of `decode_address` are not part of the texts compared.
- ValueEdges.WalkSettles: as in the program, call types other than SELFDESTRUCT are not told apart; a CALLCODE frame with a value counts as a payment to its target, although on the chain it moves none there.
- TraceVerdict.ResolvedAgrees: assumes, as `main` arranges, that a directly debited transaction is not traced; a replay verdict beside a direct one never occurs.
- ReceiptAudit.Audit: transaction and receipt look-ups, and the hash comparisons on them, are taken as facts about each row; evidence files are taken as already loaded into a map with one entry for each key.
- CrossShard.SumReceipts: the RLP decoder is a parameter; that only `0xc0` decodes to an empty list is not assumed, so an oddly encoded empty group counts as spent here as it would there. Transaction hashes and secure keys copied into the published groups are not modelled.
- SnapshotRefinement.SnapshotExact: the index is assumed healthy, that is without failing reads. For databases that are not complete, and for a destination without a cutoff, which `main` never passes, only `SnapshotRefinement.SnapshotStandsIn` and `SnapshotRefinement.IndexAnswers` speak.
- CxSnapshot.BatchWriter.Put: the size of a batch is the length of the values put into it; library versions that also count keys flush earlier, which changes nothing that is proved. Failing writes are not modelled.
- Ledger.Merge: keys and addresses are numbers, so letter case is already gone; key order is the order of equally long hexadecimal texts. Which error is reported first is not stated.
- Staking.Accumulator.AddAll: only state-root discovery mode; the validator-list mode and the listed/not-listed counters are left out.
- StateDiff.Diff: preimage look-ups and account decoding are left out, and the iterators list keys in any order.
- NonIssuance.Withhold: incident labels, evidence files and per-incident statistics are left out; the comparison of the retained totals with their separate summary file is an equality test and left out too.
- StagePolicy.Reconcile: the hash comparisons of the input files are left out, and a treatment that no row has is counted as zero.
- RecoveryIssuance.Scan: requires an end below 2^64 - 1; at that end the program's inner loop does not terminate, as `RecoveryIssuance.InnerLoopLeaves` shows. Header decoding and the digest of header hashes are left out.
- CreationSearch.Search: the RPC batches are one answer for each account and block; the evidence search after it is left out.
- Command lines, files, CSV and JSON text, progress printing, network access and clocks are left out throughout.
- Single-pass counters and straight look-ups (`cx-replay-scan`, `outgoing-cx-scan`, `account-snapshot`, `cx-lookup`, `block-reward-accumulator`, the staking-target audits) are left out: they have no property of their own beyond the counting or looking up that they do. The positive-balance filter of `account-snapshot` appears as `ClaimTotals.LiquidRows`.
- Scripts that only compare or add a few published numbers (`historical-closure.py`, `reconstruct-cutoff-formula.py`, `verify-reconciliation.py`, `historical-shard1-balance.py`, `undelegation-mint-reconcile.py`) are left out: what they check is the arithmetic of those numbers.
