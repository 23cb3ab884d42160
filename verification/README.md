# Verified models of UAC Spoofer Desktop

This project models the parts of UAC Spoofer Desktop whose correctness is not visible from one function body
and proves what their documentation, comments and tests promise. `dafny verify dfyconfig.toml` checks all of it.

| files | what they model |
|---|---|
| `Bytes`, `Permute`, `TlsRecords`, `ClientHello`, `ExtensionNames`, `ExtensionRewrite`, `GenePlan`, `GenePlanLaws` | `gene_ops.py`: records, the ClientHello reader and printer, the extension rewrite, the send plan |
| `TlsTools` | `tls_tools.py`: the tolerant name locator and the fragment strategies |
| `ProxyJournal`, `ProxyMachine`, `ProxyTexts`, `WindowsProxy` | `engine.py`: the write-ahead log over three registry entries; processes that race and die |
| `TunLease`, `TunEngine` | `engine.py`: who owns the TUN |
| `MssClamp`, `ForwardPath` | `gateway.py`: the TCP option walk and the DNS rewriting table |
| `DeviceTable`, `DeviceManager` | `gateway.py`: the device table under interleaved threads |
| `GatewayLifecycle` | `gateway.py`: start, stop, recover and the watchdogs around one state file |
| `DnsNames` | `device_names.py`: wire names and PTR answers |
| `LogRows` | `logfmt.py`: the collapsed, sectioned log view |

Loops of the source are methods with loops, proved against a specification function; objects are classes whose
methods state their whole new state; the laws are lemmas about those functions. Python exceptions are `Err`,
`None` or a false result. Where a promise does not hold of the code the code is kept, a lemma gives an input
on which it fails, and a lemma states when it does hold.

## What was found

- Live mode promises to keep the TLS session valid. It re-records only the bytes the ClientHello declares: bytes
  after the hello in the same handshake stream are dropped (`TrailingByteDropped`). The stream is the same exactly
  when nothing is re-recorded or the stream is one hello (`LiveTranscriptSameIff`).
- The extension rewrite is the promised permutation exactly when neither padding nor pre_shared_key is doubled
  (`RewritePromise`): a second padding entry survives, and of several pre_shared_key entries only the last does.
- The two shuffles agree exactly when the seed is not zero modulo 2^32, or there is nothing to move (`SeedingsAgree`).
- The two record strategies keep the stream exactly when the input is one record (`RecordStrategiesKeepStreamIff`).
  On a one-byte payload their second record is empty, which section 5.1 of RFC 8446 forbids (`EmptySecondRecordIff`).
- A `TcpFrag` op given as an object with size 0 shifts all later delays (`ObjectOpShiftsDelays`): a piece has the
  size and the delay of the same op exactly when no size up to its own is zero or less (`DelaysFollowTheirOps`). Ops
  given as dictionaries always meet that (`DictsStayAligned`).
- `WindowsProxy.disable` restores from memory when the file is gone. Two recoveries that race can so lose the
  user's proxy switch (`RacingRecoveriesLoseProxy`). Every other step is journaled, and this one is exactly when a
  file exists, nothing is remembered, or the switch is 0 already (`DisableGuardExact`). Nothing but the switch can
  be lost (`OnlySwitchLost`), and no run at all turns a torn proxy on (`NeverTorn`).
- A TUN lease by anyone but the gateway starts the TUN and never stops it (`ForeignLeaseLeaks`): such a lease is
  harmless exactly when the user wants the TUN anyway (`FirstLeaseExact`); `StepExact` says of every call when the
  TUN goes on following the user.
- An acquisition cancelled while the TUN was already running leaves the system proxy off (`FailedAcquireUndone`).
- Device stamps are read before the lock, so an older sighting can overwrite a newer one and a refresh can drop a
  device seen within the time to live (`LateWriterDropsDevice`). `RefreshExact` says what survives in every case,
  `RefreshFateExact` when that is right; nothing too old is ever kept (`RefreshKeepsNoneOlder`).
- `GatewayManager.recover(force=True)` without a token, made by another process between a start's write and its
  apply, leaves the changed settings without a file; at any other moment it does no harm (`ForeignRecoverExact`).
  Nothing in the program does this; `ForcedRecoverUncovers` is such a run.
- A DNS name of 64 labels can be encoded and not read back (`NameRoundTrip`).

## Model

| member | source | states |
|---|---|---|
| Permute.ShuffleInPlace | uac_desktop/gene_ops.py:88-107 | the in-place swap loop computes the specified arrangement |
| Permute.PermutedIndices | uac_desktop/gene_ops.py:88-97 | the returned list is the specified permutation, also for n <= 0 |
| Permute.PermuteIsPermutation | uac_desktop/gene_ops.py:88-97 | for every n and seed: each of 0..n-1 exactly once |
| Permute.ShuffleKeepsElements | uac_desktop/gene_ops.py:100-107 | shuffling keeps the multiset, for every generator state |
| Permute.ShuffleIsIndexing | uac_desktop/gene_ops.py:88-107 | shuffling a list is indexing it through shuffled positions |
| Permute.SeedingsAgree | uac_desktop/gene_ops.py:88-107 | the two functions agree on distinct names if and only if the seed is non-zero modulo 2^32 or there is at most one element |
| Permute.PermutedUndone | uac_desktop/gene_ops.py:88-97 | who knows the seed can undo the permutation |
| TlsRecords.UnwrapRecords | uac_desktop/gene_ops.py:119-138 | the cursor loop is the record-by-record reading, errors included |
| TlsRecords.WrapRecords | uac_desktop/gene_ops.py:184-199 | the loops frame exactly the specified chunks, or refuse one over 65535 bytes |
| TlsRecords.WrapUnwraps | uac_desktop/gene_ops.py:119-199 | unwrapping a wrapped non-empty handshake gives back its bytes and version; wrapping fails if and only if a chunk does not fit its length field |
| TlsRecords.NoEmptyRecord | uac_desktop/gene_ops.py:184-199 | no emitted record is empty, the payloads join to the input, only the first record has the given version |
| TlsRecords.SplitPieces | uac_desktop/gene_ops.py:254-266 | the split loop computes the specified pieces |
| TlsRecords.SplitConserves | uac_desktop/gene_ops.py:254-266 | the pieces join to the data, and none is empty unless the data is |
| ClientHello.ParseClientHello | uac_desktop/gene_ops.py:141-175 | the reader's loops compute the specified parse or its error |
| ClientHello.LocateExtensions | uac_desktop/gene_ops.py:149-158 | the prefix cursor splits the body at the extensions |
| ClientHello.ReadExtensions | uac_desktop/gene_ops.py:159-175 | the extension cursor reads them all, or fails as specified, and takes the host name of the last server_name entry |
| ClientHello.BuildUndoesParse | uac_desktop/gene_ops.py:141-181 | printing a parsed hello with its own extensions gives the handshake bytes up to the declared length |
| ClientHello.ParseUndoesBuild | uac_desktop/gene_ops.py:141-199 | parsing a wrapped print of a well-formed prefix and fitting extensions gives both back, and the version |
| ClientHello.ParsedIsBuildable | uac_desktop/gene_ops.py:141-181 | whatever the reader accepts can be printed again |
| ClientHello.BlobOfParsed | uac_desktop/gene_ops.py:159-181 | printing the extensions of any accepted block gives the block |
| ExtensionNames.TwinNamesDiffer | uac_desktop/gene_ops.py:209-220 | the name of a repeated extension is never taken by another |
| ExtensionNames.ExtNamesSound | uac_desktop/gene_ops.py:216-236 | names read back to their types, only type 21 is named padding and nothing is named grease |
| ExtensionRewrite.RewriteExtensions | uac_desktop/gene_ops.py:202-240 | the loops over names and bodies compute the specified rewrite |
| ExtensionRewrite.CollectNames | uac_desktop/gene_ops.py:209-220 | names are unique and stand, position by position, for the extensions read |
| ExtensionRewrite.NoGreaseName | uac_desktop/gene_ops.py:221-230 | the guard on the name grease never fires and every name has a body |
| ExtensionRewrite.MiddleContents | uac_desktop/gene_ops.py:221-237 | for every seed, each kept extension appears once with its body, the first padding entry replaced by the requested padding |
| ExtensionRewrite.RewritePromise | uac_desktop/gene_ops.py:202-240 | GREASE first when added, pre_shared_key last and only there; the whole is the promised multiset if and only if neither padding nor pre_shared_key is doubled |
| ExtensionRewrite.RewriteKeepsOrder | uac_desktop/gene_ops.py:202-240 | without a shuffle the survivors keep their order |
| ExtensionRewrite.DoubledPaddingSurvives | uac_desktop/gene_ops.py:212-233 | two padding entries, none requested: one is left |
| GenePlan.GatherOps | uac_desktop/gene_ops.py:277-299 | the loop over ops collects the specified settings |
| GenePlan.ShapeHello | uac_desktop/gene_ops.py:302-324 | parse, rewrite, wrap and the sanity parse, in live and strict mode, as specified |
| GenePlan.DifferenceLoop | uac_desktop/gene_ops.py:331-336 | the loop turns cut positions into piece sizes |
| GenePlan.TimeLoop | uac_desktop/gene_ops.py:343-347 | each piece gets its delay |
| GenePlan.ReorderLoop | uac_desktop/gene_ops.py:348-350 | the pieces are sent in the permuted order, the last without delay |
| GenePlan.MakePlan | uac_desktop/gene_ops.py:269-352 | the plan is the specified one for every input, op list and mode |
| GenePlanLaws.LiveTranscriptPreserved | uac_desktop/gene_ops.py:9-16 | live mode, every input and op list: the pieces spell out the wire, which is the input or re-records exactly the declared hello in non-empty records |
| GenePlanLaws.LiveWireIs | uac_desktop/gene_ops.py:302-324 | live mode: the wire is the input unless a test on the input says that it is re-recorded |
| GenePlanLaws.LiveTranscriptSameIff | uac_desktop/gene_ops.py:9-16 | the peer reassembles the same stream if and only if nothing is re-recorded, a test on the input and the op list, or the stream is exactly one hello |
| GenePlanLaws.RerecordsExact | uac_desktop/gene_ops.py:307-319 | live mode re-records if and only if a record cut is asked for, the hello can be read and its chunks fit their length fields |
| GenePlanLaws.TrailingByteDropped | uac_desktop/gene_ops.py:307-319 | a byte after the hello is lost by a record cut |
| GenePlanLaws.TransformedWireReads | uac_desktop/gene_ops.py:307-316 | in both modes a transformed wire reads back as the same prefix with exactly the rewritten extensions, under the mode's record version |
| GenePlanLaws.HelloConserved | uac_desktop/gene_ops.py:343-347 | in every mode the hello pieces join to the wire and there is at least one |
| GenePlanLaws.CutsLand | uac_desktop/gene_ops.py:326-343 | in every mode, when the host name the reader took stands in the wire, every accepted cut offset is a boundary of the pieces the plan sends, junk dropped and reordering undone |
| GenePlanLaws.DifferencesTelescope | uac_desktop/gene_ops.py:331-336 | the sizes add up to each cut position |
| GenePlanLaws.DelaysMatchPieces | uac_desktop/gene_ops.py:343-352 | as many delays as pieces, and none after the last |
| GenePlanLaws.DelaysFollowTheirOps | uac_desktop/gene_ops.py:337-347 | in every plan that does not reorder, the m-th fragment piece has the m-th positive tcp_frag size and the m-th tcp_frag delay; both are of the same op if and only if no size up to there is zero or less |
| GenePlanLaws.CutPiecesCarryNoDelay | uac_desktop/gene_ops.py:337-347 | pieces cut for the host name have the size of their cut and no delay |
| GenePlanLaws.ReorderMovesDelays | uac_desktop/gene_ops.py:348-350 | a plan that reorders sends each piece of the hello with its own delay, except the last |
| GenePlanLaws.DictsStayAligned | uac_desktop/gene_ops.py:57-85 | ops given as dictionaries always meet that condition |
| GenePlanLaws.ObjectOpShiftsDelays | uac_desktop/gene_ops.py:289-291 | an op object of size 0 moves another op's delay |
| GenePlanLaws.KindsAccounted | uac_desktop/gene_ops.py:270-323 | each kind given ends in exactly one of applied and skipped, without repeats |
| GenePlanLaws.ReorderUndone | uac_desktop/gene_ops.py:348-351 | strict mode: dropping the junk and undoing the permutation gives the wire |
| TlsTools.FindRange | uac_desktop/tls_tools.py:8-44 | the tolerant walk computes the specified range, in bounds on every input |
| TlsTools.ParsersAgree | uac_desktop/tls_tools.py:8-44 | on a one-record hello with one server_name that starts with a whole host name, the located bytes are the name the strict reader takes |
| TlsTools.FragmentsConserve | uac_desktop/tls_tools.py:87-122 | every strategy that keeps the records delivers exactly the input |
| TlsTools.PrimitiveConserves | uac_desktop/tls_tools.py:71-79 | the op-driven strategy never fails and sends no empty piece of a non-empty input; it sends the input itself unless the plan re-records it, a test on the input, and then the same hello in other records |
| TlsTools.RecordStrategiesKeepStreamIff | uac_desktop/tls_tools.py:55-122 | the record strategies deliver the bytes after the first header; they succeed with the same stream if and only if the input is one record |
| TlsTools.RecordStrategiesFail | uac_desktop/tls_tools.py:55-122 | they fail if and only if one of the two parts exceeds its length field, never on one record |
| TlsTools.EmptySecondRecordIff | uac_desktop/tls_tools.py:55-122 | the two records hold the payload in order; the first is never empty and the second is if and only if the payload is one byte |
| TlsTools.SniSplitBreaksName | uac_desktop/tls_tools.py:87-122 | a located name of two bytes or more is cut inside |
| TlsTools.SecondRecordStartsWithName | uac_desktop/tls_tools.py:87-122 | the second record starts at the first byte of the located name |
| TlsTools.PermuteIndicesCopy | uac_desktop/tls_tools.py:59-68 | the second copy of the permutation computes the same list |
| ProxyJournal.SnapshotReads | uac_desktop/engine.py:424-501 | a saved snapshot reads back as its owner and exactly the three entries |
| ProxyJournal.RestoreFromFile | uac_desktop/engine.py:685-751 | restoring from the file is safe at every single write and ends with the user's entries and no file |
| ProxyJournal.AppWritesSafe | uac_desktop/engine.py:595-605 | with a file, each of the app's writes in this order is safe |
| ProxyJournal.EnableSafe | uac_desktop/engine.py:642-675 | enabling, first recovering a stale snapshot, is safe at every write |
| ProxyJournal.DisableSafeIff | uac_desktop/engine.py:577-593 | a restore is safe at every write if and only if it is not from memory alone or the switch is 0 already |
| ProxyJournal.TraceSafe | uac_desktop/engine.py:376-382 | a safe job passes through safe states only |
| ProxyMachine.StepKeepsInv | uac_desktop/engine.py:571-780 | every guarded step of every process, raise and death included, keeps the invariant |
| ProxyMachine.EveryInstantSafe | uac_desktop/engine.py:376-382 | at every instant of every run whose disable calls respect the guard: no file means the user's registry, a file holds the user's values |
| ProxyTexts.NeverTorn | uac_desktop/engine.py:596-605 | in every run, with no guard, at every single write: a proxy that is on has both texts from the user or both from one call |
| ProxyTexts.OnlySwitchLost | uac_desktop/engine.py:685-751 | in every run, races included, the two texts are the user's when no file is there, and a file restores them; only the switch can be lost |
| ProxyTexts.StepKeeps | uac_desktop/engine.py:571-780 | every step of every process keeps the invariant behind the two |
| ProxyMachine.RecoveryCompletes | uac_desktop/engine.py:754-780 | the recovery of a dead owner ends with exactly the user's three entries and no file |
| ProxyMachine.RecoverySurvivesCrashes | uac_desktop/engine.py:685-780 | as runs of the machine: any number of recoveries, each by another process and dead after any of its writes, and then one that gets through end with exactly the user's three entries and no file |
| ProxyMachine.DisableGuardExact | uac_desktop/engine.py:685-751 | a disable call is safe at every write if and only if it respects the guard |
| ProxyMachine.NewerSnapshotUntouched | uac_desktop/engine.py:577-593 | a recovery never restores from a snapshot with another token |
| ProxyMachine.RacingRecoveriesLoseProxy | uac_desktop/engine.py:754-780 | two recoveries that loaded the same file, the later dying midway, lose the user's switch |
| WindowsProxies.WindowsProxy.OwnedPendingState | uac_desktop/engine.py:577-593 | the snapshot a call may restore from, and what the object then remembers |
| WindowsProxies.WindowsProxy.WriteAppProxyValues | uac_desktop/engine.py:595-605 | the registry passes through exactly the job's states, ProxyServer made from the two ports |
| WindowsProxies.WindowsProxy.DisableLocked | uac_desktop/engine.py:685-751 | the writes are exactly the restore job of the chosen snapshot, after which nothing is remembered |
| WindowsProxies.WindowsProxy.EnableLocked | uac_desktop/engine.py:642-675 | the writes are exactly the enable job, or none and an error; what is remembered is the registry as it was when the snapshot was taken |
| WindowsProxies.WindowsProxy.Enable | uac_desktop/engine.py:571-575 | writes exactly the machine's job, one by one, and ends with the machine's memory; refused, it changes nothing |
| WindowsProxies.WindowsProxy.Resume | uac_desktop/engine.py:607-617 | writes exactly the machine's job, one by one, and ends with the machine's memory; refused, it changes nothing |
| WindowsProxies.WindowsProxy.Suspend | uac_desktop/engine.py:619-628 | writes exactly the machine's job, one by one, and ends with the machine's memory; refused, it changes nothing |
| WindowsProxies.WindowsProxy.SuspendForTun | uac_desktop/engine.py:630-640 | writes exactly the machine's job, one by one, and ends with the machine's memory; refused, it changes nothing |
| WindowsProxies.WindowsProxy.Disable | uac_desktop/engine.py:681-751 | writes exactly the machine's job and forgets, or changes nothing |
| WindowsProxies.WindowsProxy.OpenStale | uac_desktop/engine.py:753-771 | the half outside the lock: an object that remembers what it read, or none |
| WindowsProxies.WindowsProxy.RecoverStale | uac_desktop/engine.py:753-780 | undisturbed, the two halves restore exactly when the file may be recovered and its token still holds |
| TunLease.FlagsOnlyWhileLeased | uac_desktop/engine.py:2354-2424 | in every run the two gateway flags are set only under the gateway's lease |
| TunLease.TunFollowsUser | uac_desktop/engine.py:2252-2424 | in every run whose calls meet their condition, foreign leases and failing stops included, the TUN runs without a gateway lease exactly when the user's last own call enabled it |
| TunLease.StepExact | uac_desktop/engine.py:2205-2424 | call by call, the TUN goes on following the user if and only if the call meets its condition |
| TunLease.OrdinaryRun | uac_desktop/engine.py:2354-2424 | while only the gateway takes leases and sing-box stops when told, every call meets it |
| TunLease.FirstLeaseExact | uac_desktop/engine.py:2354-2424 | a first lease by anyone leaves the TUN with the user if and only if it is the gateway's or the user wants the TUN; released again, if and only if the user wants it or the gateway's stop works |
| TunLease.ReleaseExact | uac_desktop/engine.py:2406-2424 | a release leaves the TUN as the user wants it if and only if it is wanted, or this is the last lease and sing-box stops |
| TunLease.ReleaseUndoesAcquire | uac_desktop/engine.py:2354-2424 | releasing undoes acquiring, for the system proxy if and only if it was not suspended under a running TUN |
| TunLease.FailedAcquireUndone | uac_desktop/engine.py:2376-2400 | a failed acquisition leaves no lease and the TUN as it was, and the system proxy as it was if and only if it was not suspended, or the TUN is down and it resumes |
| TunLease.ForeignLeaseLeaks | uac_desktop/engine.py:2406-2424 | a lease by another name leaves the TUN on |
| TunEngine.Engine.EnableTun | uac_desktop/engine.py:2252-2344 | fields, result and the user's wish are those of the run model; the invariant that the TUN follows the user survives if and only if the call meets its condition (the user's own call; refused at entry, it changes nothing) |
| TunEngine.Engine.DisableTun | uac_desktop/engine.py:2346-2352 | fields, result and the user's wish are those of the run model; the invariant that the TUN follows the user survives if and only if the call meets its condition (the user's own call; refused at entry, it changes nothing) |
| TunEngine.Engine.AcquireTun | uac_desktop/engine.py:2354-2404 | fields, result and the user's wish are those of the run model; the invariant that the TUN follows the user survives if and only if the call meets its condition (success and each failure; refused at entry, it changes nothing) |
| TunEngine.Engine.ReleaseTun | uac_desktop/engine.py:2406-2424 | fields, result and the user's wish are those of the run model; the invariant that the TUN follows the user survives if and only if the call meets its condition (a stop that fails included; refused at entry, it changes nothing) |
| TunEngine.Engine.StopTunLocked | uac_desktop/engine.py:2483-2532 | the fields after the call |
| TunEngine.Engine.StopLocked | uac_desktop/engine.py:3133-3197 | fields, result and the user's wish are those of the run model; the invariant that the TUN follows the user survives if and only if the call meets its condition (the gateway lease and its flags end with the engine, the proxy counts as on while a restore is pending) |
| TunEngine.Engine.EnableSystemProxy | uac_desktop/engine.py:2205-2225 | fields, result and the user's wish are those of the run model; the invariant that the TUN follows the user survives if and only if the call meets its condition (a cancellation after the switch included; refused at entry, it changes nothing) |
| TunEngine.Engine.DisableSystemProxy | uac_desktop/engine.py:2227-2238 | fields, result and the user's wish are those of the run model; the invariant that the TUN follows the user survives if and only if the call meets its condition (also when it raises; refused at entry, it changes nothing) |
| MssClamp.ClampTcpMss | uac_desktop/gateway.py:1189-1216 | the in-place walk terminates and leaves the specified buffer; it reports whether it changed |
| MssClamp.ClampMeaning | uac_desktop/gateway.py:1189-1216 | at most two bytes change, to the smaller of value and bound; the option skeleton stays and a second clamp does nothing |
| ForwardPath.RewriteFollowsHistory | uac_desktop/gateway.py:1137-1258 | with a non-decreasing clock every packet leaves as the history of queries and answers says, and the table follows |
| ForwardPath.TableRefines | uac_desktop/gateway.py:1150-1187 | the lazily expired table answers every lookup like the history, now and later |
| ForwardPath.AnswersConsumeUdp | uac_desktop/gateway.py:1173-1187 | an answer uses up a UDP query and not a TCP flow |
| ForwardPath.QueryOrReply | uac_desktop/gateway.py:1137-1148 | no packet is both |
| ForwardPath.BackwardsClockForgets | uac_desktop/gateway.py:1150-1157 | a packet stamped late expires a query for good |
| ForwardPath.Helper.ProcessPacket | uac_desktop/gateway.py:1218-1274 | table, addresses, buffer and verdict after the call, unreadable packets included |
| ForwardPath.Helper.ExpireDnsFlows | uac_desktop/gateway.py:1150-1157 | exactly the expired entries go |
| ForwardPath.Helper.RememberDns | uac_desktop/gateway.py:1159-1171 | the entry replaces any older one |
| ForwardPath.Helper.OriginalDns | uac_desktop/gateway.py:1173-1187 | the stored address, and whether the entry stays |
| DeviceTable.RecordConsistent | uac_desktop/gateway.py:1827-1893 | recording keeps stamps, names and file in step with the devices |
| DeviceTable.SetNameConsistent | uac_desktop/gateway.py:1895-1934 | naming keeps names on known devices and the file equal to memory |
| DeviceTable.RefreshConsistent | uac_desktop/gateway.py:1936-2001 | after any interleaving the merge leaves one stamp per device, names only on devices, and the file equal to memory |
| DeviceTable.RefreshExact | uac_desktop/gateway.py:1936-2001 | for every interleaving a device survives exactly when the newest of its stamp before, its discovery and its last recorded sighting is within the time to live, and is stamped so |
| DeviceTable.RefreshKeepsNoneOlder | uac_desktop/gateway.py:1936-2001 | no interleaving keeps a device whose last sighting is older than the time to live |
| DeviceTable.RefreshFateExact | uac_desktop/gateway.py:1936-2001 | a device's fate is right if and only if its last sighting is stale, or it was discovered, or its stamp before or its last recorded one is within the time to live |
| DeviceTable.RefreshKeepsTheFresh | uac_desktop/gateway.py:1936-2001 | with stamps in order a device survives exactly when its last sighting is within the time to live, and is stamped so |
| DeviceTable.RefreshMac | uac_desktop/gateway.py:1981-1989 | a device seen again meanwhile has the MAC of its last sighting unless discovery ended later and found it |
| DeviceTable.TableKeepsLastMac | uac_desktop/gateway.py:1865-1871 | in every run the table holds the MAC of the last accepted sighting |
| DeviceTable.LateWriterDropsDevice | uac_desktop/gateway.py:1835-1837 | a stamp read before the lock and written late drops a fresh device |
| DeviceTable.ActivatedConsistent | uac_desktop/gateway.py:1721-1733 | a fresh activation is open and consistent |
| DeviceManager.Manager.Activate | uac_desktop/gateway.py:1721-1733 | all fields and the file when start ends |
| DeviceManager.Manager.RecordDevice | uac_desktop/gateway.py:1827-1893 | all fields and the file after the call, and when it reports a change |
| DeviceManager.Manager.NameDevice | uac_desktop/gateway.py:1910-1932 | all fields and the file after the call |
| DeviceManager.Manager.BeginSection | uac_desktop/gateway.py:1937-1952 | the copies taken under the lock |
| DeviceManager.Manager.MergeSection | uac_desktop/gateway.py:1953-2001 | all fields and the file after the merge, or nothing when the activation ended |
| GatewayLifecycle.StepKeepsInv | uac_desktop/gateway.py:1555-2213 | every step of start, stop, recover, watchdogs and later launches, deaths included, keeps the invariant, except a forced recover from elsewhere between a start's write and its apply |
| GatewayLifecycle.EveryInstantCovered | uac_desktop/gateway.py:1654-1692 | at every instant of every run without such a recover, changed settings are covered by a file with the originals, and start only snapshots originals |
| GatewayLifecycle.RemovedOnlyRestored | uac_desktop/gateway.py:2130-2213 | at every step without exception the file goes away only when the settings are the user's again |
| GatewayLifecycle.RecoverySurvivesFailures | uac_desktop/gateway.py:2182-2213 | any number of torn recoveries and then a full one end with the user's settings and no file |
| GatewayLifecycle.WatchdogSparesLiveRun | uac_desktop/gateway.py:2250-2282 | a watchdog of another run does not touch the live one |
| GatewayLifecycle.ForeignRecoverExact | uac_desktop/gateway.py:2182-2213 | at every stage, a forced recover from elsewhere is followed by covered steps only if and only if no start stands between write and apply or it expects another token |
| GatewayLifecycle.ForcedRecoverUncovers | uac_desktop/gateway.py:1682-1692 | a run from a fresh state in which such a recover leaves changed settings without a file |
| DnsNames.EncodeName | uac_desktop/device_names.py:110-119 | succeeds exactly on names whose labels are ASCII and 1 to 63 long, with their wire form |
| DnsNames.ReadName | uac_desktop/device_names.py:122-148 | terminates on every packet, agrees with the reading that knows no visited places, and goes strictly forward inside the packet |
| DnsNames.LoopNeverEnds | uac_desktop/device_names.py:122-148 | a name that returns to a place it passed never ends, so refusing it loses nothing |
| DnsNames.NameRoundTrip | uac_desktop/device_names.py:110-148 | an encoded name read back from any place in any packet is itself without trailing dots, if and only if it has at most 63 labels |
| DnsNames.EncodingInjective | uac_desktop/device_names.py:110-119 | different names have different wire forms |
| DnsNames.PtrAnswers | uac_desktop/device_names.py:151-184 | the two loops compute the specified answers |
| DnsNames.NamesOfExact | uac_desktop/device_names.py:161-182 | the answers are exactly the non-empty normalized names of the PTR records walked, each once |
| DnsNames.WalkBounded | uac_desktop/device_names.py:161-182 | each record walked takes at least eleven bytes, whatever the header claims |
| LogRows.LogModel.Add | uac_desktop/logfmt.py:263-267 | the latest lines within the limit stay |
| LogRows.LogModel.View | uac_desktop/logfmt.py:285-333 | the loops over rows compute the specified view |
| LogRows.AddAllKeepsLast | uac_desktop/logfmt.py:263-267 | after any run of adds the latest lines are kept, in order |
| LogRows.CollapseConserves | uac_desktop/logfmt.py:286-302 | the counts add up to the visible lines |
| LogRows.CollapseAlternates | uac_desktop/logfmt.py:286-302 | neighbouring rows differ in kind or key |
| LogRows.RowCovers | uac_desktop/logfmt.py:286-302 | each row stands for one stretch of lines, in order, with its first stamp and phase and its latest entry |
| LogRows.FilledPhases | uac_desktop/logfmt.py:307-311 | every row gets a phase: its own, or the one before |
| LogRows.SmoothedKeeps | uac_desktop/logfmt.py:312-325 | smoothing changes phases only, never of connected, drop, key or scan, and never into connected or drop |
| LogRows.NoLoneLeft | uac_desktop/logfmt.py:312-325 | one pass leaves no lone row to smooth |
| LogRows.SmoothingIdempotent | uac_desktop/logfmt.py:312-325 | smoothing a smoothed view changes nothing |
| LogRows.SectionedHolds | uac_desktop/logfmt.py:326-333 | rows stand under a header of their phase, consecutive headers differ, no header is empty, and the rows are unchanged |
| LogRows.ViewConserves | uac_desktop/logfmt.py:285-333 | the whole view is well sectioned and holds the collapsed lines, changed in phase only; untrimmed, the counts add up |

## Left out

- Sockets, TLS libraries, packet capture, PowerShell, process creation and threads: they appear as inputs that say
  how a step went ("it stops", "it raises", "the owner is alive") and as events that interleave.
- Text decoding of bytes that are not ASCII: a host name is compared and printed as bytes, and DNS labels decode byte
  for byte below 128; `decode(..., "replace")` on other bytes is not modelled.
- `ttl` and `checksum_mode` of ops: they are carried along and read by nobody in these files.
- Wall clocks are real numbers; that they do not run backwards is a stated condition where it matters.
- Process identities are numbers that are never used twice; a token is never issued twice.
- JSON text and the temporary file behind an atomic replace: a state file is a value that is replaced in one step.
- A gateway state file that cannot be parsed: `start` overwrites it, and the write-ahead law is stated without it.
- `GatewayManager.stop` and `recover` restore and then remove in one step with several outcomes, death in between
  among them; what two such restores running at the same instant do to each other is not modelled.
- The user changing Windows settings while the gateway or the proxy is active.
- Exceptions raised by a registry write inside the class `WindowsProxy`: a raise between any two writes is an event
  of `ProxyMachine`; the class methods cover the runs without one.
- `WindowsProxy._refresh`, logging, callbacks to the user interface and the `restore_errors` texts.
- sing-box exiting by itself, and `Engine.start` apart from marking the engine as up.
- `ForwardPathHelper.set_devices` during a run: which addresses are clients is fixed in a run's configuration.
- ARP responder, forwarder restarts and TUN retries inside `GatewayManager.start`: they do not touch the settings
  or the file.
- `normalize_device_name`, the log classifier and the search box: their results are inputs (`normalize`, `matches`).
- User interface, configuration builders, network scans and probes.
- LogRows.LogModel.Add: the list of lines only; the summary state and the connected line's extra values, which `add`
  also updates, are not modelled.
- DeviceTable.RefreshKeepsTheFresh: holds with sightings recorded in the order of their stamps; `RefreshExact` and
  `RefreshFateExact` state what happens without that condition.
- TunLease.TunFollowsUser: counts only calls that returned normally as the user's wish.
- ForwardPath.RewriteFollowsHistory: needs a non-decreasing clock, see `BackwardsClockForgets`.
- TlsTools.ParsersAgree: stated for inputs of exactly one record, the only form `locate_sni` reads.
- ExtensionNames.ExtNamesSound: names are strings as in the source; which types have a name of their own is a fixed
  table.
