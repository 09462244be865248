# ProprioSimEnv node model

A Dafny model of one node of the ProprioSimEnv SystemC/TLM-2.0 simulator,
a loosely-timed model of a self-aware ("proprioceptive") computing node.

Sensor environments and interfaces to other nodes (processes B and B')
write single data bytes through interconnect 1 into the memory of the
self-awareness engine (SAE). Each initiator socket of interconnect 1 owns
an equal region of that memory; the interconnect maps addresses into the
region on the forward path and back on the backward path.

The learning model (LM) has two processes:
- C1 reads a data set from the SAE, evaluates it, and writes a one-character
  report (`A` or `F`) into its own report memory;
- C2 sends its result into the self-evaluation engine's (SEE) LM memory.

The monitor reads both report memories through interconnect 2:
- process E1 reads the LM's report;
- process E2 reads the SEE's report.

The g.v.o.c. (goals, values, objectives, constraints) writes a prepared
data block through interconnect 3:
- process A1 writes it into the monitor memory;
- process A2 writes it into the SEE's g.v.o.c. memory.

The SEE (process D) decides, copies its decision into its report memory,
and writes it through interconnect 4 to an action target.

Every memory is the same component. A transaction is checked in this order:
1. byte enables are refused;
2. a streaming width other than the length is refused;
3. the address range is checked;
4. the command is performed.

A successful transaction costs one read or write latency per bus beat. The
owner of a memory writes and reads it directly, without a transaction.

Every process keeps its local time in a quantum keeper. When a
synchronisation happens, the process rewinds its address cursor to 0 and,
where it has one, counts the quantum in a cycle counter. The LM and the SEE
notify the monitor only every `trigger` quanta.

Modules, one per source file plus shared definitions:
- `Tlm`: payload, responses, ids, socket counts, 32/64-bit integers;
- `Quantum`: the quantum keeper;
- `Bookkeeping`: the cursor and cycle-counter updates every process shares;
- `Fabric`: the global selector variables;
- `KeyFunctions`, `MemoryBlock`, `TargetSae`, `Interconnect1` to `Interconnect4`;
- `BridgeLModel`, `BridgeMonitor`, `BridgeSee`;
- `InitiatorGvoc`, `InitiatorSensorenv`, `InitiatorOthernode`;
- `ActionTarget`: the actuator or external-action target behind interconnect 4.

Objects whose fields the source updates are classes; their step methods
model one iteration of a process loop. Each step is specified against the
pure transaction function `MemoryBlock.Transact` and the bookkeeping
functions in `Bookkeeping` and `Quantum`.

## Model

| member | source | states |
|---|---|---|
| Tlm.Truncate32 | memory.cpp:171 | the 32-bit truncation of a 64-bit address keeps values below 2^32 and differs from the input by a multiple of 2^32 |
| Tlm.StatusCode | reporting.h:98-104 | the numeric report codes are multiples of 11 up to 55, and only "unset" is 0 |
| Tlm.StatusCodeInjective | bridge_lmodel.cpp:425 | distinct report statuses have distinct codes, so comparing with 33 tests exactly for "action needed" |
| Quantum.Commit | initiator_sensorenv.cpp:110-118 | setting the local time and synchronising when the quantum is reached leaves local time 0 exactly when the delay reached the quantum |
| Quantum.RunAccumulates | initiator_sensorenv.cpp:100-118 | while no synchronisation happens, the local time is the sum of the delays |
| Quantum.RunSyncsAtQuantum | initiator_sensorenv.cpp:110-118 | an iteration whose delay reaches the quantum synchronises, resetting the local time to 0 |
| Quantum.RunBelowQuantum | initiator_sensorenv.cpp:110-118 | after any run the committed local time stays below the quantum |
| KeyFunctions.Product32 | key_functions.cpp:52-56 | the unsigned product is exact below 2^32 and otherwise congruent modulo 2^32 |
| KeyFunctions.SeeGvocMemsize | key_functions.cpp:52-56 | the SEE's g.v.o.c. memory holds the block length times the blocks per cycle |
| KeyFunctions.SaeMemsize | key_functions.cpp:64-70 | the SAE memory holds data sets per cycle times initiators times the longest data length |
| KeyFunctions.SaeMemsizeSplits | key_functions.cpp:64-70 | without overflow the SAE memory splits evenly among the initiators, each share being data sets per cycle times the data length |
| KeyFunctions.MonitorGvocMemsize | key_functions.cpp:108-112 | the monitor's g.v.o.c. memory holds the block length times the blocks per cycle |
| KeyFunctions.ActuatorMemsize | key_functions.cpp:119-123 | the actuator memory holds the action length times the actions per cycle |
| KeyFunctions.ExtactionMemsize | key_functions.cpp:130-134 | the external-action memory holds the action length times the actions per cycle |
| KeyFunctions.PairedSizesAgree | key_functions.cpp:108-134 | the two g.v.o.c. sizing functions, and the two action sizing functions, compute the same product |
| KeyFunctions.IdentitySizes | key_functions.cpp:73-101 | the LM's SAE and report memories and the SEE's LM and report memories are exactly one data length |
| KeyFunctions.BurstLength | key_functions.cpp:163-164 | the burst length is the least number of bus beats covering the data length |
| KeyFunctions.BurstLengthUnique | key_functions.cpp:163-164 | any beat count that covers the data and needs all its beats is the burst length |
| KeyFunctions.BuildFilename | key_functions.cpp:311-319 | the file name is the prefix, an underscore, then the suffix |
| MemoryBlock.CheckRange | memory.cpp:168-186 | an address range is accepted exactly when it starts inside the memory and ends at or before its end |
| MemoryBlock.Splice | memory.cpp:126-134 | a write stores the block at the address and leaves every other byte unchanged |
| MemoryBlock.Transact | memory.cpp:84-155 | byte enables and mismatched streaming widths are refused with zero delay and no change; otherwise the response is the intended range check (`CheckRange`, not the check as written); a failed check changes neither memory nor data |
| MemoryBlock.ShapeErrorsFirst | memory.cpp:101-112 | a byte-enable error takes precedence over a burst error, and both cost no time |
| MemoryBlock.WriteStores | memory.cpp:124-132 | an in-range write answers OK, stores the payload's bytes at its address and keeps every other byte |
| MemoryBlock.ReadLoads | memory.cpp:136-145 | an in-range read copies the addressed bytes into the payload, answers OK and leaves the memory unchanged |
| MemoryBlock.OnlyWritesChangeMemory | memory.cpp:114-147 | a transaction that changes the memory is an accepted write |
| MemoryBlock.DelayPerBeat | memory.cpp:97-147 | once the shape checks pass, a read or write adds its latency once per bus beat of its length, even when the address is out of range; any other command adds nothing |
| MemoryBlock.WriteThenRead | memory.cpp:124-147 | reading back a range just written returns the bytes written |
| MemoryBlock.TransactionCheckAsWritten | memory.cpp:171-184 | the transaction check as written compares the address truncated to 32 bits, and the end computed modulo 2^32 |
| MemoryBlock.TransactionCheckAgreesWithoutWrap | memory.cpp:171-184 | when neither the address nor its end wraps, the check as written agrees with the intended range check |
| MemoryBlock.TransactionCheckAcceptsOutOfRange | memory.cpp:171-184 | there are out-of-range transactions that the check as written accepts |
| MemoryBlock.OwnerCheckAsWritten | memory.cpp:198-215 | the owner-side check as written accepts exactly when the start is inside the memory and the last byte, computed as start plus length minus 1 modulo 2^32, is at most the size |
| MemoryBlock.OwnerCheckOneBeyond | memory.cpp:198-215 | without wrap-around, the owner-side check accepts exactly the ranges ending at most one byte past the end |
| MemoryBlock.OwnerCheckCounterexamples | memory.cpp:198-215 | a range ending past the end is accepted and an empty range at 0 is refused, unlike the intended check |
| MemoryBlock.OwnerCheckAtMostOneBeyond | memory.cpp:198-215 | whatever the owner-side check accepts beyond the intended one ends exactly one byte past the end |
| MemoryBlock.SelfWriteCursorAsWritten | memory.cpp:249-258 | the byte cursor of the owner's write visits the addresses modulo 256 |
| MemoryBlock.SelfWriteCursorContiguous | memory.cpp:249-258 | while the range stays below 256 the cursor visits consecutive addresses |
| MemoryBlock.SelfWriteCursorWraps | memory.cpp:246-258 | an accepted range past address 255 makes the cursor wrap back to 0 |
| MemoryBlock.SelfWritten | memory.cpp:239-262 | the owner's write stores the first length bytes of the source at consecutive addresses from the address when the intended range check passes, and otherwise changes nothing |
| MemoryBlock.ReadBack | memory.cpp:275-293 | the owner's read copies the addressed bytes into the target's first length bytes when the intended range check passes, and otherwise leaves the target alone |
| MemoryBlock.SelfWriteThenRead | memory.cpp:239-293 | what the owner writes it reads back |
| MemoryBlock.Memory.constructor | memory.cpp:43-66 | a new memory has its id, size, width and latencies, and is all zeroes |
| MemoryBlock.Memory.Operation | memory.cpp:84-155 | a transaction records its initiator and changes memory, payload and delay exactly as `Transact` says, under the intended range check |
| MemoryBlock.Memory.SelfWrite | memory.cpp:239-262 | the memory afterwards is `SelfWritten` of the memory before: the intended range check and consecutive addresses |
| MemoryBlock.Memory.SelfRead | memory.cpp:275-293 | the returned target is `ReadBack` of the memory, under the intended range check |
| Fabric.Globals.constructor | bridge_monitor.cpp:40 | the selectors start at 3, 0, 0 and 0, the LM status unset and the SEE status "action failed", all reachable |
| Fabric.Globals.ReachableInRange | interconnect3.cpp:97 | from reachable selector values, interconnect 3 and the interconnect-1 backward path index existing sockets, interconnect 4 uses output 0, and the monitor selects an existing output or its fallback 3 |
| TargetSae.Decide | target_sae.cpp:106-130 | the LM socket (tag 1) is always served as the LM; interconnect 1 (tag 0) is served except that its reads are refused; every other tag is dropped |
| TargetSae.Serve | target_sae.cpp:106-130 | a refused read answers a command error and a dropped call returns the payload untouched, neither changing memory nor time |
| TargetSae.Ic1NeverReads | target_sae.cpp:114-125 | nothing is ever read out of the SAE through interconnect 1 |
| TargetSae.OnlyGrantedWritesChange | target_sae.cpp:106-130 | only a granted write changes the SAE memory |
| TargetSae.Sae.constructor | target_sae.cpp:59-91 | the SAE has two target sockets and a fresh, zeroed memory |
| TargetSae.Sae.BTransport | target_sae.cpp:106-130 | the memory, payload and delay change as `Serve` says, and a granted call records its initiator |
| TargetSae.Sae.GetDirectMemPtr | target_sae.cpp:141-146 | direct memory access is never granted |
| TargetSae.Sae.NbTransportFw | target_sae.cpp:148-152 | non-blocking calls are accepted |
| TargetSae.Sae.TransportDbg | target_sae.cpp:154-158 | debug transport transfers no bytes |
| TargetSae.SetTargetIdxForInvalidatePtr | target_sae.cpp:161-166 | the backward selector of interconnect 1 becomes 0 and nothing else changes |
| Interconnect1.RegionSize | interconnect1.cpp:197 | the regions of all sockets fit in the SAE memory |
| Interconnect1.MapRoundTrip | interconnect1.cpp:186-204 | reverse mapping after forward mapping restores the (32-bit) address |
| Interconnect1.MapIntoRegion | interconnect1.cpp:197 | a forward-mapped address that lies within a region lands in the socket's own region |
| Interconnect1.RegionsDisjoint | interconnect1.cpp:197 | in-region addresses of different sockets never map to the same SAE address |
| Interconnect1.MappingExample | interconnect1.cpp:173-180 | with 12 bytes and 3 sockets, address 3 maps to 3, 7 and 11 |
| Interconnect1.RegionMatchesSizing | interconnect1.cpp:197 | with the SAE sized by `SaeMemsize`, each socket's region is exactly one cycle's data |
| Interconnect1.Router.Mapped | interconnect1.cpp:186-204 | only the address changes, to the forward or reverse mapping |
| Interconnect1.Router.BTransport | interconnect1.cpp:111-119 | a call from socket `tag` reaches the SAE's interconnect socket with the forward-mapped payload |
| Interconnect1.Router.GetDirectMemPtr | interconnect1.cpp:132-138 | the payload is forward-mapped and access is refused |
| Interconnect1.Router.NbTransportFw | interconnect1.cpp:141-148 | the payload is forward-mapped and the call accepted |
| Interconnect1.Router.TransportDbg | interconnect1.cpp:151-156 | the payload is forward-mapped and no bytes are transferred |
| Interconnect1.Router.NbTransportBw | interconnect1.cpp:92-98 | a backward call goes to the socket named by the global selector, with the address reverse-mapped for that socket |
| Interconnect1.Router.InvalidateDirectMemPtr | interconnect1.cpp:85-89 | an invalidation goes to the socket named by the global selector |
| Interconnect1.Router.BackwardRestoresAddress | interconnect1.cpp:85-98 | with the selector at its only value 0, the backward path restores the address that socket 0 sent |
| Interconnect2.Select | interconnect2.cpp:97-101 | a forward call goes out on the output the monitor selected |
| Interconnect2.BTransport | interconnect2.cpp:97-101 | output 0 reaches the LM report memory on the monitor's behalf and output 1 the SEE report memory through its tag 1, and the memory changes as `Transact` says |
| Interconnect2.GetDirectMemPtr | interconnect2.cpp:116-120 | direct memory access is refused on either output |
| Interconnect2.NbTransportFw | interconnect2.cpp:123-128 | non-blocking calls are accepted on either output |
| Interconnect2.TransportDbg | interconnect2.cpp:131-135 | debug transport transfers no bytes on either output |
| Interconnect2.Backward | interconnect2.cpp:71-83 | backward calls pass unchanged to the single target socket |
| Interconnect3.Select | interconnect3.cpp:94-98 | a forward call goes out on the output the g.v.o.c. selected |
| Interconnect3.BTransport | interconnect3.cpp:94-98 | output 0 reaches the monitor memory on the g.v.o.c.'s behalf and output 1 the SEE's g.v.o.c. memory through its tag 0, as `Transact` says |
| Interconnect3.GetDirectMemPtr | interconnect3.cpp:111-115 | direct memory access is refused on either output |
| Interconnect3.NbTransportFw | interconnect3.cpp:118-123 | non-blocking calls are accepted on either output |
| Interconnect3.TransportDbg | interconnect3.cpp:126-130 | debug transport transfers no bytes on either output |
| Interconnect3.Backward | interconnect3.cpp:69-81 | backward calls pass unchanged to the single target socket |
| Interconnect4.Select | interconnect4.cpp:107-112 | a forward call goes out on the output the SEE selected |
| Interconnect4.Backward | interconnect4.cpp:77-93 | backward calls from any output pass unchanged to the single target socket |
| Interconnect4.BTransport | interconnect4.cpp:107-112 | the selected action target's memory changes as `Transact` says, on the SEE's behalf |
| ActionTarget.Target.BTransport | target_actuator.cpp:91-104 | the target's memory changes as `Transact` says, recording its caller as initiator |
| Bookkeeping.CursorAfter | initiator_sensorenv.cpp:105-116 | a synchronisation rewinds the cursor to 0; otherwise it advances by the data length (modulo 2^64) only when several data sets go out per cycle |
| Bookkeeping.CursorWalks | initiator_gvoc.cpp:117-125 | an advancing cursor that never synchronises is the number of iterations times the data length |
| Bookkeeping.CursorStays | initiator_sensorenv.cpp:105-116 | a cursor that does not advance is always its start or 0 |
| Bookkeeping.CounterAfter | bridge_lmodel.cpp:170-192 | at the trigger count the counter restarts at 0 (1 after a synchronisation); otherwise a synchronisation adds one |
| Bookkeeping.CounterBounded | bridge_lmodel.cpp:170-192 | with a positive trigger, a counter at or below the trigger stays at or below it |
| Bookkeeping.ZeroTriggerNeverFires | bridge_lmodel.cpp:170 | a trigger of 0 never notifies the monitor |
| Bookkeeping.CounterCountsQuanta | bridge_lmodel.cpp:170-192 | with one synchronisation per iteration, the monitor is notified exactly on every trigger-th quantum |
| Bookkeeping.Advance | initiator_gvoc.cpp:117-128 | the new cursor is `CursorAfter` and the new keeper is `Commit` of the iteration's delay |
| BridgeLModel.ReportText | bridge_lmodel.cpp:423-430 | the report is `F` when an action is needed and `A` otherwise, followed by a zero byte |
| BridgeLModel.ReadStatus | bridge_lmodel.cpp:258-296 | the LM's status becomes "read done" exactly when the SAE read answered OK, and "action failed" otherwise |
| BridgeLModel.UnchangedStatusReportsAcceptable | bridge_lmodel.cpp:165-166 | when the evaluation leaves the read status alone, the report is always `A` |
| BridgeLModel.SaeGrantsRead | target_sae.cpp:114-128 | the SAE serves the LM's socket exactly as a transaction on its memory |
| BridgeLModel.LModel.constructor | bridge_lmodel.cpp:67-131 | the report memory is fresh and zeroed, the read buffer zeroed, cursors at 0, counter at 1 |
| BridgeLModel.LModel.TransObj | bridge_lmodel.cpp:306-335 | a transaction to the SAE reads the data-set length, one to the SEE writes the result length, any other keeps the previous command and length |
| BridgeLModel.LModel.SetTargetId | bridge_lmodel.cpp:418-421 | the target id is set and nothing else changes |
| BridgeLModel.LModel.DoReport | bridge_lmodel.cpp:423-430 | the report memory becomes the owner's write of `ReportText` of the status |
| BridgeLModel.LModel.BTransport | bridge_lmodel.cpp:350-355 | the monitor's reads of the report memory are transactions on the monitor's behalf |
| BridgeLModel.LModel.GetDirectMemPtr | bridge_lmodel.cpp:365-369 | direct memory access is never granted |
| BridgeLModel.LModel.NbTransportFw | bridge_lmodel.cpp:371-376 | non-blocking calls are accepted |
| BridgeLModel.LModel.TransportDbg | bridge_lmodel.cpp:378-381 | debug transport transfers no bytes |
| BridgeLModel.LModel.NbTransportBw | bridge_lmodel.cpp:400-405 | backward calls are accepted |
| BridgeLModel.LModel.ExecuteSaeTrans | bridge_lmodel.cpp:258-296 | the SAE serves the read on its LM socket, and the global LM status becomes `ReadStatus` of its response |
| BridgeLModel.LModel.StepC1 | bridge_lmodel.cpp:152-196 | one C1 iteration reads the data set at the cursor, stores the evaluated status, writes its report, moves the cursor, and notifies the monitor only when the counter reaches the trigger |
| BridgeLModel.LModel.ReadAndReport | bridge_lmodel.cpp:158-166 | the read, evaluation and report of C1 |
| BridgeLModel.LModel.CloseCycle | bridge_lmodel.cpp:168-194 | the cursor, counter, event and quantum bookkeeping of C1 |
| BridgeLModel.LModel.ExecuteSeeTrans | bridge_lmodel.cpp:258-296 | the result is written into the SEE's LM memory through its tag 2 |
| BridgeLModel.LModel.StepC2 | bridge_lmodel.cpp:213-247 | one C2 iteration sends the produced result when an action is needed and otherwise the result zeroed over its length, then notifies the SEE |
| BridgeMonitor.TargetIndex | bridge_monitor.cpp:374-395 | the LM selects output 0, the SEE output 1, and any other id 3 |
| BridgeMonitor.UnknownIdSelectsNothing | bridge_monitor.cpp:374-395 | an unknown id selects no output of interconnect 2 |
| BridgeMonitor.ReportReachesMonitor | bridge_monitor.cpp:180-213 | a monitor read at address 0 after the owner's report write returns the report's bytes |
| BridgeMonitor.Monitor.constructor | bridge_monitor.cpp:60-107 | the monitor memory is fresh and zeroed and both keepers start at 0 |
| BridgeMonitor.Monitor.SetTargetId | bridge_monitor.cpp:374-395 | interconnect 2's selector becomes `TargetIndex` of the id and nothing else changes |
| BridgeMonitor.Monitor.TransObj | bridge_monitor.cpp:325-359 | a read at the address whose length is the LM or SEE report length for outputs 0 and 1 |
| BridgeMonitor.Monitor.ExecuteTrans | bridge_monitor.cpp:216-247 | the read goes through interconnect 2 to the selected report memory |
| BridgeMonitor.Monitor.StepLm | bridge_monitor.cpp:180-213 | one E1 iteration reads the LM report at 0, signals the LM, commits its delay to its keeper and clears its buffer |
| BridgeMonitor.Monitor.StepSee | bridge_monitor.cpp:128-160 | one E2 iteration reads the SEE report at 0, commits its delay and clears its buffer |
| BridgeMonitor.Monitor.BTransport | bridge_monitor.cpp:257-261 | the g.v.o.c.'s writes are transactions on the monitor memory on its behalf |
| BridgeMonitor.Monitor.GetDirectMemPtr | bridge_monitor.cpp:272-276 | direct memory access is never granted |
| BridgeMonitor.Monitor.NbTransportFw | bridge_monitor.cpp:279-284 | non-blocking calls are accepted |
| BridgeMonitor.Monitor.TransportDbg | bridge_monitor.cpp:287-290 | debug transport transfers no bytes |
| BridgeMonitor.Monitor.NbTransportBw | bridge_monitor.cpp:310-315 | backward calls are accepted |
| BridgeSee.See.constructor | bridge_see.cpp:55-138 | the three memories are fresh and zeroed, with the latencies given |
| BridgeSee.See.BTransport | bridge_see.cpp:242-270 | tag 2 reaches the LM memory, tag 1 the report memory and tag 0 the g.v.o.c. memory, the tag being the initiator |
| BridgeSee.See.GetDirectMemPtr | bridge_see.cpp:280-285 | direct memory access is never granted |
| BridgeSee.See.NbTransportFw | bridge_see.cpp:287-293 | non-blocking calls are accepted |
| BridgeSee.See.TransportDbg | bridge_see.cpp:295-299 | debug transport transfers no bytes |
| BridgeSee.See.NbTransportBw | bridge_see.cpp:318-323 | backward calls are accepted |
| BridgeSee.See.TransObj | bridge_see.cpp:225-240 | a write of the whole decision at the SEE's fixed address, ignoring the address argument |
| BridgeSee.See.SetTargetIdx | bridge_see.cpp:333-336 | interconnect 4's selector becomes the id as an unsigned 32-bit value; from reachable selectors, the result is reachable exactly when that value is 0 |
| BridgeSee.See.DoReport | bridge_see.cpp:345-348 | the report memory becomes the owner's write of the decision's first report-length bytes, at consecutive addresses under the intended range check |
| BridgeSee.See.ExecuteTrans | bridge_see.cpp:201-216 | the decision goes through interconnect 4 to the selected action target |
| BridgeSee.See.Step | bridge_see.cpp:159-192 | one D iteration reports the decision, writes it to the action target, and signals the monitor only at the trigger count |
| InitiatorGvoc.TargetIndex | initiator_gvoc.cpp:233-240 | the monitor selects output 0, the SEE output 1, any other id leaves the selector |
| InitiatorGvoc.Prepared | initiator_gvoc.cpp:313-318 | the block's first byte becomes 1 and the rest is unchanged |
| InitiatorGvoc.PreparedIdempotent | initiator_gvoc.cpp:313-318 | preparing a block twice is preparing it once |
| InitiatorGvoc.Gvoc.SetTargetIdx | initiator_gvoc.cpp:233-240 | interconnect 3's selector becomes `TargetIndex` of the id and stays reachable |
| InitiatorGvoc.Gvoc.TransObj | initiator_gvoc.cpp:273-299 | a write of the block at the cursor, of the monitor length for output 0 and the SEE length for output 1 |
| InitiatorGvoc.Gvoc.StepMonitor | initiator_gvoc.cpp:99-131 | one A1 iteration writes the prepared block into the monitor memory at the cursor and then moves or rewinds the cursor |
| InitiatorGvoc.Gvoc.StepSee | initiator_gvoc.cpp:148-185 | one A2 iteration writes the prepared block into the SEE's g.v.o.c. memory at the cursor and then moves or rewinds the cursor |
| InitiatorGvoc.Gvoc.NbTransportBw | initiator_gvoc.cpp:258-263 | backward calls are answered as completed |
| InitiatorSensorenv.LastOr | initiator_sensorenv.cpp:216-222 | draining values keeps the last one, or the current one when there are none |
| InitiatorSensorenv.LastOrConcat | initiator_sensorenv.cpp:216-222 | draining in two batches keeps what draining both at once keeps |
| InitiatorSensorenv.FifoTooSmall | initiator_sensorenv.cpp:75-76 | the construction warning fires exactly when the FIFO holds fewer values than one cycle sends |
| InitiatorSensorenv.Sensor.ReadOutFifo | initiator_sensorenv.cpp:216-222 | the held byte becomes the last value available |
| InitiatorSensorenv.Sensor.TransObj | initiator_sensorenv.cpp:184-198 | a write of the data length at the cursor |
| InitiatorSensorenv.Sensor.Step | initiator_sensorenv.cpp:93-121 | one B iteration writes the latest value through interconnect 1 into the SAE, clears it, and moves or rewinds the cursor |
| InitiatorSensorenv.Sensor.NbTransportBw | initiator_sensorenv.cpp:170-175 | backward calls are accepted |
| InitiatorOthernode.SentByte | initiator_othernode.cpp:96-106 | the byte sent is the front of the queue, or the byte already held when the queue is empty |
| InitiatorOthernode.FrontIsSticky | initiator_othernode.cpp:96-106 | once a value has arrived, every later iteration sends that first value |
| InitiatorOthernode.OtherNode.ReadOutFifo | initiator_othernode.cpp:205-211 | every available value is appended to the queue in order |
| InitiatorOthernode.OtherNode.Collect | initiator_othernode.cpp:95-106 | the queue gains the arrivals in order and the byte held becomes the front of the queue, or stays when the queue is empty |
| InitiatorOthernode.OtherNode.TransObj | initiator_othernode.cpp:176-190 | a write of the data length at the cursor |
| InitiatorOthernode.OtherNode.Step | initiator_othernode.cpp:85-127 | one B' iteration queues the arrivals, writes the front byte through interconnect 1 into the SAE, and moves or rewinds the cursor |
| InitiatorOthernode.OtherNode.NbTransportBw | initiator_othernode.cpp:160-166 | backward calls are answered as completed |

## Left out

- Simulated time and SystemC scheduling: `wait`, events and their interleaving are not modelled; a step method models one loop iteration, and the events it notifies are its return value.
- Quantum: the quantum keeper of the TLM library is modelled as a local time and a quantum; its global-time bookkeeping is not part of this model.
- `sc_time` values are natural-number ticks. The floating-point latency formulas of `key_functions.cpp` (`get_sae_wl` and the like) are not modelled; only their burst length is (`KeyFunctions.BurstLength`). For 32-bit operands the double computation gives the exact ceiling.
- Logging and transaction tracing (`trtr::*`, `INFO_LOG`, `ERROR_LOG`), and the files written by `rep_mem_access`, `read_out_file` and `write_in_file`, are left out. Only the file-name construction is modelled.
- The evaluation hooks of `lm_core`, `see_core` and `act_core` are parameters of the step methods: `evaluate`, `produced` and `decision`. In the source their bodies are empty.
- The sensor input FIFO (`senenv_fifo_input`), the top-level wiring (`lt_pnode_top`) and `main` are not part of this model. The values available in a FIFO are a parameter of the step; the bindings fix which memory each interconnect output reaches.
- The SEE's pn thread and the action targets' own processes are not part of this model.
- Aliasing between a payload's data pointer and the initiator's buffer is not modelled. The payload's data is a copy taken when the transaction object is set. A `memset` of the buffer after the call therefore leaves the payload's data alone.
- `gp_option`, `dmi_allowed` and the byte-enable length are not part of the payload; only "byte enables present" is.
- Buffers the source allocates without initialising take their first contents from a constructor parameter. This applies to the LM's result buffer, the monitor's read buffers, the sensor and other-node data bytes, and the SEE decision buffer.
- BridgeMonitor.Monitor.TransObj: for a selector other than 0 or 1 the source leaves the length indeterminate; the model takes it as a parameter.
- BridgeLModel.LModel.constructor: requires a report length of at most 2 and a result length of at most the data-set length. The source would otherwise read past `lm_pos_result`/`lm_neg_result` or write past `lm_res_data`.
- BridgeSee.See.constructor: requires a report length of at most the decision length, since the report copies the decision buffer.
- InitiatorGvoc.Gvoc.constructor: requires the monitor block length and the converted value's size to be at most the SEE block length, which is the size of the shared buffer.
- InitiatorSensorenv.Sensor.constructor: requires a data length of at most 1, since the data is one byte.
- InitiatorOthernode.OtherNode.constructor: requires a data length of at most 1, since the data is one byte.
- BridgeMonitor.Monitor.StepSee: reads its keeper's local time before waiting for the SEE, which the model does not distinguish from after.
- The SEE's output selector for interconnect 4 is never set by the node, so every action write reaches output 0. `set_target_idx` of the SEE is modelled but has no caller.
- The documentation table of the interconnect-1 address mapping (interconnect1.cpp:173-180) lists SAE addresses 6 and 10, but the formula gives 7 and 11. The model follows the formula.
- The backward selector of interconnect 1 is only ever set to 0, so every backward call goes to the first initiator socket.
- MemoryBlock.Transact: follows the intended range check `CheckRange`, not the check as written at memory.cpp:171-182. The two differ for addresses of 2^32 or more and for ranges whose end wraps in 32 bits; there the source accepts and the model answers an address error (first row of "## Findings").
- MemoryBlock.Memory.Operation: inherits the intended range check of `MemoryBlock.Transact`, and differs from the source on the same inputs (addresses of 2^32 or more, ends that wrap in 32 bits).
- MemoryBlock.SelfWritten: follows the intended range check and consecutive addresses, not the owner check of memory.cpp:208 and the one-byte cursor of memory.cpp:249-252. It refuses ranges ending one byte past the end, which the source accepts. It accepts the empty range at address 0, which the source refuses. It keeps writing at consecutive addresses past position 255, where the source wraps to 0.
- MemoryBlock.ReadBack: follows the intended range check, not the owner check of memory.cpp:208. It refuses ranges ending one byte past the end and accepts the empty range at address 0, unlike the source. It also checks the full 64-bit address, where the source checks the address truncated to 32 bits, so the two differ for addresses of 2^32 or more.
- MemoryBlock.Memory.SelfWrite: its loop writes the memory as `MemoryBlock.SelfWritten` says. It therefore differs from the source on the same inputs: ranges ending one byte past the end, the empty range at address 0, and writes past position 255.
- MemoryBlock.Memory.SelfRead: returns `MemoryBlock.ReadBack` of the memory, and differs from the source on the same owner-check inputs.
- BridgeSee.See.DoReport: uses `MemoryBlock.Memory.SelfWrite`, so it stores the whole decision for report lengths above 256. With a 300-byte report, the source writes decision bytes 256..299 over report bytes 0..43 and leaves report bytes 256..299 as they were.
- Bookkeeping.CounterBounded: the counter is only shown to stay bounded for a positive trigger; with trigger 0 it grows by one per quantum, modulo 2^32.

## Findings

| source | as written | input that shows it | evidently intended | confidence | as-written member | corrected member |
|---|---|---|---|---|---|---|
| memory.cpp:171-182 | the transaction's 64-bit address is stored in an `unsigned int`, and the end `address + length` is computed in 32 bits | size 4, address 1, length 0xFFFFFFFF (the end wraps to 0); or address 2^32 with length 1 (it truncates to 0): both accepted | refuse every range not inside the memory | not executed | MemoryBlock.TransactionCheckAcceptsOutOfRange | MemoryBlock.CheckRange |
| memory.cpp:208 | the owner-side check compares `address + length - 1` against the size with `>` | size 4, address 3, length 2 is accepted (one byte past the end); size 4, address 0, length 0 is refused | accept exactly the ranges ending at or before the end of memory | not executed | MemoryBlock.OwnerCheckCounterexamples | MemoryBlock.SelfWritten |
| memory.cpp:249-252 | `self_write` walks the memory with an `sc_dt::uchar` cursor | size 300, address 250, length 10: the seventh byte is written at address 0 | write the bytes at consecutive addresses | not executed | MemoryBlock.SelfWriteCursorWraps | MemoryBlock.Memory.SelfWrite |
