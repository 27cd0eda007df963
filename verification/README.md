# Verified model of LTE base-station scheduling, RRC measurements and IE codecs

A Dafny model of seven parts of this OpenAirInterface fork that keep state or carry a codec, with proofs about
whole runs of them. `dafny verify dfyconfig.toml` checks everything.

| file | part |
|---|---|
| `FepTrace`, `FepHandshake` | the two-thread front end of the base station: mutex, condition variable, instance counter |
| `LteTiming` | frame structure, acknowledgement timing, HARQ process numbers |
| `Harq`, `HarqLedger` | downlink HARQ at the base station: feedback processing, counters, conservation |
| `UeFeedback`, `HarqLink`, `HarqRun` | the terminal's answers, one exchange end to end, whole runs |
| `HarqAccounts` | the accounts of the ledger, in the runs of base station and terminal |
| `RandomAccess` | Msg3: timing tables, retransmission, abandonment, success |
| `RrcObjects`, `Bands`, `MeasTables`, `MeasRequests`, `MeasFrequencies` | RRC measurement objects, tables, the terminal's replica, requests and triggers |
| `SchedulingRequest`, `Mib` | scheduling-request opportunities, the frame number in the master information block |
| `IeCodec` | the encoders and decoders that `asn1tostruct.py` generates, for an arbitrary schema |
| `BitString` | integers from ASN.1 bit strings |
| `Wrappers` | an option type |

## How the system is modelled

- **Time.** Absolute subframes are natural numbers; frame numbers are taken modulo 1024. Tick `t` handles
  reception of subframe `t` and then transmission of `t + 4`, the order of the rx/tx contexts.
- **Threads.** An interleaving of caller and worker, one shared access per step, with explicit wait sets, lost
  and late signals and spurious wake-ups. Taking the mutex blocks.
- **Signal processing** is an arbitrary result: which blocks decode, which antenna count `rx_pbch` answers, what
  a payload buffer still holds. A slot operation of the front end is an arbitrary function on that slot's buffer.
- **Code used through its behaviour.** Format-1 scheduling records the subframe and its process and activates
  a process in round 0; cleaning a terminal's uplink state clears its identity, rounds and flags; the MAC either
  keeps Msg3 or not; `em_has_trigger` is a parameter; ASN.1 encoding of one value is a parameter with an inverse.
- **State changed in place** is a class whose methods are proved against functions on values; runs and
  invariants are about those functions. The tree of triggers is the sequence of its in-order traversal.
- **Widths.** Bytes and words of the master information block are bit-vectors; the 8-bit round counter of Msg3,
  the 8-bit PUCCH resource, the 16-bit presence mask and C `int` shifts are written out. Counters of
  statistics are unbounded.
- **Frequencies** are integers in tenths of MHz. Enumerated RRC values are their positions in TS 36.331.

## What the code does not do

The code was followed where it departs from its evident intent; each point below is a lemma.

- The records of a downlink transmission last six subframes: the entry is rewritten by transmission of `t + 10`
  in tick `t + 6`. Feedback at distance 7 (configuration 3: subframe 5 answered in 2; configuration 1: 5 in 2
  and 0 in 7) is judged against the next frame's grant, which is not on the air yet
  (`HarqRun.EntryMatchesIff`). So with multiplexing in configuration 3, PUCCH reception is safe in subframes 3
  and 4 and unsafe in subframe 2 exactly under `HarqRun.CountsCollide` (`RunSafeIff`, `RunSubframe2SafeIff`,
  `EarlyAcknowledgement`). The conditions with bundling and in configuration 1 are `RunSubframe2BundledIff` and
  `RunTdd1SafeIff`; there the base station also listens on the resource of the grant not yet on the air.
- Multiplexed PUCCH feedback without a scheduling request is decoded and then overwritten by a negative
  acknowledgement: no run of configuration 3 with such feedback ever credits a block
  (`HarqAccounts.MultiplexedRunsOnlyFail`). Had it been used, a lone first block would come out inverted
  (`Table10RoundTripIff`).
- Bundling with a request sends an OR; bundling in configuration 1 inverts the bit in subframes 2 and 7
  (`HarqLink.Misread`).
- PUSCH feedback does not say which grants it is about. A missed grant shifts the bits of configuration 3 to
  another block (`PuschMisreadsMissedGrant`); `RunPuschIff` and `RunSubframe2PuschIff` say exactly when that
  acknowledges a block that was not decoded. With bundling the bit on PUSCH is not the AND of the outcomes but the
  first of them (`RunBundledPuschIff`).
- In FDD, whether PUSCH carries a feedback bit (`O_ACK`) is set by the terminal from the downlink eight subframes
  earlier, while the base station expects one for the downlink four earlier. Where none is sent, it reads one all
  the same (`HarqRun.BelievedIffOutcome`, `FreshPuschIffOutcome`, `UnsentBitFreesFailedBlock`). Where one is sent
  for a missed grant, it is the last bit of that subframe (`OldAckFreesMissedBlock`; in configuration 1
  `RunTdd1PuschIff`).
- The window of the rate adaptation is compared for equality after a verdict: once the count of transmissions has
  passed it between two verdicts, the window is not closed again and the offset never rises (`HarqLedger.RunsAdapt`).
- The terminal cuts the PUCCH resource to eight bits (`UeFeedback.TerminalUsesMonitoredResource`).
- `get_Msg3_harq_pid` has no case for configuration 1, subframe 4 (`RandomAccess.Msg3PidAgreesIff`). A limit
  maxHARQ_Msg3Tx of 0, which the configuration check accepts, means 256 attempts (`RandomAccess.Tries`). An
  abandoned slot ends in NOT_SYNCHED, since removal clears the mode PRACH set just before; a Msg3 that the MAC
  drops still ends in mode PUSCH.
- An addition writes its measurement before it can still fail (`MeasTables.FailedAddLeavesTrace`,
  `MeasFrequencies.FailedRequestDoublesFrequency`); trigger scans do not look at the terminal
  (`MeasFrequencies.ForeignNumberOverwrites`, `OtherTerminalMovesMeasurement`). `RequestKeepsGoodIff` and
  `StaysGoodIff` say exactly which requests and runs are spared.
- A request without cells leaves the terminal's old cells in place (`RrcObjects.CellsReplacedIff`); for event A3
  the presence of reportOnLeave stands for its value; defaults filled into a request never reach the message,
  since only present fields are copied (`RrcObjects.ConfigRoundTrip`).
- A stored configuration is reused for a request whose threshold is of the other kind, and then loses its own
  (`MeasRequests.OtherKindReplacesThreshold`); bands 66 and 70 have more carriers than bandwidth
  (`Bands.FrequencyInsideIff`).
- `BIT_STRING_to_uint64` shifts an `int` (`BitString.Uint64ExactIff`).

## Model

| member | source | states |
|---|---|---|
| FepTrace.FepFull | openair1/SCHED/phy_procedures_lte_eNb.c:2670-2696 | the sequential front end executes exactly the operations of `SequentialOps` on the two slots |
| FepTrace.SlotwiseEqualTracesCommute | openair1/SCHED/phy_procedures_lte_eNb.c:2530-2548 | two traces that agree slot by slot leave the same buffers, whatever the slot operations compute |
| FepTrace.ProjectSequential | openair1/SCHED/phy_procedures_lte_eNb.c:2670-2696 | the sequential order restricted to one slot is that slot's own order of fep0 |
| FepHandshake.StepKeepsControl | openair1/PHY/defs.h:883-943 | every step of either thread keeps mutual exclusion, the counter in {-1, 0}, and a signal on its way for every waiter whose condition holds |
| FepHandshake.HandshakeSafe | openair1/PHY/defs.h:883-943 | in every schedule: counter in {-1, 0}, the busy exit unreachable, never both threads waiting, never both in the critical section, and some thread can always run without a spurious wake-up |
| FepHandshake.TwoThreadsRefineSequential | openair1/SCHED/phy_procedures_lte_eNb.c:2624-2666 | whenever no call is in progress, the buffers equal those of the sequential front end called for the same subframes in order; each slot exactly once per call |
| FepHandshake.StepKeepsInv | openair1/SCHED/phy_procedures_lte_eNb.c:2554-2572 | every step keeps: what happened to a slot is the sequential run of the returned calls plus the current progress |
| FepHandshake.CallReturnsWithinBound | openair1/SCHED/phy_procedures_lte_eNb.c:2624-2666 | a call cannot stay inside for more than a linear number of thread steps, up to the spurious wake-ups |
| LteTiming.HarqPidFollowsTime | openair1/SCHED/phy_procedures_lte_eNb.c:241-253 | both process-number formulas equal absolute time modulo 8, across the frame-number wrap |
| Harq.EnbUe.constructor | openair1/PHY/LTE_TRANSPORT/dlsch_coding.c:138-149 | the initial record: nothing sent, no process on record |
| Harq.EnbUe.OnNak | openair1/SCHED/phy_procedures_lte_eNb.c:1654-1692 | a negative verdict counts in its round and moves the process on, or gives the block up after the last round |
| Harq.EnbUe.OnAck | openair1/SCHED/phy_procedures_lte_eNb.c:1693-1717 | a positive verdict counts in its round, credits the block size and frees the process |
| Harq.AdaptMeaning | openair1/SCHED/phy_procedures_lte_eNb.c:1719-1750 | when the rate offset rises, when it falls and by how much, and that nothing else but a closed window's counters changes |
| Harq.EnbUe.JudgeSubframe | openair1/SCHED/phy_procedures_lte_eNb.c:1640-1756 | a verdict takes effect exactly on the active process on record |
| Harq.EnbUe.Decode | openair1/SCHED/phy_procedures_lte_eNb.c:1504-1600 | the decoded bits, and the number of acknowledgements sent with a request |
| Harq.DecodedMatchesVerdict | openair1/SCHED/phy_procedures_lte_eNb.c:1504-1637 | no bit is ever read before it is written, and the bit read is the verdict |
| Harq.EnbUe.CountAllocated | openair1/SCHED/phy_procedures_lte_eNb.c:1601-1616 | the number of recorded grants among the acknowledged subframes |
| Harq.EnbUe.JudgeEntry | openair1/SCHED/phy_procedures_lte_eNb.c:1618-1756 | one acknowledged subframe: judged by its verdict if something was sent in it, untouched otherwise |
| Harq.EnbUe.ProcessFeedback | openair1/SCHED/phy_procedures_lte_eNb.c:1482-1756 | one reception equals the verdicts of its acknowledged subframes in order |
| Harq.Judge | openair1/SCHED/phy_procedures_lte_eNb.c:1640-1756 | inactive processes are in round 0, active ones below the limit, in every state |
| Harq.EnbUe.Transmit | openair1/SCHED/phy_procedures_lte_eNb.c:1219-1223 | a transmission clears the old record and writes its own; only round 0 activates the process |
| Harq.EnbUe.ReceiveSr | openair1/SCHED/phy_procedures_lte_eNb.c:2344-2347 | only the first scheduling request clears process 0 |
| HarqLedger.JudgeRow | openair1/SCHED/phy_procedures_lte_eNb.c:1654-1717 | a verdict changes the counters of the process it reaches and of no other |
| HarqLedger.RunsBalance | openair1/SCHED/phy_procedures_lte_eNb.c:1654-1717 | conservation in every run: rejections of a round are accounted for in the next, layer-2 errors are those of the last round, the byte total is the sum of the sizes of the acknowledged blocks |
| HarqLedger.EveryBlockAccounted | openair1/SCHED/phy_procedures_lte_eNb.c:1654-1717 | every started block is acknowledged, reported in error, dropped by the first request, replaced in round 0, or still held, at most one per process |
| HarqLedger.StaysActiveIff | openair1/SCHED/phy_procedures_lte_eNb.c:1654-1717 | in every run a process is active exactly while its block, not dropped, has had fewer than Mlimit verdicts, all negative; their number is the round |
| HarqLedger.WindowCounts | openair1/SCHED/phy_procedures_lte_eNb.c:1668-1750 | in every run the error counter of the rate adaptation is the number of rejections in round 0, of all processes, since a window was last closed, and the sliding counter that of the transmissions since then |
| HarqLedger.OffsetStaysNeutral | openair1/SCHED/phy_procedures_lte_eNb.c:1719-1750 | in every run the rate offset is 0 until the first window is full or the errors exceed the threshold |
| HarqLedger.RunsAdapt | openair1/SCHED/phy_procedures_lte_eNb.c:1719-1750 | in every run the rate offset stays in {-1, 0, 1}, and once the window was passed it never rises again |
| HarqLedger.SilentRunsOnlyFail | openair1/SCHED/phy_procedures_lte_eNb.c:1632-1717 | without bundling, request and PUSCH no run credits a block: each is replaced, reported in error or still being repeated |
| HarqAccounts.RunHasAccounts | openair1/SCHED/phy_procedures_lte_eNb.c:1482-1756 | every run of base station and terminal is a run of the ledger |
| HarqAccounts.RunAccounted | openair1/SCHED/phy_procedures_lte_eNb.c:1654-1717 | so no block is lost in it, and every block leaves its process within Mlimit verdicts |
| HarqAccounts.MultiplexedRunsOnlyFail | openair1/SCHED/phy_procedures_lte_eNb.c:1632-1637 | configuration 3, multiplexing on PUCCH, no request: whatever the terminal decodes, acknowledgement counters and byte total stay 0 and blocks end in layer-2 errors |
| UeFeedback.NpTablesFollowFormula | openair1/SCHED/phy_procedures_lte_common.c:419-424 | the six tables are the formula of section 10.1 of TS 36.213 |
| UeFeedback.ResourcesBijective | openair1/SCHED/phy_procedures_lte_common.c:426-467 | for any increasing breakpoints, resources of the two subframes never collide and fill the whole space |
| UeFeedback.TerminalUsesMonitoredResource | openair1/SCHED/phy_procedures_lte_ue.c:399-538 | the terminal's resource is the one the base station monitors; on the air exactly when it is below 256 |
| HarqLink.FddPucchExact | openair1/SCHED/phy_procedures_lte_common.c:323-345 | FDD: the verdict is the terminal's own outcome |
| HarqLink.PucchSafeIff | openair1/SCHED/phy_procedures_lte_ue.c:399-544 | PUCCH feedback in all modes is safe exactly outside the listed misreadings |
| HarqLink.MultiplexedWithRequestCounts | openair1/SCHED/phy_procedures_lte_eNb.c:1601-1637 | with a request, everything is acknowledged exactly when decoded blocks and recorded grants are equally many |
| HarqLink.Table10RoundTripIff | openair1/SCHED/phy_procedures_lte_ue.c:528-544 | the terminal's multiplexing code matches the base station's table exactly when the second grant was detected |
| HarqLink.SingleBitRoundTrip | openair1/SCHED/phy_procedures_lte_eNb.c:1580-1600 | configuration 1, subframes 3 and 8: the decoded bit is the terminal's outcome |
| HarqLink.PuschExactWhenAllSeen | openair1/SCHED/phy_procedures_lte_eNb.c:1530-1545 | configuration 3 on PUSCH: each verdict is the terminal's outcome when no grant was missed |
| HarqLink.PuschVerdictIff | openair1/SCHED/phy_procedures_lte_common.c:370-417 | which packed bit each verdict reads, for every pattern of missed grants |
| HarqLink.PuschMisreadsMissedGrant | openair1/SCHED/phy_procedures_lte_eNb.c:1530-1545 | a missed grant makes PUSCH feedback count for the wrong block |
| HarqRun.RunExists | openair1/PHY/defs.h:189-216 | every environment has its run |
| HarqRun.TablesAtReception | openair1/SCHED/phy_procedures_lte_eNb.c:1219-1223 | which transmission each entry of both tables stands for, in every state of every run |
| HarqRun.AcknowledgesAssociationSet | openair1/SCHED/phy_procedures_lte_common.c:231-320 | the acknowledged subframes are the downlink association sets of table 10.1-1 in TS 36.213, in order |
| HarqRun.DistanceTable | openair1/SCHED/phy_procedures_lte_common.c:231-320 | distances between transmission and acknowledgement, and where they are 7 |
| HarqRun.EntryMatchesIff | openair1/SCHED/phy_procedures_lte_eNb.c:1618-1640 | the base station's entry is about the acknowledged transmission exactly at distance at most 6 |
| HarqRun.RecordKept | openair1/SCHED/phy_procedures_lte_eNb.c:1219-1223 | in every run and mode the process of a transmission stays on record until the next subframe that acknowledges its entry |
| HarqRun.RecordAtReception | openair1/SCHED/phy_procedures_lte_eNb.c:1618-1640 | when an entry is judged, the process on record is the one granted in the subframe the entry stands for |
| HarqRun.FddReceptionSettles | openair1/SCHED/phy_procedures_lte_eNb.c:1504-1640 | FDD, on PUCCH and on PUSCH with or without a feedback bit: reception of t settles exactly the transmission of t - 4, and nothing if there was none |
| HarqRun.FddRecordsKept | openair1/SCHED/phy_procedures_lte_eNb.c:1219-1223 | FDD: every transmission not yet settled is on record under its own process |
| HarqRun.FddFollowsReference | openair1/SCHED/phy_procedures_lte_eNb.c:1504-1717 | FDD: in every run, on any channel, each process is a stop-and-wait sender, settled once per transmission before it is reused; only the first scheduling request interferes, with process 0 |
| HarqRun.BelievedIffOutcome | openair1/PHY/LTE_TRANSPORT/ulsch_coding.c:632-660 | FDD: a transmission is settled by its own outcome exactly unless PUSCH carries an earlier acknowledgement for a missed grant, or carries no bit and is read as the opposite |
| HarqRun.FreshPuschIffOutcome | openair1/PHY/LTE_TRANSPORT/dci_tools.c:6937-6944 | the same on a freshly granted PUSCH, where a bit is carried exactly if the downlink eight subframes earlier was seen |
| HarqRun.FddIsStopAndWait | openair1/SCHED/phy_procedures_lte_eNb.c:1504-1717 | so in every run without those cases every transmission is settled by the terminal's own outcome |
| HarqRun.OldAckFreesMissedBlock | openair1/SCHED/phy_procedures_lte_common.c:334-342 | a run of the first case: the process of a block the terminal never saw is freed |
| HarqRun.UnsentBitFreesFailedBlock | openair1/PHY/LTE_TRANSPORT/ulsch_decoding.c:1467-1475 | a run of the second case in which the terminal sees every grant: the process of a failed block is freed |
| HarqRun.RunSafeIff | openair1/SCHED/phy_procedures_lte_eNb.c:1504-1637 | in every run, where records last, PUCCH reception acknowledges only what the terminal decoded, exactly outside the misreadings |
| HarqRun.CreditIsDeserved | openair1/SCHED/phy_procedures_lte_eNb.c:1693-1717 | after a safe reception, in every mode, a process credited with an acknowledgement is the one granted in a subframe four to six earlier, and the terminal decoded that block |
| HarqRun.RunPuschIff | openair1/SCHED/phy_procedures_lte_eNb.c:1530-1545 | configuration 3 with multiplexing on PUSCH, subframes 3 and 4, in every run: which packed bit each verdict is, and the exact condition for safety, whatever was missed |
| HarqRun.RunPuschExact | openair1/SCHED/phy_procedures_lte_eNb.c:1530-1545 | in particular verdicts are outcomes when all grants were seen |
| HarqRun.RunSubframe2SafeIff | openair1/SCHED/phy_procedures_lte_eNb.c:1601-1637 | configuration 3 with multiplexing, subframe 2: the exact condition under which an acknowledgement is wrong |
| HarqRun.RunSubframe2PuschIff | openair1/SCHED/phy_procedures_lte_eNb.c:1530-1545 | the same exact condition on PUSCH |
| HarqRun.RunSubframe2BundledIff | openair1/SCHED/phy_procedures_lte_eNb.c:2300-2325 | configuration 3 with bundling on PUCCH, subframe 2: the exact condition in every run |
| HarqRun.RunTdd1SafeIff | openair1/SCHED/phy_procedures_lte_ue.c:421-467 | configuration 1 on PUCCH, subframes 2 and 7, both modes: the exact condition in every run |
| HarqRun.RunBundledPuschIff | openair1/SCHED/phy_procedures_lte_eNb.c:1530-1545 | configuration 3 with bundling on PUSCH, in every run: one bit, the first packed one, counts for both subframes; the exact condition for safety |
| HarqRun.RunTdd1PuschIff | openair1/SCHED/phy_procedures_lte_common.c:346-369 | configuration 1 on PUSCH, both modes, in every run: safe exactly unless an earlier acknowledgement stands for a missed grant, or, at distance 7, any stands while a grant is on record |
| HarqRun.EarlyAcknowledgement | openair1/SCHED/phy_procedures_lte_eNb.c:1601-1637 | a run in which a block is acknowledged before it is sent |
| RandomAccess.Msg3IsEarliest | openair1/SCHED/phy_procedures_lte_common.c:41-110 | the first Msg3 is in the earliest uplink subframe at distance at least 6, as section 6.1.1 of TS 36.213 demands |
| RandomAccess.Msg3PidAgreesIff | openair1/SCHED/phy_procedures_lte_common.c:144-229 | the prepared process is the one received, except configuration 1 with a response in subframe 4 |
| RandomAccess.RetransmissionKeepsProcess | openair1/SCHED/phy_procedures_lte_common.c:112-142 | a retransmission is one period later on the same process, across the wrap |
| RandomAccess.Slot.constructor | openair1/SCHED/phy_procedures_lte_eNb.c:133-170 | a free slot is clean |
| RandomAccess.Slot.SendRar | openair1/SCHED/phy_procedures_lte_eNb.c:936-986 | the slot after a random access response |
| RandomAccess.Slot.ProcessMsg3 | openair1/SCHED/phy_procedures_lte_eNb.c:1447-1474 | reception is scheduled exactly in the allocated frame and subframe |
| RandomAccess.Slot.RemoveUe | openair1/SCHED/phy_procedures_lte_eNb.c:172-205 | removal clears identity, rounds, flags and mode |
| RandomAccess.Slot.UlschFailed | openair1/SCHED/phy_procedures_lte_eNb.c:3004-3069 | a failed decoding: next attempt, or removal at the limit |
| RandomAccess.Slot.UlschPassed | openair1/SCHED/phy_procedures_lte_eNb.c:3164-3223 | a decoded Msg3 ends in mode PUSCH, the identity kept or not |
| RandomAccess.Slot.ReceiveUplink | openair1/SCHED/phy_procedures_lte_eNb.c:2787-3070 | one uplink subframe for the slot |
| RandomAccess.SlotStaysClean | openair1/PHY/LTE_TRANSPORT/ulsch_decoding.c:167-188 | free slots have no round counted, so every response starts at round 0 |
| RandomAccess.OrdinaryRounds | openair1/SCHED/phy_procedures_lte_eNb.c:3073-3099 | outside Msg3 the round of a process is the number of failures since the last success or given-up block: below Mlimit, back to 0 after exactly Mlimit failures; nothing else changes |
| RandomAccess.RunFollowsReference | openair1/SCHED/phy_procedures_lte_eNb.c:3004-3069 | in every run the slot is in the phase of a plain list of attempts |
| RandomAccess.RandomAccessResolves | openair1/SCHED/phy_procedures_lte_eNb.c:3004-3197 | by the last attempt the slot has left RA_RESPONSE: PUSCH exactly if some attempt decoded, otherwise freed |
| RandomAccess.WaitsWhileAttemptsFail | openair1/SCHED/phy_procedures_lte_eNb.c:3004-3069 | before that, it waits exactly as long as all attempts failed |
| RrcObjects.BuildCells | emage_tech_oai/emoai_rrc_measurements.c:1541-1606 | the lists of one object: remove 1 to 32, then the requested cells in order with defaults |
| RrcObjects.BuildObject | emage_tech_oai/emoai_rrc_measurements.c:1515-1606 | the object of a reconfiguration message |
| RrcObjects.FormCells | emage_tech_oai/emoai_config.c:344-383 | the reported cells |
| RrcObjects.FormObject | emage_tech_oai/emoai_config.c:331-386 | the reported object |
| RrcObjects.ObjectRoundTrip | emage_tech_oai/emoai_config.c:331-386 | reporting a built object returns the request with defaults written out; unchanged exactly when nothing was left out |
| RrcObjects.ConfigRoundTrip | emage_tech_oai/emoai_config.c:388-586 | reporting a built configuration returns the common fields, and the trigger exactly when thresholds are set |
| RrcObjects.CgiRequestIff | emage_tech_oai/emoai_rrc_measurements.c:1633-1648 | only a CGI request names a cell, the first one, and only it asks for system information, if the terminal can |
| RrcObjects.BuiltFields | emage_tech_oai/emoai_rrc_measurements.c:1625-1800 | every requested field has its own place in the message, and every event its own form |
| RrcObjects.CellsReplacedIff | emage_tech_oai/emoai_rrc_measurements.c:1541-1570 | the terminal ends with exactly the requested cells if and only if some were requested or it had none |
| Bands.FindBand | emage_tech_oai/emoai_rrc_measurements.c:562-582 | the first band that holds the carrier number, both ends excluded |
| Bands.FoundIff | emage_tech_oai/emoai_rrc_measurements.c:562-582 | a carrier is found exactly when it lies strictly inside a band, so the ends of every band are lost |
| Bands.CarrierRaster | emage_tech_oai/emoai_rrc_measurements.c:546-562 | carriers of one band are 0.1 MHz apart and counted from its lowest frequency, so they never share a frequency |
| Bands.SharedFrequencyIff | emage_tech_oai/emoai_rrc_measurements.c:590-634 | when carriers of two bands share a frequency, which the comparison refuses |
| Bands.FrequencyInsideIff | emage_tech_oai/emoai_rrc_measurements.c:83-174 | every carrier's frequency is inside its band, exactly except the carriers of bands 66 and 70 beyond the bandwidth the code gives them |
| Bands.TablesDisjoint | emage_tech_oai/emoai_rrc_measurements.c:66-174 | no carrier number is in a TDD and an FDD band |
| MeasTables.UeContext.constructor | openair2/RRC/LITE/defs.h:312-318 | empty tables of seven slots each |
| MeasTables.UeContext.CountUsers | emage_tech_oai/emoai_rrc_measurements.c:1462-1475 | the scan finds a user exactly if there is one |
| MeasTables.UeContext.Remove | emage_tech_oai/emoai_rrc_measurements.c:1439-1502 | removal of a measurement, and of object and configuration that nobody else uses |
| MeasTables.UeContext.Add | emage_tech_oai/emoai_rrc_measurements.c:1503-1803 | addition, with what an error leaves behind |
| MeasTables.AdditionReachesTerminal | emage_tech_oai/emoai_rrc_measurements.c:1503-1803 | an addition gives the terminal the measurement, carrier, bandwidth, cells and report configuration asked for, and changes nothing under other numbers |
| MeasTables.RemoveKeepsIntegrity | emage_tech_oai/emoai_rrc_measurements.c:1439-1502 | removal leaves no dangling reference and no orphan |
| MeasTables.AddKeepsIntegrityIff | emage_tech_oai/emoai_rrc_measurements.c:1503-1803 | addition in a free slot keeps integrity exactly when nothing it did not write is missing |
| MeasTables.CascadeOnlyTakesRemoved | emage_tech_oai/emoai_rrc_measurements.c:1476-1502 | the terminal's cascade never deletes a measurement that is kept |
| MeasTables.StepSyncIff | emage_tech_oai/emoai_rrc_measurements.c:1439-1803 | one operation keeps base station and terminal equal exactly unless it is an addition whose object is not E-UTRA or whose configuration has no trigger |
| MeasTables.ReplicaEqualsTables | emage_tech_oai/emoai_rrc_measurements.c:1397-1889 | after any sequence without such additions the tables are sound and the terminal's replica, by section 5.5.2 of TS 36.331, equals them |
| MeasTables.FailedAddLeavesTrace | emage_tech_oai/emoai_rrc_measurements.c:1509-1757 | a failed addition that breaks both |
| MeasRequests.ObjectFitsIff | emage_tech_oai/emoai_rrc_measurements.c:690-776 | an object is accepted exactly when its carrier keeps half the bandwidth from both ends of a supported band and its lists have at most 32 cells |
| MeasRequests.ConfFitsIff | emage_tech_oai/emoai_rrc_measurements.c:982-1072 | which configurations are accepted with the bands of the code; a periodic request depends on inter-frequency support alone |
| MeasRequests.ValidateObject | emage_tech_oai/emoai_rrc_measurements.c:679-799 | refused, new, or the number of the first trigger's object on the carrier |
| MeasRequests.SameConfBuildsSame | emage_tech_oai/emoai_rrc_measurements.c:801-980 | for alike triggers and all fields present the comparison is equality of what is built, up to fields that are compared but not built |
| MeasRequests.SameConfIff | emage_tech_oai/emoai_rrc_measurements.c:801-980 | a stored configuration is taken for the requested one exactly when writing the request over it, defaults filled in, changes nothing, thresholds of another kind aside |
| MeasRequests.ReuseKeepsConfigIff | emage_tech_oai/emoai_rrc_measurements.c:801-980 | a request with all common fields that is taken for a stored one is built as that one exactly if threshold kinds and the naming of reportOnLeave agree |
| MeasRequests.OtherKindReplacesThreshold | emage_tech_oai/emoai_rrc_measurements.c:850-871 | an RSRP threshold taken for a stored RSRQ threshold |
| MeasRequests.ScanConfMeaning | emage_tech_oai/emoai_rrc_measurements.c:1073-1107 | the scan answers the number of the first such trigger |
| MeasRequests.ValidateConf | emage_tech_oai/emoai_rrc_measurements.c:982-1112 | refused, new, or the number of the first equal configuration |
| MeasRequests.FirstFree | emage_tech_oai/emoai_rrc_measurements.c:1226-1285 | the number of the first free slot, all before it taken; 0 exactly when none is free |
| MeasRequests.FindFree | emage_tech_oai/emoai_rrc_measurements.c:1226-1285 | the loop finds it |
| MeasRequests.AssignInRange | emage_tech_oai/emoai_rrc_measurements.c:1197-1285 | numbers given out index the tables, and the measurement slot is free |
| MeasRequests.AcceptedIff | emage_tech_oai/emoai_rrc_measurements.c:1197-1285 | the exact condition under which a request gets its numbers |
| MeasRequests.UpdateMeaning | emage_tech_oai/emoai_rrc_measurements.c:1114-1163 | only the first trigger with the number changes, in bandwidth and cells, and keeps its carrier |
| MeasRequests.TouchedIff | emage_tech_oai/emoai_rrc_measurements.c:1197-1285 | which requests update a trigger, also refused ones |
| MeasRequests.Agent.UpdateObject | emage_tech_oai/emoai_rrc_measurements.c:1114-1163 | the first trigger with the number takes the new bandwidth and cells |
| MeasRequests.Agent.AssignNumbers | emage_tech_oai/emoai_rrc_measurements.c:1197-1285 | validation and choice of numbers |
| MeasRequests.Agent.Measurements | emage_tech_oai/emoai_rrc_measurements.c:1165-1340 | one request; success means a slot that was free is now taken |
| MeasRequests.Agent.ReportArrives | emage_tech_oai/emoai_rrc_measurements.c:262-296 | one report: removal when no trigger is registered |
| MeasFrequencies.InsertMembers | emage_tech_oai/emoai_rrc_measurements.c:197-207 | insertion keeps the order; an equal transaction is ignored |
| MeasFrequencies.ScanMeaning | emage_tech_oai/emoai_rrc_measurements.c:778-795 | what the scan answers, in terms of physical frequencies |
| MeasFrequencies.GoodIsDistinct | emage_tech_oai/emoai_rrc_measurements.c:590-634 | the invariant puts objects on distinct frequencies |
| MeasFrequencies.RequestKeepsGoodIff | emage_tech_oai/emoai_rrc_measurements.c:1165-1340 | for any number of terminals, a request keeps the invariant exactly when refused, or with a trigger, a new transaction and a number that is well placed among its own terminal's triggers |
| MeasFrequencies.OwnFirstPlaces | emage_tech_oai/emoai_rrc_measurements.c:778-795 | the number is well placed whenever the scan meets no other terminal's trigger |
| MeasFrequencies.ReportKeepsGood | emage_tech_oai/emoai_rrc_measurements.c:262-296 | a report always keeps it |
| MeasFrequencies.StaysGoodIff | emage_tech_oai/emoai_rrc_measurements.c:1165-1340 | a run of any number of terminals keeps the invariant throughout exactly when every request meets that condition |
| MeasFrequencies.FrequenciesStayDistinct | emage_tech_oai/emoai_rrc_measurements.c:546-634 | in every run with triggers and distinct transactions, in which different terminals ask for different frequencies, no two objects of a terminal share a physical frequency |
| MeasFrequencies.OneTerminalStaysDistinct | emage_tech_oai/emoai_rrc_measurements.c:546-634 | with one terminal nothing is asked of the frequencies |
| MeasFrequencies.FailedRequestDoublesFrequency | emage_tech_oai/emoai_rrc_measurements.c:1509-1757 | two requests after which they do |
| MeasFrequencies.ForeignNumberOverwrites | emage_tech_oai/emoai_rrc_measurements.c:778-795 | if the scan meets another terminal's trigger, its number overwrites this terminal's object on another carrier, the measurements keep pointing to it, and the invariant is lost |
| MeasFrequencies.OtherTerminalMovesMeasurement | emage_tech_oai/emoai_rrc_measurements.c:778-795 | a request that moves an existing measurement to another carrier |
| SchedulingRequest.OpportunityIff | openair1/SCHED/phy_procedures_lte_ue.c:351-378 | both sides agree, exactly at one residue of absolute time |
| SchedulingRequest.OnePerWindow | openair1/SCHED/phy_procedures_lte_eNb.c:103-131 | every window of one period has exactly one opportunity, across the wrap |
| Mib.Broadcast.constructor | openair1/SCHED/phy_procedures_lte_eNb.c:510-574 | a three-byte buffer |
| Mib.Broadcast.PackThirdByte | openair1/SCHED/phy_procedures_lte_eNb.c:511-569 | masking field after field puts them side by side |
| Mib.Broadcast.PrepareMib | openair1/SCHED/phy_procedures_lte_eNb.c:510-574 | the block is rewritten only every fourth frame |
| Mib.FieldsDisjoint | openair1/SCHED/phy_procedures_lte_eNb.c:511-569 | bandwidth, PHICH and frame bits do not overlap and are read back |
| Mib.StandardLayout | openair1/SCHED/phy_procedures_lte_eNb.c:510-569 | the enumerations in the order of TS 36.331, bits 9 to 2 of the frame number in place, nothing in the spare bits |
| Mib.ConfigRoundTrip | openair1/PHY/LTE_TRANSPORT/initial_sync.c:168-226 | the terminal reads the configuration; an unknown bandwidth becomes 25 |
| Mib.FrameRoundTrip | openair1/SCHED/phy_procedures_lte_ue.c:1720-1722 | block and phase give back the frame number |
| Mib.BlockOnAir | openair1/SCHED/phy_procedures_lte_eNb.c:510-574 | the block on the air is always that of the last multiple of four |
| Mib.FindFrame | openair1/SCHED/phy_procedures_lte_ue.c:1668-1767 | the four-trial search and the adjustment of the counter |
| Mib.FrameNumberRecovered | openair1/SCHED/phy_procedures_lte_ue.c:1668-1767 | in every run, from any counter, the frame number is found within four trials and the upper bits are kept |
| IeCodec.EncodeItems | cmake_targets/tools/asn1tostruct.py:541-564 | the generated list encoder |
| IeCodec.Encode | cmake_targets/tools/asn1tostruct.py:486-529 | the generated message encoder, with presence bits numbered in order |
| IeCodec.EncodedInOrder | cmake_targets/tools/asn1tostruct.py:486-529 | one IE for every present schema entry and no other, in schema order, with its id and criticality |
| IeCodec.PresentFromMeaning | cmake_targets/tools/asn1tostruct.py:486-529 | the entries sent are the mandatory ones and those marked in the mask, each once, in schema order |
| IeCodec.EncodedTyped | cmake_targets/tools/asn1tostruct.py:486-529 | every IE holds its field under the type of its schema entry |
| IeCodec.EncodedItemsInOrder | cmake_targets/tools/asn1tostruct.py:541-564 | every list element in order, with id, criticality and type of its definition |
| IeCodec.DecodeItems | cmake_targets/tools/asn1tostruct.py:418-447 | the generated list decoder |
| IeCodec.Decode | cmake_targets/tools/asn1tostruct.py:355-401 | the generated message decoder |
| IeCodec.ItemsRoundTrip | cmake_targets/tools/asn1tostruct.py:418-447 | list elements come back in order, appended to what was there |
| IeCodec.RoundTrip | cmake_targets/tools/asn1tostruct.py:189-217 | decoding inverts encoding for every schema with distinct ids: mask, values, lists |
| IeCodec.BeyondMaskNeverSent | cmake_targets/tools/asn1tostruct.py:189-202 | an IE numbered beyond bit 15 is never sent |
| IeCodec.UnknownIdRejected | cmake_targets/tools/asn1tostruct.py:396-399 | an id outside the schema rejects the message, wherever it stands |
| IeCodec.BadValueRejected | cmake_targets/tools/asn1tostruct.py:370-395 | a value that does not decode under its type rejects the message |
| IeCodec.DecodedMaskFits | cmake_targets/tools/asn1tostruct.py:189-202 | decoding never sets a bit beyond the 16-bit mask |
| IeCodec.UnknownItemRejected | cmake_targets/tools/asn1tostruct.py:441-444 | the same for a list |
| BitString.ToUint8 | common/utils/asn1_conversions.h:35-41 | the big-endian value without its unused bits |
| BitString.ToUint16 | common/utils/asn1_conversions.h:46-66 | the same for one and two bytes |
| BitString.ToUint32 | common/utils/asn1_conversions.h:71-88 | the same for one to four bytes |
| BitString.ToUint64 | common/utils/asn1_conversions.h:93-111 | what the 64-bit version computes with C `int` shifts, for any result of the shifts C leaves undefined |
| BitString.Uint64ExactIff | common/utils/asn1_conversions.h:93-111 | where the shifts are defined, it is the value exactly when the first byte does not reach bit 31; always up to 31 bits |
| BitString.ShrDivides | common/utils/asn1_conversions.h:35-41 | the right shift is division by a power of two |
| BitString.CellIdentity | emage_tech_oai/emoai_rrc_measurements.c:438-441 | the hand-written cell identity is the four-byte case with four unused bits |

## Left out

- HarqRun.FddFollowsReference: grants follow the synchronous process numbers, outside Msg3 subframes.
- HarqRun.RunPuschIff: in TDD the bits that `get_ack` packs are taken as received; the code carries as many as the uplink DAI of the grant says, so this is its behaviour where the DAI counts the grants. The same holds for `RunSubframe2PuschIff`, `RunBundledPuschIff` and `RunTdd1PuschIff`.
- HarqRun.FreshPuschIffOutcome: a retransmission without a new grant keeps the `O_ACK` of its process; `BelievedIffOutcome` covers it, as it covers any `O_ACK`.
- HarqLedger.RunsAdapt: the count of transmissions is unbounded, while the code's wraps at 32 bits.
- MeasFrequencies.StaysGoodIff: release and attachment of terminals are not events of a run.
- BitString.Uint64ExactIff: strings of 40 bits and more, for whose shifts C defines no result.
- IeCodec.RoundTrip: list-typed IEs that are optional, for which the generated encoder passes the wrong structure.
- RandomAccess.Slot.SendRar: only process numbers below 8; the code indexes beyond its array otherwise.
- MeasRequests.Agent.Measurements: an unknown terminal, for which the code's test of an unsigned value never fires.
- MeasRequests.Agent.ReportArrives: only measurement numbers 1 to 7, the size of the tables; forming the report to the controller is not modelled.
- Second code word and DCI formats other than 1; the statistics reset on Msg3 success; uplink FER and bit-rate statistics.
- The time-out of the timed lock, failures of pthread calls and the shutdown flag of the worker.
- Signal processing, turbo coding, CBA, EMOS, relays, abstraction builds, power control, TDD configurations other than 1 and 3.
- The repository's own terminal-side RRC (`rrc_UE.c`), which frees removed entries without clearing them; the replica follows TS 36.331.
- Aliasing between a stored trigger and its request, memory management, logging, and rounding of floating-point frequencies.
- The measurement-configuration trigger tree and the PRACH worker handshake.
