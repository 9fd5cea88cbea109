# Sensor runtime of the ST Android sensor HAL: model and proofs

The HAL turns kernel IIO devices into Android sensors. Sensors form an acyclic graph: a fusion sensor depends on
accelerometer, magnetometer and gyroscope, which may depend on each other. This project models four parts of the
runtime and proves properties of them over all inputs, all runs and all interleavings.

**The dependency graph.** Every sensor keeps a mask of who uses it and, per requesting handle, a period and a timeout.
`Enable` and `SetDelay` walk down the graph and roll back when a dependency or the device refuses. `SensorGraph` gives
both protocols as functions on the state of the whole graph (masks, device power, slots); `SensorObjects` holds the
objects that update their own fields and call each other, proved method by method to compute those functions. On the
functions rest the power theorem (`PowerTheorem`), the rate theorem (`RateTheorem`, `RateRuns`), the rollback theorem
for rates (`FailedRateChange`), what a disable makes forgotten (`ForgottenRates`) and a failed switch withdraws
(`FailedSwitch`), the times that decide which samples reach whom (`EnableTimes`), what the devices are programmed with
and which rate changes are queued (`DeviceRates`), the batching bound (`Batching`) and the lock order: `Locking` proves
that threads whose calls nest as its rules allow never deadlock, `LockSections` that the calls do nest that way, and
`SectionVisits` which sensors they visit. `ClientRuns` makes whole runs of calls on the objects and states the theorems
on power, rates, times and devices of them.
`Linking` and `LinkingObjects` treat, in the same two layers, the loop that builds the graph when the HAL is opened,
and `LinkedGraph` shows that what it builds is such a graph.

**The synchronising buffer.** `CircularBuffers` holds the ring buffer class, proved against sequences, and its
refinement of a plain search over the last samples written. `UnlockedCopy` splits the writer where the code gives the
lock up.

**Threads and queues.** `Queues` holds the bounded queues over arrays. `FlushProtocol` and `RateSwitching` are step
systems in which every step is one locked section, run in any order; `SampleThreads` holds a sensor object whose
methods, one for each locked section of the client, event and data threads, are each proved to be one such step.
`Decimation`, `DeliveredRate` and `SoftwarePipe` treat what reaches the client: the decimation counter, the rate in force
at each sample, and the flush drain loop.
`SoftwareFlushes` and `SoftwareThreads` do for a software sensor what `FlushProtocol` and `SampleThreads` do for a
hardware sensor, from the arrival of a sample with a flush attached to the completion of the flush.

**Scans.** `ScanLayout` treats the reordering of channels and the greedy aligned layout, `ScanCoding` the decoding of
a scan and the encoding of injected values, and `DecodedValues` what the decoded values are in terms of the bits of the
scan. `Division` holds facts about quotients and rests.

## Where the code does less than one would expect

Each of these is proved, with the exact condition under which the code does meet the expectation:

- Disabling a hardware sensor that is already off still writes to its device, and when that write fails the "undo"
  switches the sensor and its dependencies on (`FailedActivateUndoesItself`, `FailedIdleDisableSwitchesOn`).
- A period that comes with an infinite timeout is stored without clamping (`StoredIsClamped`,
  `UnclampedWithoutTimeout`).
- A sensor going out of use while it holds the rate of a requester that does not use it has its dependencies forget
  that rate. The rates agree after a disable exactly when no such rate is passed on (`DisableAgreesExactly`, in terms
  of the clients' requests `ForgetsExactlyPending`); three sensors and four ordinary calls lose one
  (`DisableForgetsPending`).
- A failed call restores masks and devices but no rate. A failed disable has withdrawn the caller's period unless a
  dependency refused just that (`FailedDisableWithdraws`, `RefusedDisableLeavesNoRate`), and an enable that the device
  refused withdraws it too, so that the next attempt succeeds without a rate (`FailedEnableWithdraws`,
  `RefusedEnableLeavesNoRate`). Dependencies that had accepted the switch keep no period for the sensor
  (`FailedDisableForgets`, `FailedEnableForgets`). Other clients' requests are never touched (`OtherRequestsKept`).
- The requested frequency is cut to whole Hz, so the frequency served may fall short, by less than 1 Hz
  (`ServedInFull`, `ServedWithinOneHertz`, `ServedShort`).
- A change of frequency alone leaves the FIFO watermark as it was, so that a full FIFO may then take longer than the
  requester's timeout (`WatermarkFollowsTimeoutOnly`, `WatermarkGoesStale`).
- The client's samples are told of its own new rate only if the least period of the sensor changes with it
  (`HardwareChangeQueued`, `SoftwareChangeQueued`).
- The data thread looks at the oldest rate change and removes it in two locked sections; a change queued between an
  empty look and the removal is lost (`EachChangeOnceInOrder`, `ChangeCanBeLost`).
- A power-on between the look at the flush stack and the removal can make a later request disappear
  (`MislaidExactlyByStaleRemovals`, `PowerOnCanMislay`).
- A software sensor drops a flush request whose timestamp lies outside its client's time; two callers pass the
  timestamp 0, which always does (`DroppedExactlyOutside`, `OutsideExactly`, `StampZeroIsDropped`).
- A sensor stays valid when one it depends on fails later (`ValidDependOnValid`, `LateFailureIsNotNoticed`), and a
  sensor that fails at the allocation of a buffer keeps its last link (`FailedKeepsNoLink`; the C++ `new` of the code
  normally throws instead of returning null, so that branch may never be taken).
- A buffer write that starts on a full buffer copies into a slot that readers can reach (`FullBeginExposesTheCopy`).
- A decimation ratio of 256 or more is cut to eight bits (`DeliveredPeriod`).
- A signed 3-byte channel is never negative (`ThreeBytesLoseTheSign`), a signed 4-byte channel only if it uses all 32
  bits, and of a signed 8-byte word the bit above the used ones is taken for the sign (`DecodedNumber`, `DecodedTime`,
  `StoredField8`).
- Injection divides by the scale but does not take the offset off, so that a value comes back shifted by it, and stores
  the bytes in the order of the host whatever order the channel declares (`InjectionRoundTrip`, `InjectedNumber`).

## Model

| member | source | states |
|---|---|---|
| RateControl.MinPeriod | src/SensorBase.cpp:772-789 | the least positive finite period slot, 0 when there is none |
| RateControl.MinTimeout | src/SensorBase.cpp:753-770 | the least finite timeout slot, the infinite one when there is none |
| RateControl.GetMinPeriod | src/SensorBase.cpp:772-789 | the loop finds the least period |
| RateControl.GetMinTimeout | src/SensorBase.cpp:753-770 | the loop finds the least timeout |
| RateControl.ClampTo | src/HWSensorBase.cpp:870-879 | a positive request ends inside the delay range, and one inside the range is kept |
| RateControl.ClampIsNearest | src/HWSensorBase.cpp:870-879 | no period in the range is nearer to the request |
| RateControl.ShortenTimeout | src/HWSensorBase.cpp:928-932 | half a second less, never negative, and a finite timeout stays finite |
| RateControl.ChooseFrequency | src/HWSensorBase.cpp:893-899 | everything before the chosen entry is too slow; the chosen one is fast enough or the last |
| RateControl.FindFrequency | src/HWSensorBase.cpp:894-899 | the loop with its fallback computes that choice |
| RateControl.ChosenFrequencyIsLeast | src/HWSensorBase.cpp:893-899 | in an ascending table: the least entry not below the request, else the greatest |
| RateControl.WatermarkFor | src/HWSensorBase.cpp:360-378 | the device is never given a watermark below 1, and a positive length as it is |
| RateControl.WatermarkFits | src/HWSensorBase.cpp:927-943 | that many samples take no longer than the batching time |
| RateControl.WatermarkIsLargest | src/HWSensorBase.cpp:935-937 | one sample more would not fit the FIFO or the batching time |
| PowerTheorem.EnableEffect | src/HWSensorBase.cpp:380-436 | at any depth: success keeps every edge and device consistent and changes one free bit; failure restores every mask and device unless an undo call itself failed |
| PowerTheorem.BaseEnableEffect | src/SensorBase.cpp:270-338 | the same below the device write |
| PowerTheorem.RefusedSwitch | src/HWSensorBase.cpp:429-430 | undoing after a refused device write restores every mask and device |
| PowerTheorem.FreeBitsDetermine | src/SensorBase.cpp:294-298 | edge-consistent masks are determined by the bits no edge owns, diamonds included |
| PowerTheorem.FailedActivateUndoesItself | src/HWSensorBase.cpp:396-430 | a failed client call with successful undo calls restores every mask and device exactly when it was not the disabling of an idle hardware sensor |
| PowerTheorem.FailedIdleDisableSwitchesOn | src/HWSensorBase.cpp:396-430 | a concrete graph and call for which it does not |
| PowerTheorem.PowerFollowsClients | src/SensorBase.cpp:270-348 | after any run, failed calls included, in which no undo call fails and no device refuses the disabling of an idle hardware sensor: a mask is non-empty exactly when an enabled sensor reaches it, and a device is on exactly then |
| PowerTheorem.UsedBelow | src/SensorBase.cpp:294-298 | a used sensor keeps everything it reaches in use |
| PowerTheorem.UsedBySomeone | src/SensorBase.cpp:270-348 | a used sensor is reached by one a client enabled |
| EnableTimes.AcceptedCallStamps | src/HWSensorBase.cpp:404-422 | an accepted call stamps clock readings of that call: coming into use or going out of it when it switches the sensor, then the client's own enable or disable when the client itself called; the sensor's other times stay |
| EnableTimes.TimesFollowClients | src/SensorBase.cpp:223-234 | after any run, under the hypotheses of PowerFollowsClients and with a rising clock: the client enabled later than it disabled exactly when its last accepted activation was an enable, the sensor came into use later than it went out exactly when it is in use; so coming samples reach exactly the enabled clients |
| RateTheorem.SetDelayEffect | src/SensorBase.cpp:380-401 | a successful call keeps on every edge: the dependency stores its clamp of the dependent's least period; one free slot changes |
| RateTheorem.DisableEffect | src/SensorBase.cpp:286-291 | at any depth: where no sensor going out of use passes on the rate of a requester that does not use it, disabling withdraws one period and keeps every edge |
| RateTheorem.EnableKeepsRates | src/SensorBase.cpp:281-285 | enabling changes no rate anywhere |
| RateRuns.LeastIsAtMost | src/SensorBase.cpp:772-789 | the least period is at most each request clamped along any path |
| RateRuns.LeastIsAttained | src/SensorBase.cpp:772-789 | and it is what one request asks for along some path |
| RateRuns.RatesFollowClients | src/SensorBase.cpp:380-401 | both, after any run of successful calls with a finite timeout for every positive period, in which no disable makes a rate forgotten |
| ForgottenRates.DisableAgreesExactly | src/SensorBase.cpp:281-298 | after an accepted disable in a sound state the rates agree along every edge exactly when no sensor going out of use passes on a rate of a requester that holds no bit at it |
| ForgottenRates.DisableWithdraws | src/SensorBase.cpp:286-298 | at any depth an accepted disable leaves the slots of requesters without a bit alone, only clears bits, and leaves no period for a sensor it takes out of use at the dependencies that store periods |
| ForgottenRates.SomethingForgotten | src/SensorBase.cpp:286-298 | what is forgotten: the sensor still holds the period, none of its dependencies does |
| RateRuns.ForgetsExactlyPending | src/SensorBase.cpp:281-298 | in terms of the clients: a rate is forgotten exactly when a request not withdrawn arrives, over a last step that is not in use, at a sensor that goes out of use and passes rates on |
| RateRuns.DisableForgetsPending | src/SensorBase.cpp:286-298 | a graph and a run from the initial state, all calls accepted, after which two enabled sensors have a period and the one they depend on has none |
| FailedSwitch.OtherRequestsKept | src/SensorBase.cpp:270-419 | no call of a client, accepted or refused, changes the period or timeout another client has asked for |
| FailedSwitch.FailedDisableWithdraws | src/SensorBase.cpp:287-337 | a failed disable leaves the caller's period as it was exactly when there was none or a dependency refused its withdrawal; else it is gone |
| FailedSwitch.FailedDisableForgets | src/SensorBase.cpp:294-332 | the dependencies that had accepted a disable that failed store no period for the sensor, although it is in use again |
| FailedSwitch.FailedEnableWithdraws | src/HWSensorBase.cpp:429-430 | a failed enable leaves the caller's period as it was exactly when there was none or a dependency refused; when the device refused it is gone |
| FailedSwitch.FailedEnableForgets | src/SensorBase.cpp:323-332 | the dependencies before the one that refused an enable store no period for the sensor, whose own slots are as before |
| FailedSwitch.RefusedDisableLeavesNoRate | src/HWSensorBase.cpp:396-430 | a concrete run: a sensor whose switching off its device refused runs on without a rate |
| FailedSwitch.RefusedEnableLeavesNoRate | src/HWSensorBase.cpp:396-430 | a concrete run: the second attempt to enable succeeds without the rate asked for before the first |
| RateRuns.StoredIsClamped | src/HWSensorBase.cpp:864-881 | what a polled sensor stores for a new positive request is the clamped period exactly when the timeout is finite or the request lies in the range |
| RateRuns.UnclampedWithoutTimeout | src/HWSensorBase.cpp:870-879 | a concrete sensor and request for which it is not |
| FailedRateChange.SuccessEffect | src/SensorBase.cpp:380-405 | a successful base SetDelay keeps every edge on both slots |
| FailedRateChange.RefusalUndoesItself | src/SensorBase.cpp:385-418 | a refused base SetDelay leaves every slot of the graph as it was, nodes reached by several paths included |
| FailedRateChange.EveryRefusalUndoesItself | src/SensorBase.cpp:385-418 | the same for every refused call in every run |
| DeviceRates.DevicesAreProgrammed | src/HWSensorBase.cpp:885-925 | after any run, refused calls included: while a period is in force the device has the first table entry at or above the period in whole Hz, else the last; while none is, no timeout is; the last change told the data thread is the sampling period of that entry; changes are queued with rising times |
| DeviceRates.DevicesServeTheLeast | src/HWSensorBase.cpp:885-925 | after any run of accepted calls the device has the frequency for the least period any requester asks for, and the data thread was told its period last |
| DeviceRates.HardwareChangeQueued | src/HWSensorBase.cpp:901-920 | an accepted request queues the new sampling period for the data thread and the stored period for the caller's own samples, with one clock reading, exactly when it leaves a least period that is not the one in force |
| DeviceRates.SoftwareChangeQueued | src/SWSensorBase.cpp:347-369 | a software sensor queues its own client's period exactly when the least period or the least timeout changed |
| DeviceRates.RequestStored | src/HWSensorBase.cpp:864-883 | which period and timeout an accepted new request leaves in the caller's slots |
| DeviceRates.EventWatermark | src/HWSensorBase.cpp:438-481 | a sensor without a rate gets as many FIFO places as whole seconds fit its timeout, at least 1 and at most all, and keeps its slots |
| Batching.WatermarkMeetsEveryTimeout | src/HWSensorBase.cpp:927-943 | a rewritten watermark is 1, or fits the FIFO and at the frequency the device has takes at most any requester's timeout less half a second |
| Batching.WatermarkFollowsTimeoutOnly | src/HWSensorBase.cpp:927-946 | an accepted new request that leaves a least period rewrites the watermark exactly when the time left for batching changed |
| Batching.WatermarkGoesStale | src/HWSensorBase.cpp:927-946 | two accepted requests of one client after which a full FIFO takes longer than its timeout |
| Batching.ServedWithinOneHertz | src/HWSensorBase.cpp:893-899 | the frequency the device has falls short of the period in force by less than 1 Hz, from an ascending table whose greatest entry is fast enough |
| Batching.ServedInFull | src/HWSensorBase.cpp:893-899 | it does not fall short at all exactly when every table entry that reaches the request cut to whole Hz reaches the request itself |
| Batching.ServedShort | src/HWSensorBase.cpp:893-899 | a concrete table and request for which it falls short |
| SensorObjects.Kernel.Write | src/HWSensorBase.cpp:902-907 | a device write is answered by the surroundings, in turn |
| SensorObjects.Kernel.Now | src/HWSensorBase.cpp:909-909 | a reading of the clock is answered by the surroundings, in turn |
| SensorObjects.Sensor.StoreSlot | src/SensorBase.cpp:394-395 | one slot of the graph state changes |
| SensorObjects.Sensor.StoreBit | src/SensorBase.cpp:194-202 | one bit of the graph state changes |
| SensorObjects.Sensor.BaseSetDelay | src/SensorBase.cpp:380-419 | the object's method computes SensorGraph.BaseSetDelay on the state of all objects |
| SensorObjects.Sensor.OfferTo | src/SensorBase.cpp:398-398 | one offer of the minima is a SetDelay at the dependency |
| SensorObjects.Sensor.RestoreDependencyDelays | src/SensorBase.cpp:412-413 | the restoring loop computes RestoreDelays |
| SensorObjects.Sensor.SetDelay | src/HWSensorBase.cpp:851-966 | dispatched on the kind, computes SensorGraph.SetDelay |
| SensorObjects.Sensor.EventSetDelay | src/HWSensorBase.cpp:438-481 | computes SensorGraph.EventSetDelay |
| SensorObjects.Sensor.ProgramDevice | src/HWSensorBase.cpp:885-948 | computes SensorGraph.Program |
| SensorObjects.Sensor.WriteFrequency | src/HWSensorBase.cpp:901-925 | computes SensorGraph.ProgramFrequency: the device write and the rate changes queued for the data thread and the client |
| SensorObjects.Sensor.SetSamplingFrequency | src/HWSensorBase.cpp:902-920 | an accepted write queues the period served, and the client's own request if it asked |
| SensorObjects.Sensor.WriteWatermark | src/HWSensorBase.cpp:927-948 | computes SensorGraph.ProgramWatermark |
| SensorObjects.Sensor.RememberMinima | src/SWSensorBase.cpp:347-369 | computes SensorGraph.NoteMinima |
| SensorObjects.Sensor.StoreMinima | src/SWSensorBase.cpp:347-369 | the minima as last seen, with the rate change queued for the client |
| SensorObjects.Sensor.BaseEnable | src/SensorBase.cpp:270-338 | computes SensorGraph.BaseEnable |
| SensorObjects.Sensor.SwitchDependency | src/SensorBase.cpp:295-295 | one switch is an Enable at the dependency |
| SensorObjects.Sensor.RestoreDependencies | src/SensorBase.cpp:323-327 | the undoing loop computes RestoreEnables |
| SensorObjects.Sensor.Enable | src/HWSensorBase.cpp:380-436 | computes SensorGraph.Enable |
| SensorObjects.Sensor.SwitchDevice | src/HWSensorBase.cpp:396-402 | the device follows the mask when the write is accepted |
| SensorObjects.Sensor.SwitchDependencies | src/SensorBase.cpp:294-331 | the loop over the dependencies, with undoing and the restored bit when one fails |
| SensorObjects.Sensor.ResetStack | src/SensorBase.cpp:285-285 | the reset of the flush stack is one mark of the graph state |
| SensorObjects.Sensor.Conclude | src/HWSensorBase.cpp:396-430 | computes SensorGraph.Concluded: the device write, its undoing, the times |
| SensorObjects.Sensor.StampTimes | src/HWSensorBase.cpp:404-422 | the times of coming into use or going out of it and of the client's own call |
| SensorObjects.Activate | src/SensorHAL.cpp:1534-1542 | the client call is Perform on the sensor's own handle |
| SensorObjects.Batch | src/SensorHAL.cpp:1455-1469 | the client call is Perform on the sensor's own handle |
| ClientRuns.PerformAll | src/SensorHAL.cpp:1455-1542 | any run of client calls on the objects computes Run on the state of all objects, with its answers |
| ClientRuns.ServeClients | src/SensorHAL.cpp:1455-1542 | after any run on fresh objects, under the hypotheses of the theorems, each object's mask, device, times and least period are what the clients' enables and requests say, and each device has the frequency for the period in force |
| Locking.LegalInOrder | src/SensorBase.cpp:270-338 | nested calls take their locks in strictly rising level and give all back |
| LockSections.EnableFits | src/HWSensorBase.cpp:380-436 | the sections Enable opens, with every undoing branch and whatever it finds at each visit, are among those the lock order allows |
| LockSections.SetDelayFits | src/HWSensorBase.cpp:851-966 | the same for SetDelay |
| LockSections.ProcessFits | src/HWSensorBase.cpp:611-646 | the same for ProcessFlushData, up the graph |
| LockSections.FlushIsLegal | src/HWSensorBase.cpp:969-1006 | the same for FlushData |
| SectionVisits.EnableVisits | src/SensorBase.cpp:281-331 | enabling: a call that switches resets the flush stack, visits the dependencies in order up to the one that fails, and those before it again, last one first; any other visits none |
| SectionVisits.DisableVisits | src/SensorBase.cpp:286-331 | disabling: the visits that withdraw the period, and then the same round |
| SectionVisits.SetDelayVisits | src/SensorBase.cpp:397-413 | a SetDelay with something to do offers the minima in order up to the dependency that refuses and to those before it again, then writes the queues |
| SectionVisits.FlushVisits | src/HWSensorBase.cpp:570-600 | a flush of a batching sensor in use visits every dependency in order, a hardware sensor's request queue first |
| SectionVisits.ProcessVisits | src/HWSensorBase.cpp:611-646 | a flush that waits visits the stack; one that does not and is another's visits every sensor served |
| LockSections.ThreadsNeverDeadlock | src/SensorBase.cpp:270-419 | any threads making any mix of Enable, SetDelay, FlushData and ProcessFlushData calls, other threads changing everything between two visits: none wants a lock it holds, no chain of waiting threads closes, and some thread can go on |
| Locking.NoSelfDeadlock | src/SensorBase.cpp:270-419 | no thread wants a lock it holds |
| Locking.NoCircularWait | src/HWSensorBase.cpp:570-646 | no chain of waiting threads closes |
| Locking.SomeThreadCanStep | src/SWSensorBase.cpp:168-234 | while a thread is unfinished, some thread can go on |
| Linking.Find | src/SensorHAL.cpp:2001-2006 | the first valid sensor of a type, or none |
| Linking.AddLinks | src/SensorBase.cpp:472-506 | a successful link keeps links two-way and single, and the position map right |
| Linking.LinkingTheorem | src/SensorHAL.cpp:1994-2032 | after the loop: links two-way, each once, to sensors of listed types; valid sensors have one dependency per listed type at its mapped position; failed sensors keep at most the link whose buffer was not allocated, and none if all allocations succeed |
| Linking.AddAllEffect | src/SensorHAL.cpp:1998-2009 | adding links goes on exactly to the first type whose link cannot be made or whose buffer is not allocated, seen before the first is added |
| Linking.RemoveAllEffect | src/SensorHAL.cpp:2011-2020 | taking the first links back leaves exactly the others, two-way |
| Linking.ValidDependOnValid | src/SensorHAL.cpp:1994-2032 | valid sensors depend only on valid ones exactly when no sensor fails on its turn while a valid one depends on it |
| Linking.DependenciesFirstSuffice | src/SensorHAL.cpp:1994-2032 | which is so whenever dependencies come first |
| Linking.LateFailureIsNotNoticed | src/SensorHAL.cpp:1994-2032 | without that order a valid sensor can depend on an invalid one |
| Linking.FailedKeepsNoLink | src/SensorHAL.cpp:2008-2026 | a failing sensor keeps no link exactly when the link at which it stops, known before it is dealt with, cannot be made; otherwise the allocation of its buffer failed |
| LinkedGraph.LinkedGraphIsRanked | src/SensorHAL.cpp:1994-2032 | with dependencies first, the links left by the loop form a ranked, acyclic graph |
| LinkingObjects.Node.AddSensorToDataPush | src/SensorBase.cpp:442-453 | appends to the push list unless it is full |
| LinkingObjects.Node.RemoveSensorToDataPush | src/SensorBase.cpp:455-470 | removes the first mention |
| LinkingObjects.Node.AddSensorDependency | src/SWSensorBase.cpp:115-160 | computes Linking.Add on the links of all objects |
| LinkingObjects.Node.RemoveSensorDependency | src/SensorBase.cpp:508-525 | computes Linking.Remove |
| LinkingObjects.FindSensor | src/SensorHAL.cpp:2001-2006 | the search loop computes Find |
| LinkingObjects.AddDependencies | src/SensorHAL.cpp:1998-2012 | the adding loop computes AddAll |
| LinkingObjects.RemoveDependencies | src/SensorHAL.cpp:2011-2020 | the removing loop computes RemoveAll |
| LinkingObjects.ResolveSensor | src/SensorHAL.cpp:1995-2030 | one round of the loop computes ResolveOne |
| LinkingObjects.ResolveDependencies | src/SensorHAL.cpp:1994-2032 | the whole loop computes ResolveFrom |
| CircularBuffers.CircularBuffer.WriteElement | src/CircularBuffer.cpp:31-61 | appends, dropping the oldest of a full buffer and reporting it |
| CircularBuffers.CircularBuffer.ReadElement | src/CircularBuffer.cpp:63-86 | takes the oldest and tells how many are left, or an error |
| CircularBuffers.CircularBuffer.ReadSyncElement | src/CircularBuffer.cpp:88-151 | answers the sample the search stops at and drops those before it |
| CircularBuffers.CircularBuffer.Walk | src/CircularBuffer.cpp:109-132 | the do-while over two neighbouring slots finds where the search stops |
| CircularBuffers.CircularBuffer.ResetBuffer | src/CircularBuffer.cpp:153-162 | empties the buffer |
| CircularBuffers.SearchFrom | src/CircularBuffer.cpp:111-132 | stops where the next sample is no nearer, having come from one farther |
| CircularBuffers.SearchFindsNearest | src/CircularBuffer.cpp:111-132 | with rising timestamps the stop is the nearest of all, the earlier on ties |
| CircularBuffers.NothingIsNearer | src/CircularBuffer.cpp:111-132 | no sample is nearer to the moment than the answer of the reference, on either side, and of two equally near it is the earlier |
| CircularBuffers.SyncAgrees | src/CircularBuffer.cpp:88-151 | one read on the shortened buffer answers like a search of the whole window |
| CircularBuffers.BufferRefinesReference | src/CircularBuffer.cpp:31-151 | over every run of writes and reads, the answers equal those of a search of the last `length` samples ever written |
| CircularBuffers.Serve | src/CircularBuffer.cpp:31-151 | the buffer object over any run of operations gives the answers of that run, and from empty, when timely, those of the reference |
| UnlockedCopy.StepKeepsGood | src/CircularBuffer.cpp:31-61 | between the locked sections the free slot stays at head + count, one more before the commit |
| UnlockedCopy.StepIsAtomic | src/CircularBuffer.cpp:31-61 | each step is the same step of a buffer in which writes happen at once |
| UnlockedCopy.CopyIsNotRead | src/CircularBuffer.cpp:43-43 | no reader reaches the slot being copied |
| UnlockedCopy.FullBeginExposesTheCopy | src/CircularBuffer.cpp:35-43 | the slot to be overwritten can be read exactly when the write starts on a full buffer |
| UnlockedCopy.UndisturbedWrite | src/CircularBuffer.cpp:31-61 | a whole write that no reader comes between appends, and on a full buffer drops the oldest |
| UnlockedCopy.UnlockedCopyIsSafe | src/CircularBuffer.cpp:31-151 | over every interleaving without such a start, readers see what they would see with atomic writes |
| Queues.ShiftDown | src/FlushBufferStack.cpp:83-86 | the shift loop moves the entries down by one |
| Queues.FlushRequested.WriteElement | src/FlushRequested.cpp:24-39 | appends, or refuses when full |
| Queues.FlushRequested.ReadElement | src/FlushRequested.cpp:41-63 | takes the oldest handle, or an error |
| Queues.FlushRequested.ResetBuffer | src/FlushRequested.cpp:65-72 | empties the queue |
| Queues.PairQueue.WriteElement | src/ChangeODRTimestampStack.cpp:24-40 | appends the pair, or refuses when full |
| Queues.PairQueue.ReadLastElement | src/ChangeODRTimestampStack.cpp:42-59 | the oldest pair, or the error sentinel with the value unchanged |
| Queues.PairQueue.RemoveLastElement | src/ChangeODRTimestampStack.cpp:61-80 | removes the oldest pair, if any |
| Queues.PairQueue.ElementsOnStack | src/FlushBufferStack.cpp:61-70 | the number of entries |
| Queues.PairQueue.ResetBuffer | src/FlushBufferStack.cpp:93-100 | empties the queue |
| FlushProtocol.StepBalances | src/HWSensorBase.cpp:578-712 | every locked section keeps the count of requests over all the places they can be |
| FlushProtocol.FlushesAreConserved | src/HWSensorBase.cpp:578-712 | in every reachable state accepted requests equal those queued, held, stacked, in flight, completed, handed on, not taken by the pipe, refused, reset and mislaid |
| FlushProtocol.NoFlushCompletesTwice | src/HWSensorBase.cpp:611-646 | each request completes at most once, into the pipe only this sensor's own |
| FlushProtocol.RequestsLeaveInOrder | src/FlushRequested.cpp:41-63 | in every reachable state the waiting requests are the last accepted ones, and a thread that takes one gets the first of those |
| FlushProtocol.MislaidExactlyByStaleRemovals | src/HWSensorBase.cpp:703-711 | requests are mislaid exactly by removals after a reset within the look |
| FlushProtocol.PowerOnCanMislay | src/SensorBase.cpp:282-285 | a concrete interleaving in which one is |
| FlushProtocol.StepKeepsOrder | src/HWSensorBase.cpp:685-712 | every step keeps completions before no older sample |
| FlushProtocol.NoOlderSampleAfterFlush | src/HWSensorBase.cpp:611-712 | under every interleaving no sample older than T follows the completion of a flush stamped T |
| FlushProtocol.DueFlushGoesWithSample | src/HWSensorBase.cpp:703-712 | whatever other threads do during a sample, short of a power-on: the oldest stacked flush is finished with that sample exactly if it is due, else it stays the oldest |
| RateSwitching.StepKeepsConsistent | src/HWSensorBase.cpp:694-701 | what every step keeps: the rate in force is that of the last change applied |
| RateSwitching.EmptyNeverChangesTheRate | src/ChangeODRTimestampStack.cpp:42-59 | the empty sentinel never changes the rate in force |
| RateSwitching.EachChangeOnceInOrder | src/HWSensorBase.cpp:694-701 | nothing is lost exactly when no change slips in after an empty look, and then changes apply once each in order |
| RateSwitching.ChangeCanBeLost | src/HWSensorBase.cpp:694-701 | a concrete interleaving in which one is lost |
| RateSwitching.SampleGetsLatestRate | src/HWSensorBase.cpp:694-701 | without loss or backlog a sample gets the rate of the latest change before it; no change applies to a sample not later than it |
| SampleThreads.HardwareSensor.QueueFlush | src/HWSensorBase.cpp:578-580 | is the step Ask of the flush protocol |
| SampleThreads.HardwareSensor.TakeFlush | src/HWSensorBase.cpp:617-619 | is the step Take |
| SampleThreads.HardwareSensor.PlaceFlush | src/HWSensorBase.cpp:621-645 | is the step Place: stacked, written, lost to the pipe, or handed on |
| SampleThreads.HardwareSensor.ProcessFlushData | src/HWSensorBase.cpp:611-646 | is Take followed by Place |
| SampleThreads.HardwareSensor.QueueRate | src/HWSensorBase.cpp:911-912 | is the step Change of the rate protocol |
| SampleThreads.HardwareSensor.PowerOn | src/SensorBase.cpp:282-285 | is the step PowerOn |
| SampleThreads.HardwareSensor.BeginSample | src/HWSensorBase.cpp:690-692 | is the step BeginSample |
| SampleThreads.HardwareSensor.ReadSwitch | src/HWSensorBase.cpp:694-694 | is the step Look |
| SampleThreads.HardwareSensor.AttachRate | src/HWSensorBase.cpp:695-701 | is the step Attach, and the sample gets the rate the protocol says |
| SampleThreads.HardwareSensor.PeekFlush | src/HWSensorBase.cpp:703-703 | is the step Peek |
| SampleThreads.HardwareSensor.RemoveFlush | src/HWSensorBase.cpp:704-709 | is the step Remove |
| SampleThreads.HardwareSensor.WriteSample | src/HWSensorBase.cpp:1008-1058 | runs the decimation on the sensor's fields and is the step WriteSample, passing exactly when the pipe gained the sample |
| SampleThreads.HardwareSensor.WriteFlush | src/SensorBase.cpp:700-708 | is the step WriteFlush: written, lost to the pipe, or handed on |
| SampleThreads.HardwareSensor.ProcessSample | src/HWSensorBase.cpp:685-712 | the loop body is the run of these steps |
| Decimation.DataGate.WriteDataToPipe | src/HWSensorBase.cpp:1008-1058 | the method computes Decimation.Push on the sensor's fields |
| Decimation.DataGate.TakeRateChange | src/HWSensorBase.cpp:1015-1020 | a change that is due is applied and removed |
| Decimation.DataGate.CountSample | src/HWSensorBase.cpp:1022-1057 | counts, writes every decimator-th sample, and takes the count back when the write fails |
| Decimation.RatioBounds | src/HWSensorBase.cpp:1023-1024 | the ratio is the whole part of 21 R / 20 H |
| Decimation.PushExactly | src/HWSensorBase.cpp:1015-1056 | the oldest change is applied exactly when it is earlier than the sample; inside the client's time the sample is counted, and written exactly when a change was applied or the count is a multiple of the decimator |
| Decimation.EveryNthIsWritten | src/HWSensorBase.cpp:1022-1056 | between rate changes exactly every d-th valid sample is written, floor((c + n) / d) of them, and the 8-bit counter never wraps |
| Decimation.AfterRateChange | src/HWSensorBase.cpp:1015-1056 | the first sample after a change is written at once and counting restarts |
| DeliveredRate.DecimatedAtLatestRate | src/HWSensorBase.cpp:1015-1020 | over any run, a sample that leaves no second older change waiting is decimated at the rate of the latest change queued before it |
| Decimation.DeliveredPeriod | src/HWSensorBase.cpp:1023-1028 | the delivered period lies within one hardware period below 21/20 of the wanted one exactly when the ratio is at least 1 and fits eight bits |
| SoftwarePipe.SoftwareSensor.WriteDataToPipe | src/SWSensorBase.cpp:415-472 | the method computes SoftwarePipe.Deliver: the sample, then the flushes due; nothing is drained when the write fails |
| SoftwarePipe.SoftwareSensor.Drain | src/SWSensorBase.cpp:451-471 | the drain loop removes the due front of the stack and completes this sensor's own as far as the pipe takes them |
| SoftwarePipe.SoftwareSensor.DrainOne | src/SWSensorBase.cpp:452-470 | one round of it |
| SoftwarePipe.DrainsExactlyTheDue | src/SWSensorBase.cpp:451-471 | of flushes stacked in order exactly those not later than the sample are drained |
| SoftwarePipe.DeliverExactly | src/SWSensorBase.cpp:440-471 | a refused sample leaves pipe and stack alone; else exactly the flushes not later than it leave the stack and one completion for each own one that the pipe takes follows the sample |
| SoftwareFlushes.StepBalances | src/SWSensorBase.cpp:200-260 | every locked section keeps the count of own flushes over all the places they can be |
| SoftwareFlushes.SoftwareFlushesAreConserved | src/SWSensorBase.cpp:200-260 | over every interleaving own flushes that came in, asked for or attached to a sample, equal those completed, stacked, in hand, on their way in, and lost outside the client's time, handed on, refused, reset, mislaid, unwritten, unsent or buffered; no other sensor's is completed here |
| SoftwareFlushes.DroppedExactlyOutside | src/SWSensorBase.cpp:207-211 | a step drops an own request for its timestamp exactly when the sensor is not a custom one and the timestamp lies outside the client's time |
| SoftwareFlushes.OutsideExactly | src/SWSensorBase.cpp:207-211 | a run drops none exactly when no such step is in it |
| SoftwareFlushes.StampZeroIsDropped | src/SWSensorBase.cpp:184-184 | a request stamped 0 is always dropped |
| SoftwareFlushes.AskExactly | src/SWSensorBase.cpp:200-234 | within the client's time a request not later than the sample in processing is completed, or lost to the pipe, in that step if it is the sensor's own; a later one is stacked, or refused by a full stack |
| SoftwareFlushes.NoOlderSampleAfterFlush | src/SWSensorBase.cpp:200-260 | under every interleaving in which samples do not go back, no sample older than T follows the completion of a flush stamped T |
| SoftwareFlushes.NoDueFlushIsLeft | src/SWSensorBase.cpp:451-471 | under every interleaving: once the data thread is done with a sample that its pipe did not refuse, no flush that is due is the oldest on the stack |
| SoftwareFlushes.RefusedSampleKeepsFlushes | src/SWSensorBase.cpp:440-449 | under every interleaving: after a sample that the pipe refused every stacked flush waits on until the next sample or a reset |
| SoftwareThreads.SoftwareReceiver.ProcessFlushData | src/SWSensorBase.cpp:200-234 | is the step Ask |
| SoftwareThreads.SoftwareReceiver.ReceiveDataFromDependency | src/SWSensorBase.cpp:236-260 | is the step Receive |
| SoftwareThreads.SoftwareReceiver.BeginSample | src/SWSensorBase.cpp:290-293 | is the step Begin |
| SoftwareThreads.SoftwareReceiver.WriteSample | src/SWSensorBase.cpp:415-449 | runs the decimation and is the step Write; after a refused write the loop is skipped |
| SoftwareThreads.SoftwareReceiver.PeekFlush | src/SWSensorBase.cpp:452-454 | is the step Peek |
| SoftwareThreads.SoftwareReceiver.RemoveFlush | src/SWSensorBase.cpp:455-458 | is the step Remove |
| SoftwareThreads.SoftwareReceiver.FinishSample | src/SensorBase.cpp:700-708 | is the step Finish: the attached flush, if it is the sensor's own |
| SoftwareThreads.SoftwareReceiver.ResetStack | src/SensorBase.cpp:282-285 | is the step Reset |
| ScanLayout.SwapNeighbours | src/utils.cpp:465-469 | swaps two neighbours exactly when they are out of order |
| ScanLayout.SweepOnce | src/utils.cpp:464-470 | the inner loop computes one sweep |
| ScanLayout.Reorder | src/utils.cpp:463-471 | the outer loop computes as many sweeps as there are channels |
| ScanLayout.CarryAt | src/utils.cpp:464-470 | a sweep leaves at each place the lesser of the greatest index so far and the next |
| ScanLayout.ReorderSorts | src/utils.cpp:462-471 | the result is sorted, a permutation, and stable |
| ScanLayout.PlaceChannel | src/HWSensorBase.cpp:36-47 | the loop body places one channel |
| ScanLayout.SizeFromChannelArray | src/HWSensorBase.cpp:30-51 | the loop computes the layout and its size in place |
| ScanLayout.PlaceIsFirst | src/HWSensorBase.cpp:41-45 | no aligned place lies between the end so far and the one chosen |
| ScanLayout.LayoutTheorem | src/HWSensorBase.cpp:30-51 | locations only change; non-empty channels are aligned, apart, in order and inside the size; no aligned layout in order is smaller |
| ScanCoding.ProcessScanData | src/HWSensorBase.cpp:119-184 | the loop computes Decode, which stops at a channel of another size |
| ScanCoding.StoreChannel | src/HWSensorBase.cpp:129-180 | the switch over the size stores the channel's value, or the timestamp |
| ScanCoding.ProcessInjectionData | src/HWSensorBase.cpp:188-217 | the loop computes Inject in place, which stops at a channel of another size |
| ScanCoding.StoreAt | src/HWSensorBase.cpp:199-208 | a store changes the channel's bytes only |
| ScanCoding.Field2IsExact | src/HWSensorBase.cpp:58-81 | for every width 1 to 16 the 2-byte field is the two's-complement or plain number in its bits |
| ScanCoding.ThreeBytesLoseTheSign | src/HWSensorBase.cpp:88-111 | a signed 3-byte field is the two's-complement number exactly when its top bit is clear |
| ScanCoding.StoredField2 | src/HWSensorBase.cpp:203-204 | a stored 2-byte integer comes back exactly when its bits can hold it |
| ScanCoding.StoredField8 | src/HWSensorBase.cpp:159-166 | a stored timestamp comes back exactly when all bits are used or the bit above is clear |
| ScanCoding.InjectedAt | src/HWSensorBase.cpp:188-217 | after injection each channel's bytes are the ones stored for it |
| ScanCoding.InjectStops | src/HWSensorBase.cpp:188-217 | injection ends at the first channel whose size is not 1, 2 or 8, with the bytes of the channels before it and an error |
| ScanCoding.DecodedAt | src/HWSensorBase.cpp:119-184 | each channel decodes from its own bytes with a zero offset, the timestamp from the last timestamp channel |
| ScanCoding.DecodeStops | src/HWSensorBase.cpp:119-184 | decoding ends at the first channel whose size is not 1, 2, 3, 4 or 8, with the sample of the channels before it, that channel's offset cleared, and an error; else it counts all channels |
| DecodedValues.DecodedNumber | src/HWSensorBase.cpp:58-180 | the decoded value divided by the scale, less the offset, is the signed or unsigned number in the channel's bits, in its byte order, exactly under a stated condition on each width 2, 3, 4 and 8; single bytes and unsigned 8-byte words come as they are |
| DecodedValues.DecodedTime | src/HWSensorBase.cpp:156-167 | the timestamp is the number in the bits of the last timestamp channel exactly under the same condition |
| DecodedValues.InjectedNumber | src/HWSensorBase.cpp:188-217 | through any 2-byte channel an injected integer comes back, in scale and offset, exactly when the channel's bits of the stored word stand for it |
| ScanCoding.InjectionRoundTrip | src/HWSensorBase.cpp:119-217 | a laid-out scan comes back: bytes exactly when they are bytes, 2-byte values shifted by the scaled offset and within one scale step exactly when they fit, the timestamp exactly under the stated condition |

## Left out

- Enable masks are sets of handles and a handle is the index of its sensor; handles are below 50, so the sign bit of
  the mask is never used.
- The slots of a sensor are sequences in its object rather than C arrays; each sensor object owns its own.
- Floats and doubles are reals: rounding is not modelled. Conversion of a double to `unsigned int` is a parameter that
  is exact when the value fits and never exceeds it.
- `minDelay * 1000` and `maxDelay * 1000` are computed in 32 bits in the code; delays are taken in nanoseconds here and
  do not overflow. The Android version is taken to be later than KitKat.
- Device writes and pipe writes are steps that may fail; enabling a device through sysfs is one such write. Clocks are
  parameters.
- In the graph state a sensor's rate queues are the sequence of all changes handed to them; that the queues are
  bounded and emptied by the data thread is in Queues, RateSwitching and Decimation. The flush stack is represented
  there by the number of its resets; its contents are in FlushProtocol and SoftwareFlushes.
- Sensor classes that override `SetDelay` or `Enable` on top of these four kinds (the fusion classes' extra period
  limit, step counter, gestures, dynamic sensors).
- FailedRateChange.RefusalUndoesItself: for the base `SetDelay` at every sensor; a device that refuses a write after
  the slots were stored keeps the new slots, because that code has no undo.
- RateRuns.RatesFollowClients: for runs of successful calls; what a failed call withdraws is in FailedSwitch.
- Exact timeout slots of software sensors: the early exit compares a timeout before shortening with one after it.
- Batching.WatermarkMeetsEveryTimeout: for the call that rewrites the watermark; which calls do is
  WatermarkFollowsTimeoutOnly.
- SectionVisits.FlushVisits: for a sensor that batches and none of whose dependencies fails.
- SectionVisits.ProcessVisits: says which sensors are visited, not in which order, as each of them visits others.
- LockSections.ThreadsNeverDeadlock: the error path at src/SWAccelMagnFusion6X.cpp:97-101, which locks where its
  siblings unlock, is not among the sections. All queues of a sensor count as one lock, which is never held while
  another is taken.
- Linking.LinkingTheorem: the type list is read up to its first non-positive entry, of at most six.
- LinkingObjects.Node.AddSensorDependency: models the links and the position map; the FIFO length, delay range, power,
  flags and name that a sensor takes over from its dependency are parameters of the graph (`Config`).
- UnlockedCopy.UnlockedCopyIsSafe: for writes that start below capacity; on a full buffer head, count and free pointer
  can disagree.
- SampleThreads.HardwareSensor.PlaceFlush: handing a flush on to the dependents is recorded; what it does there is the
  business of their own objects, and a fusion sensor reached along several paths may be told several times.
- SampleThreads.HardwareSensor.WriteFlush: the same.
- SampleThreads.HardwareSensor.ProcessFlushData: the two sections run without interruption there; every interleaving
  is covered by FlushProtocol, whose steps are the single sections.
- SampleThreads.HardwareSensor.ProcessSample: likewise.
- `FlushData` that fails after its request is queued: the request stays queued and completes as any other.
- SoftwareFlushes.SoftwareFlushesAreConserved: the fusion classes, which process their samples in proprietary
  libraries, hand attached flushes on in their own code.
- Queues.PairQueue: one class for the two queues of pairs; only the names of the two parts differ.
- Decimation.DataGate.WriteDataToPipe: takes the hardware period to be positive, as the code divides by it; direct
  report channels are left out.
- ScanCoding.ProcessScanData: bit masks follow from the number of used bits; for widths at which the C shift is
  undefined the mathematical value is taken.
- DecodedValues.DecodedNumber: for used bits within the word; an 8-byte channel with a shift is not covered, as the
  code does not shift it.
- ScanCoding.ProcessInjectionData: a value outside the integer type wraps around; in C the conversion is undefined.
- The reading of sysfs, character devices, event polling, logging, calibration, self test, additional-info frames,
  direct report channels and the proprietary fusion libraries; hardware/sensors.h is not part of this model.
