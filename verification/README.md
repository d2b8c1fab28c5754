# Verified models of the failsafe GPT update and of the GPS host's stateful cores

Four stateful parts of the repository, modelled in Dafny and proved over whole runs:

1. **Failsafe GPT update and the GPT disk handle** (`gpt-utils/`). Headers and entry arrays are bytes
   (UEFI Specification, sections 5.3.2 and 5.3.3); the checksum field of a header lies inside the bytes it
   covers; the CRC is any function of the covered bytes. The update is a protocol of three stages whose
   state is recovered from the two headers. The device takes a number of block writes and then fails, which
   stands for power loss and for a write error alike. `GptHeader`, `BootChain`, `SwapList`, `GptDisk`, `BootUpdate`
   and `CrashSafety` hold the bytes, the swap, the shipped list, the layout, the protocol and its theorems;
   `HeaderBytes` and `UpdateOutcome` say what these come to in bytes and in the states of the two headers, on any
   disk; `UpdateProgram` and `DiskCommit` hold the program on buffers and a device, proved against them.
   `ExampleDisk` shows that what the theorems ask of a disk can be met.
2. **A-GPS data calls** (`gps/gnss/Agps.cpp` with `NativeAgpsHandler.cpp`). One machine with its subscriber
   list (`AgpsMachine`), what every run shows at its edges, as automata over the history (`AgpsTraces`,
   `AgpsService`), the machine joined to the framework side by a queue of replies (`AgpsQueue`, `AgpsReplies`,
   `AgpsLateClose`), the manager with its two machines (`AgpsRouting`) and with the native handler (`AgpsHost`),
   and the program that updates its fields in place (`AgpsProgram`).
3. **Observer, status history and network table** (`gps/core/`). The two index maps, the framework's
   subscription set and calls, the cache and what each client is told (`SetMap`, `Observer`, `Subscriptions`,
   `FrameworkCalls`, `Delivery`, `ObserverProgram`); the bounded history of reports (`StatusHistory`); the table of
   networks merged from report to report (`NetworkTable`, `NetworkReports`, `NetworkProgram`) and on its way to the
   clients (`NetworkDelivery`) and to the A-GPS handler's connected flag (`NetworkHandler`).
4. **LocApiBase** (`gps/core/LocApiBase.cpp`): the elapsed-time estimator (`Estimator`), the adapter array
   (`AdapterArray`) and the decoding of packed addresses (`Address`). `Masks` and `Common` hold the few laws of
   64-bit masks and of sequences that several modules need. Every module has the file of its name.

Where the source changes things in place there is a class or a method over arrays, proved to do what a
function of the old state says; the theorems are about runs of those functions. `hide` statements only keep
definitions out of proofs that do not need them.

Things the proofs bring out that a reader of the comments would not expect:

- `"uefisecapp"` is listed twice in `PTN_SWAP_LIST` (gpt-utils/gpt-utils.h:85), so a pass swaps its pair and
  swaps it back (`SwapList.UefisecappStays`). The swap is stated by parity.
- The signature is compared and copied with the terminating NUL of the literal, nine bytes
  (gpt-utils/gpt-utils.cpp:509), so the first byte of the revision must be 0.
- A BACKUP stage cut off between its two writes leaves both headers good, so the disk decodes as MAIN again;
  the update then starts over and still converges (`CrashSafety.Converges`).
- A commit can pass through a disk with no valid table. `gpt_disk_update_crc` and `gpt_disk_commit` look at no
  signature, so after MAIN, whose disk has an unsigned primary, it can happen at the third write
  (`ExampleDisk.CommitAfterMainCanLeaveNoTable`); on a disk cut in MAIN it can happen at the first
  (`ExampleDisk.CommitCanLeaveNoTable`). `DiskCommit.CommitValidity` and `DiskCommit.CommitNeverWithoutIff` say
  exactly when. The secondary header is sealed over the primary's header size, which need not be its own.
  `gpt_disk_get_disk_info` takes its header checksums without clearing the field, so they need not be the ones
  that a commit stored (`DiskCommit.ReloadReadsCommitted`, `ExampleDisk.ReloadedCrcCanDiffer`).
- A close that answers an older release can arrive while a newer request waits, so "not closed since" is not
  kept between a request and its release call (`AgpsLateClose.LateCloseBeforeRelease`). It is kept exactly when
  the machine passes over no answer in between (`AgpsTraces.ReleaseIsOfAnOpenRequestIff`), which a request made
  with nothing queued never meets (`AgpsQueue.PromptRequestIsNotDoomed`).
- A client that asks again while its call is up is told of a second open (`AgpsTraces.AskingAgainOpensAgain`);
  that is the only way (`AgpsTraces.LivesAreOrderlyIff`). A call of another type than WWAN_ANY is never answered
  by `NativeAgpsHandler`, so the machine can wait for good (`AgpsQueue.LoneCallSettlesIff`).
- Reports come with network types (from `eventConnectionStatus`) or with the framework's codes. The first report
  enters its type into the table, every later one the code it carries, and a disconnection takes out only the very
  code; so the first network the framework reports is not taken out by its disconnection
  (`NetworkReports.FirstCodedNetworkStays`), nor is any by one whose mask is 0.
  `NetworkReports.TableTracksThroughoutIff` says exactly when the table lists the networks that are connected.
- The mask of types can forget networks that are still listed: when another of the departing code stays
  (`NetworkReports.MaskForgetsANetwork`, `NetworkReports.MaskForgetsACodedNetwork`), when one of the departing
  type is listed under another code (`NetworkReports.MaskForgetsTheFirstNetwork`), and when a network of no type
  departs (`NetworkReports.UnknownTypeForgetsAll`). `NetworkReports.CoversAfterIff` says exactly when, for every
  report.
- Clients are told the observer's copy of the network item. Its table is always that of the newest record, but a
  mask of 0 is replaced by the bit of the type, so that the last mobile network to go is told as still there
  (`NetworkDelivery.LastDisconnectionIsToldAsMobile`), which leaves the A-GPS handler connected
  (`NetworkHandler.FlagKeepsAMobileNetwork`); a report in which only the APN is new is told with the old APN
  (`NetworkDelivery.NewApnIsNotTold`, gps/core/data-items/DataItemConcreteTypes.cpp:777); and a type that is not a
  code is never told after the first report (`NetworkDelivery.TypeToldNeverChanges`).
- A reset disconnects the networks of the last five records only, of up to ten listed
  (`NetworkReports.ManySurviveAReset`), and none whose type does not fit eight bits as one of the enumeration
  (`NetworkReports.ResetEmptiesIff`).

## Model

| member | source | states |
|---|---|---|
| GptHeader.GetPut | gpt-utils/gpt-utils.cpp:91-108 | the 4-byte field read back is the one written |
| GptHeader.PutGet | gpt-utils/gpt-utils.cpp:91-108 | writing back the field that is there changes no byte |
| GptHeader.EditsKeepGeometry | gpt-utils/gpt-utils.cpp:508-522 | neither header edit touches a field that says where the table lies |
| GptHeader.SealIgnoresOldCrc | gpt-utils/gpt-utils.cpp:517-522 | the seal depends on nothing in the old checksum field |
| GptHeader.SealedIsNotBadCrc | gpt-utils/gpt-utils.cpp:519-522 | a resealed header never reads as a bad checksum; its signature alone decides its state |
| GptHeader.SealingAGoodHeader | gpt-utils/gpt-utils.cpp:517-522 | resealing changes nothing exactly when the checksum was right |
| GptHeader.SetThenGetState | gpt-utils/gpt-utils.cpp:407-533 | for every block whose header size fits, setting OK or BAD_SIGNATURE and reading the state gives it back |
| GptHeader.RepairUndoesCorruptionIffValid | gpt-utils/gpt-utils.cpp:475-533 | BAD_SIGNATURE then OK restores the header byte for byte exactly when it was valid before |
| GptHeader.CanonFacts | gpt-utils/gpt-utils.cpp:475-533 | every header the update writes has a right checksum, the marked state, the recorded array checksum and the old geometry |
| GptHeader.PutWord | gpt-utils/gpt-utils.cpp:105-108 | the macro in place: the four bytes, and no other, become the word |
| GptHeader.SealHeader | gpt-utils/gpt-utils.cpp:517-522 | the buffer becomes the sealed header |
| GptHeader.SetSignature | gpt-utils/gpt-utils.cpp:508-522 | the buffer becomes the header with its signature set or cleared and resealed |
| GptHeader.SetArrayChecksum | gpt-utils/gpt-utils.cpp:371-377 | the buffer becomes the header with the new array checksum, resealed |
| HeaderBytes.StateMeans | gpt-utils/gpt-utils.cpp:443-451 | a header's state, byte by byte: bad checksum unless bytes 16-19 hold the checksum of as many bytes as 12-15 say with those four 0; else by its first nine bytes |
| HeaderBytes.SetStateBytes | gpt-utils/gpt-utils.cpp:507-522 | setting a state changes nothing but the signature or its first byte, and the header checksum, which is then right |
| HeaderBytes.ArrayCrcBytes | gpt-utils/gpt-utils.cpp:371-377 | recording an array checksum puts it in bytes 88-91 and changes nothing else but the header checksum, which is then right |
| HeaderBytes.TablesLie | gpt-utils/gpt-utils.cpp:315-384 | where headers and arrays lie on the disk, in terms of the bytes of the headers, in 64- and 32-bit arithmetic |
| BootChain.MatchesMeans | gpt-utils/gpt-utils.cpp:200-208 | the two string comparisons accept exactly the partition called the name and the one called the name with "bak" |
| BootChain.PartitionNameReads | gpt-utils/gpt-utils.cpp:200-203 | an entry is called what every second byte from 56 on spells, up to a 0 or 36 characters |
| BootChain.PlainNamesAreIndependent | gpt-utils/gpt-utils.cpp:186-212 | no entry matches two different listed names |
| BootChain.PassExchangesByParity | gpt-utils/gpt-utils.cpp:229-270 | the first two matching slots of a name are exchanged exactly when it is not skipped and listed an odd number of times |
| BootChain.PassLeavesTheRest | gpt-utils/gpt-utils.cpp:229-270 | every entry outside those pairs stays where it is |
| BootChain.PassIsPermutation | gpt-utils/gpt-utils.cpp:262-265 | the result is a permutation of the entries |
| BootChain.FoundIffSomePair | gpt-utils/gpt-utils.cpp:235-269 | the pass reports no backup exactly when no unskipped listed name has two slots, and then nothing changed |
| BootChain.SwappedTwiceRestores | gpt-utils/gpt-utils.cpp:229-270 | a second pass restores the array and reports the same |
| BootChain.SwappedBytesTwice | gpt-utils/gpt-utils.cpp:229-270 | the same on the bytes of the array |
| BootChain.SetSlot | gpt-utils/gpt-utils.cpp:262-265 | overwriting the bytes of one entry overwrites that slot and no other |
| BootChain.ReadName | gpt-utils/gpt-utils.cpp:200-203 | the name buffer becomes the entry's 8-bit name, zero-filled |
| BootChain.GptPentrySeek | gpt-utils/gpt-utils.cpp:186-212 | the first matching entry at or after the start, or none |
| BootChain.SwapEntries | gpt-utils/gpt-utils.cpp:262-265 | the three copies exchange the two slots |
| BootChain.GptBootChainSwap | gpt-utils/gpt-utils.cpp:229-270 | the array in memory becomes the swapped one; 1 is returned exactly when no pair was found |
| SwapList.SwapListIsPlain | gpt-utils/gpt-utils.h:81-85 | no listed name has a NUL or ends in "bak", which the laws of the pass need |
| SwapList.UefisecappStays | gpt-utils/gpt-utils.h:85 | the pair of the name listed twice is left in place by a pass over the shipped list |
| SwapList.ListedPairs | gpt-utils/gpt-utils.cpp:235-269 | a pass over the shipped list exchanges the pair of every listed name, except "uefisecapp", and on UFS devices xbl, xbl_config, multiimgoem, multiimgqti and xbl_ramdump |
| SwapList.BootLunEntriesStay | gpt-utils/gpt-utils.cpp:244-247 | on UFS devices every entry with one of those five names, plain or with "bak", stays where it is |
| GptDisk.WholeEntries | gpt-utils/gpt-utils.cpp:286-392 | the 32-bit array size is a whole number of 128-byte entries, even if it wrapped |
| GptDisk.HeaderWrite | gpt-utils/gpt-utils.cpp:495-528 | writing a header of the same geometry disturbs neither the other header nor an array |
| GptDisk.ArrayWrite | gpt-utils/gpt-utils.cpp:379-384 | writing an array disturbs neither header nor the other array |
| CrashSafety.ReadBack | gpt-utils/gpt-utils.cpp:407-458 | what the program reads from a disk in the course of an update: both states, both checksums, the array to swap |
| CrashSafety.StageOnView | gpt-utils/gpt-utils.cpp:712-892 | the stage call on bytes makes exactly the writes of the abstract stage |
| CrashSafety.StageViewsReached | gpt-utils/gpt-utils.cpp:758-884 | every write of every stage stays among the reachable combinations of marks, checksum and entries |
| CrashSafety.CrashSafe | gpt-utils/gpt-utils.cpp:712-892 | after any sequence of stage calls, each cut off after any write, one table is fully valid and neither header has a wrong checksum |
| CrashSafety.Converges | gpt-utils/gpt-utils.cpp:736-884 | from wherever interrupted calls left the disk, finishing from the decoded stage gives the disk of the uninterrupted update |
| CrashSafety.UpdateRestoresTables | gpt-utils/gpt-utils.cpp:758-884 | the finished update leaves the primary byte for byte, makes the secondary's entries the primary's, both tables valid, and nothing else changed |
| CrashSafety.NoPairNoWrites | gpt-utils/gpt-utils.cpp:758-884 | with no pair to swap no sequence of calls ever writes |
| CrashSafety.OnlyTheDecodedStageWrites | gpt-utils/gpt-utils.cpp:736-779 | on any disk, a call out of order writes nothing |
| CrashSafety.RepeatIsQuiet | gpt-utils/gpt-utils.cpp:772-779 | repeating a completed MAIN or BACKUP returns 0 and writes nothing |
| UpdateOutcome.CorruptHeadersRefused | gpt-utils/gpt-utils.cpp:744-756 | on any disk: with a wrong header checksum, or both signatures cleared, every stage call returns -1 and writes nothing |
| UpdateOutcome.WhenBothAreGood | gpt-utils/gpt-utils.cpp:758-825 | only MAIN does anything; it returns -1 if the LUN switch fails or the primary's entries do not match their checksum, 0 without writes if there is no pair, else it makes three writes |
| UpdateOutcome.WhenThePrimaryIsCleared | gpt-utils/gpt-utils.cpp:758-862 | MAIN returns 0 and FINALIZE -1 without writes; BACKUP makes two, unless the LUN switch fails |
| UpdateOutcome.WhenTheSecondaryIsCleared | gpt-utils/gpt-utils.cpp:758-882 | BACKUP returns 0 and MAIN -1 without writes; FINALIZE makes three, unless the primary's entries do not match their checksum |
| UpdateOutcome.MainWrites | gpt-utils/gpt-utils.cpp:806-825 | what is read after each write of MAIN: the secondary header for the swapped entries, those entries, the primary's signature cleared |
| UpdateOutcome.BackupWrites | gpt-utils/gpt-utils.cpp:849-862 | the same for BACKUP: the primary's signature restored, then the secondary's cleared |
| UpdateOutcome.FinalizeWrites | gpt-utils/gpt-utils.cpp:869-882 | the same for FINALIZE: the secondary header for the primary's entries, those entries, the secondary's signature restored |
| ExampleDisk.SoundDisksExist | gpt-utils/gpt-utils.h:43-63 | for any checksum there is a disk with both tables valid, a pair of the shipped list to swap, and a handle that fits it |
| UpdateProgram.BlockDevice.GptGetState | gpt-utils/gpt-utils.cpp:407-458 | the state read is that of the header on the device |
| UpdateProgram.BlockDevice.GptSetState | gpt-utils/gpt-utils.cpp:475-533 | the header region and nothing else is rewritten, if the write succeeds and the state can be set |
| UpdateProgram.BlockDevice.Gpt2SetBootChain | gpt-utils/gpt-utils.cpp:286-392 | header then array are written for the chosen chain, cut off where writing stops; with a wrong checksum or no pair nothing is |
| UpdateProgram.BlockDevice.DecodeStage | gpt-utils/gpt-utils.cpp:736-770 | the stage that the two headers stand for, or an abort |
| UpdateProgram.BlockDevice.PreparePartitions | gpt-utils/gpt-utils.cpp:712-892 | the device goes through the images of the stage call and stops where writing stops; the return code says so |
| DiskCommit.UpdatedHeaders | gpt-utils/gpt-utils.cpp:1437-1471 | with equal header sizes an update of the checksums is the array-checksum edit of each header |
| DiskCommit.UpdatedFits | gpt-utils/gpt-utils.cpp:1437-1471 | after an update the array checksums are right; the primary header is valid exactly if it is signed, the secondary if it is signed and sealed as well as over its own size |
| DiskCommit.CommitSteps | gpt-utils/gpt-utils.cpp:1474-1520 | what the four writes leave to be read after each of them |
| DiskCommit.CommitValidity | gpt-utils/gpt-utils.cpp:1437-1520 | for every handle that fits, signed or not: after each of the four writes, exactly when the primary and when the secondary is valid |
| DiskCommit.CommitNeverWithoutIff | gpt-utils/gpt-utils.cpp:1437-1520 | exactly when some table is valid at every write boundary |
| DiskCommit.CommitCrashSafe | gpt-utils/gpt-utils.cpp:1437-1520 | the case of two signed headers of one size: a table is valid from the second write on, both after the fourth, and exactly when after the first |
| DiskCommit.LoadedFits | gpt-utils/gpt-utils.cpp:1339-1412 | a loaded handle can be committed after any edit of its entries |
| DiskCommit.ReloadReadsCommitted | gpt-utils/gpt-utils.cpp:1339-1520 | loading after a commit reads back headers, arrays and array checksums; the header checksums too exactly if each stored one is the checksum of its header with that value filled in |
| ExampleDisk.ReloadedCrcCanDiffer | gpt-utils/gpt-utils.cpp:1339-1520 | with a checksum that sees the field, the loaded header checksum is never the committed one |
| ExampleDisk.CommitCanLeaveNoTable | gpt-utils/gpt-utils.cpp:1474-1520 | for every checksum that tells a pair of entries from the exchanged pair: a disk cut in MAIN on which a commit leaves no valid table after its first write |
| ExampleDisk.CommitAfterMainCanLeaveNoTable | gpt-utils/gpt-utils.cpp:1339-1520 | for the same checksums: when MAIN has completed, a commit of other secondary entries leaves no valid table after its third write |
| DiskCommit.GptDiskHandle.GetDiskInfo | gpt-utils/gpt-utils.cpp:1339-1412 | the handle gets the headers, arrays and checksums of the device |
| DiskCommit.GptDiskHandle.UpdateCrc | gpt-utils/gpt-utils.cpp:1437-1471 | the buffers and fields become the updated ones; an uninitialised handle is refused and unchanged |
| DiskCommit.GptDiskHandle.Commit | gpt-utils/gpt-utils.cpp:1474-1520 | four writes in order, each array as long as its header says, abandoned at the first that fails |
| AgpsMachine.StateAndListAgree | gps/gnss/Agps.cpp:73-283 | in every run handles are distinct and RELEASED means nobody is listed; without modem restarts the converse holds and PENDING and ACQUIRED have an active subscriber |
| AgpsMachine.StepAgrees | gps/gnss/Agps.cpp:73-283 | every event keeps that agreement |
| AgpsMachine.DeactivateFacts | gps/gnss/Agps.cpp:109-171 | unsubscribing marks the one subscriber with that handle and no other |
| AgpsMachine.ReachMiss | gps/gnss/Agps.cpp:311-344 | a notification reaches exactly the selected subscribers and leaves the others |
| AgpsTraces.LinkNeverBreaks | gps/gnss/Agps.cpp:289-309 | in every run, restarts included, requests and releases alternate with the framework's answers as the automaton says |
| AgpsTraces.ReleaseCallsAreOwed | gps/gnss/Agps.cpp:289-309 | each release call gives back a request not released since, not denied before it was granted, not closed after it was granted |
| AgpsTraces.ReleaseIsOfAnOpenRequestIff | gps/gnss/Agps.cpp:196-283 | for each release call and its latest request: nothing released, denied or closed it in between exactly if no answer came that the no-op branches (a close in PENDING, a denial in ACQUIRED) pass over |
| AgpsTraces.RequestsAreSeparated | gps/gnss/Agps.cpp:289-309 | between two requests there is a release call, a denial or a close |
| AgpsTraces.SubscriptionsAreConserved | gps/gnss/Agps.cpp:311-381 | without restarts a handle is listed exactly when asked for and not yet ended by a terminal callback, and no callback reaches an unlisted handle |
| AgpsTraces.LivesAreOrderlyIff | gps/gnss/Agps.cpp:73-381 | without restarts every subscription of a handle gets at most one open, none after it left, and one terminal callback, exactly if it is never asked for again while listed and ACQUIRED |
| AgpsTraces.AskingAgainOpensAgain | gps/gnss/Agps.cpp:93-99 | such a run, with its second open |
| AgpsService.ServiceIsExact | gps/gnss/Agps.cpp:73-381 | in every run without restarts and for every handle: each callback comes on the very event that calls for it, as an automaton over the history says, none is missing and none comes unowed; a denial of a wanted call means failure, the end of a release, by a close or a denial, means a close |
| AgpsService.StepAdds | gps/gnss/Agps.cpp:73-381 | what each event in each state adds to the history, in order |
| AgpsService.CallbacksOfStep | gps/gnss/Agps.cpp:311-381 | for each event exactly which handles are told of an open, of a failure and of a close |
| AgpsService.RestartSilences | gps/gnss/Agps.cpp:672-683 | after a modem restart, whatever else happens, no handle is told anything until it asks again |
| AgpsQueue.AlwaysJoined | gps/gnss/Agps.cpp:73-309 | however clients of any type, network, deliveries and restarts interleave: replies answer the WWAN_ANY calls one for one in order, and a call wanted or being released, if answered at all, has its answer queued |
| AgpsQueue.LastReply | gps/gnss/NativeAgpsHandler.cpp:140-162 | if the latest call is of type WWAN_ANY, PENDING means the last queued reply answers it and RELEASING means it is a close |
| AgpsQueue.DeliveryProgresses | gps/gnss/Agps.cpp:173-283 | any delivery in any state makes the measure smaller, though it may queue a new reply |
| AgpsQueue.QueueDrains | gps/gnss/Agps.cpp:173-283 | from any state, once clients are silent the queue empties |
| AgpsQueue.DrainsOrStalls | gps/gnss/Agps.cpp:73-283 | after any run of any types it then is RELEASED or ACQUIRED, or its latest call was of a type that is never answered |
| AgpsQueue.SettlesIff | gps/gnss/Agps.cpp:173-283 | from any state, with any types behind it, it then is RELEASED or ACQUIRED exactly if state, queue, current type and waiting subscribers say so beforehand |
| AgpsQueue.Quiesces | gps/gnss/Agps.cpp:73-283 | after any run of WWAN_ANY requests it is RELEASED or ACQUIRED |
| AgpsQueue.LoneCallSettlesIff | gps/gnss/NativeAgpsHandler.cpp:140-162 | a call made with nothing queued is settled by silence exactly if it is of type WWAN_ANY |
| AgpsQueue.PassedOverIffDoomed | gps/gnss/Agps.cpp:230-252 | a standing request can meet an answer that is passed over exactly if its queue, read from the head, comes to one before an answer that ends the request |
| AgpsQueue.PromptRequestIsNotDoomed | gps/gnss/Agps.cpp:230-252 | a request made with nothing queued never does |
| AgpsReplies.RepliesAreDue | gps/gnss/NativeAgpsHandler.cpp:140-162 | over every run of any types: the k-th reply heard or queued is due to the k-th WWAN_ANY call, a close for a release, a grant for a request made when the handler was last told that mobile data is up, else a denial |
| AgpsReplies.LoneRequest | gps/gnss/NativeAgpsHandler.cpp:145-151 | a request on its own ends ACQUIRED with its client told of the open if mobile data is up, RELEASED with its client told of the failure if not |
| AgpsLateClose.LateCloseBeforeRelease | gps/gnss/Agps.cpp:196-241 | a run with a close between a request and its release call |
| AgpsRouting.ManagerRunsMachines | gps/gnss/Agps.cpp:564-683 | behind the manager each machine is a run of its own, so every law of machine runs holds there |
| AgpsRouting.RepliesRouteBack | gps/gnss/Agps.cpp:538-562 | in every run the A-GNSS machine and its calls have types -1, 1 and 5 only, the internet machine others only, 5 only if the emergency PDN is to be used; a reply with such a type routes back |
| AgpsRouting.RequestGoesTo | gps/gnss/Agps.cpp:538-599 | types -1, 1 and 5 are requested of the A-GNSS machine, 5 as 1 if the emergency PDN is not to be used, all others of the internet machine; without that machine the client is refused |
| AgpsRouting.ReleaseGoesTo | gps/gnss/Agps.cpp:601-627 | a release goes to the machine that lists the client, A-GNSS first, and nowhere if none does |
| AgpsRouting.ReportGoesTo | gps/gnss/Agps.cpp:629-670 | a report reaches the machine of its type as the event it reports |
| AgpsRouting.RestartReachesBoth | gps/gnss/Agps.cpp:672-683 | a restart empties both lists and changes nothing else |
| AgpsProgram.NativeAgpsHandler.Notify | gps/gnss/NativeAgpsHandler.cpp:84-104 | connected becomes the mobile bit of the last network item, if there is one |
| AgpsProgram.LastItemDecides | gps/gnss/NativeAgpsHandler.cpp:85-90 | the last network item decides, by the lowest bit of its mask; without one the flag stays |
| AgpsProgram.AgpsStateMachine.GetSubscriber | gps/gnss/Agps.cpp:466-479 | the first subscriber with the handle |
| AgpsProgram.AgpsStateMachine.AnyActiveSubscribers | gps/gnss/Agps.cpp:433-443 | whether some subscriber is active |
| AgpsProgram.AgpsStateMachine.NotifyAllSubscribers | gps/gnss/Agps.cpp:311-381 | the walk that erases tells the selected subscribers in order and keeps exactly the others |
| AgpsProgram.AgpsStateMachine.ProcessSubscribe | gps/gnss/Agps.cpp:73-107 | the fields become those of the machine after the event |
| AgpsProgram.AgpsStateMachine.ProcessUnsubscribe | gps/gnss/Agps.cpp:109-171 | the same for an unsubscribe, with the release call it makes |
| AgpsProgram.AgpsStateMachine.ProcessGranted | gps/gnss/Agps.cpp:173-194 | the same for a grant |
| AgpsProgram.AgpsStateMachine.ProcessReleased | gps/gnss/Agps.cpp:196-241 | the same for a close |
| AgpsProgram.AgpsStateMachine.ProcessDenied | gps/gnss/Agps.cpp:243-283 | the same for a denial |
| AgpsProgram.AgpsStateMachine.Process | gps/gnss/Agps.cpp:41-71 | one input, whole: the machine's new value and the replies queued for its call |
| AgpsProgram.AgpsManager.RequestATL | gps/gnss/Agps.cpp:564-599 | the manager's new value and the replies queued; a type without machine is refused at once |
| AgpsProgram.AgpsManager.ReleaseATL | gps/gnss/Agps.cpp:601-627 | the machine that lists the handle, A-GNSS first, gets the unsubscribe |
| AgpsProgram.AgpsManager.Report | gps/gnss/Agps.cpp:629-670 | a grant, denial or close goes to the machine of its type |
| AgpsProgram.AgpsManager.HandleModemSSR | gps/gnss/Agps.cpp:672-683 | both machines that exist lose all their subscribers |
| AgpsProgram.AgpsManager.CreateAgpsStateMachines | gps/gnss/Agps.cpp:515-536 | a machine is made exactly if it is called for and not there yet |
| AgpsHost.HostIsWorld | gps/gnss/Agps.cpp:564-683 | in every run manager and native handler are the joined system under the requests they serve; SUPL requests are refused at once and no second machine appears |
| AgpsHost.HostQuiesces | gps/gnss/Agps.cpp:564-683 | quiescence of the manager: any messages and then silence leave an empty queue, and a settled machine exactly if the queue settled it, as it does whenever all requests served are for WWAN_ANY |
| SetMap.HasAdd | gps/core/SystemStatusOsObserver.cpp:160-162 | add puts exactly the product of keys and values into the relation |
| SetMap.HasTrim | gps/core/SystemStatusOsObserver.cpp:146-158 | trimming takes exactly that product out |
| Subscriptions.ProcessKeeps | gps/core/SystemStatusOsObserver.cpp:59-275 | every message keeps the maps converse, without empty entries and in step with the framework, and changes the relation as it says |
| Subscriptions.UpdateKeeps | gps/core/SystemStatusOsObserver.cpp:134-198 | after an update the client wants exactly the new items, others are untouched, and the two framework calls do not disturb each other |
| Subscriptions.AlwaysConverse | gps/core/SystemStatusOsObserver.cpp:59-275 | in every run the maps are converse with no empty entry, and the items asked for and not dropped are the keys of the item map |
| FrameworkCalls.CallsOfMessage | gps/core/SystemStatusOsObserver.cpp:59-275 | which calls each message makes to the framework, by kind, items and order, from what clients want before and after it: a subscribe requests data exactly if asked to, else subscribes to the items newly wanted, if any |
| FrameworkCalls.CallsAreExact | gps/core/SystemStatusOsObserver.cpp:59-275 | in every run the current object has been called exactly so |
| Delivery.CacheMeans | gps/core/SystemStatusOsObserver.cpp:525-553 | after a batch the cache holds the value last accepted for each accepted item, and else what it held |
| Delivery.ExactDelivery | gps/core/SystemStatusOsObserver.cpp:292-325 | a client hears of a batch once, exactly the changed items it wants with the values last accepted; others hear nothing |
| Delivery.MessageTells | gps/core/SystemStatusOsObserver.cpp:89-325 | every message sends a client at most one bundle, of what it makes due |
| Delivery.AlwaysUpToDate | gps/core/SystemStatusOsObserver.cpp:59-325 | in every run each client was last told, for every cached item it wants, the value last accepted |
| ObserverProgram.SystemStatusOsObserver.Notify | gps/core/SystemStatusOsObserver.cpp:330-353 | the batch posted is the copies that could be made, and nothing if there are none |
| ObserverProgram.CopiedAreKnown | gps/core/SystemStatusOsObserver.cpp:333-348 | a report is copied as often as it comes if its kind is known, else not at all |
| ObserverProgram.CopiedInOrder | gps/core/SystemStatusOsObserver.cpp:333-348 | the copies keep the order of the reports |
| ObserverProgram.SystemStatusOsObserver.Proc | gps/core/SystemStatusOsObserver.cpp:59-325 | processing the next message does what the message stands for, so the laws of runs hold of the object |
| ObserverProgram.SystemStatusOsObserver.SubscribeProc | gps/core/SystemStatusOsObserver.cpp:100-118 | both maps, the first response and the framework call of a subscribe |
| ObserverProgram.SystemStatusOsObserver.UpdateProc | gps/core/SystemStatusOsObserver.cpp:142-186 | the same for an update |
| ObserverProgram.SystemStatusOsObserver.UnsubscribeProc | gps/core/SystemStatusOsObserver.cpp:209-225 | the same for an unsubscribe |
| ObserverProgram.SystemStatusOsObserver.UnsubscribeAllProc | gps/core/SystemStatusOsObserver.cpp:245-264 | the same for an unsubscribe-all |
| ObserverProgram.SystemStatusOsObserver.NotifyProc | gps/core/SystemStatusOsObserver.cpp:292-325 | the loops over batch, ids and clients give the cache and the deliveries of the batch |
| ObserverProgram.SystemStatusOsObserver.SendCachedDataItems | gps/core/SystemStatusOsObserver.cpp:497-523 | the client hears the cached ones of the items, unless there are none |
| ObserverProgram.KeepOnly | gps/core/SystemStatusOsObserver.cpp:312-321 | the erase loop leaves the intersection |
| StatusHistory.RecordKeepsThePast | gps/core/SystemStatus.cpp:1539-1566 | a call adds at most one entry, a default as it is or a report merged with the newest entry, and otherwise touches only the reporting time of the newest |
| StatusHistory.IgnoredLeavesNoTrace | gps/core/SystemStatus.cpp:1542-1544 | in any run, from any history, the same is recorded as without the ignored reports |
| StatusHistory.LastOfMeans | gps/core/SystemStatus.cpp:1552-1555 | what is stored is the end of the history, as much as fits |
| StatusHistory.NeighboursDiffer | gps/core/SystemStatus.cpp:1545-1549 | in every run an entry brought in by a report differs from the one before it |
| StatusHistory.EndSuffices | gps/core/SystemStatus.cpp:1539-1566 | working on the stored end alone gives the end of the full history |
| StatusHistory.ReportVector.SetIteminReport | gps/core/SystemStatus.cpp:1539-1557 | the stored vector stays the last five entries of the full history, and the result says whether it grew |
| StatusHistory.ReportVector.SetDefaultIteminReport | gps/core/SystemStatus.cpp:1559-1566 | the same for a default |
| StatusHistory.ReportVector.GetIteminReport | gps/core/SystemStatus.cpp:1568-1576 | the latest-only read is the last entry of the full history, or nothing |
| NetworkTable.ConnectInserts | gps/core/SystemStatus.h:549-563 | entering a connection keeps the table well formed and inserts into the bounded set |
| NetworkTable.DisconnectDeletes | gps/core/SystemStatus.h:564-596 | taking one out keeps it well formed and deletes the entry with that handle and type |
| NetworkTable.CollatedRefines | gps/core/SystemStatus.h:533-606 | a merged report is an insertion, a deletion if the report names any type, or nothing |
| NetworkReports.NewestTableIsTheSet | gps/core/SystemStatus.h:533-606 | from any recorded well-formed table, after any reports, recorded or not, the newest table has no hole and no repeat and is the bounded set |
| NetworkReports.TableFromTheStart | gps/core/SystemStatus.cpp:1545-1552 | the same from nothing recorded, where the first report is taken with the table it carries |
| NetworkReports.NetworkNeighboursDiffer | gps/core/SystemStatus.h:522-532 | recorded neighbours differ in mask, connection, table or APN |
| NetworkReports.NewsIff | gps/core/SystemStatus.h:522-532 | a report is news exactly if, merged, it differs from the newest record in more than type, names, availability, roaming, handle and time |
| NetworkReports.NoNewsMovesTheTime | gps/core/SystemStatus.cpp:1545-1549 | a report that is no news gives the newest record its time and touches nothing else |
| NetworkReports.NewestTime | gps/core/SystemStatus.cpp:1545-1552 | in every run the newest record has the time of the last report |
| NetworkReports.ApnIsTheMobiles | gps/core/SystemStatus.h:543-546 | in any run the recorded APN is the first one that is not empty since the last mobile report |
| NetworkTable.TypeBitIsShift | gps/core/data-items/DataItemConcreteTypes.h:393-395 | each type has the bit of its number, other numbers none |
| NetworkReports.CoversAfterIff | gps/core/SystemStatus.h:547-604 | for every report, whatever its mask and type code: the merged mask has the type of every listed network, entered as type or as code, exactly under the stated condition on report and table, branch by branch |
| NetworkReports.SparesByType | gps/core/SystemStatus.h:564-604 | for a disconnection whose mask is the bit of its type, coded or not: if no other handle has its code, nothing else of its type may be listed; if one has, nothing of another type; with no bit, nothing typed at all |
| NetworkReports.MaskHoldsThroughoutIff | gps/core/SystemStatus.h:533-606 | over a run the mask has every listed type all the time exactly if every report meets that condition |
| NetworkReports.UnknownTypeForgetsAll | gps/core/SystemStatus.h:564-604 | a disconnection of an unknown type after which a mobile network that is up is not in the mask |
| NetworkReports.MaskForgetsANetwork | gps/core/SystemStatus.h:598-602 | four reports after which a listed network is not in the mask |
| NetworkReports.MaskForgetsACodedNetwork | gps/core/data-items/DataItemConcreteTypes.h:307-335 | the same with framework codes, where the network forgotten is a mobile one |
| NetworkReports.MaskForgetsTheFirstNetwork | gps/core/data-items/DataItemConcreteTypes.h:319-335 | the first coded network is entered under its type, and forgotten when a later one of its kind goes |
| NetworkReports.TracksIff | gps/core/SystemStatus.h:549-596 | a report moves the listed handles as it should exactly if a connection finds its handle or a place, and a disconnection names a type and the code its handle is listed under |
| NetworkReports.TableTracksThroughoutIff | gps/core/SystemStatus.h:533-606 | over a run the table lists exactly the connected handles all the time exactly if every report meets that |
| NetworkReports.FirstCodedNetworkStays | gps/core/SystemStatus.h:564-596 | for every code and handle: the first network the framework reports stays listed after its disconnection, with mask 0 |
| NetworkProgram.SystemStatusNetworkInfo.Collate | gps/core/SystemStatus.h:533-606 | the object becomes the merged report |
| NetworkProgram.SystemStatusNetworkInfo.EnterOwn | gps/core/SystemStatus.h:549-563 | the loop enters the connection at the first free slot unless the handle comes before it |
| NetworkProgram.SystemStatusNetworkInfo.TakeOutOwn | gps/core/SystemStatus.h:565-596 | the loop and the move take the entry out and count the others of its type |
| NetworkProgram.EventNetworkInfo | gps/core/SystemStatus.cpp:1731-1742 | the report is recorded, and if it is news the reporter's item takes over the newest mask and table |
| NetworkReports.ResetEmptiesIff | gps/core/SystemStatus.cpp:1474-1482 | a reset takes out exactly the networks of the records kept whose type, cut to eight bits, has a bit; it empties the table exactly if those are all, and never one of more than five |
| NetworkReports.ManySurviveAReset | gps/core/SystemStatus.cpp:1474-1482 | runs of six to ten connections from nothing recorded after whose reset a network is still listed |
| NetworkProgram.ResetNetworkInfo | gps/core/SystemStatus.cpp:1474-1482 | the loop posts one disconnection for each record kept |
| NetworkProgram.SystemStatusNetworkInfo.CopyFrom | gps/core/data-items/DataItemConcreteTypes.cpp:762-801 | the copy in place, which leaves everything alone if only the APN differs |
| NetworkDelivery.ReactsAreRuns | gps/core/SystemStatusOsObserver.cpp:292-325 | reports in batches are a run of the history and of the observer at once, and the copy is what the cache holds |
| NetworkDelivery.CodesRoundTrip | gps/core/data-items/DataItemConcreteTypes.h:344-431 | types and framework codes stand for each other both ways; other numbers are of unknown type, whose code is 300 |
| NetworkDelivery.ClientsKnowTheNetworks | gps/core/SystemStatusOsObserver.cpp:292-325 | over any run of reports and subscriptions each client that wants network information was last told a table that is the bounded set of networks |
| NetworkDelivery.ToldExactlyIfNews | gps/core/SystemStatus.cpp:1731-1742 | a client that wants it is told a bundle exactly when the status takes the report |
| NetworkDelivery.MaskIsToldIff | gps/core/data-items/DataItemConcreteTypes.cpp:762-801 | when the mask told is that of the newest record; otherwise it is the bit of the type |
| NetworkDelivery.TypeIsToldIff | gps/core/data-items/DataItemConcreteTypes.cpp:767-783 | when the type told is that of the report; in any case it stands for the same |
| NetworkDelivery.TypeToldNeverChanges | gps/core/data-items/DataItemConcreteTypes.cpp:767-783 | in any run of reports with types and not codes, as eventConnectionStatus is called, the type told stays that of the first report |
| NetworkDelivery.LastDisconnectionIsToldAsMobile | gps/core/data-items/DataItemConcreteTypes.cpp:782 | the last mobile network leaves the table empty and the recorded mask 0, and clients are told the mobile bit |
| NetworkDelivery.ApnIsToldIff | gps/core/data-items/DataItemConcreteTypes.cpp:768-780 | when the APN told is that of the report; otherwise nothing told changes |
| NetworkDelivery.NewApnIsNotTold | gps/core/data-items/DataItemConcreteTypes.cpp:768-780 | a changed APN that is recorded as news and told as the old one |
| NetworkHandler.FlagFollowsTheCopy | gps/gnss/NativeAgpsHandler.cpp:84-104 | over any run of reports and subscriptions the handler's connected flag is the mobile bit of the copy |
| NetworkHandler.FlagIsRecordedIff | gps/gnss/NativeAgpsHandler.cpp:84-104 | when a report is taken, the flag is the mobile bit of the recorded mask except in one stated case |
| NetworkHandler.FlagMissesNone | gps/gnss/NativeAgpsHandler.cpp:84-104 | while the mask has every listed type the flag misses no mobile network |
| NetworkHandler.FlagMissesAMobileNetwork | gps/gnss/NativeAgpsHandler.cpp:84-104 | a run with the flag down and a mobile network listed |
| NetworkHandler.FlagKeepsAMobileNetwork | gps/gnss/NativeAgpsHandler.cpp:84-104 | a run with the flag up and nothing listed |
| Estimator.AlwaysTelescopes | gps/core/LocApiBase.cpp:942-1002 | in every run, from the sixth fix in a row on, the kept difference less that of the clocks is fixed by that fix |
| Estimator.IdealIgnoresUtc | gps/core/LocApiBase.cpp:942-992 | the estimates are the same whatever the real-time clock showed at any call |
| Estimator.EstimatesFollowTheData | gps/core/LocApiBase.cpp:967-979 | between two trusted fixes after calibration the estimates differ as the data times do |
| Estimator.EstimatesInARow | gps/core/LocApiBase.cpp:942-992 | in any history, along fixes that continue each other after a reset or a jump: six times the time of the call less the travel time, then the sixth estimate moved by the data times alone |
| Estimator.OthersLeaveNoTrace | gps/core/LocApiBase.cpp:942-992 | failed and untrusted calls change no later estimate; they themselves give -1 and the time of the call less the travel time |
| Estimator.ElapsedRealtimeEstimator.GetElapsedRealtimeEstimateNanos | gps/core/LocApiBase.cpp:942-992 | the estimate is the calibration estimate plus the elapsed data time, with untrusted and failed calls and resets interleaved anywhere |
| AdapterArray.AlwaysTheSet | gps/core/LocApiBase.cpp:236-281 | in every run the array has no hole and no repeat, holds the bounded set, and sends a close exactly when a removal empties it |
| AdapterArray.EvtMaskMeans | gps/core/LocApiBase.cpp:172-179 | an event is in the mask exactly if it is not excluded and a registered adapter asks for it |
| AdapterArray.LocApiBase.AddAdapter | gps/core/LocApiBase.cpp:236-245 | the array and the messages are those of the run with the addition |
| AdapterArray.LocApiBase.RemoveAdapter | gps/core/LocApiBase.cpp:247-281 | the same for a removal |
| AdapterArray.LocApiBase.CloseGap | gps/core/LocApiBase.cpp:253-272 | the last adapter moves into the gap |
| AdapterArray.LocApiBase.GetEvtMask | gps/core/LocApiBase.cpp:172-179 | the mask for the adapters added and not removed |
| AdapterArray.LocApiBase.ToAllAdapters | gps/core/LocApiBase.h:103-106 | a broadcast calls each registered adapter exactly once |
| AdapterArray.LocApiBase.ToFirstHandlingAdapter | gps/core/LocApiBase.h:108-109 | adapters are asked until one handles the call; if none does all were asked once |
| Address.UnpackPacked | gps/core/LocApiBase.cpp:82-87 | unpacking undoes packing, for every digit string and filler |
| Address.UnpackedAt | gps/core/LocApiBase.cpp:83-88 | whatever the octets hold, every half octet that is a digit is put down in its place, low half first, and nothing else is |
| Address.DecodedPacked | gps/core/LocApiBase.cpp:68-93 | decoding a packed digit string gives it back, cut to the buffer less its terminator, after the prefix 0x91 and nothing after any other |
| Address.DecodeAddress | gps/core/LocApiBase.cpp:68-93 | the buffer gets the decoded text and a terminator and is otherwise unchanged; the result is the text's length |

## Left out

- Opening and closing devices, `ioctl`, `lseek64`, property and symlink lookups: the block size, the device's
  length and whether it is UFS are given. Short reads and writes in `blk_rw` and failed allocations are outside
  the model; a failed write aborts the call exactly as a power loss does.
- The polynomial of CRC-32: every result holds for any function of the covered bytes.
- `set_boot_lun`, `gpt_utils_set_xbl_boot_partition`, `recovery-ufs-bsg`: switching the XBL boot LUN is one
  step that may fail before any GPT write. The loop of `prepare_boot_update` over LUNs is not modelled.
- The disk laws need what the program takes for granted: both headers fit their block, agree on the size of
  the array, entries are 128 bytes, and the four regions do not overlap. The commit laws also need a handle with
  the disk's own geometry and arrays of the recorded size, which loading gives (`DiskCommit.LoadedFits`); equal
  header sizes and signatures only enter where a row says so.
- `gpt_disk_get_pentry`, the partition map, `gpt_utils` lookups by partition name: easy members only.
- `AgpsStateMachine::deleteSubscriber` and the branch of an unsubscribe that does not wait for the close:
  unreachable through the manager, which always sets wait-for-close (gps/gnss/Agps.cpp:595). Subscribers are
  values in the list; the current-subscriber pointer is the position in it.
- When the handler is told of networks and when the machine acts are interleaved freely: `AgpsHost` takes the
  connected flag as an input at any time, and `NetworkHandler` says what the flag is.
- APN, bearer, APN type mask and slot of A-GPS calls: payload that no branch looks at.
- `GnssAdapter.cpp` is not part of this model: its commands are taken to post to one queue that is served in
  order (gps/gnss/GnssAdapter.h:505-508 declares them).
- `LocUnorderedSetMap` is not part of this model: `SetMap` takes its operations as the comments at
  gps/core/SystemStatusOsObserver.cpp:146-162 describe them.
- The answer of the system status to a reported item, and the value that the observer's own copy of it then
  has, are part of the message in `Observer`; `NetworkDelivery` computes both for NETWORKINFO. The `copyFrom` of
  the other items is not modelled, nor padding bytes in the comparison of tables. Sets are walked in any order;
  clients do not call back while they are told, and what a reset posts is taken in after its loop.
- `turnOn`, `turnOff` and backhaul requests: counting only. Items without a table in `SystemStatus`: only their
  `equals`, `ignore` and `collate` matter to the history, and they are parameters of it.
- The two type names of a network report are one value that is only compared and copied.
- Overflow of the 64-bit times in the estimator; `getElapsedRealtimeQtimer` and the GPS-time pairs.
- Opening and closing the location API when its messages are processed; `isMaster`, `isInSession`,
  `needReport`.
- `BatchingAdapter`, `GeofenceAdapter`, `LocationAPI`, `touch`, `udfps`, `power`, `libinit`: not modelled.
