# Models of telephony applications

Dafny models of eight applications of a telephony server, each with proofs about all inputs, all
runs or all reachable states. `dafny verify dfyconfig.toml` checks the whole project.

| application | files | what is modelled |
|---|---|---|
| MixMonitor | `MixMonitor*.dfy`, `AudiohookFeed.dfy` | the recording thread, StopMixMonitor, channel destruction and masquerade as actors that share a datastore, an audiohook, a stream, two locks and two condition variables; and which frames an audiohook refuses |
| ConfBridge | `ConfBridge*.dfy` | any number of callers joining and leaving reference-counted conference bridges, one step for each section under a lock |
| ADSIProg | `Adsi*.dfy` | the script compiler: name tables, codes, back-patched records, and the messages they are sent in |
| Dial | `Dial*.dfy` | ringing several destinations at once, and the arithmetic of the call limit |
| MiniVM | `MiniVm*.dfy` | the base64 encoder for attachments and the substitution in e-mail templates |
| Festival | `Festival.dfy` | receiving a byte-stuffed file |
| AMD | `Amd.dfy` | the answering machine detector |
| Directory | `Directory*.dfy` | keypad search and the sort of what it finds |

Where the source changes things in place, a class or a method with loops does so too and is proved
equal to a function of the old state; the properties are lemmas about those functions. Where the
source is concurrent, the model is a state machine and the properties are invariants of its runs.
I/O, clocks and the other channel calls are inputs: the events of a run, the lengths of reads, the
allocator's limit, the messages a phone accepts, the contents of uninitialised memory.

## Where the code and its description differ

- MixMonitor: a frame that cannot be fed takes the audiohook off its list without marking it done
  (main/audiohook.c:616-620), and the recording thread then waits forever in the detach (393-394). Frames are brought to
  signed linear first, so this takes a frame whose translator was lost while its format is still noted (594-603,
  main/translate.c:346); frames with a format of their own also need a translator to be unloaded meanwhile.
- MixMonitor: StopMixMonitor does not make the file available if it was not open yet (apps/app_mixmonitor.c:561-563),
  because `fs_quit` is set only when a stream was open (201-206). The thread opens it afterwards for a frame it already
  has, or, when a masquerade has moved the datastore but not the audiohook (main/channel.c:4692-4703), for any frame.
- ConfBridge: the mute flag set for a waiting user is zeroed with the features structure
  (apps/app_confbridge.c:297, 725, main/bridging.c:1309-1312).
- ConfBridge: a bridge is looked up under one lock and joined under another (448-453); if its last user leaves in
  between it is unlinked (536), and the next caller of the name is given a second bridge, so the callers are apart.
- ADSIProg: the state bytes of ONEVENT hold the result of a comparison (apps/app_adsiprog.c:845), and a script that ends
  inside an IFEVENT block is accepted (1402-1413).
- ADSIProg: DELAY in a subscript compiles to 0x90 (apps/app_adsiprog.c:378), not to the code 11 of its entry (942).
- AMD: MAXWORDLENGTH does not set `res` (apps/app_amd.c:343-349), so it is reported as NOTSURE when the wait had
  returned 0 (386-391).
- Festival: the match counter never falls back (apps/app_festival.c:115-121), so a file whose end looks like the start of
  the key does not arrive.

## Model

| member | source | states |
|---|---|---|
| MixMonitorDatastore.MixmonitorDs.CloseFs | apps/app_mixmonitor.c:199-207 | an open stream is closed, forgotten and never to be opened again (`fs_quit`); without one nothing changes, `fs_quit` included |
| MixMonitorDatastore.MixmonitorDs.Destroy | apps/app_mixmonitor.c:209-219 | channel and audiohook are forgotten, `destruction_ok` is set and one signal sent; the stream is left alone |
| MixMonitorDatastore.MixmonitorDs.ChanFixup | apps/app_mixmonitor.c:221-228 | a masquerade changes the channel pointer and nothing else |
| MixMonitorDatastore.MixmonitorDs.ForgetHook | apps/app_mixmonitor.c:238-242 | the audiohook can no longer be poked through the datastore; nothing else changes |
| MixMonitorProtocol.RunInv | apps/app_mixmonitor.c:280-364 | in every interleaving of the thread with stops, destructions and any number of masquerades the lock, data and resource invariants hold in every state |
| MixMonitorTheorems.Lifetimes | apps/app_mixmonitor.c:236-278 | whoever is about to touch the audiohook or the datastore finds it alive; each is released at most once, only after `destruction_ok`, and exactly once when the thread has ended |
| MixMonitorTheorems.ChannelPointerValid | apps/app_mixmonitor.c:310 | the channel the thread asks for its bridge peer is never one that has gone |
| MixMonitorTheorems.LockOrderThread | apps/app_mixmonitor.c:293-351 | the recording thread takes a lock only above those it holds, in the order channel, datastore, audiohook |
| MixMonitorTheorems.LockOrderHookSide | main/audiohook.c:608-623 | so does whoever passes frames to the audiohook |
| MixMonitorTheorems.LockOrderDsSide | apps/app_mixmonitor.c:554-582 | so does StopMixMonitor, which nests all three, and so do destruction and masquerade |
| MixMonitorTheorems.NoLostWakeup | apps/app_mixmonitor.c:294-350 | a thread waiting for destruction that has happened has been woken; a thread asleep though its loop must end has been woken or its poke is on the way; no poke or status change falls between the thread's check and its wait |
| MixMonitorTheorems.QuitIsFinal | apps/app_mixmonitor.c:312-347 | once `fs_quit` is set the stream is never opened, written or closed again |
| MixMonitorTheorems.StreamHistory | apps/app_mixmonitor.c:309-347 | the stream is opened at most once, written only while open, and if opened closed exactly once before the thread ends, whoever closes it |
| MixMonitorFrames.StoredFrame | apps/app_mixmonitor.c:309-333 | a frame is written whenever the stream is open, unless option b is set and the channel is gone or not bridged; if the file may still be opened it is opened and the frame written, or the error flag raised; nothing else has any effect |
| MixMonitorFrames.FramesWritten | apps/app_mixmonitor.c:326-333 | over every run the file holds as many frames as there were storing sections that ended with the stream open, less those whose frame was not wanted |
| MixMonitorFrames.FramesStored | apps/app_mixmonitor.c:302-339 | over every run each frame taken from the audiohook is stored once, but for the one in hand |
| MixMonitorFrames.StopMakesAvailable | apps/app_mixmonitor.c:561-563 | a file that is open when StopMixMonitor gets to it is closed there, and never touched again in the run |
| MixMonitorFrames.StatusMovesOn | main/audiohook.c:616-623 | the status of an audiohook only moves on, by marking to shut down and at the end of its list to done |
| MixMonitorFrames.DestroyedNotPoked | apps/app_mixmonitor.c:209-219 | after the datastore is destroyed nobody can poke the audiohook through it |
| MixMonitorFinish.OrphanedBy | main/audiohook.c:616-620 | exactly one kind of step leaves the audiohook off its list with nobody left to mark it done: a frame that cannot be fed to a running audiohook |
| MixMonitorFinish.FeedFailureOrphans | main/audiohook.c:616-620 | a run from the launch has such a step, given a frame that cannot be fed |
| MixMonitorFinish.OrphanedIff | main/audiohook.c:616-620 | over every run the audiohook is orphaned exactly when some frame before could not be fed to it while running |
| AudiohookFeed.RefusedIff | main/audiohook.c:593-616 | a frame cannot be fed exactly when its format is the one noted beside a translator that has been lost, it has data and no delivery time, and the factory has no path for it and gets none |
| AudiohookFeed.OutcomeIs | main/audiohook.c:593-616 | what becomes of every frame: linear ones are fed, others fed as translated, not offered without a path or a frame, and offered as they came or read through a null path when a noted path was lost |
| AudiohookFeed.SteadyRefusedIff | main/slinfactory.c:73-121 | as long as translators neither come nor go, that needs a frame without a format that comes before every frame that can be translated |
| AudiohookFeed.LostTranslatorRefuses | main/translate.c:263-381 | otherwise three frames do it: the translator is found, lost to a frame of a format that has none, and gone when the first format comes again |
| MixMonitorFinish.OrphanedForever | main/audiohook.c:386-397 | an orphaned audiohook stays so, and the thread never ends: the detach loop waits for a status nobody sets |
| MixMonitorFinish.CanFinishIff | apps/app_mixmonitor.c:280-364 | from any state that satisfies the invariant the thread can still end exactly when the audiohook is not orphaned, so no other deadlock is reachable |
| MixMonitorFinish.CanFinishInRun | apps/app_mixmonitor.c:280-364 | in every state of every run the thread can still end exactly when every frame so far could be fed |
| MixMonitorStop.OpensAfterStopIff | apps/app_mixmonitor.c:561-563 | the comment there promises a closed file after StopMixMonitor; for every stop that has returned, the file is opened later in some run exactly when the thread has not tried to open it, need not wait for a bridge, and has a frame in hand, or an audiohook that runs and that nobody is about to mark |
| MixMonitorStop.StopThenOpens | apps/app_mixmonitor.c:309-325 | a run in which the stop reaches the audiohook, returns, and the file is then opened for the frame in hand |
| MixMonitorStop.StopMissesAudiohook | main/channel.c:4692-4703 | a run in which a masquerade has moved the datastore, so that the stop leaves the audiohook running and the file is opened without a frame in hand |
| ConfBridgeRoom.ConferenceBridge.Enter | apps/app_confbridge.c:453-471 | joining up to the first release of the lock: user at the end of the list, both counts, own mute when waiting, unmuting of the others by a first and quiet marked user, and what is to be played |
| ConfBridgeRoom.ConferenceBridge.MuteAllBut | apps/app_confbridge.c:283-289 | everybody but the marked user is unmuted, in place |
| ConfBridgeRoom.ConferenceBridge.Remove | apps/app_confbridge.c:498 | exactly the leaver is taken from the list, the order of the others kept |
| ConfBridgeRoom.ConferenceBridge.Leave | apps/app_confbridge.c:487-508 | leaving up to the first release of the lock: counts, list, and everybody muted when the last marked user has left others behind |
| ConfBridgeRoom.EnteredOk | apps/app_confbridge.c:453-471 | joining keeps the counts equal to the list and adds just the joiner |
| ConfBridgeRoom.LeftOk | apps/app_confbridge.c:487-508 | leaving keeps the counts equal to the list, never below zero, and removes just the leaver |
| ConfBridgeTheorems.RunInv | apps/app_confbridge.c:394-543 | in every state of every run of any number of callers the invariant of counts, lists, names and references holds |
| ConfBridgeTheorems.CountsAndReferences | apps/app_confbridge.c:394-543 | at every lock release `users` is the list length, `markedusers` the number of marked members, one bridge of a name at most is linked, the references are the holders plus one if linked, and a bridge with a holder is not destroyed |
| ConfBridgeTheorems.MutingStep | apps/app_confbridge.c:253-310 | a single step keeps waiters muted while no marked user is there unless it zeroes the features of such a waiter |
| ConfBridgeTheorems.WaitersMutedIff | apps/app_confbridge.c:297 | over a whole run waiters stay muted exactly when no waiter's features structure is zeroed (725) while no marked user is there |
| ConfBridgeMuting.JoinMutes | apps/app_confbridge.c:453-471 | for any join, member by member: a first marked user who is quiet unmutes all others, one who waits while no marked user is there is muted, and nobody else's flag is touched |
| ConfBridgeMuting.JoinThen | apps/app_confbridge.c:262-340 | which prompt follows a join, and that only a first marked user who is not quiet has still to unmute the others |
| ConfBridgeMuting.LeaveMutes | apps/app_confbridge.c:487-508 | for any leave, member by member: the others are muted exactly when the last marked user has left them |
| ConfBridgeMuting.LeaderArrives | apps/app_confbridge.c:253-289 | in any run a first marked user's join unmutes everybody else at once or leads to the prompt |
| ConfBridgeMuting.LeaderPlaced | apps/app_confbridge.c:283-289 | in any run everybody else is unmuted when that prompt is over |
| ConfBridgeMuting.LeaderUnmutes | apps/app_confbridge.c:253-310 | over every run: while a marked user is there and no such prompt is playing, the only members muted are those who asked for it |
| ConfBridgeMuting.FindEffect | apps/app_confbridge.c:401-448 | a locked bridge refuses all but administrators; a new one is empty, unlocked, linked and named by the first 31 characters |
| ConfBridgeMuting.LinkEffect | apps/app_confbridge.c:535-537 | a bridge is unlinked exactly by the last user leaving it |
| ConfBridgeSplit.TogetherStep | apps/app_confbridge.c:401-448 | while the callers of each conference are in one bridge, a step parts them exactly when it creates a bridge for a name that somebody has already come to another bridge for |
| ConfBridgeSplit.TogetherIff | apps/app_confbridge.c:401-456 | over every run the callers of each conference have been in one bridge throughout exactly when no step did that |
| ConfBridgeSplit.AllLinkedIff | apps/app_confbridge.c:448-456 | every joined bridge has stayed linked exactly when no last user left a bridge somebody was about to join between the two locks |
| ConfBridgeSplit.DoublesAfterStrands | apps/app_confbridge.c:448-537 | a second bridge for a name is only created after such a leave |
| ConfBridgeSplit.SplitReachable | apps/app_confbridge.c:535-537 | a run in which two callers of one name are on the lists of two bridges, against the comment at 401 |
| AdsiTables.Table.GetByName | apps/app_adsiprog.c:552-571 | one get...byname: the first entry of that name whatever its case, else, if there is room, a new last entry with the name cut to its field; nothing else changes |
| AdsiTables.Table.Find | apps/app_adsiprog.c:594-605 | and when it may not create: the first entry of that name whatever its case, or nothing exactly when there is none |
| AdsiTables.FoundAgainIff | apps/app_adsiprog.c:552-571 | a name just interned is found again exactly when it fits its field or was there before |
| AdsiTables.InternEnters | apps/app_adsiprog.c:552-571 | a name is there afterwards if it was there or there was room, at the end if new, with its first 39 characters and a blank record; else nothing is found and nothing changes |
| AdsiTables.LookupInjective | apps/app_adsiprog.c:573-592 | two names stand for one entry exactly when they differ in case at most |
| AdsiNames.IdsNeverChange | apps/app_adsiprog.c:427-642 | an id once given to a name is never given up later in the script, in any of the five tables |
| AdsiNames.TablesAlwaysFit | apps/app_adsiprog.c:427-642 | after any lines the tables are within their arrays: 62 keys, 128 subscripts, 254 states, 7 flags, 62 displays |
| AdsiNames.NamesStayDistinct | apps/app_adsiprog.c:427-642 | in a script whose names fit their fields no table has two entries of one name, whatever the commands |
| AdsiNames.BuildDistinct | apps/app_adsiprog.c:644-875 | no command makes a second entry for a name that fits its field |
| AdsiNames.EmittedIds | apps/app_adsiprog.c:885-1010 | end to end: for any command of any line, it compiles to nothing exactly when something it needs is not there, and else to its code and to what the names, numbers and words on the line stand for in the tables at the end of the script and of the accepted one |
| AdsiDecode.ArgsDecode | apps/app_adsiprog.c:267-426 | the bytes of a command that looks nothing up: the tones of SENDDTMF in order, page or direction and line, time in tenths or hundredths, number mod 256, fixed operand; nothing when the argument is missing |
| AdsiDecode.SilentIff | apps/app_adsiprog.c:267-875 | for every command, exactly which arguments and tables make it compile to no bytes |
| AdsiDecode.InStatesListed | apps/app_adsiprog.c:832-852 | which ONEVENT lines are in order: IN and OR before up to eight declared states, and where the subscript's name then stands |
| AdsiWords.KeyWord | apps/app_adsiprog.c:885-925 | each of the 33 words of a soft key, in any case, stands for its command and code |
| AdsiWords.OpWord | apps/app_adsiprog.c:927-944 | each of the 12 words of a subscript does |
| AdsiWords.EventWord | apps/app_adsiprog.c:77-102 | the 24 event names stand for 1 to 24 |
| AdsiLines.InstructionLine | apps/app_adsiprog.c:976-1010 | an instruction appends its bytes and 255 and is counted if that leaves 1600 bytes for main and 255 for others, and changes no other record |
| AdsiLines.CodeLine | apps/app_adsiprog.c:947-974 | a code is appended if its key's codes stay within 20 bytes |
| AdsiLines.ExitLine | apps/app_adsiprog.c:976-1010 | EXIT in a subscript appends 12 and 255 |
| AdsiLines.OffhookLine | apps/app_adsiprog.c:947-974 | OFFHOOK in a key appends 0x82 |
| AdsiLines.EndKeyLine | apps/app_adsiprog.c:1264-1278 | ENDKEY defines the key and stores its length; any other word that is no code changes nothing |
| AdsiLines.EndSubLine | apps/app_adsiprog.c:1315-1325 | ENDSUB stores length and, except in main, the number of instructions, and no other byte changes |
| AdsiLines.IfEventLine | apps/app_adsiprog.c:1326-1349 | IFEVENT with an event and THEN appends 1, the event, a stale byte and 255, and opens the block; otherwise nothing happens |
| AdsiLines.EndIfLine | apps/app_adsiprog.c:1281-1286 | ENDIF stores the count of the block in the third byte of its header |
| AdsiLines.BlockGotoLine | apps/app_adsiprog.c:1287-1306 | GOTO in a block appends 8, the event of the block, the subscript's id and 255, whatever the room |
| AdsiLines.KeyLine | apps/app_adsiprog.c:1050-1121 | a KEY line with one name or two enters the key and writes its id, the long name cut to 18 and the short one cut to 7, in this order |
| AdsiLines.SubLine | apps/app_adsiprog.c:1122-1156 | a SUB line enters the subscript and writes its header; only with IS does it open it |
| AdsiLines.StateLine | apps/app_adsiprog.c:1157-1170 | a STATE line enters the state |
| AdsiLines.FlagLine | apps/app_adsiprog.c:1171-1184 | a FLAG line enters the flag |
| AdsiLines.DisplayLine | apps/app_adsiprog.c:1185-1204 | a DISPLAY line enters a display under a new name and leaves one in use as it is |
| AdsiLines.DisplayBytes | apps/app_adsiprog.c:1204-1261 | its bytes are the length, the last justification and the id, whether there is a WRAP, and the columns |
| AdsiLines.ColumnsRead | apps/app_adsiprog.c:1212-1231 | the columns are the texts on the line cut to 20 characters, with 255 after the first |
| AdsiLines.QualifiersSpelled | apps/app_adsiprog.c:1232-1252 | a list of JUSTIFY with a known word and of WRAP is read as the last justification and whether there is a WRAP |
| AdsiLines.WrongQualifier | apps/app_adsiprog.c:1232-1256 | with anything else among the qualifiers the header stays zero |
| AdsiDecode.FlagDecodes | apps/app_adsiprog.c:452-504 | the byte of SETFLAG and CLEARFLAG gives back the id of the flag and which of the two it is |
| AdsiDecode.DisplayDecodes | apps/app_adsiprog.c:691-739 | the bytes of SHOWDISPLAY give back the id of the display, NOUPDATE, the line mod 32 and the flag number after UNLESS mod 8 |
| AdsiDecode.CallDecodes | apps/app_adsiprog.c:790-813 | the second byte of GOTO is the id the subscript has in the table |
| AdsiDecode.EventDecodes | apps/app_adsiprog.c:815-875 | the bytes of ONEVENT give back the event, the number of states and the subscript; the state bytes are all 0 (845), not ids |
| AdsiDecode.ShowKeysDecodes | apps/app_adsiprog.c:644-689 | for any arguments the bytes of SHOWKEYS give back their number, the flag after UNLESS and, place by place, the id each name has in the table, and the keys end where the arguments, UNLESS, six places or the room for names do |
| AdsiDecode.ReadStays | apps/app_adsiprog.c:427-642 | bytes that say what the names of a command stand for go on saying it whatever the tables grow by |
| AdsiArguments.CollectKeys | apps/app_adsiprog.c:652-685 | the loop over the arguments of SHOWKEYS enters names in the table and ids in the array, with the bytes that stay uninitialised |
| AdsiArguments.ReadStates | apps/app_adsiprog.c:832-853 | the loop over the states of ONEVENT: which lines are in order, where the subscript stands, and what is collected for each state |
| AdsiArguments.SendTones | apps/app_adsiprog.c:267-295 | the loop over the characters of a SENDDTMF keeps the tones |
| AdsiBuffers.KeyBuffer.Begin | apps/app_adsiprog.c:1101-1121 | the bytes written one by one and by copy are the header of the key: 128, its id, the long name of at most 18 and the short name of at most 7 characters |
| AdsiBuffers.KeyBuffer.End | apps/app_adsiprog.c:1266-1273 | byte 1 becomes the length less two, and no other byte changes |
| AdsiBuffers.SubBuffer.BeginIf | apps/app_adsiprog.c:1338-1347 | a block header is reserved at the cursor, its count left as it was in memory, and the pointer to it kept |
| AdsiBuffers.SubBuffer.EndIf | apps/app_adsiprog.c:1281-1286 | the count goes to the third byte of the header pointed to, and no other byte changes |
| AdsiBuffers.SubBuffer.End | apps/app_adsiprog.c:1315-1325 | byte 1 becomes the length less two and, except in main, byte 5 the number of instructions |
| AdsiBuffers.DisplayBuffer.Define | apps/app_adsiprog.c:1186-1261 | columns, qualifiers and header of a display; the loop over the qualifiers stops at the first wrong one and then the header stays zero |
| AdsiStore.KeyTable.GetByName | apps/app_adsiprog.c:552-571 | entering a name leaves every record as it is, and the new one is blank |
| AdsiScript.Compiler.ProcessReturncode | apps/app_adsiprog.c:947-974 | a code of a key is appended in its array if the codes stay within 20 bytes; all other records stay |
| AdsiScript.Compiler.ProcessOpcode | apps/app_adsiprog.c:976-1010 | an instruction and its separator are appended in the array of its subscript and counted if there is room; all other records stay |
| AdsiScript.Compiler.LineInSub | apps/app_adsiprog.c:1313-1352 | the lines of a subscript, in place: instructions, IFEVENT with its reserved count, ENDSUB with length and count |
| AdsiScript.Compiler.LineInIf | apps/app_adsiprog.c:1279-1312 | the lines of an IFEVENT block, in place: instructions, GOTO, ENDIF with the count filled in |
| AdsiScript.Compiler.BeginKey | apps/app_adsiprog.c:1050-1121 | the KEY line: the name entered, and the header written unless the key is defined or the line is wrong |
| AdsiScript.Compiler.BeginSub | apps/app_adsiprog.c:1122-1156 | the SUB line: the name entered and the header written, which for main has no label, even when IS is missing |
| AdsiScript.Compiler.Process | apps/app_adsiprog.c:1013-1359 | one line in any of the four states changes the arrays as the functions of the compiler change the records |
| AdsiScript.Compiler.Compile | apps/app_adsiprog.c:1383-1441 | a whole script: the arrays hold what the functions compute from the lines, for the very bytes that were left uninitialised, and the same scripts are rejected |
| AdsiRoom.FewUncheckedRoomy | apps/app_adsiprog.c:1299-1346 | what compiling in place asks for, that no IFEVENT or GOTO writes past the end of a subscript, holds whenever there are 111 such lines or fewer |
| AdsiLayout.RunFollows | apps/app_adsiprog.c:976-1353 | after any lines each subscript record is the rendering of the instructions and blocks the lines put into it, up to the fields still to be filled in |
| AdsiLayout.SubLayout | apps/app_adsiprog.c:1313-1353 | a defined subscript is its header with length and instruction count, then its instructions and blocks in order, each block header counting the instructions up to its ENDIF, mod 256 |
| AdsiLayout.BodyIsSegments | apps/app_adsiprog.c:1003-1006 | the bytes past the header are as many segments, each ended by 0xff, as `inscount` says |
| AdsiLayout.CompiledSubs | apps/app_adsiprog.c:1402-1441 | in an accepted script every record is so, but for one whose block is still open, and the last has its extension bit changed |
| AdsiEnding.EndsInBlock | apps/app_adsiprog.c:1336-1352 | whenever the lines end inside a block, its subscript is what they say but for its length, its number of instructions and the count of the block, which have not been stored |
| AdsiEnding.AcceptedEnds | apps/app_adsiprog.c:1402-1441 | an accepted script ends outside of blocks with all subscripts complete, or inside a block with just that subscript unfinished |
| AdsiEnding.OpenBlockAccepted | apps/app_adsiprog.c:1402-1413 | the latter happens: a script of the language that ends inside an IFEVENT block is accepted, and the count is whatever memory held |
| AdsiRecords.KeyLayout | apps/app_adsiprog.c:1101-1121 | a defined key is 128, its length less two, its id, its two names and its codes in order, at most 50 bytes |
| AdsiRecords.DisplayLayout | apps/app_adsiprog.c:1185-1261 | every display is empty or within 46 bytes, its header, unless left out for a wrong qualifier, giving length and id |
| AdsiSender.PackFlat | apps/app_adsiprog.c:1476-1498 | the messages are all records in table order |
| AdsiSender.PackFits | apps/app_adsiprog.c:1478 | no message is empty or longer than 253 bytes, for records within that length |
| AdsiSender.NoRecordSplit | apps/app_adsiprog.c:1476-1498 | each message is a run of whole records |
| AdsiSender.Fewest | apps/app_adsiprog.c:1476-1498 | no way of putting whole records into messages in order needs fewer messages |
| AdsiSender.RecordsFit | apps/app_adsiprog.c:1476-1522 | whatever the script, its key and display records are within the length these facts need |
| AdsiSender.SendRecords | apps/app_adsiprog.c:1476-1498 | the loop sends just these messages, and if one is refused just those before it |
| DialRingCode.CauseArgs.HandleCause | apps/app_dial.c:613-665 | a hangup cause raises one counter by one, a normal clearing none |
| DialRingCode.Dialing.Forward | apps/app_dial.c:734-829 | a forward replaces the channel of its entry or ends the entry; the original is hung up once either way, and so is a new channel that cannot be called |
| DialRingCode.Dialing.HandleEvent | apps/app_dial.c:979-1245 | what a channel brings: answer, hangup or one of nine failures, with its hangup, counter, status and cause |
| DialRingCode.Dialing.WaitForAnswer | apps/app_dial.c:840-1358 | the ring loop over any rounds, with every entry still going exactly when it has a channel |
| DialRingCode.Dialing.HangupTree | apps/app_dial.c:576-595 | every channel left in the list but the exception is hung up, and the list is emptied |
| DialRing.HungUpOnce | apps/app_dial.c:576-1358 | over every run each channel that entered the list or was made by a forward is hung up exactly once, except the returned peer, which never is |
| DialAnswer.WaitAnswers | apps/app_dial.c:907-1358 | the wait returns the first channel in list order that is up or brings an answer in the first round in which one does, if time and entries last and the caller has not left by the end of that round, and otherwise no channel; who answers is said of the entries before each round |
| DialAnswer.RoundHeard | apps/app_dial.c:956-1272 | a round leaves every entry as it was but the one whose channel is heard, which ends in the counter its event calls for, is replaced by a forward, or stays; time, status and cause follow |
| DialAnswer.AnswerAtOnce | apps/app_dial.c:965-1004 | a channel that is up or brings an answer in the first round is returned at once, if none before it in the list does |
| DialAnswer.CausesCount | apps/app_dial.c:613-665 | the counter of every hangup cause by its number, and counter and status of every failure |
| DialAnswer.CallerLeft | apps/app_dial.c:1273-1316 | a caller who hangs up or presses a digit to leave cancels the call, with no time left or -1, and changes nothing else |
| DialRing.CountedOnce | apps/app_dial.c:613-665 | all failure counters together grow by one for each entry that lost its channel otherwise than by a normal clearing |
| DialRing.EveryoneBusyIff | apps/app_dial.c:909-924 | the test for "everyone is busy" is passed exactly when every entry ended as busy, as congested or without a channel |
| DialRing.RunsOutStatus | apps/app_dial.c:909-955 | a wait that runs out of entries returns no peer, and a status that depends only on the failures before it, on how each entry ended and on the last cause: BUSY before CONGESTION where everyone was busy, and no change otherwise |
| DialLimit.BridgeConfig.DoTimelimit | apps/app_dial.c:1390-1425 | the three fields of the call limit, with the error for a limit of 0 |
| DialLimit.CutTakesBack | apps/app_dial.c:1408-1423 | for a positive interval the closed form is repeated subtraction until the warning is within the limit |
| DialLimit.TakenBackLatest | apps/app_dial.c:1408-1423 | which is the latest time within the limit that keeps the rhythm |
| DialLimit.WarningIs | apps/app_dial.c:1403-1425 | which warning a limit leaves: the one asked for within the limit, else the latest in the same rhythm if it is at least 1, else none |
| DialLimit.NegativeInterval | apps/app_dial.c:1408-1423 | where exactly a negative interval puts a late warning |
| DialLimit.CutIff | apps/app_dial.c:1421 | the cut brings a late warning within the limit exactly when the interval is positive |
| DialLimit.WarningInCallIff | apps/app_dial.c:1403-1425 | with a positive limit the first warning is within the call unless it was asked for later with a negative interval |
| MiniVmBase64.FillTable | apps/app_minivm.c:796-810 | the table filled in runs of 9, 8 and 10 is the alphabet of RFC 4648, section 4 |
| MiniVmBase64.Alphabet | apps/app_minivm.c:796-810 | which is A to Z, a to z, 0 to 9, + and / |
| MiniVmBase64.TestVectors | apps/app_minivm.c:826-837 | the test vectors of RFC 4648, section 10 |
| MiniVmBase64.B64BaseIo.InChar | apps/app_minivm.c:751-759 | the next byte of the file, however its reads are split, and the end of file once and for all |
| MiniVmBase64.B64BaseIo.OChar | apps/app_minivm.c:762-777 | one character, after a line end if the line is full |
| MiniVmBase64.BaseEncode | apps/app_minivm.c:780-850 | the output is the folded encoding of the whole file, however it is read, or -1 and nothing if it cannot be opened |
| MiniVmBase64.DecodeEncode | apps/app_minivm.c:826-837 | decoding the encoding gives back any content |
| MiniVmBase64.EncodeDecode | apps/app_minivm.c:826-837 | and whatever decodes is the encoding of what it decodes to |
| MiniVmBase64.AttachmentRoundTrip | apps/app_minivm.c:780-850 | deleting the line ends of the output and decoding gives back the file |
| MiniVmBase64.OutputLines | apps/app_minivm.c:764-769 | every line but the last has exactly 72 characters, the last at most 72 and none only for an empty file; so all are within the 76 of RFC 2045 |
| MiniVmTemplate.ParseEmailBody | apps/app_minivm.c:2488-2512 | the body edited in place is the string the recursive substitution gives, and the loop ends |
| MiniVmTemplate.CloseUp | apps/app_minivm.c:2499 | the text closes up by one character, its terminator included |
| MiniVmTemplate.FirstEscape | apps/app_minivm.c:2495-2510 | the first backslash of a template becomes a new line before n, a tab before t and stays otherwise, whatever follows |
| MiniVmTemplate.ReachableIff | apps/app_minivm.c:2495-2510 | a text comes from some template exactly when no backslash in it stands before n or t, and then from its escaped form |
| MiniVmTemplate.Idempotent | apps/app_minivm.c:2495-2510 | substituting a second time changes nothing |
| Festival.SocketReceiveFileToBuff | apps/app_festival.c:76-125 | the receiver in place: every write and the later terminator (522) within the grown buffer, the data and the unread rest those of the matcher, failure only for lack of memory |
| Festival.RoundTripIff | apps/app_festival.c:97-122 | stuffed data and key arrive as the data, the receiver stopping right behind the key, exactly when the match counter ends at 0; otherwise the key is taken for data |
| Festival.KeyAsData | apps/app_festival.c:105-121 | behind all but the last byte of the key an X is dropped, the last byte ends the data, and any other byte is data |
| Festival.SingleByteFails | apps/app_festival.c:113-121 | the single byte f does not arrive |
| Festival.CutOff | apps/app_festival.c:99-100 | when the stream ends early, exactly the bytes held back by the counter are lost |
| Amd.IsAnsweringMachine | apps/app_amd.c:260-391 | the status reported for any events is that of the first frame that says anything: HUMAN exactly for a silence long enough after a word, MACHINE for such a silence without a word, for too many words, for too long a greeting, and for too long a word unless the wait for its frame returned 0, HANGUP for the end of the call, NOTSURE for the end of the analysis time and for that word |
| Amd.VerdictSays | apps/app_amd.c:264-380 | which frame says which of the seven, in terms of stretches of voice and silences |
| Amd.HeardNext | apps/app_amd.c:271-292 | what each kind of frame adds to time, length and silence |
| Amd.MaxWaitLeast | apps/app_amd.c:219-231 | the wait is the least of 50 and six of the arguments |
| Amd.Detector.Listen | apps/app_amd.c:269-380 | one frame: times, the branch for silence or voice, and the verdict |
| Amd.BoundedIff | apps/app_amd.c:219-231 | words times the minimum word length are at most the voice time, which is at most the elapsed time, over every frame sequence exactly when the wait time is not negative |
| Amd.RunSummarises | apps/app_amd.c:290-376 | while undecided the counters are those of the stretches between separating silences, the greeting has begun exactly when some stretch reached a word, and initial silence is its opposite |
| Amd.SilenceVerdicts | apps/app_amd.c:295-330 | HUMAN exactly for a long enough silence after a word, INITIALSILENCE exactly for one without |
| Amd.VoiceVerdicts | apps/app_amd.c:331-366 | MAXWORDLENGTH, MAXWORDS and LONGGREETING exactly by the length of the stretch, the words after the first separating silence and the voice time after a word |
| Amd.OtherVerdicts | apps/app_amd.c:263-286 | HANGUP exactly without a frame, TOOLONG exactly when the analysis time is used up |
| Amd.VerdictInTime | apps/app_amd.c:279-286 | without a verdict fewer frames have come than the analysis time has milliseconds |
| DirectorySearch.Compare | apps/app_directory.c:162-234 | 0 exactly when the text is not empty and what was typed is a prefix of its keypad image |
| DirectorySearch.CheckMatch | apps/app_directory.c:460-503 | an item exactly for a matching name, with its fields cut to size and last name first in its key |
| DirectorySearch.SearchDirectorySub | apps/app_directory.c:507-580 | the items of all matching entries are appended in order |
| DirectorySearch.FoundOnce | apps/app_directory.c:534-551 | item by item the list follows the matching entries, each there once, under its last name if that matches |
| DirectorySearch.ListedFullName | apps/app_directory.c:460-572 | an entry "first last" is listed exactly when last names count and the digits start its last name, or first names count and they start the full name; its fields are cut to 80 characters and it is sorted by "lastfirst" in the first case |
| DirectorySearch.NotSearched | apps/app_directory.c:516-562 | which entries are not searched: hidden or nameless mailboxes, the general section, users without directory or name |
| DirectorySearch.Keypad | apps/app_directory.c:170-239 | the letters of each key in either case, and what is skipped |
| DirectorySearch.ImageFolds | apps/app_directory.c:171 | the case of a name does not matter |
| DirectorySearch.MatchesPrefix | apps/app_directory.c:170-231 | typing less never loses a match |
| DirectorySort.Pass | apps/app_directory.c:621-629 | a pass takes away exactly one inversion for each swap, keeps entries of one key in order, and without a swap has found neighbours in order |
| DirectorySort.SortItems | apps/app_directory.c:611-631 | the sort ends, with the entries in order and those of one key in their old order |
| DirectorySort.StablePermutes | apps/app_directory.c:611-631 | so none is lost or made up |
| DirectorySort.OnlyOneOrder | apps/app_directory.c:611-631 | and there is only one such result |
| DirectorySort.SwapInversions | apps/app_directory.c:622-627 | every swap takes away exactly one inversion |
| DirectorySort.CompareLexicographic | apps/app_directory.c:623 | the order is that of a dictionary, whatever the case |
| DirectorySort.ListMatches | apps/app_directory.c:668-692 | the list a caller hears: the matching entries in that order |

## Left out

- MixMonitor: spurious wakeups of the wait for destruction, which is an `if` and not a loop (apps/app_mixmonitor.c:348-350); the command line's stop, which marks the audiohook without the channel lock (616-617); failures while the datastore is set up.
- MixMonitorTheorems.Lifetimes: speaks of one recording on a channel, as do its companions; several at once differ only in which audiohook a stop finds.
- MixMonitorFrames.FramesWritten: counts what one read of the audiohook returns as one frame, however many parts it has.
- ConfBridge: the menu's mute toggle, which reads the count without the lock (apps/app_confbridge.c:633-635); music on hold, which a leaver can restart after a new leader has come; the playback channel and the prompts themselves.
- ADSIProg: `get_token` and `process_token` on characters (apps/app_adsiprog.c:188-263): lines are lists of tokens; DESCRIPTION, VERSION, SECURITY and FDN, which do not touch the records.
- AdsiScript.Compiler.Compile: asks that IFEVENT and GOTO in a block, which check nothing (1299-1303, 1340-1346), stay within the array; a script for which they do not is outside the model.
- AdsiArguments.ShowKeys: returns the bytes and leaves writing them to its caller, as do the other argument builders, which in the source write into the record before the length is checked.
- AdsiLayout.CompiledSubs: leaves out the subscript whose block is still open; `AdsiEnding.EndsInBlock` says what that one holds.
- ADSIProg: ONEVENT with a missing token, where the source passes a null pointer (832-833, 840-841); the model takes it for an empty instruction.
- AdsiSender.SendRecords: asks for records within 253 bytes, which keys and displays are; messages for subscripts, whose records may be longer, are not claimed to fit.
- AdsiNames.NamesStayDistinct: speaks of names of at most 39 characters; `AdsiTables.FoundAgainIff` shows that longer ones are entered again.
- ADSIProg: that a separator byte is no part of a segment; SETSTATE 255 puts 0xff into one.
- Dial: what follows an answer (macros, gosub, privacy, bridging), what the loop passes between the channels, the flags copied from the winning entry, the limit of 256 watchers, and the requests made before the wait, whose counters are its input.
- Dial: the width of C integers in the call limit.
- MiniVM: errors of reads and writes; b64_inbuf's -1 is taken for success (apps/app_minivm.c:754).
- Festival: reads that return -1; the sender, which belongs to the server, is modelled by what the receiver undoes.
- AMD: the silence detector itself, whose figure comes with each voice frame; frames whose samples are miscounted; the set-up that may fail.
- Directory: allocation failures, reading the configuration, real-time entries, and the walk over contexts, which calls the modelled search for each.
- The other applications: menus driven by SQL, prompts, hardware and gateway glue, module loading; they hold no closed algorithm.
