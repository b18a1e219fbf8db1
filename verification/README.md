# Spectre: verified models of its protocols and path algorithms

Spectre is a web-based SSH client: a Go server that keeps SSH connections, terminal sessions,
tunnels, SOCKS5 proxies and file transfers, and a browser front end. These Dafny modules model the
parts of it whose correctness depends on interleavings, on the shape of trees and paths, or on
printers and parsers undoing each other, and prove what those parts promise.

Protocols between goroutines are state machines: one step per lock region, system call or channel
operation, any number of goroutines, theorems about every run. Beside each stands the class whose
methods are those steps; their contracts say that the object moves exactly as the step does.
The methods that are a single step each are not listed below; those that compose or compute are.
Loops and in-place updates are methods with loops; expressions are functions.

| file | what it models |
|---|---|
| Tunnels.dfy | starting and stopping tunnels, and who owns which listener |
| UploadSlots.dfy | the semaphore that limits concurrent uploads |
| UploadCopy.dfy, UploadEvents.dfy, UploadSockets.dfy | the copy loop, and its events on their way to the browser's sockets |
| Teardown.dfy | disconnect, monitor and keepalive racing to end a connection |
| Terminal.dfy | the replay buffer and live stream of a terminal session |
| BrowserQueue.dfy | the browser's upload scheduler |
| LocalFiles.dfy, RemotePaths.dfy, RemoteFs.dfy, FolderUpload.dfy | collecting a dropped folder and re-creating it remotely |
| RemoteDelete.dfy | deleting a selection, recursively |
| Tracker.dfy | connection counters and the graph drawn from them |
| ProxyDial.dfy, ProxyConfig.dfy | proxy settings: validation, resolution, dialling |
| HostPort.dfy | Go's port printing and parsing and `host:port` splitting and joining |
| ShellQuote.dfy | quoting for the remote shell, against POSIX.1-2017 word reading |
| HostKeys.dfy | trust on first use and the table behind it |
| PathViews.dfy, SocksPorts.dfy | path normalising, breadcrumbs and parent; the suggested port |

Where a promise fails, the exact condition is proved, and for all but one also an input or a run is
given:

- overlapping Starts of one tunnel id leak a listener for good (`Tunnels.ConservedExactly`,
  `Tunnels.OverlappingStartsLeak`);
- bracketed hosts are not found by the tunnels' conflict check (`Tunnels.ClashMeansSameAddress`,
  `Tunnels.BracketedIsMissed`), so on one two tunnels with port 0 may run with the same address
  (`Tunnels.DistinctExactly`, `Tunnels.TwoOnBracketedHost`);
- a Stop does nothing about a Start under way, and the tunnel may run afterwards
  (`Tunnels.RunsAfterStop`, `Tunnels.StopMayMissAStart`);
- a tunnel with port 0 as a proxy is dialled at port 0, not where it listens, and a bracketed host
  without a colon is dialled without its brackets (`ProxyConfig.TunnelResolvesExactly`,
  `ProxyConfig.PortZeroIsDialled`, `ProxyConfig.BracketsAreLost`);
- the detach of an old terminal socket silences a newer one (`Terminal.StreamedExactly`,
  `Terminal.StaleDetachSilences`);
- a Disconnect quicker than the monitor's first read makes the monitor dereference a nil client
  (`Teardown.MonitorCrashesExactly`, `Teardown.DisconnectMayOvertakeMonitor`);
- of a file whose path spells `dir:x` and an empty directory `x`, dropped together, whichever is
  met second is lost (`LocalFiles.CollectFromDataTransfer`, `LocalFiles.SecondIsLost`,
  `LocalFiles.CollisionCostsTheSecond`), and the folder is not re-created
  (`FolderUpload.DroppedFolderRoundTrip`);
- a backslash in a name becomes a separator, and the dropped folder is not re-created
  (`RemotePaths.JoinLandsUnderBase`, `FolderUpload.DroppedFolderRoundTrip`,
  `FolderUpload.BackslashSplitsName`);
- a connection id drawn twice makes the tracker's counters drift (`Tracker.AgreesThroughout`,
  `Tracker.RepeatedIdOvercounts`);
- a failed lookup while trusting a known host adds a second row for it
  (`HostKeys.DB.UpsertKnownHost`);
- a half-set manual proxy that was never validated is skipped silently
  (`ProxyConfig.DialsDirectExactly`, `ProxyConfig.HalfSetIsSkipped`).

`dafny verify dfyconfig.toml --resource-limit 2000000` checks the project.

## Model

| member | source | states |
|---|---|---|
| Tunnels.ListenersConserved | internal/tunnel/manager.go:104-186 | Listener conservation: in every interleaving in which Starts of one id do not overlap, each open listener has exactly one owner (a running entry, a Start past its bind, a Stop before its close), and once all calls have returned the open listeners are exactly those of the running entries |
| Tunnels.SerialRunConserves | internal/tunnel/manager.go:104-186 | The induction behind it, from any conserving state: such a run is a run, stays safe and keeps every open listener owned |
| Tunnels.OneStartPerIdStep | internal/tunnel/manager.go:104-167 | While Starts of one id do not overlap, no step replaces an entry that still has a backend |
| Tunnels.ConservedExactly | internal/tunnel/manager.go:104-233 | Over every run: all open listeners are owned at the end if and only if no step overwrote an entry that has a backend |
| Tunnels.LeakLasts | internal/tunnel/manager.go:104-233 | A listener nobody owns is never closed or adopted by anything the manager does later |
| Tunnels.ConservedStep | internal/tunnel/manager.go:104-233 | A step keeps every open listener owned if and only if it does not overwrite an entry that has a backend |
| Tunnels.OverlappingStartsLeak | internal/tunnel/manager.go:151-167 | Without the hypothesis: for every tunnel there is a run of two overlapping Starts of it that ends with an open listener nobody owns |
| Tunnels.SafeAlways | internal/tunnel/manager.go:104-233 | In every interleaving, overlapping Starts included: one owner per backend, every running entry has exactly one backend and every failed one none, nothing is stopped twice, and running tunnels have distinct addresses unless they are on a bracketed host with port 0 |
| Tunnels.SafeFromInit | internal/tunnel/manager.go:104-233 | The same for every reachable state |
| Tunnels.UniqueOwnersStep | internal/tunnel/manager.go:104-186 | Every step keeps: no backend has two owners, and what is owned is open |
| Tunnels.StoppedOnceStep | internal/proxy/portforward.go:79-87 | Every step keeps: an open backend was never stopped, and none is stopped twice, so the stop channel is closed at most once |
| Tunnels.DistinctAddressesStep | internal/tunnel/manager.go:151-165 | Every step keeps the addresses of running tunnels pairwise distinct where the host is plain or the port is not 0 |
| Tunnels.PublishedElsewhere | internal/tunnel/manager.go:151-165 | What passes the second conflict check has an address that no other running tunnel has, or else a bracketed host and port 0 |
| Tunnels.DistinctExactly | internal/tunnel/manager.go:73-167 | For every host that can be bound and every port: in all reachable states at most one running tunnel has that address, if and only if the host is plain or the port is not 0 |
| Tunnels.TwoOnBracketedHost | internal/tunnel/manager.go:73-167 | The other half: for every bracketed host a run of two Starts after which two tunnels run with its address and port 0 |
| Tunnels.ClashMeansSameAddress | internal/tunnel/manager.go:73-102 | Printing, splitting and parsing a running tunnel's address finds exactly the requests for its normalised host and its port if and only if its host is free of colons and brackets |
| Tunnels.BracketedIsMissed | internal/tunnel/manager.go:73-97 | A tunnel running on [::1] is not found by a request for its own address |
| Tunnels.StopUndoesStart | internal/tunnel/manager.go:104-186 | Stop right after a successful Start closes the listener that was opened and leaves all else as it was before |
| Tunnels.StopAlone | internal/tunnel/manager.go:169-186 | A Stop that runs alone removes the entry, closes exactly what it held and counts it as stopped |
| Tunnels.RunsAfterStop | internal/server/tunnels.go:110-118 | After a Stop, in every continuation: the tunnel runs at the end exactly if some Start published it after the Stop and nothing cleared it after that; if no Start of it is entered after the Stop, one was then under way |
| Tunnels.RunningExactly | internal/tunnel/manager.go:104-186 | Over every run: a tunnel runs at the end exactly if it was published and not cleared since, or ran before and was never cleared |
| Tunnels.RunsAsPublished | internal/tunnel/manager.go:104-167 | Over every run, whatever runs was published by a Start, and has the backend its last one asked for, on its address: a SOCKS5 server and no forward for socks5 and dynamic, a forward and no SOCKS5 server for local; no tunnel of another kind ever runs |
| Tunnels.FailureIsRecorded | internal/tunnel/manager.go:117-165 | In every run a Start that fails to connect or to bind, or whose address was taken meanwhile, puts the error on record before it is over |
| Tunnels.OnlyFailuresAreRecorded | internal/tunnel/manager.go:117-165 | And only such a Start does |
| Tunnels.PublisherWasUnderWay | internal/tunnel/manager.go:104-167 | Without a new Start, only a Start already under way can publish a tunnel |
| Tunnels.StopMayMissAStart | internal/tunnel/manager.go:169-186 | For every tunnel there is a complete run in which a Stop meets its Start before the publication, does nothing, and the tunnel runs afterwards |
| Tunnels.Manager.RunningBindConflict | internal/tunnel/manager.go:73-97 | The loop finds a conflicting entry, and reports none only if there is none, in whatever order the map is visited |
| Tunnels.Manager.StopRecord | internal/tunnel/manager.go:179-184 | Stops whatever backends a record has, once each |
| Tunnels.Manager.Start | internal/tunnel/manager.go:104-167 | A whole Start running alone, in every case: refused, or an error on record, or running with exactly one new listener, a SOCKS5 server exactly for socks5 and dynamic, a forward exactly for local; it succeeds exactly if the tunnel ends up running that was not |
| Tunnels.Manager.Stop | internal/tunnel/manager.go:169-186 | A whole Stop running alone: entry gone, exactly its listeners closed and counted, for absent ids nothing |
| Tunnels.Manager.BindAddrOf | internal/tunnel/manager.go:188-199 | An address exactly for running SOCKS5 tunnels, as configured |
| Tunnels.Manager.StatsOf | internal/tunnel/manager.go:201-227 | In every safe state the error about a missing backend is unreachable |
| UploadSlots.NoLostWakeup | internal/sftp/upload.go:55-79 | In every reachable state, through any resizing: active equals the number of slot holders and is at most 10, and while an upload sleeps, active plus the woken waiters is at least the limit, so a sleeper never waits with no slot held and nobody woken |
| UploadSlots.InvStep | internal/sftp/upload.go:55-79 | Every lock region keeps this |
| UploadSlots.GrantedBelowLimit | internal/sftp/upload.go:65-72 | A slot is granted only while the holders are fewer than the limit of that moment |
| UploadSlots.LimitTaken | internal/sftp/upload.go:41-61 | A limit from 1 to 10 is taken as it is, any other becomes 3 |
| UploadSlots.PresentExactly | internal/sftp/upload.go:63-79 | Over every run an upload is waiting for a slot or holding one exactly if it asked for one and has not given it back since |
| UploadSlots.SomeoneCanMove | internal/sftp/upload.go:65-79 | While any upload is present some of them can take a step: no deadlock |
| UploadSlots.DrainingStepDescends | internal/sftp/upload.go:65-79 | Every such step lowers a natural-valued rank |
| UploadSlots.EveryUploadDrains | internal/sftp/upload.go:65-79 | Without new uploads every schedule ends within that rank, and it is over exactly when all uploads have left |
| UploadSlots.UploadQueue.SetMaxConcurrent | internal/sftp/upload.go:55-63 | Out-of-range limits become 3; all sleepers are woken |
| Teardown.TornDownOnce | internal/ssh/manager.go:111-253 | For any number of racing keepalive probes and disconnects: the lost handler fires at most once, at most one Disconnect succeeds, the client is never closed twice, a mapped connection that is not connected has its lost handler still under way, and when all have finished the entry is gone, the state is Disconnected, the client was closed exactly once and somebody was told |
| Teardown.InvStep | internal/ssh/manager.go:111-253 | Every lock region keeps the four invariants behind it |
| Teardown.OneHandlerStep | internal/ssh/manager.go:224-239 | At most one goroutine gets past the state check of handleConnectionLost |
| Teardown.OneDisconnectStep | internal/ssh/manager.go:111-130 | At most one goroutine takes the map entry to disconnect |
| Teardown.OneCloseStep | internal/ssh/manager.go:121-128 | The open client is in the connection or with one disconnecting goroutine, else closed once |
| Teardown.PendingStep | internal/ssh/manager.go:218-253 | Whatever is still to be torn down has a goroutine under way that will do it |
| Teardown.ReportsExactly | internal/ssh/manager.go:111-253 | Over every run: the lost handler fires, or is due, exactly if some check of handleConnectionLost found the connection connected, and a Disconnect succeeds, or is due, exactly if one found it mapped; so at rest both have reported exactly if both were found |
| Teardown.HandlerNeedsCause | internal/ssh/manager.go:196-239 | In every run the lost handler fires, or is due, only after the transport has ended or a keepalive has failed |
| Teardown.TornDownExactly | internal/ssh/manager.go:111-253 | Over every run, once nobody but the monitor is left: if the transport has ended, a keepalive has failed or a Disconnect found the connection, it is all torn down and somebody was told; else it is untouched |
| Teardown.ProbeIsSent | internal/ssh/manager.go:196-203 | In every reachable state a keepalive is sent exactly if the connection is connected |
| Teardown.Manager.SendKeepAlive | internal/ssh/manager.go:196-216 | Running alone: an answered keepalive changes nothing, an unanswered one of a connected connection tears it down |
| Teardown.Manager.HandleConnectionLost | internal/ssh/manager.go:224-253 | Running alone: nothing for a connection no longer connected; else disconnected, reported once, out of the map if it is still the one there, its client closed once |
| Teardown.Manager.Disconnect | internal/ssh/manager.go:111-130 | Running alone: fails exactly for unknown ids; else disconnected, out of the map, its client closed once |
| Teardown.HandlerAndDisconnectMayBothReport | internal/ssh/manager.go:111-239 | There is a complete run in which both are |
| Teardown.MonitorCrashesExactly | internal/ssh/manager.go:107-253 | Over every run: the monitor dereferences a nil client exactly if its first read comes after a Disconnect or another loss has taken the client out |
| Teardown.DisconnectMayOvertakeMonitor | internal/ssh/manager.go:107-130 | There is a run in which a quick Disconnect makes that happen |
| Terminal.StreamHasNoGaps | internal/ssh/terminal.go:100-163 | From an attach on, in any interleaving with the pump and with other sockets: the socket has been handed the last 512000 bytes of the history, then every chunk in order from the first one not yet forwarded at the attach to the last one forwarded by now, if and only if each of these was forwarded while it was the current socket; so always up to the next attach or detach |
| Terminal.StreamedExactly | internal/ssh/terminal.go:124-163 | From any state, in every run in which a socket is not attached again: it is handed exactly the chunks forwarded meanwhile if and only if each was forwarded while it was the current socket; otherwise it is handed fewer |
| Terminal.ReplayThenLive | internal/ssh/terminal.go:124-163 | Replay and later chunks together are a suffix of all output, missing only what had left the buffer at the attach |
| Terminal.BufferIsTail | internal/ssh/terminal.go:147-153 | In every reachable state the replay buffer is the last 512000 bytes of all output |
| Terminal.LastKAppend | internal/ssh/terminal.go:149-152 | Trimming before an append does not change what is kept after it |
| Terminal.AttachReplays | internal/ssh/terminal.go:124-133 | An attach hands over the replay buffer, or nothing when nothing was ever printed |
| Terminal.StaleDetachSilences | internal/ssh/terminal.go:141-145 | There is a run in which the detach of an older socket silences the newer one, which then misses a chunk |
| Terminal.NotesArrive | internal/ssh/terminal.go:135-163 | Over every run a socket is handed exactly the control messages sent to it, in order |
| Terminal.TerminalSession.AttachWebSocket | internal/ssh/terminal.go:124-139 | Hands over the replay buffer if there is one, then the confirmation, makes the socket the current one and sends others nothing |
| Terminal.TerminalSession.WriteToClient | internal/ssh/terminal.go:147-163 | One chunk with nothing between its lock regions, as two steps |
| BrowserQueue.QueueInvariants | web/src/hooks/useUploadQueue.ts:40-152 | Between any two steps of any run: if something is pending the limit is used up; activeCount is the number of unfinished upload calls and at most 10; uploads start once each and in the order of enqueueing; every item is pending, started, or was taken out of pending by a socket message, and only one of these |
| BrowserQueue.InvStep | web/src/hooks/useUploadQueue.ts:40-152 | Every synchronous stretch of code keeps this |
| BrowserQueue.StartsWithinLimit | web/src/hooks/useUploadQueue.ts:118-152 | A step that starts uploads ends at or below the limit and only appends to what was started |
| BrowserQueue.RankDescends | web/src/hooks/useUploadQueue.ts:118-152 | Twice the pending items plus the active ones: lowered by one for every upload that starts, whether a finished call or a new limit made room for it, and by one for every call that ends; raised by enqueueing only |
| BrowserQueue.QueueDrains | web/src/hooks/useUploadQueue.ts:118-152 | Once enqueueing stops, the uploads that can still start and the calls that can still end are together at most that many, and when no call is in flight nothing is pending |
| BrowserQueue.EverythingUploadedInOrder | web/src/hooks/useUploadQueue.ts:53-152 | If socket messages only name started uploads: when no call is in flight every item ever enqueued was uploaded exactly once, in order |
| BrowserQueue.ShownAsTold | web/src/hooks/useUploadQueue.ts:86-152 | Over every run, what is shown of an item follows from what was told of it alone: the last word decides its status, except that the end of its call does not take back a verdict given just before; size and progress are the last ones given, and finished means full |
| BrowserQueue.ShownAsCalled | web/src/hooks/useUploadQueue.ts:118-152 | An item no message names is pending before its call, uploading exactly while it is in flight, then finished with its file's size if and only if the call succeeded, and failed if and only if it failed |
| BrowserQueue.QueueKeeps | web/src/hooks/useUploadQueue.ts:53-116 | Clearing removes exactly the finished and failed items, enqueueing adds one at the end, and nothing else adds, removes or moves any |
| BrowserQueue.ItemsKeepFiles | web/src/hooks/useUploadQueue.ts:53-66 | In every run each item has the file it was enqueued with |
| BrowserQueue.LimitTaken | web/src/hooks/useUploadQueue.ts:40-42 | A limit from 1 to 10 is taken as it is, any other becomes the nearer end |
| BrowserQueue.ConnectedExactly | web/src/hooks/useUploadQueue.ts:40-66 | Over every run a connection is known exactly once one was used or something was enqueued |
| BrowserQueue.NothingSkipped | web/src/hooks/useUploadQueue.ts:86-111 | Such messages never take an item out of pending |
| BrowserQueue.ProcessEffect | web/src/hooks/useUploadQueue.ts:118-129 | processQueue starts the first pending item if a slot is free, and nothing else |
| BrowserQueue.UploadQueueStore.SetMaxConcurrent | web/src/hooks/useUploadQueue.ts:40-51 | Clamps to 1..10 and starts as many pending items as there are new slots |
| LocalFiles.ReadDirectoryEntry | web/src/lib/localFiles.ts:29-61 | For every batching of readEntries: every file of the tree with its relative path, and every childless directory, in tree order |
| LocalFiles.FoundInDir | web/src/lib/localFiles.ts:56-58 | A directory is reported as empty exactly when its children gave nothing, that is, when it has none |
| LocalFiles.ListedOnce | web/src/lib/localFiles.ts:29-61 | With distinct sibling names, no path is listed twice |
| LocalFiles.FilesOfForest | web/src/lib/localFiles.ts:42-47 | The listed files are exactly the files of the tree, with their content |
| LocalFiles.DirsOfForest | web/src/lib/localFiles.ts:48-58 | The directories of a tree are exactly the paths above listed files and above or at listed empty directories |
| LocalFiles.FilesAreLeaves | web/src/lib/localFiles.ts:29-61 | No listed file lies on the way to anything else that is listed |
| LocalFiles.EmptyDirsAreLeaves | web/src/lib/localFiles.ts:29-61 | Nothing listed lies below a listed empty directory |
| LocalFiles.CollectFromEntry | web/src/lib/localFiles.ts:63-72 | A dropped entry gives the listing of its tree |
| LocalFiles.Absorb | web/src/lib/localFiles.ts:88-99 | The two deduplicating loops for one item: the keys seen grow by the keys found |
| LocalFiles.CollectFromDataTransfer | web/src/lib/localFiles.ts:74-114 | For dropped entries and plain files: what is collected is, in order, the first finding of every key; every key found is collected exactly once; all that was found is collected if and only if no path was found twice and no file's path spells "dir:" and the path of an empty directory; without items the plain file list is taken as it is |
| LocalFiles.KeptExactly | web/src/lib/localFiles.ts:80-111 | A file or directory is among the first findings exactly if some occurrence of it has no earlier finding with its key |
| LocalFiles.SecondIsLost | web/src/lib/localFiles.ts:88-99 | Of two findings that alone share a key, the first is kept and the second lost, whichever is the file |
| LocalFiles.CollisionCostsTheSecond | web/src/lib/localFiles.ts:88-99 | A file named dir:a and an empty directory a: dropped in this order the directory is lost, in the other the file |
| LocalFiles.FoundIsListing | web/src/lib/localFiles.ts:63-99 | For dropped entries, what is found is the listing of their forest |
| LocalFiles.CollectFromFileList | web/src/lib/localFiles.ts:116-123 | Every file of the list, in order |
| LocalFiles.AddItem | web/src/lib/localFiles.ts:84-111 | One item of the loop: an entry, a plain file or neither |
| LocalFiles.ListingNoRepeats | web/src/lib/localFiles.ts:29-61 | With distinct sibling names no path is found twice |
| LocalFiles.RepetitionShrinks | web/src/lib/localFiles.ts:88-99 | A repeated path or such a collision makes the keys fewer than what was found |
| LocalFiles.CollisionIsPossible | web/src/lib/localFiles.ts:88-99 | Such a collision exists |
| RemotePaths.JoinLandsUnderBase | web/src/lib/localFiles.ts:11-15 | joinRemotePath keeps the names of a relative path under the base if and only if none holds a backslash |
| RemotePaths.JoinRemoteSegments | web/src/lib/localFiles.ts:11-15 | In general it concatenates the names, after backslashes have become separators |
| RemotePaths.JoinIsCanonical | web/src/lib/localFiles.ts:11-15 | Under a canonical base, the root included, the joined path of names without backslashes is the canonical path of all the names |
| RemotePaths.DirPartSegments | internal/sftp/upload.go:166-184 | What EnsureRemoteDir cuts off is exactly the last name |
| FolderUpload.FolderRoundTrip | web/src/hooks/useUploadQueue.ts:68-84 | For every forest, base and order of requests (each file after its EnsureRemoteDir): without backslashes in names, all requests succeed if and only if nothing of the wrong kind stands in the way; and whenever all succeed (and no path with a backslash was there already), the remote side holds the same tree of paths, kinds and contents under the base and is otherwise unchanged if and only if no name holds a backslash |
| FolderUpload.DroppedFolderRoundTrip | web/src/hooks/useUploadQueue.ts:68-84 | From the drop to the remote tree, for every forest of dropped entries, base, and order of the requests made from what the collector returned: if all succeed (and no path with a backslash or a shared key was there already), the dropped folder is re-created under the base and all else is unchanged, if and only if no name holds a backslash and no file's path spells "dir:" and the path of an empty directory; if so, all succeed exactly if nothing of the wrong kind stands in the way |
| FolderUpload.LostNotCreated | web/src/lib/localFiles.ts:88-99 | What the collector lost is not created by any request for the rest |
| FolderUpload.UncleanNotCreated | web/src/lib/localFiles.ts:11-15 | A path with a backslash below the base is never created by any request |
| FolderUpload.BackslashSplitsName | web/src/lib/localFiles.ts:11-15 | A file named a, backslash, b is sent to the path /a/b |
| FolderUpload.ScheduleBuildsPlan | internal/sftp/upload.go:166-184 | Requests that serve a plan, in any order, turn the file system into the old one plus the plan |
| FolderUpload.ScheduleSucceedsExactly | internal/sftp/upload.go:166-184 | They all succeed if and only if no file stands where a directory is planned, nor the other way |
| FolderUpload.RequestsAreSchedule | web/src/hooks/useUploadQueue.ts:68-84 | The requests made for a collection serve the plan of its tree if and only if no name in it holds a backslash |
| FolderUpload.PlannedFilesAreLocal | web/src/hooks/useUploadQueue.ts:81-83 | Below the base, the planned files are the local files |
| FolderUpload.PlannedDirsAreLocal | web/src/hooks/useUploadQueue.ts:70-79 | Below the base, the planned directories are the local directories |
| FolderUpload.PlanRecreates | web/src/hooks/useUploadQueue.ts:68-84 | A file system plus the plan has the forest re-created and is otherwise unchanged |
| RemoteDelete.DeleteSelected | web/src/pages/FileManager.tsx:119-139 | The failures are exactly the kept paths the original tree would have refused, each judged on its own; without any, what is left is the original minus every selected path and all below it; in any case nothing outside the selection is lost |
| RemoteDelete.KeptCoversSelection | web/src/pages/FileManager.tsx:80-83 | pathsToDelete covers exactly what the selection covers, and is an antichain if and only if the root is not selected together with something else |
| RemoteDelete.PrefixIsAncestor | web/src/pages/FileManager.tsx:80-83 | The string prefix test finds exactly the proper ancestors of a canonical path, except for the root |
| RemoteDelete.RootKeptBesidesAnother | web/src/pages/FileManager.tsx:80-83 | With the root selected beside another path the kept list is never an antichain |
| RemoteDelete.UntouchedByOthers | web/src/pages/FileManager.tsx:119-139 | No deletion in an antichain is invalidated by an earlier one |
| RemoteDelete.AllRefusedAre | web/src/pages/FileManager.tsx:126-131 | The expected failures are the kept paths that are absent, cannot be told, or have a refused removal or listing below them |
| RemoteDelete.RemoteClient.Delete | internal/sftp/filetree.go:74-83 | Succeeds exactly for an existing path whose kind can be told, without a refused removal or listing below it, and then removes exactly its subtree; else nothing outside it changes |
| RemoteDelete.RemoteClient.DeleteDirRecursive | internal/sftp/filetree.go:85-106 | The recursion terminates, empties the directory before removing it, and has the same outcome |
| RemoteDelete.SiblingIntact | internal/sftp/filetree.go:90-104 | Removing some children leaves the subtrees of the others as they were |
| RemoteDelete.ChildrenGone | internal/sftp/filetree.go:105 | When all children are gone the directory is empty, so RemoveDirectory meets an empty one |
| Tracker.AgreesThroughout | internal/proxy/tracker.go:81-115 | All through a history, repeated closes included, each destination's active is the number of its live connections and its total the number ever registered, if and only if no registration drew an id in use |
| Tracker.RegisterAgrees | internal/proxy/tracker.go:81-102 | The same for one registration |
| Tracker.RepeatedIdOvercounts | internal/proxy/tracker.go:81-115 | Two connections registered under one id: two are counted as active and one is live; when it is closed one is still counted |
| Tracker.UnregisterAgrees | internal/proxy/tracker.go:104-115 | Unregistering keeps the counters right, whether or not the id is known |
| Tracker.LiveExactly | internal/proxy/tracker.go:81-115 | An id is live exactly if it was registered and not closed since, with the data of its last registration |
| Tracker.SumsComplete | internal/proxy/tracker.go:155-180 | With every destination drawn, the edges' active and count add up to the live and to all connections |
| Tracker.NodeIdsCollide | internal/proxy/tracker.go:182-185 | Two destinations may share a node id |
| Tracker.NodeIdsSharedExactly | internal/proxy/tracker.go:182-185 | Two destinations share a node id if and only if, brackets aside, they differ only in which of colon, dot and dash stands at a place |
| Tracker.ConnectionTracker.BuildGraph | internal/proxy/tracker.go:155-180 | One node per destination and one edge per node, in the same position and with that destination's counters; if the counters agree with some history, the edges add up to the headline numbers |
| Tracker.ConnectionTracker.TakeSnapshot | internal/proxy/tracker.go:131-153 | Lists the live connections; the graph's edge sums equal its two totals |
| Tracker.TrackedConn.Close | internal/proxy/tracker.go:207-213 | The first close unregisters, later ones do nothing |
| ProxyDial.DialTCPChain | internal/proxy/chain.go:11-33 | Dials the configured route, or names the first hop of an unsupported type and dials nothing; no hops means a direct dial |
| ProxyDial.DialTCP | internal/proxy/dialer.go:23-42 | One proxy or none: the same with a chain of at most one hop |
| ProxyDial.NestWalksRoute | internal/proxy/chain.go:15-28 | The dialer nested hop by hop contacts the first proxy by TCP, then each next one and at last the target by CONNECT |
| ProxyDial.RouteIs | internal/proxy/chain.go:15-28 | A route contacts its first address by TCP and each later one by CONNECT, the proxies in their order and the target last |
| ProxyDial.WalkIs | internal/proxy/chain.go:28-32 | Contacts are made in order up to the first that fails |
| ProxyDial.DialSSH | internal/ssh/dial.go:16-29 | A chain, a single proxy or none: always the route of the setting |
| ProxyConfig.ResolveProxyChain | internal/server/proxy_chains.go:113-152 | One SOCKS5 address per stored hop in the stored order, or the first hop that does not resolve and why |
| ProxyConfig.HopResolvesExactly | internal/server/proxy_chains.go:119-150 | A hop resolves exactly if it is a SOCKS5 proxy, and then as it is stored, or a usable tunnel; other kinds are refused as unsupported |
| ProxyConfig.TunnelResolvesExactly | internal/server/proxy_chains.go:122-144 | A tunnel hop resolves exactly if the tunnel exists, is not the connection's own, is a SOCKS tunnel, runs, and its host survives splitting; the port always parses; the address is the one listened on if and only if the host is plain or holds a colon and the port was configured, that is, not 0 |
| ProxyConfig.DialledIsListened | internal/proxy/socks5.go:28-84 | The rejoined address of a running tunnel is the one it listens on, its port as chosen by the system included, exactly under that condition |
| ProxyConfig.PortZeroIsDialled | internal/proxy/socks5.go:28-84 | A tunnel on any plain host with port 0 resolves to port 0, whatever port it listens on |
| ProxyConfig.BracketsAreLost | internal/server/proxy_chains.go:132-144 | A tunnel on a bracketed host without a colon resolves to the host without brackets |
| ProxyConfig.ChainDialsStoredRoute | internal/server/proxy_chains.go:113-152 | A resolved chain never runs over the connection itself; its addresses are the stored ones, for a tunnel where it listens, exactly if every tunnel's host survives and its port was configured; and dialling then contacts these first to last and then the target |
| ProxyConfig.ValidateProxyChainHops | internal/server/proxy_chains.go:92-111 | Accepts exactly chains of two or more complete hops of a known type; otherwise names the first bad hop and what is wrong with it |
| ProxyConfig.ValidateProxyConfig | internal/server/proxy.go:63-122 | Accepts exactly the connections with at most one way of proxying, complete, existing, of a supported type and not over their own tunnel; every error is true |
| ProxyConfig.ResolveProxyConfig | internal/server/proxy.go:12-61 | A chain wins over a tunnel, a tunnel over a complete manual proxy, else no proxy |
| ProxyConfig.AcceptedFailsOnTunnelsOnly | internal/server/proxy.go:12-122 | For an accepted connection resolution fails only on the state of its tunnels |
| ProxyConfig.AcceptedDialsConfigured | internal/server/proxy.go:12-122 | And if it succeeds, the proxies dialled are the configured ones, for a tunnel where it listens, if and only if the hosts of the tunnels used survive and their ports were configured; never a direct connection in their place, never an unsupported type |
| ProxyConfig.DialsDirectExactly | internal/server/proxy.go:48-60 | Without validation a connection is dialled directly exactly if nothing complete is configured or its chain is empty |
| ProxyConfig.HalfSetIsSkipped | internal/server/proxy.go:48-60 | A manual proxy with a host and port 0 is refused when saved, and resolves to no proxy |
| HostPort.AtoiItoa | internal/tunnel/manager.go:99-102 | Printing a port and parsing it gives the port back |
| HostPort.SplitBindAddr | internal/tunnel/manager.go:88-92 | What splitting a printed bind address gives, for every host and port |
| HostPort.JoinOfSplit | internal/proxy/dialer.go:18-20 | Rejoining gives the printed address back if and only if the host is plain or holds a colon |
| HostPort.PrintedOnce | internal/proxy/socks5.go:82-84 | A printed address determines its host and its port |
| UploadCopy.Upload | internal/sftp/upload.go:85-148 | Succeeds exactly if creating, all writing and the reading succeed, and then the remote file is the whole stream; otherwise it is what the rounds up to the failure wrote, counted by Progress; reports zero, then exactly one report per round that read data when one was due, in order, with the bytes written by its end, and then one last event |
| UploadCopy.CopyLoop | internal/sftp/upload.go:106-142 | The copy loop: ends on the first failing write or the end of the reading, with these reports |
| UploadCopy.DueIs | internal/sftp/upload.go:118-124 | The reporting rounds are, in increasing order, exactly those that read data when a report was due |
| UploadCopy.TakenIs | internal/sftp/upload.go:106-142 | The rounds taken end with the first failing write, or are all |
| UploadCopy.ReportsOrdered | internal/sftp/upload.go:95-147 | The reports never fall in progress if and only if the last progress report does not exceed the last event's progress |
| UploadEvents.ClientsSeeOrderedEvents | internal/server/sftp_ws.go:45-113 | In every interleaving of uploads, channel and hub: what a job's clients are sent is a subsequence of its reports, with non-falling progress, at most one last event and nothing after it, and goes to the connection it was started for only |
| UploadEvents.AllSeenExactly | internal/sftp/upload.go:150-158 | Once a job has reported everything and the channel is drained, its clients were sent all of it if and only if it made no report while 100 events waited |
| UploadEvents.DroppedExactly | internal/sftp/upload.go:150-158 | Over every run, what was dropped of a job is exactly what it reported while 100 events waited |
| UploadEvents.RegisteredExactly | internal/server/sftp_ws.go:45-90 | In every run a job is registered exactly until its done or its error is sent or about to be |
| UploadEvents.ConsumerDrains | internal/server/sftp_ws.go:57-93 | Once nothing is reported any more the consumer takes at most a bounded number of steps, and it can go on until the channel is drained |
| UploadEvents.InvStep | internal/server/sftp_ws.go:45-93 | Every channel operation and lock region keeps the order and loses nothing but what did not fit |
| UploadEvents.LastIsLast | internal/server/sftp_ws.go:76-88 | The last event of a job can only come last, so unregistering it loses nothing |
| UploadEvents.UploadIsReportable | internal/sftp/upload.go:95-147 | The reports of an upload that failed, or whose declared size covers what it wrote, meet the assumption of these results |
| UploadEvents.ProgressChannel.Notify | internal/sftp/upload.go:150-158 | Appends if fewer than 100 events wait, drops otherwise, never waits |
| UploadEvents.Hub.AddClient | internal/server/sftp_ws.go:25-32 | Adds the socket to its connection only |
| UploadEvents.Hub.RemoveClient | internal/server/sftp_ws.go:34-43 | Removes the socket from its connection only, and keeps no connection without clients |
| UploadEvents.Hub.HandleProgress | internal/server/sftp_ws.go:57-93 | An event of a registered job is written once to every client of its connection and to nobody else; a last event unregisters the job; sockets that fail are removed; events of other jobs change nothing |
| UploadEvents.Hub.DeliverAll | internal/server/sftp_ws.go:95-114 | The same for the broadcast |
| UploadSockets.SocketSeesOrderedEvents | internal/server/sftp_ws.go:25-114 | In every run of uploads, hub and sockets that join, leave and fail at any time: what one socket receives of a job is an ordered subsequence of the job's reports, and it receives something only if it was a client of the connection the job was started for |
| UploadSockets.SocketMissesExactly | internal/server/sftp_ws.go:95-114 | From any reachable state on, a socket is written all messages for a connection, in order and once, if and only if it is a client at every broadcast to it and no write to it fails; one message is missing for each failure of either kind |
| UploadSockets.ClientExactly | internal/server/sftp_ws.go:25-43 | Over every run a socket is a client of a connection exactly if it joined and has not left since, nor failed at a message of it |
| UploadSockets.InvStep | internal/server/sftp_ws.go:25-114 | Every step keeps what a socket has received within what was sent, and among the connections it joined |
| ShellQuote.QuoteIsOneWord | internal/trace/trace.go:409-411 | Followed by a separator or the end, the quoted text reads as exactly one word, the original |
| ShellQuote.TargetStaysOneWord | internal/trace/trace.go:409-411 | Put into a command line it is one word of it, and the rest reads as without it |
| ShellQuote.ScriptNamesTargetTwice | internal/trace/trace.go:134-135 | For every target, the trace script reads as three fixed stretches of tokens with the target as one word between them, twice |
| ShellQuote.TokensThenTail | internal/trace/trace.go:135 | Command lines put together at a separator are read one after the other |
| HostKeys.ContinuityOfKeys | internal/ssh/hostkey.go:42-66 | Two accepted checks of one address with different fingerprints have a trust or a deletion of it between them; without one, the later is accepted exactly if it shows the earlier's fingerprint |
| HostKeys.AcceptedStaysOnRecord | internal/ssh/hostkey.go:42-66 | An accepted fingerprint stays on record until it is overridden |
| HostKeys.TrustDecides | internal/ssh/hostkey.go:42-78 | After a trust of an address with no later trust or deletion of it, a check of it is accepted if and only if it shows the trusted fingerprint, whatever was on record before |
| HostKeys.FirstUseIsTrusted | internal/ssh/hostkey.go:42-52 | The first check of an address, ever or since its deletion, is accepted whatever it shows |
| HostKeys.OthersDoNotTouch | internal/ssh/hostkey.go:42-78 | Operations on other addresses leave the record of an address as it is |
| HostKeys.RemoteAddressSplits | internal/ssh/hostkey.go:33-40 | Printed and split again, an address is itself |
| HostKeys.DB.CheckHostKey | internal/ssh/hostkey.go:31-68 | Accepted exactly if the address shows the recorded fingerprint, or is new and could be recorded; a check that is not accepted changes nothing; one row per address is kept whatever the lookups and the store do |
| HostKeys.DB.TrustHostKey | internal/ssh/hostkey.go:70-78 | If storing works, a row of the address then holds the key, and if one row per address is kept no row of it holds another; rows of other addresses are as before; if storing fails nothing changes |
| HostKeys.DB.UpsertKnownHost | internal/store/known_hosts.go:42-51 | Overwrites the row that was found, or adds one, unless storing fails, which changes nothing; rows of other addresses are as before; keeps one row per address if and only if no row is stored after the lookup failed on a known address |
| HostKeys.DB.GetKnownHost | internal/store/known_hosts.go:34-40 | Finds a row of the address if there is one |
| HostKeys.DB.DeleteKnownHost | internal/store/known_hosts.go:53-55 | Removes the row with the id only |
| PathViews.NormalizeRenders | web/src/store/fileStore.ts:6-10 | Normalising renders the names of the trimmed path, so the result is always canonical |
| PathViews.NormalizeCanonical | web/src/store/fileStore.ts:6-10 | A canonical path is left alone if and only if it does not end in white space |
| PathViews.CanonicalExactly | web/src/store/fileStore.ts:6-10 | Canonical means: a leading slash, no empty part, no trailing slash except for the root |
| PathViews.PathToBreadcrumbs | web/src/components/filemanager/PathBreadcrumbs.tsx:6-20 | For every path: the root, then one crumb per name leading to its directory |
| PathViews.ViewsAgree | web/src/components/filemanager/FileTree.tsx:47 | On canonical paths the last crumb is the path, the file tree's parent is the crumb before it, and the labels rejoin to the path |
| PathViews.CrumbNormalizesToItself | web/src/components/filemanager/PathBreadcrumbs.tsx:13-19 | Normalising a crumb gives the crumb if and only if it is the root or its name does not end in white space |
| SocksPorts.NextSocksPort | web/src/components/proxy/Socks5Config.tsx:21-30 | The least port from 1080 that no SOCKS tunnel on the host uses, at most 1080 plus the number of tunnels |
| SocksPorts.CompetesExactly | web/src/components/proxy/Socks5Config.tsx:19-26 | The tunnels it looks at are the SOCKS ones on the named host, or without a host when loopback is meant |
| SocksPorts.FirstFree | web/src/components/proxy/Socks5Config.tsx:27-29 | The search ends after at most as many rounds as there are used ports |

## Left out

- User interface, HTTP routing, JSON, WebSocket framing, the database and process control: sockets are append-only logs and stores are maps.
- SSH, SFTP and SOCKS5 on the wire: a call succeeds or fails, as a parameter of the step says; the writer and reader contracts of Go's io package are assumed.
- Timers, speeds and error texts: reports may or may not be due in any round of the copy loop, and errors are the fact that there is one.
- Random identifiers: numbered, or parameters; where freshness matters it is a hypothesis or one side of an equivalence.
- Go integers are unbounded here: `strconv.Atoi` fails on numbers outside 64 bits, which no printed port reaches.
- The copy loops of PortForward and its wait for handlers, and the accept loops: only the listener and the single stop are modelled.
- The counters of `countingConn`: a second close lowers them again, so no count can be promised.
- Tunnels.ListenersConserved: assumes that nobody else closes or opens listeners on the machine, and that a port 0 listener is a listener of its own.
- Terminal.StreamHasNoGaps: `AttachWebSocket` reads the replay buffer without the buffer's lock; the model takes that read as one step.
- Terminal.TerminalSession.AttachWebSocket: write errors on sockets are ignored, and `waitClose` is only the control message it sends.
- Teardown.Manager.SendKeepAlive: the time of the last activity, which an answered keepalive sets.
- BrowserQueue.QueueInvariants: items do not record their connection, so one connection is modelled.
- FolderUpload.DroppedFolderRoundTrip: the equivalence assumes that no path with a backslash or a shared key, as the dropped folder spells it, is already there; with either it is not stated when the requests succeed; requests run one at a time in any order, of which the order that `enqueueTree` sorts the empty directories into is one; the client ignores a failed `mkdir`, which here counts as a failed request.
- LocalFiles.ReadDirectoryEntry: children that are neither file nor directory, which are skipped, and errors while reading.
- RemoteDelete.RemoteClient.DeleteDirRecursive: reads a directory at once, in any order; what the server refuses does not change during a deletion; symbolic links and other parties changing the tree meanwhile are not modelled; the root itself is never removable.
- RemoteDelete.DeleteSelected: takes entries of a file listing, which are canonical and never the root; error texts are left out.
- Tracker.ConnectionTracker.BuildGraph: byte counts and start times of connections.
- UploadEvents.ClientsSeeOrderedEvents: job ids are not used twice and connection ids are not empty; the `jobs` map inside the upload queue, which nothing reads, is left out.
- UploadCopy.Upload: the remote file starts empty after Create, and the size a job declares may differ from what is read.
- HostKeys.ContinuityOfKeys: checks of a run come one after another; two first checks at the same moment may both add a row.
- HostKeys.DB.CheckHostKey: keys are compared by fingerprint; that different keys have different fingerprints is not modelled.
- ShellQuote.TokensThenTail: expansions, comments and here-documents have no reading, and operators are read one character at a time.
- RemotePaths.Segments: "." and ".." are names like any other; a server that resolves them is not modelled.
- UploadSockets.SocketSeesOrderedEvents: a socket joins by a step of its own; whether a write succeeds is a parameter of the step.
- PathViews.NormalizeRenders: characters are Unicode scalar values, not UTF-16 code units.
- Encryption, key files, configuration export and import, update checks and the parsing of trace output: wrappers or heuristics without a property worth proving.
