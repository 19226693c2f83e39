# A verified model of dddatasync

dddatasync keeps a folder of a few files alike on all devices of one user. A *rendezvous server*
(written in Rust, with a twin in Python) knows accounts, login sessions and which devices of a user
are online. Each device runs a *watcher* over its folder, the *store*, and offers new files to the
user's other devices, which pull them. A device's key comes from a user name and a passphrase and is
kept in an *identity file*.

The project models the parts of this that interleave or encode, and proves what they promise.

- **The server** (`Server`, `ServerInvariant`, `ServerHistory`, `Requests`, `Provenance`,
  `PruneRuns`, `SessionEnd`, `LiveServer`, `LiveRuns`). A transition system over the four shared maps, a clock, the pruning
  task and any number of requests in flight. Every section under a lock is one step; everything else
  can happen between two sections. `LiveServer.AppState` is the same program as a class with the
  maps as fields, and its methods are proved to make exactly the steps of the transition system;
  `LiveRuns` drives it through any schedule, so that what is proved of runs is proved of the object.
  `Requests` follows each kind of request from its arrival to its reply, among any others;
  `Provenance` leads every account, approval, session and record back to the request that asked for it.
- **The registry** (`Registry`, `RegistryLoops`, `RegistryRun`, `Keepalive`). The list loops of both
  servers, in place, refined to a map from user to map from device to record; the equality of the
  twins on every run; the invisibility of pruning; and the timed argument that the watcher's
  keepalive outlives the server's expiry.
- **The store** (`Directory`, `Store`, `StoreThreads`, `StoreProofs`, `StoreLimit`, `StoreResults`,
  `StoreAdds`, `StoreAlone`, `StoreOutcomes`). One class with the operations as they are programmed, and one
  transition system in which any number of adds, limit checks, removes, cleanings and pulls run in
  one directory, a chunk or a directory entry at a time, with a crash possible anywhere. An add or a
  limit check that runs alone in the second is shown to do what the first says; what each outcome
  means when it does not run alone is in `StoreOutcomes`.
- **Synchronisation** (`Sync`, `SyncProofs`, `SyncResults`, `SyncPushes`, `SyncInodes`, `SyncLoops`,
  `Watcher`).
  Any number of nodes, users, pushes and pulls. Files travel as content-addressed blobs; any
  connection, fetch, export or reply can fail at any time. `SyncInodes` is the same network over
  directories of inodes, where an export writes through the file it has open whatever has become of
  its name.
- **Encodings** (`Framing`, `Hex`, `Salt`, `Identity`).

## What holds, and where the code falls short

Everything in the server's maps has a reason. An account was asked for by a signup; it is Approved
only if that signup needed no approval or a verify came with its token. A session was opened with the
right password at a moment when the account was Approved. A record was sent by a registration of its
own user, carries the time read for it, and stays in every answer for 300 seconds unless its user
registers or withdraws that device.

Pruning the registry is unobservable: two runs that differ only in prunes show every client the same
peers. Pruning *sessions* is not quite: a session is accepted in the second in which it expires and
dropped in that same second. `PruneRuns.PrunesUnobservableIff` gives the exact condition, and
`PruneRuns.DisturbedRun` a run that meets it.

The keepalive suffices exactly if 120 (m + 1) + lead + late <= 300 seconds, where m is the number of
registrations that may fail in a row: 180 seconds of slack without failures, 60 if no two in a row
fail, none otherwise. This is for runs of any length in which the server accepts the registrations.
The program loads one token at its start (src/main.rs:112-115) and a session lasts a day without
being renewed, so in practice it ends: a device that registers with one session is in no answer once
that session, the time a request is in flight and 300 seconds are over
(`SessionEnd.GoneAfterTheSession`).

The store's limit of three visible files survives any interleaving of adds. Pulls do not check it,
so every pull may exceed it. An add can exceed it too, when a pull lands while the add holds the
mutex: `StoreAdds.PassesLimit` says exactly when, in terms of what the listing returned and what
landed, and `StoreResults.PullDuringAdd` is a run that ends with four files by an add. Without a
landing in that interval no add exceeds it.

An add fails if its name exists, but it checks before it renames. At the rename the name is taken if
and only if a pull landed it after the check and nobody removed it since (`StoreAdds.TargetTaken`).
The add then replaces the pulled file and reports success: `StoreResults.AddReplacesPulled` is such
a run.

The watcher checks the limit for a file that is already in the store, so it needs two free places
where the store needs one. The third file is stored and never offered
(`Watcher.ThirdFileIsNotPushed`), and with three files not even a modification is offered
(`Watcher.FullStoreIsSilent`), contrary to the module comment at src/watcher.rs:10-14.

Two pulls at a node that overlap and export under one name break provenance. In
`SyncInodes.SharedNameBreaksProvenance` the second pull truncates the first one's file, the first
renames it into place and acknowledges, and the second writes its own bytes into what is now
visible. The suffix of the name comes from the process id and the nanoseconds within a second
(src/sync.rs:454-462), so this is unlikely, not impossible. With different names for overlapping
pulls, provenance holds down to the inodes (`SyncInodes.ProvenanceOnDisk`), and the model over names
alone is exact.

A message body decodes to itself exactly up to 65536 bytes. Longer ones are refused up to 2^32
bytes, where the 32-bit length wraps.

Distinct user names of 1 to 32 nonzero bytes have distinct salts. `Salt.NamesApart` is the exact
condition for names of any length. The empty name and "_" share a salt; every name above 32 bytes
shares its salt with the 32 bytes it folds to, and with the name in which two bytes a multiple of 32
apart have changed places. Such users, with the same passphrase, share an identity
(`Identity.SameSaltSameIdentity`). The comment at src/auth.rs:108 speaks of a SHA-256 digest; the
code combines bytes by exclusive or, and so does the model.

An identity file reads back unchanged exactly when the user name has no line feed and does not end
in a carriage return. With a line feed in the name, the next login with the same credentials fails,
unless the name itself spells the key.

Where the repository's own documents differ from the code, the model follows the code. README.md:20
says that there is no authentication, but registering and deregistering need a session of that user.
README.md:26-31 promises that the later modification time wins, but no modification time is
consulted: the last rename wins. README.md:9 promises a total limit of 1 GB, which is checked
nowhere.

## Assumptions

Time does not go backwards. Random tokens are fresh. A request runs its sections to the end. Hashing
is injective and a fetch delivers the blob it was asked for or fails. Temporary names in the store
are not reused, and pulls that overlap at a node use different export names. The source of an add
does not change while it is copied and its name is not hidden. A node reads a file that it offers in
one moment.

## Model

| member | source | states |
|---|---|---|
| Registry.ByIdHolds | rendezvous/src/main.rs:415-421 | A list without repeated node ids and a map from node id to record hold the same records |
| Registry.UpsertRefines | rendezvous/src/main.rs:415-421 | Overwriting the record of a known device, or appending, is a map update and keeps node ids distinct |
| Registry.RetainRefines | rendezvous/src/main.rs:480-483 | Filtering a list is restricting the map, and keeps node ids distinct |
| Registry.RegisterRefines | rendezvous/src/main.rs:415-421 | Register sets one record in the nested map user to device to record and changes nothing else |
| Registry.DeregisterRefines | rendezvous/src/main.rs:456-462 | Deregister removes one device of one user, and a user left without devices altogether |
| Registry.FetchRefines | rendezvous/src/main.rs:431-439 | The answer holds exactly the user's records seen within the time to live, each device once |
| Registry.PruneRefines | rendezvous/src/main.rs:480-483 | Prune leaves exactly the live records of every user and no user without records |
| Registry.CutoffsAgree | rendezvous-py/rendezvous/registry.py:41-43 | The saturating cutoff of one server and the negative one of the other keep the same records at every time |
| Registry.PruneTotal | rendezvous/src/main.rs:479-487 | A prune never raises the number of records, so the reported difference does not underflow |
| RegistryLoops.RetainPeers | rendezvous/src/main.rs:481 | The loop keeps the records that pass the test, in order |
| RegistryLoops.CountRecords | rendezvous/src/main.rs:479 | The sum over the lists is the number of records |
| RegistryLoops.RustRegistry.Register | rendezvous/src/main.rs:415-421 | The search for the device and the overwrite or push, in place, compute the specified list |
| RegistryLoops.RustRegistry.ListPeers | rendezvous/src/main.rs:431-439 | The filtered list of live records, in order |
| RegistryLoops.RustRegistry.Deregister | rendezvous/src/main.rs:456-462 | Retain, then drop the key if the list is empty |
| RegistryLoops.RustRegistry.RetainLive | rendezvous/src/main.rs:480-483 | Every list is filtered and empty users go, in one pass over the map |
| RegistryLoops.RustRegistry.PruneExpired | rendezvous/src/main.rs:475-488 | Retains the live records of all users; the count is the number of records before minus after |
| RegistryLoops.PythonRegistry.UpsertPeer | rendezvous-py/rendezvous/registry.py:22-36 | The index loop with early return computes the specified list |
| RegistryLoops.PythonRegistry.FetchPeers | rendezvous-py/rendezvous/registry.py:39-43 | The filtered list of live records, in order |
| RegistryLoops.PythonRegistry.RemovePeer | rendezvous-py/rendezvous/registry.py:46-56 | Filters one user's list and deletes the key if it is empty; nothing for an unknown user |
| RegistryLoops.PythonRegistry.PruneExpired | rendezvous-py/rendezvous/registry.py:59-70 | The loop over a snapshot of the keys of a changing dict prunes every user; the count is records before minus after |
| RegistryRun.TwinsAgree | rendezvous-py/rendezvous/registry.py:22-70 | On every run both servers have the same lists in the same order, give the same answers and report the same prune counts |
| RegistryRun.Replay | rendezvous-py/rendezvous/registry.py:22-70 | The two imperative programs, driven through any run, never part in state or answer |
| RegistryRun.SimulateRuns | rendezvous/src/main.rs:408-487 | Registries with the same live part give the same answers for ever, whatever prunes each of them runs |
| RegistryRun.PruneIsUnobservable | rendezvous/src/main.rs:408-487 | Inserting, moving or deleting prunes anywhere leaves every answer the same map from device to record, delayed stamps included |
| Keepalive.StaysListed | src/watcher.rs:112-129 | Within the bound, a device is in every answer from its first registration on, in runs of any length with other users and prunes |
| Keepalive.LatestFetch | src/watcher.rs:112-129 | Beyond the bound there is a run on time in which an answer lacks the device |
| Keepalive.KeepaliveBound | src/watcher.rs:112-129 | The device is never hidden if and only if 120 (misses + 1) + lead + late <= 300; 180 s of slack without misses, 60 s with single ones |
| LiveServer.EmailInUse | rendezvous/src/main.rs:253-258 | The search through all accounts finds whether an address is taken |
| LiveServer.RetainSessions | rendezvous/src/main.rs:491-494 | Keeps exactly the sessions that expire later than now |
| LiveServer.AppState.AdmitSection | rendezvous/src/main.rs:246-268 | Both conflict checks and the insertion, as one step |
| LiveServer.AppState.TakeSection | rendezvous/src/main.rs:300-308 | The token leaves the map before any account is touched |
| LiveServer.AppState.ApproveSection | rendezvous/src/main.rs:310-324 | Only a Pending account is approved; a missing account is not an error |
| LiveServer.AppState.LoginSection | rendezvous/src/main.rs:339-377 | Unknown user and wrong password look alike; only an Approved account goes on to a session |
| LiveServer.AppState.BearerSection | rendezvous/src/main.rs:174-181 | A session counts up to and including its last second |
| LiveServer.AppState.AccountSection | rendezvous/src/main.rs:183-192 | The account must exist and be Approved, and the request must be about itself |
| LiveServer.AppState.WriteSection | rendezvous/src/main.rs:415-424 | The stamped record, possibly late, enters the user's list |
| LiveServer.AppState.RemoveSection | rendezvous/src/main.rs:456-464 | The device leaves the user's list |
| LiveServer.AppState.PeersSection | rendezvous/src/main.rs:431-439 | The clock is read under the lock, and no session is asked for |
| LiveServer.AppState.Serve | rendezvous/src/main.rs:212-465 | A handler runs the section its program counter points to |
| LiveServer.AppState.PruneStage | rendezvous/src/main.rs:471-500 | The pruning task reads the clock before it takes each lock |
| LiveServer.AppState.Handle | rendezvous/src/main.rs:212-501 | The class makes exactly the steps of the transition system |
| LiveRuns.Drive | rendezvous/src/main.rs:212-501 | Any schedule run on the object goes through a run of the transition system, and the invariant holds in each of its states |
| LiveRuns.DriveBoth | rendezvous/src/main.rs:471-501 | Two servers, with and without prunes, have the same accounts, and answer alike if no authentication reads a session in the second it expires |
| ServerInvariant.Invariant | rendezvous/src/main.rs:212-501 | The accounts, handlers, sessions, registry and token book agree in every reachable state |
| ServerHistory.StatusHistory | rendezvous/src/main.rs:310-321 | Clock and accounts only move forward: Pending, Approved, Blocked, and no account disappears or changes its name or address |
| ServerHistory.TokenConservation | rendezvous/src/main.rs:244-276 | A Pending account's token is in exactly one place: its signup, the map, or one verify in flight |
| ServerHistory.NeverStranded | rendezvous/src/main.rs:300-322 | From every reachable state with a Pending account at most four further steps approve it |
| ServerHistory.TokenApprovesOnce | rendezvous/src/main.rs:300-322 | A token approves at most once in a run, and only the account created with it |
| ServerHistory.Trail | rendezvous/src/main.rs:167-192 | A handler that acts for a user has passed both checks: earlier an unexpired session, later an Approved account |
| ServerHistory.RegistryProvenance | rendezvous/src/main.rs:399-462 | Every change of the registry is a prune or concerns one user who passed both checks before, and leaves all other users alone |
| ServerHistory.ServerWide | rendezvous/src/main.rs:244-483 | Names match keys, addresses are distinct, tokens and sessions and registry keys belong to accounts, none of the latter two Pending, lists are nonempty with distinct devices stamped no later than now |
| Requests.IncompleteSignup | rendezvous/src/main.rs:220-225 | A signup with an empty field is refused at once |
| Requests.SignupInserts | rendezvous/src/main.rs:237-269 | A complete signup inserts exactly its account, Pending with the token it drew, or Approved without one if signups need no approval; or it conflicts with a name or address that is there at that moment |
| Requests.SignupLinks | rendezvous/src/main.rs:271-297 | After inserting a Pending account the signup adds the link from its token to that account and is answered Created |
| Requests.VerifyTakes | rendezvous/src/main.rs:300-308 | An unknown token is answered NotFound; a known one is used up at that moment |
| Requests.VerifyApproves | rendezvous/src/main.rs:310-324 | The account of the link is approved and the answer is Ok if it is Pending; otherwise it has been blocked and the answer is BadRequest |
| Requests.LoginJudged | rendezvous/src/main.rs:339-375 | Unauthorized for an unknown name or a wrong password, Forbidden for an account that is not Approved, and let on in no other case but the right password of an Approved account |
| Requests.LoginGranted | rendezvous/src/main.rs:377-387 | The right password of an Approved account ends with a reply that grants a new session of that user, for a day |
| Requests.BlockedForGood | rendezvous/src/main.rs:361-373 | A blocked account stays blocked and no later login of it is let on |
| Requests.BearerJudged | rendezvous/src/main.rs:174-181 | A change of the registry goes on exactly with a session that has not expired |
| Requests.AccountJudged | rendezvous/src/main.rs:183-192 | Forbidden for an account not Approved, BadRequest for an unreadable body, Forbidden for another user's name, in this order; the session's account always exists |
| Requests.EnrolStored | rendezvous/src/main.rs:399-424 | A registration that passes its checks sets its device's record to the addresses and relay it sent and the time read before the write, changes nothing else and is answered Ok |
| Requests.WithdrawTakesOff | rendezvous/src/main.rs:442-465 | A withdrawal that passes its checks takes its user's device away and nothing else |
| Requests.PeersAnswered | rendezvous/src/main.rs:431-439 | The answer lists exactly the user's records of the last 300 seconds, one per device |
| Requests.ReplyStands | rendezvous/src/main.rs:212-465 | A reply never changes afterwards |
| Provenance.ServesItsRequest | rendezvous/src/main.rs:212-465 | From arrival to reply a handler carries the fields of its own request and no others |
| Provenance.AccountProvenance | rendezvous/src/main.rs:237-268 | Every account comes from a complete signup with its name, address and hash; Pending with that signup's token, Approved only if the signup needed no approval or a verify came with the token |
| Provenance.ApprovedForAReason | rendezvous/src/main.rs:237-242 | Nobody is Approved without an automatic signup or a verify that approved this account with its signup's token |
| Provenance.SessionProvenance | rendezvous/src/main.rs:339-384 | Every session was opened by a login of its user with the right password at a moment when the account was Approved, and lasts a day from its insertion |
| Provenance.EnrolWrites | rendezvous/src/main.rs:404-421 | A registration that takes its write step stores its device with the addresses and relay it came with and a time read since it came |
| Provenance.WithdrawRemoves | rendezvous/src/main.rs:456-462 | After the remove step of a withdrawal its device is not in its user's list |
| Provenance.RecordProvenance | rendezvous/src/main.rs:408-421 | Every record was sent by a registration of its own user and carries the time read for it |
| Provenance.LossProvenance | rendezvous/src/main.rs:415-483 | A record goes only when it is pruned after 300 seconds or when its own user registers or withdraws that very device |
| Provenance.ListedForFiveMinutes | rendezvous/src/main.rs:427-440 | For 300 seconds a registration is in every answer about its user, as the device's only record, unless that device is registered again or withdrawn |
| Provenance.RegistrySweep | rendezvous/src/main.rs:475-488 | A sweep takes exactly the records that were older than 300 seconds when the pruner read the clock |
| Provenance.SessionSweep | rendezvous/src/main.rs:490-495 | A sweep takes exactly the sessions that had reached their expiry when the pruner read the clock |
| PruneRuns.VerdictsDiffer | rendezvous/src/main.rs:174-181 | Pruned and unpruned sessions are judged differently exactly in the last second of a dropped session |
| PruneRuns.PrunesChangeNoAccount | rendezvous/src/main.rs:471-501 | Prunes at any place enable and disable no step and change no account, link or issued token |
| PruneRuns.Simulate | rendezvous/src/main.rs:471-501 | Without such a boundary read, a run with prunes answers every request like the run without |
| PruneRuns.Expose | rendezvous/src/main.rs:491-494 | With one, some placing of prunes changes an answer |
| PruneRuns.PrunesUnobservableIff | rendezvous/src/main.rs:471-501 | All placings of prunes answer alike if and only if no authentication reads a session in the second it expires |
| PruneRuns.DisturbedRun | rendezvous/src/main.rs:174-181 | Such a run exists: sign up, log in, and come back exactly a day later |
| SessionEnd.SessionFixed | rendezvous/src/main.rs:377-383 | Whenever a session is there, it has the same user and expiry: use does not renew it and no later login overwrites it |
| SessionEnd.WrittenInTime | rendezvous/src/main.rs:174-181 | A registration that writes carries a stamp no later than its session's expiry plus its time in flight |
| SessionEnd.GoneAfterTheSession | rendezvous/src/main.rs:408-439 | A device that registers with one session only is in no answer after that session's expiry, the time in flight and the time to live |
| Store.DddSync.Files | src/store.rs:44-59 | The loop lists each visible file once with its size, and no hidden entry or directory |
| Store.DddSync.CanAdd | src/store.rs:62-85 | Size is judged before count |
| Store.DddSync.Add | src/store.rs:88-117 | Stored, too big, full or existing, in that order; rejected or not, no temporary file remains and nothing else changed |
| Store.DddSync.TempFiles | src/store.rs:125-135 | Each temporary file once |
| Store.DddSync.CleanTempFiles | src/store.rs:139-147 | Removes exactly the temporary files and returns their number, or stops at a directory; no other entry changes |
| Store.DddSync.Remove | src/store.rs:149-156 | Removes one file, or reports that there is none |
| StoreAlone.AddAlone | src/store.rs:88-117 | However it is cut into steps, an add that runs alone ends as the sequential contract says |
| StoreAlone.AskAlone | src/store.rs:62-85 | However it is cut into steps, a limit check that runs alone ends with the sequential verdict |
| StoreOutcomes.CanAddAnswers | src/store.rs:62-85 | Among other threads a limit check is too big exactly above the limit, full only if its listing returned at least three files and allowed only if at most two |
| StoreOutcomes.AddAnswers | src/store.rs:88-117 | Among other threads each outcome of an add means what it says: the size, the number of files its listing returned, the name that was met, or the whole file stored and the temporary name gone |
| StoreOutcomes.RemoveAnswers | src/store.rs:149-156 | Not found exactly if the name was missing when the remove looked; removed only by unlinking that file and nothing else; failed only if no file was there any more |
| StoreOutcomes.OutcomeMeans | src/store.rs:62-156 | Adds, checks, removes, cleanings and pulls that have ended did so for the reason their outcome gives |
| StoreProofs.FileInvariant | src/store.rs:88-147 | In every reachable state each temporary file has one owner and holds a prefix of its source, and each entry is accounted for |
| StoreLimit.Invariant | src/store.rs:62-117 | In every reachable state one thread at most is past the lock and its count, an add's or a limit check's, covers all visible files but those pulled in since |
| StoreResults.FileLimit | src/store.rs:76-83 | Visible files never exceed max(initial, 3) plus the pulls that landed |
| StoreResults.Ledger | src/store.rs:103-116 | The count changes by exactly the successful adds minus removes, plus pulls of new names, minus adds that replaced a file; without pulls by adds minus removes |
| StoreResults.PastTheLimit | src/store.rs:103-116 | A step that is not a pull raises the count by at most one, and above max(before, 3) only by creating a file in a full directory after a pull landed under the lock |
| StoreResults.PullDuringAdd | src/store.rs:103-116 | A reachable state in which an add makes four files of three |
| StoreResults.AddReplacesPulled | src/store.rs:110-116 | A reachable state in which an add is about to replace a pulled file, and does so with success |
| StoreAdds.NameWhileHeld | src/store.rs:103-116 | While a thread holds the mutex, only landings of pulls bring a visible name and only removes take one |
| StoreAdds.TargetTaken | src/store.rs:110-115 | Before the rename of an add its target exists if and only if a pull landed that name since the check and nobody removed it |
| StoreAdds.ReplacedWasLanded | src/store.rs:110-115 | Whenever an add replaces a file, that file was landed by a pull between its check and its rename, and the add reports success |
| StoreAdds.AllAccounted | src/store.rs:44-58 | At the rename the files are those the listing returned, at most two, and those landed since the mutex was taken |
| StoreAdds.PassesLimit | src/store.rs:103-115 | A rename passes max(before, 3) if and only if it brings a new name while the listed files still there and the files landed since the mutex was taken number at least three |
| StoreAdds.UndisturbedAddKeepsLimit | src/store.rs:103-115 | An add during which no pull lands never passes max(before, 3) |
| StoreResults.CompleteFiles | src/store.rs:97-117 | At every moment, crashes included, a visible file is an original or a complete copy of a source of its name |
| StoreResults.OnlyTempsLeftOver | src/store.rs:97-147 | At every moment a hidden entry is an original or a temporary file |
| StoreResults.AddLeavesNoTemp | src/store.rs:105-116 | An add that succeeded or was rejected has no temporary file, then or ever after |
| StoreResults.PullsSpareHiddenNames | src/sync.rs:242-303 | No step of a pull, from opening its export to the rename, changes a hidden name but its own export |
| StoreResults.CleanSparesFiles | src/store.rs:139-147 | No step of a clean changes an entry that is not a temporary file, whatever runs beside it |
| StoreResults.CleanRemovesListed | src/store.rs:139-147 | A clean that succeeds among other threads has unlinked exactly the names it listed, each once, so the count it reports is right |
| SyncLoops.NotifyAll | src/sync.rs:207-218 | Given what each notification came to, every peer gets its own result and the summary says whether one agreed |
| SyncLoops.Receiver.Export | src/sync.rs:291-298 | Chunk by chunk, the export file ends up with exactly the blob's bytes |
| SyncLoops.Receiver.Pull | src/sync.rs:235-307 | Succeeds exactly for a safe nonempty name and a fetched file, then the name has exactly the offered bytes; it takes the steps of the protocol |
| SyncProofs.Invariant | src/sync.rs:189-303 | In every reachable state offers are honest, exports hold prefixes of offered bytes, and visible files were written by users |
| SyncProofs.PullLands | src/sync.rs:290-303 | A pull step changes no visible name but the offered one, and that only to the offered bytes with a positive reply |
| SyncResults.Provenance | src/sync.rs:189-303 | A visible file's bytes were stored, whole and under this name, by a user of some node earlier in the run, or were there at the start |
| SyncResults.ReplySound | src/sync.rs:368-384 | A positive reply means that the peer's directory had the offered bytes under the offered name |
| SyncResults.AckSoundness | src/sync.rs:423-452 | A positive answer means that the peer had exactly the bytes that the push read from its own directory |
| SyncResults.EveryPeerTried | src/sync.rs:206-218 | For each peer of a push that has ended there is a step that adds its result; before it a connection with this offer was opened to that very peer, and its reply is the result, or it could not be reached |
| SyncResults.WaitsOnItsPeer | src/sync.rs:423-441 | The connection a push waits on was opened by it, carries its offer and goes to the peer whose turn it is |
| SyncResults.NameStaysOn | src/sync.rs:300-303 | Only a user's removal takes a visible name away |
| SyncResults.AckStability | src/sync.rs:206-303 | If one content only is stored under a name and nobody removes it, an acknowledged peer holds it in every later state, echoes included |
| SyncPushes.PushProvenance | src/sync.rs:189-206 | Every push that notifies was started for this node, name and these peers, and offers the bytes the name had at its node at the import |
| SyncPushes.PushGoesOut | src/sync.rs:151-206 | The import of a push offers the file as it then is to all given peers, unless there are none, the file is gone or the import fails |
| SyncPushes.FaultlessPullAnswers | src/sync.rs:242-307 | Among any other pushes and pulls, a pull without a fault is answered positively if and only if the offered name is plain, not hidden and not empty, and then its node has had the offered bytes |
| SyncInodes.StepAgrees | src/sync.rs:290-303 | With export names apart, writes through open files, truncation and renames of inodes do what the model over names says |
| SyncInodes.ViewsRun | src/sync.rs:290-303 | With export names apart, what the programs see of the inodes is a run of the network model |
| SyncInodes.ProvenanceOnDisk | src/sync.rs:189-303 | Provenance holds down to inodes and open files when overlapping pulls at a node use different export names |
| SyncInodes.SharedNameBreaksProvenance | src/sync.rs:454-462 | A run with a shared export name in which an acknowledged file shows bytes that nobody stored under its name |
| Watcher.HandleEvent | src/watcher.rs:154-172 | Exactly the visible files of create and modify events are offered that pass the limit with at most one other file |
| Watcher.HandlePath | src/watcher.rs:163-170 | A path is offered if and only if it names a visible file that passes the limit and there are peers |
| Watcher.PushFile | src/watcher.rs:174-217 | Limit, then peers, then the push |
| Watcher.PushedMeansWanted | src/watcher.rs:183-186 | A file that is already counted passes the limit only with at most one other visible file |
| Watcher.ThirdFileIsNotPushed | src/watcher.rs:183-186 | A file just added is offered if and only if there was at most one before |
| Watcher.FullStoreIsSilent | src/watcher.rs:183-186 | With three visible files nothing is offered |
| Framing.EncodedLengthDecodes | src/sync.rs:118-129 | Decoding the 4-byte length gives the number back |
| Framing.DecodedLengthEncodes | src/sync.rs:118-129 | Encoding the decoded number gives the 4 bytes back |
| Framing.HeadersOrderLengths | src/sync.rs:118-129 | Headers compare, first byte first, as the lengths do: the length is written most significant byte first |
| Framing.Stream.WriteMsg | src/sync.rs:113-122 | Appends the length, cast to 32 bits, and the body |
| Framing.Stream.ReadExact | src/sync.rs:128-132 | Fills the buffer with the next bytes or fails at the end of the stream |
| Framing.Stream.ReadMsg | src/sync.rs:124-134 | Header, limit, body: one message, or which error, and what is left |
| Framing.FrameReadsBack | src/sync.rs:113-134 | A frame reads back as its body, leaving the rest, if and only if the body has at most 65536 bytes |
| Framing.LongBodyIsRefused | src/sync.rs:129-130 | A longer body below 2^32 bytes is refused with its length |
| Framing.WrappedBodyIsCutShort | src/sync.rs:118 | From 2^32 bytes on the reader may take a prefix for the message |
| Framing.FramesReadBack | src/sync.rs:113-134 | A list of messages reads back with nothing left over if and only if each is within the limit |
| Framing.OnlyFramesReadBack | src/sync.rs:124-134 | A stream that reads as whole messages is exactly their frames |
| Hex.EncodeLoop | src/auth.rs:228-234 | The fold appends two lower-case digits for each byte |
| Hex.EncodedDecodes | src/auth.rs:228-247 | Decoding undoes encoding |
| Hex.DecodesExactly | src/auth.rs:236-247 | What decodes is an even number of bytes in pairs of digits, or of a plus sign and a digit |
| Hex.DecodedEncodes | src/auth.rs:228-247 | Encoding undoes decoding exactly on lower-case digits |
| Hex.TextsOrderBytes | src/auth.rs:228-234 | Texts compare, first digit first, as the bytes do |
| Hex.DecodedIsPlain | src/auth.rs:236-247 | A text decodes to the bytes whose encoding spells it in lower case with a zero for a plus sign |
| Salt.MakeSalt | src/auth.rs:112-120 | The loop in the array computes the exclusive or of the name's 32-byte blocks, or that of an underscore for zero |
| Salt.FoldedColumn | src/auth.rs:112-116 | Each byte of the fold is the exclusive or of its column of the name |
| Salt.NeverZero | src/auth.rs:117-120 | The salt is never all zero |
| Salt.ShortNamesApart | src/auth.rs:112-120 | Names of at most 32 bytes share a salt if and only if they agree without trailing zeros, an underscore standing for nothing |
| Salt.NamesApart | src/auth.rs:112-120 | Names of any length share a salt if and only if their folds agree without trailing zeros, an underscore standing for nothing |
| Salt.NoLongNameApart | src/auth.rs:112-116 | Every name above 32 bytes has the salt of a different text, the 32 bytes it folds to |
| Salt.PlainNamesApart | src/auth.rs:112-120 | Different nonempty names of at most 32 nonzero bytes have different salts |
| Salt.EmptyIsUnderscore | src/auth.rs:117-120 | The empty name and an underscore have one salt |
| Salt.LongNamesCollide | src/auth.rs:114-116 | Exchanging two bytes a multiple of 32 apart does not change the salt |
| Identity.SavedReadsBack | src/auth.rs:138-181 | A saved identity reads back unchanged if and only if its name has no line feed and no final carriage return |
| Identity.SavedKeyReadsBack | src/auth.rs:138-181 | Without a line feed the key reads back, and the name but for a final carriage return |
| Identity.CutName | src/auth.rs:162-173 | With a line feed the second part of the name is read as the key |
| Identity.IdentityStore.DeriveKey | src/auth.rs:107-135 | The key depends on the name through its salt only |
| Identity.IdentityStore.Save | src/auth.rs:138-153 | The file has the whole contents and no temporary file remains |
| Identity.IdentityStore.LoginAs | src/auth.rs:38-60 | Derive, compare with the file if there is one, else save |
| Identity.FileNeverChanges | src/auth.rs:44-56 | Once there is a file, no sequence of logins changes it |
| Identity.FirstSaveStands | src/auth.rs:38-60 | Whatever logins fail or crash, there is no file or the whole file of the first login that saved |
| Identity.OneKeyForGood | src/auth.rs:38-60 | After a first login without a line feed in the name, a later one succeeds if and only if it derives the same key |
| Identity.LoginTwice | src/auth.rs:38-60 | The same credentials work again if and only if the name has no line feed or spells its own key after it |
| Identity.SameSaltSameIdentity | src/auth.rs:38-60 | A name with the same salt and passphrase logs in on another name's file |

## Left out

- The network stack (endpoints, relays, QUIC streams), the blob store's internals, Blake3, Argon2 and Ed25519: foreign libraries. They appear as an injective hash, a verified fetch that may fail and a key derivation given as a function.
- JSON, HTTP routing and status texts, command line, logging and the token file: foreign parsers or plumbing. Message bodies are byte sequences; a request body that does not parse is one case of the request.
- Parsing of node ids, socket addresses and URLs: foreign parsers.
- Trimming and lower-casing of names and addresses at signup: the model starts after it.
- The Django views, models and administration: their correctness rests on a framework and on database constraints that are not in this repository.
- src/rendezvous_client.rs: a thin wrapper; its filter of the own node is one expression.
- Constant-time login and file permissions: neither is about results.
- Cancellation of a request between two sections and the 60 second sleep of the pruning task: a turn of the task may come at any time in the model.
- Overflow of 64-bit seconds and of the record counts.
- RegistryLoops.PythonRegistry.FetchPeers: reads the clock inside its section; the Python code reads it just before taking the lock.
- Keepalive.StaysListed: runs of any length assume that the device logs in again before its session ends, which the program does not do.
- Keepalive.KeepaliveBound: the lateness of a tick is an assumption, because handlers that are awaited in the same loop can take arbitrarily long.
- The kind of lock (read or write) and fairness: a section is atomic either way.
- SyncResults.Provenance: a push reads its file in one moment; a write in place during the import is not part of the model.
- SyncResults.AckSoundness: offers come from this program; a peer that offers other hashes or names is not part of the model.
- SyncLoops.NotifyAll: what each notification came to is given; that each peer is contacted is proved of the network, in SyncResults.EveryPeerTried.
- SyncInodes.ProvenanceOnDisk: a user's write puts a new file in place; a file edited in place keeps its inode, which is not part of the model.
- SyncResults.EveryPeerTried: says nothing about delivery, because a peer may never answer with success; echoes of pulled files mean that pushes need not come to rest.
- The directories in which pushes and pulls keep their blob stores: they are hidden and contain no file of the user.
- StoreThreads: a source that changes during the copy, temporary names that collide, and names with path components in remove.
- Store.DddSync.CleanTempFiles: files that vanish between the listing and the removal are only in the concurrent model, where the listing may be any set of temporary names.
- Watcher.HandleEvent: the file is examined and counted in one moment, and the events that the full channel drops are not part of the model.
- Identity.SavedReadsBack: the file's permissions and text that is not valid UTF-8 are not part of the model.
- I/O errors of the identity file and of listings outside an add.
- The build, container and test support files.
