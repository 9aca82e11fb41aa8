# Verified model of ShareLock

ShareLock keeps files in one untrusted key-value store. Every record in it is sealed: a user's *access record*
names a *mailbox*, the mailbox holds the current *file key* and names an *inode*, and the inode lists the file's
blocks. A file is shared by handing out a copy of one's mailbox through a signed invitation. It is revoked by
sealing the inode and the blocks again, in place, under a new file key and giving that key to the mailboxes that
may keep access. What a user can read therefore depends on the whole history of invitations and revocations.

This project models that program and proves what it guarantees over every run.

## How the model is layered

1. `Services` holds the program's objects: storage and key store with mutable maps, a logged-in user, and the
   file, invitation and user services with the loops over blocks and children. Each method is proved equal, from
   any state, to a function of module `Protocol`, with every early return and the order of the writes.
2. `Records` and `Protocol` describe the sealed store. A payload opens only under the key it was sealed with.
   Random UUIDs and keys are drawn from a supply that never repeats. A UUID computed from a hash is named by the
   string that was hashed, so two (user, file) pairs with the same concatenation do collide.
3. `Ledgers` names every key and every role; `Represents` says that the store is the sealed form of a ledger.
   `LedgerSteps`, `Refinement`, `RefineFiles`, `RefineSharing`, `RefineRevoke` and `RefineUsers` show that every
   operation acts on a represented store as its ledger operation does.
4. `Sharing` is the system without keys: files are byte strings and a mailbox is live or not. `Simulation` relates
   it to ledgers, and the sharing forest lives here. `KeyFree` runs that system on its own, with its own results and
   views: every run of the sealed store is one of its runs.
5. `Runs` puts everything together: any number of users and sessions, any sequence of steps. A step is an operation,
   or any number of appends and loads interleaved in any way and stopped anywhere (see 6). `Guarantees`,
   `Stability` and `Frames` hold the theorems about runs; `Secrecy`, `Knowledge` and `Exclusion` those about what a
   user can ever work out from everything the store was given. The theorems start from any world with the invariant
   `Runs.Inv`, those about secrecy from any world that is `Knowledge.Confidential`; `Runs.ReachableInv` and
   `Knowledge.ReachableConfidential` give the two for every reachable world, after interleavings as well. `Refusals`
   says which error each operation answers with in a reachable world, `Tampered` what the operations on files do on any
   store whatever, and `Sessions` what a session's list of files holds and what the next login finds of it.
6. `Stepwise`, `Concurrency`, `Interleaving`, `ConcurrentFiles` and `ConcurrentAppends` take appends and loads apart
   into single reads and writes of the store and interleave them in every way. `Continuations` lets an unfinished
   append or load go on in another store, `Overlaps` puts a revocation between its reads and its writes and says who
   can load the file then, and `OverlapRuns` shows that both ways of losing out arise.
7. `Witnesses` runs through sharing, passing on, inviting twice and revoking in every world in which the users are
   logged in, and shows what an invitation gives and who loses the file.
8. `Blocks`, `Envelope` and `Derivation` are the bytes: splitting a file, CTR mode and the HMAC, the key derivations,
   and why bytes open as the symbols do; `ByteStore` loads files from the bytes of reachable worlds, and `ByteWrites`
   stores and appends them. `Wire`, `Server` and `Remote` are the network protocol, `WireBytes` holds it against its
   description in numbers, and `Keystore` is the public keys and their caches.

The ledger, the write log and the version lists of the concurrency model are history: no operation reads them.

## Where the code and its documentation, or an obvious claim, part

- The repository's README.md:25 says that a revocation updates the remaining sharees. The code updates the revoker's
  direct children only. `Witnesses.SubShareeLoses` is a run in which a remaining sharee loses the file,
  `Frames.SubShareesGoStale` gives the family for which the claim fails, and `Frames.RevocationForOthers` says exactly
  who keeps access.
- A file called `userStruct` cannot be loaded back, because its record and the user record have one UUID:
  `Stability.StoreThenLoad` and `Stability.CollidesWithSelf`.
- Access and user UUIDs hash an unseparated concatenation. `Frames.CollisionExists` gives two colliding pairs and
  `Frames.StoreSparesIff` the exact condition under which a StoreFile spares somebody else's record. A file name can
  also collide with another user's record: `Frames.StoreLocksOut` is the login that then fails, `Frames.LoginIff` the
  exact condition under which a registered user can log in.
- Anybody with a live mailbox can revoke, and the storer is not a child of anybody. `Witnesses.StorerLoses` is a run in
  which the storer loses its own file; `Stability.KeepsAccessIff` is the exact condition on a step under which a user,
  storer or not, keeps access.
- A revocation re-keys the file, but any holder of the new key can invite the revoked user again:
  `Exclusion.RevokedLearnsIffInvited` shows that this is the only way in which the user ever learns the new key.
- Inviting a name a second time orphans the first mailbox: it works until the next revocation by anybody and then never
  again, although its user was not revoked (`Guarantees.ReinvitationOrphans`, `Guarantees.ReinvitedIsShutOut`).
  `Witnesses.ReinvitedLoses` is the run, in every reachable world.
- Two overlapping appends can lose one of them although both report success: `ConcurrentAppends.OverlapLoses`, with
  the exact rule in `ConcurrentAppends.CommitKeepsExactly`.
- An append that has read the inode when a revocation runs, and writes it afterwards, reports success and writes the
  inode back under the old file key. Everybody whom the revocation left with access then loses the file, and otherwise
  nobody does (`Overlaps.HoldersKeepIff`). Of the mailboxes that lead to the inode exactly those open it again that
  still hold the old key, and only if no block the append had read was sealed anew (`Overlaps.StaleLoadIff`). So a file
  that is not empty is lost to all (`OverlapRuns.OverlapArises`), while an empty one passes to the revoked user, with
  what was appended (`OverlapRuns.EmptyFileHandsOn`): there the promise of `Guarantees.RevokedStaysOut`, which is about
  runs in which an unfinished append stays unfinished, does not hold.
- ListFiles is said to return the names of the files the user has access to (internal/client/encryption/service.go:385).
  It returns the names the session has stored, accepted or revoked under, and no name ever leaves the list:
  `Sessions.SessionLists`, with `Sessions.ListedButLost` for a name whose file is lost. Two sessions of one user save
  their lists over each other (`Sessions.SessionsOverwrite`).
- A revocation that meets a block somebody has damaged stops there, with the blocks before it already under a new key
  that is recorded nowhere: `Tampered.BrokenBlockRevokes` and `Tampered.FailedRevocationLoses`.
- docs/architecture.md gives one reply format for a GET; the handler sends the bare status when the key is absent, and a
  message when the store fails, which the client takes for a value: `Remote.GetFaultAgreesIff`.

## Model

| member | source | states |
|---|---|---|
| Blocks.ByteToBlock | internal/client/encryption/File.go:21-41 | the loop produces exactly the 512-byte windows of the stream and its remainder |
| Blocks.BlockYToByte | internal/client/encryption/File.go:48-61 | joining is concatenation cut to the total size; nothing for an absent list or a size of zero or less |
| Blocks.FlattenChunks | internal/client/encryption/File.go:21-61 | splitting and joining is the identity; every block has 1 to 512 bytes; the number of blocks is the size over 512 rounded up |
| Blocks.ChunkAt | internal/client/encryption/File.go:26-39 | only the last block may be short: block k is the k-th window of the stream |
| Records.KeyTextInjective | internal/client/encryption/service.go:72-73 | the two public-key names of all users never collide, whatever the users are called |
| Services.MemoryStorage.Get | internal/client/encryption/memory.go:21-26 | a lookup answers with the stored payload or with nothing |
| Services.MemoryStorage.Set | internal/client/encryption/memory.go:28-32 | one entry is written, the others stay |
| Services.MemoryStorage.Delete | internal/client/encryption/memory.go:34-38 | one entry is removed, the others stay |
| Services.MemoryKeyStore.Get | internal/client/encryption/memory.go:52-57 | a lookup answers with the published key or with nothing |
| Services.MemoryKeyStore.Set | internal/client/encryption/memory.go:59-63 | one public key is written, the others stay |
| Services.Backend.SaveUser | internal/client/encryption/utils.go:11-43 | the user record is sealed under the user's keys and stored under its hashed UUID |
| Services.FileService.StoreFile | internal/client/encryption/service.go:149-229 | the whole state after StoreFile: a fresh mailbox, an access record without children, fresh blocks, a fresh inode, the user record |
| Services.FileService.LoadFile | internal/client/encryption/service.go:232-299 | the result of walking access record, mailbox, inode and blocks, with the first failure reported; nothing is written |
| Services.FileService.AppendToFile | internal/client/encryption/service.go:302-383 | the whole state after AppendToFile; each failure comes before any write |
| Services.FileService.ListFiles | internal/client/encryption/service.go:386-395 | every name in the list once, in any order |
| Services.InvitationService.CreateInvitation | internal/client/encryption/service.go:411-507 | the whole state after CreateInvitation; the new mailbox is written before the recipient is looked up |
| Services.InvitationService.AcceptInvitation | internal/client/encryption/service.go:510-563 | the whole state after AcceptInvitation, with every early return (in this order: `Refusals.AcceptAnswers`) |
| Services.InvitationService.RevokeAccess | internal/client/encryption/service.go:566-708 | the whole state after RevokeAccess, with every early return |
| Services.InvitationService.RekeyBlocks | internal/client/encryption/service.go:619-633 | the in-place block loop, including where it stops |
| Services.InvitationService.PatchChildren | internal/client/encryption/service.go:662-690 | for every order in which the map of children is visited, exactly the readable mailboxes of the other children get the new key |
| Services.UserService.InitUser | internal/client/encryption/service.go:39-95 | the whole state after registration; refused when the user's UUID is taken |
| Services.UserService.GetUser | internal/client/encryption/service.go:98-133 | login returns the stored user record or why it cannot be opened |
| Refinement.PutBlocksWrites | internal/client/encryption/service.go:205-215 | the writing loop touches fresh UUIDs only, and block j lands under the j-th of them |
| Refinement.RekeyBlocksWrites | internal/client/encryption/service.go:619-633 | re-keying pairwise distinct blocks succeeds, changes no plaintext and touches nothing else |
| Refinement.LoadBlocksReads | internal/client/encryption/service.go:284-298 | blocks stored under one key read back as their concatenation |
| Refinement.LoadFileReads | internal/client/encryption/service.go:232-299 | LoadFile succeeds exactly for live holders, with the bytes of the ledger's file |
| RefineFiles.StoreRefines | internal/client/encryption/service.go:149-229 | StoreFile on a represented store is the ledger operation: a new file and mailbox, everything older left alone |
| RefineFiles.AppendRefines | internal/client/encryption/service.go:302-383 | an append succeeds exactly for live holders and extends the one shared file |
| RefineFiles.AppendFails | internal/client/encryption/service.go:303-357 | a holder without the current key is turned away before anything is written or drawn |
| RefineFiles.AppendLeavesBlocks | internal/client/encryption/service.go:358-380 | an append never writes an existing block of any file |
| RefineSharing.InviteRefines | internal/client/encryption/service.go:411-507 | an invitation succeeds exactly for a holder, live or stale, and a registered recipient; a failed one leaves at most an unused mailbox |
| RefineSharing.AcceptRefines | internal/client/encryption/service.go:510-563 | an acceptance succeeds exactly on an invitation that this sender made for this user |
| RefineRevoke.PatchableIsKept | internal/client/encryption/service.go:662-680 | the three `continue` branches for a missing or unreadable child mailbox are never taken in a represented store |
| RefineRevoke.BlocksDistinct | internal/client/encryption/service.go:205-215 | the blocks of a file have pairwise different UUIDs |
| RefineRevoke.LoopWrites | internal/client/encryption/service.go:619-643 | in a represented store the block loop cannot stop early, and leaves the same plaintexts under the new key |
| RefineRevoke.RevokeRefines | internal/client/encryption/service.go:566-708 | a revocation succeeds exactly for live holders, of any kind, and re-keys file, own mailbox and kept children |
| RefineRevoke.RevokeStale | internal/client/encryption/service.go:601-612 | a stale holder's revocation draws a key and writes nothing |
| RefineUsers.InitUserRefines | internal/client/encryption/service.go:39-95 | registration succeeds exactly when the user's UUID is free, and makes one account |
| RefineUsers.GetUserRefines | internal/client/encryption/service.go:98-133 | a login succeeds exactly with the password of the registration and while no access record lies on the user record, and gives the registered keys |
| Refusals.LoadAnswers | internal/client/encryption/service.go:232-299 | in every reachable world LoadFile fails for one of three reasons: nothing is stored for the name, the record there is not the user's own, or its mailbox has an old file key |
| Refusals.AppendAnswers | internal/client/encryption/service.go:302-357 | an append refuses a nil content first and then answers as LoadFile does; a refusal leaves everything as it was |
| Refusals.InviteAnswers | internal/client/encryption/service.go:411-462 | which error an invitation answers with, and what it leaves behind: nothing, or one more copy of the mailbox when the recipient is unknown |
| Refusals.AcceptAnswers | internal/client/encryption/service.go:510-545 | an acceptance answers that the payload is missing, else that the sender is no user, else that it is no invitation of the sender's, else that it is for somebody else; a refusal leaves everything as it was |
| Refusals.RevokeAnswers | internal/client/encryption/service.go:566-612 | a revocation answers as LoadFile does, and a refusal writes nothing |
| Refusals.RegisterAnswers | internal/client/encryption/service.go:40-44 | a registration is refused exactly when something lies under the user's UUID |
| Refusals.LoginAnswers | internal/client/encryption/service.go:98-133 | a login reports a missing user exactly when the UUID is free, and otherwise fails alike for a wrong password and for an access record in the user's place |
| Tampered.BrokenAccess | internal/client/encryption/service.go:232-608 | on any store: without the caller's access record all four operations on a file answer with the same error and leave everything as it was |
| Tampered.BrokenMailbox | internal/client/encryption/service.go:232-608 | on any store: the same without the mailbox |
| Tampered.BrokenInode | internal/client/encryption/service.go:232-612 | on any store: the same without the inode, but for the key a revocation has drawn |
| Tampered.NoKeyToInvite | internal/client/encryption/service.go:447-470 | a recipient without a published key, or with one of the wrong type, costs one mailbox |
| Tampered.UnverifiedAccept | internal/client/encryption/service.go:521-529 | whatever the sender's published key does not verify is refused as a bad signature |
| Tampered.BrokenBlockLoads | internal/client/encryption/service.go:284-298 | on any store: the first block that does not open is the answer of LoadFile |
| Tampered.BrokenBlockRevokes | internal/client/encryption/service.go:619-633 | on any store: a revocation stops at the first block that does not open; the blocks before it are under the new key and everything else is as it was |
| Tampered.FailedRevocationLoses | internal/client/encryption/service.go:601-633 | after that the blocks before, readable until then, open to nobody who loads the file |
| Tampered.BrokenChildSkipped | internal/client/encryption/service.go:662-680 | on any store: a revocation leaves a child mailbox alone that is missing or does not open under its recorded key |
| Tampered.ChildPatched | internal/client/encryption/service.go:681-690 | every other child mailbox keeps its key and inode and gets the new file key |
| Sharing.RevokeForest | internal/client/encryption/service.go:645-704 | a revocation keeps the sharing forest |
| Sharing.InviteForest | internal/client/encryption/service.go:447-504 | an invitation keeps the sharing forest |
| Sharing.ChildIsNoAncestor | internal/client/encryption/service.go:447-495 | sharing is acyclic: a mailbox handed out is no ancestor of the mailbox it was handed out from, rotations included |
| Sharing.RevokeDooms | internal/client/encryption/service.go:662-692 | after a revocation everything descended from the removed child's mailbox is dead, and nobody live has a child in it |
| Sharing.RevokeDoom | internal/client/encryption/service.go:662-692 | later revocations by anybody never revive a dead subtree |
| Sharing.InviteDoom | internal/client/encryption/service.go:447-495 | an invitation from a dead mailbox hands out a dead one |
| Simulation.StoreSimulates | internal/client/encryption/service.go:149-229 | StoreFile is the key-free operation |
| Simulation.AppendSimulates | internal/client/encryption/service.go:302-383 | AppendToFile is the key-free operation on a shared byte string |
| Simulation.InviteSimulates | internal/client/encryption/service.go:411-507 | the handed-out mailbox is live exactly when the inviter's is |
| Simulation.RevokeSimulates | internal/client/encryption/service.go:566-708 | after a revocation the live mailboxes of the file are the new one and the other direct children's |
| KeyFree.StepPlays | internal/client/encryption/service.go:39-708 | each step of the sealed store succeeds or fails, and changes who shares what, as the step of the system without keys |
| KeyFree.SealedRunsAsBoard | internal/client/encryption/service.go:39-708 | every run of operations from the empty store has the results of the run without any cryptography, and every logged-in user loads under every name what that run shows |
| KeyFree.SealedRunsMayPlay | internal/client/encryption/service.go:39-708 | the same with interleaved appends and loads, which leave what the system without keys may leave |
| Runs.ReachableInv | internal/client/encryption/service.go:39-708 | every reachable store is the sealed form of a well-formed ledger with a well-formed sharing forest |
| Runs.InterleaveInv | internal/client/encryption/service.go:232-383 | any interleaving of appends and loads, finished or not, keeps that and changes nothing about who shares what |
| Guarantees.RevokedStaysOut | internal/client/encryption/service.go:566-708 | after a revocation, the recipient's recorded mailbox and all that descends from it, before or after, never opens the file again in any continuation by any users |
| Guarantees.InvitationHandsOn | internal/client/encryption/service.go:447-504 | an invitation descends from the inviter's mailbox and adds exactly one Children entry |
| Guarantees.SharedFileLaw | internal/client/encryption/service.go:232-383 | whoever reaches an inode loads what was there before followed by exactly the successful appends, in order |
| Guarantees.ReinvitationOrphans | internal/client/encryption/service.go:492-495 | after inviting a name again the first mailbox is in nobody's Children list, in any continuation |
| Guarantees.ReinvitedIsShutOut | internal/client/encryption/service.go:662-695 | the next successful revocation on the file, by anybody, shuts that mailbox out for good |
| Stability.KeepsAccessIff | internal/client/encryption/service.go:149-708 | a user who reaches a file reaches it after a step if and only if the step does not replace its record by one that leads elsewhere and is no revocation on the file that leaves the user's mailbox out of its direct children |
| Stability.HolderKeepsAccess | internal/client/encryption/service.go:149-708 | a user who can load a file can load it, with every append, after any run whose steps meet that condition, revocations that keep the user as a direct child included |
| Stability.StorerKeepsReading | internal/client/encryption/service.go:149-383 | the storer's file is its content plus every successful append, until it gives the record up or somebody who does not have it as a direct child revokes |
| Stability.StoreThenLoad | internal/client/encryption/service.go:191-228 | StoreFile then LoadFile gives the content back if and only if the file is not called `userStruct` |
| Stability.CollidesWithSelf | internal/client/encryption/service.go:191-191 | the one file name whose record shares the user record's UUID |
| Stability.InodeAccounting | internal/client/encryption/service.go:198-225 | the recorded size is the length loaded, and every block has 1 to 512 bytes, after any mix of operations |
| Stability.FailsIffRefused | internal/client/encryption/service.go:149-708 | each operation fails for exactly the stated reasons: a chain of the caller's that does not open in the store, a name without a published key, or a payload that is no invitation of that sender to the caller |
| Stability.FailureChangesNoView | internal/client/encryption/service.go:149-708 | an operation that returns an error changes what nobody can load |
| Stability.FailureWritesNothing | internal/client/encryption/service.go:302-612 | a failed append or revocation leaves the store as it was |
| Frames.BystandersUnaffected | internal/client/encryption/service.go:149-708 | an operation changes another pair's view only by overwriting its record or by working on its file |
| Frames.StoreSparesIff | internal/client/encryption/service.go:191-228 | a StoreFile spares another pair exactly when the concatenated names differ from the caller's two |
| Frames.CollisionExists | internal/client/encryption/service.go:191-191 | two users and two file names with one UUID |
| Frames.LoginIff | internal/client/encryption/service.go:98-133 | after any run a registered user logs in with exactly the password of the registration, and only while the user's UUID holds a user record |
| Frames.StoreLocksOut | internal/client/encryption/service.go:191-200 | a stored file whose two names together are another user's name and `userStruct` locks that user out |
| Sessions.SessionLists | internal/client/encryption/service.go:226-229 | over any run a session lists what it listed before and exactly the names under which it has since stored, accepted or revoked |
| Sessions.SaveThenLogin | internal/client/encryption/utils.go:11-43 | after such an operation a login gives back the very session that saved, with its keys and its list |
| Sessions.RegisterThenLogin | internal/client/encryption/service.go:76-93 | a login after the registration gives back the new user, with an empty list |
| Sessions.SessionsOverwrite | internal/client/encryption/utils.go:11-43 | two sessions of one user save over each other: the next login lists only what the last one listed, though the other file still loads |
| Sessions.ListedButLost | internal/client/encryption/service.go:385-395 | in every reachable world a user can go on listing a file that it can no longer load |
| Frames.RevocationLeavesExactly | internal/client/encryption/service.go:645-695 | the mailboxes that open the inode after a revocation are exactly the revoker's new one and the kept children's |
| Frames.RevocationForOthers | internal/client/encryption/service.go:645-704 | every other holder keeps the unchanged file if its mailbox is a kept child's, and loses it otherwise |
| Frames.SubShareesGoStale | internal/client/encryption/service.go:662-690 | whoever got the file from somebody other than the revoker loses it, even when that somebody stays |
| Frames.ChildrenShareTheInode | internal/client/encryption/service.go:447-495 | in every reachable world each Children entry names a mailbox that opens under its recorded key and leads to the same inode as the record's own |
| Frames.ChildrenNeverShared | internal/client/encryption/service.go:492-495 | a mailbox is in at most one Children entry of the whole system |
| Frames.StoreShareRevoke | internal/client/encryption/service.go:149-708 | in every reachable world a logged-in user can store a file, invite any registered user and revoke again |
| Witnesses.InviteAcceptLoads | internal/client/encryption/service.go:411-563 | whoever can load a file can invite any logged-in user, and when that user accepts the returned pointer both load the same bytes |
| Witnesses.SubShareeLoses | internal/client/encryption/service.go:662-690 | in every reachable world: a stores and invites b, b invites c, both accept and c loads the file; when a revokes anybody but b, b still loads it and c does not |
| Witnesses.StorerLoses | internal/client/encryption/service.go:566-708 | in every reachable world: a stores and invites b, b accepts; when b revokes anybody, a can no longer load its own file |
| Witnesses.ReinvitedLoses | internal/client/encryption/service.go:492-695 | in every reachable world: a stores, invites b, b accepts, and a invites b again; b still loads the file until a revokes anybody, and then b does not and a does |
| Witnesses.ThreeJoin | internal/client/encryption/service.go:39-95 | the empty store leads to a world these runs start from: three users register and their names and file names do not collide |
| Secrecy.LinkedGuarded | internal/client/encryption/service.go:464-504 | an invitation puts mailbox keys only into payloads for the inviter and the invitee |
| Secrecy.RevokedGuarded | internal/client/encryption/service.go:601-704 | every payload a revocation writes gives mailbox keys only to their two readers |
| Knowledge.ReachableConfidential | internal/client/encryption/service.go:39-708 | in every reachable world each payload ever written gives its mailbox keys only to their rightful readers |
| Knowledge.OutsidersStayOut | internal/client/encryption/service.go:447-504 | a file key sealed only into mailboxes a user may not read is outside the closure of everything the user can open |
| Knowledge.NewKeyKnownExactly | internal/client/encryption/service.go:601-704 | after a revocation the new file key can be worked out by the revoker and the kept direct children, and by nobody else |
| Exclusion.RevokedLearnsIffInvited | internal/client/encryption/service.go:447-708 | anybody else works the new key out in a continuation if and only if some later step is a successful invitation of that user from a record whose mailbox holds that key |
| Exclusion.StoredKnownIffInvited | internal/client/encryption/service.go:149-507 | in any continuation of a StoreFile the file's key can be worked out by the storer, and by anybody else if and only if some later step is a successful invitation of that user from a record whose mailbox holds the key |
| Exclusion.LeakTeaches | internal/client/encryption/service.go:447-485 | such an invitation does give the key away |
| Stepwise.AppendAlone | internal/client/encryption/service.go:302-383 | the single reads and writes of an uninterrupted append are the whole operation, with every error |
| Stepwise.LoadAlone | internal/client/encryption/service.go:232-299 | the single reads of an uninterrupted load are the whole operation |
| Concurrency.BlockRepresents | internal/client/encryption/service.go:358-368 | writing one block under a fresh UUID disturbs nothing, whatever becomes of the block |
| Concurrency.CommitRepresents | internal/client/encryption/service.go:371-380 | the one Set of the inode switches the file from one whole layout to another |
| Interleaving.MoveSound | internal/client/encryption/service.go:342-380 | every storage operation of every task keeps the store represented and every task's reading valid |
| ConcurrentFiles.EveryStateLoads | internal/client/encryption/service.go:232-383 | in every intermediate state of any interleaving a user loads the bytes from before followed by whole appended contents |
| ConcurrentFiles.LoadIsAtomic | internal/client/encryption/service.go:269-298 | an interleaved load returns exactly what the uninterrupted LoadFile returns at one of its own moves |
| ConcurrentFiles.InterleavingIsAStep | internal/client/encryption/service.go:232-383 | the world after any interleaving, finished or not, is the one a run reaches with it as a step, and what was confidential stays so |
| ConcurrentAppends.CommitKeepsExactly | internal/client/encryption/service.go:342-380 | a commit keeps exactly the appends that were in the inode it had read |
| ConcurrentAppends.QuietCommitSurvives | internal/client/encryption/service.go:342-380 | an append that commits while nobody else is between read and write is never lost |
| ConcurrentAppends.NoOverlapNoLoss | internal/client/encryption/service.go:342-380 | if the windows never overlap, a file contains every append that reported success, once, and nothing else |
| ConcurrentAppends.OverlapLoses | internal/client/encryption/service.go:342-380 | in every reachable world two overlapping appends can both report success and leave only the second |
| Continuations.MovesApart | internal/client/encryption/service.go:358-380 | in every interleaving no append ever holds a fresh block that a file or another append also has |
| Continuations.TaskContinues | internal/client/encryption/service.go:232-383 | an append or load that goes on in a later store, and is not about to write the inode of the file, leaves the file readable for all who can load it, with what was appended or not |
| Overlaps.HoldersKeepIff | internal/client/encryption/service.go:302-708 | whoever a revocation leaves with access can load the file after an unfinished append or load has gone on if and only if that was not an append that had read this very inode and not yet written it |
| Overlaps.StaleLoadIff | internal/client/encryption/service.go:342-380 | of all whose mailbox leads to the inode, exactly those can load it after such an append that hold the key it had read, and only if no block it had read was sealed again; they load the text it had read and what it appended |
| OverlapRuns.OverlapArises | internal/client/encryption/service.go:302-708 | in every reachable world the append of a user who can load a file that is not empty, met by the same user's revocation, reports success and leaves the file to nobody |
| OverlapRuns.EmptyFileHandsOn | internal/client/encryption/service.go:302-708 | in every reachable world: a stores an empty file and shares it with b; an append of a's has read the inode when a revokes b; when it has gone on, b loads what was appended and a cannot |
| Envelope.CountersDistinct | internal/userlib/userlib.go:442-443 | within one message of fewer than 2^128 blocks no counter block is used twice |
| Envelope.IncrementAdds | internal/userlib/userlib.go:442-443 | stepping the counter block is adding one modulo 2^128 |
| Envelope.ToNatSplit | internal/userlib/userlib.go:442-443 | a block is read as a number with its most significant byte first |
| Envelope.XorAt | internal/userlib/userlib.go:443-443 | exclusive or works on each of the eight bits of a byte |
| Envelope.CipherPanics | internal/userlib/userlib.go:434-440 | encryption and decryption panic exactly for keys that are not 16, 24 or 32 bytes long and for an IV or text that is not, or has not, 16 bytes |
| Envelope.EncryptsBits | internal/userlib/userlib.go:433-446 | every bit of the ciphertext: IV first, then the text flipped where the block function of the key, on the IV's number plus the index of the block modulo 2^128, has a one |
| Envelope.DecryptsBits | internal/userlib/userlib.go:450-464 | every bit of the plaintext, with the same stream from the first 16 bytes |
| Envelope.SymEnc | internal/userlib/userlib.go:433-446 | the panics first, then IV and text in one buffer (what the text is: `Envelope.EncryptsBits`) |
| Envelope.SymDec | internal/userlib/userlib.go:450-464 | the panics first, then the text behind the IV (what it is: `Envelope.DecryptsBits`) |
| Envelope.EncryptAndMAC | internal/client/encryption/utils.go:46-58 | both keys hashed and cut, the text encrypted, its tag behind it (which bytes: `Envelope.PayloadIs`) |
| Envelope.DecryptAndVerify | internal/client/encryption/utils.go:60-86 | length check, tag check, decryption, in this order (which answers: `Envelope.OpensAs`) |
| Envelope.PayloadIs | internal/client/encryption/utils.go:46-58 | the 80 bytes around a text: IV in front, then the ciphertext under the first 16 bytes of the hash of the encryption key, then the HMAC of both under the first 16 bytes of the hash of the MAC key |
| Envelope.OpensAs | internal/client/encryption/utils.go:60-86 | every answer of opening, by length and by that HMAC, and the text it gives |
| Envelope.TamperedRefused | internal/client/encryption/utils.go:74-81 | a payload with any byte changed is refused unless the HMAC of the changed text is the old one; a changed tag is always refused |
| Envelope.RoundTrip | internal/client/encryption/utils.go:46-86 | whatever was sealed opens under the same keys, of any length; a payload is 80 bytes longer than its plaintext |
| Envelope.OpensIffSealed | internal/client/encryption/utils.go:60-86 | a payload opens to some data if and only if it is an envelope of that data under these keys |
| Envelope.PanicsExactly | internal/client/encryption/utils.go:60-86 | opening panics exactly on payloads of 64 to 79 bytes with a valid tag, and no envelope is one |
| Derivation.WrongLengthKeys | internal/client/encryption/utils.go:89-110 | what each derivation does with a key that is not 16 bytes long: an error, a panic, or one constant pair of keys |
| Derivation.KeysDerive | internal/client/encryption/utils.go:89-110 | from 16 bytes asked of the random source and of Argon2, every key of the program derives along its chain without an ignored error or a slice out of bounds, and with its length |
| Derivation.KeysAre | internal/client/encryption/utils.go:89-110 | the bytes of every key pair: which hash, which HMAC, which of the eight labels and which cut |
| Derivation.KeysApart | internal/client/encryption/utils.go:89-110 | if the primitives do not collide on what the derivations ask of them, different keys have different bytes, and no encryption key is a MAC key |
| Derivation.ReadRecord | internal/client/encryption/service.go:238-252 | the reading steps of every operation: fetch, derive, verify and decrypt, decode, and the failure of each |
| Derivation.BytesOpenAsSymbols | internal/client/encryption/service.go:238-282 | reading a record byte by byte gives what the symbolic payload gives, unless a foreign key finds a valid tag |
| Derivation.BytesStoreAsSymbols | internal/client/encryption/utils.go:46-58 | storing an envelope is storing the symbolic payload |
| ByteStore.BytesLoadAsSymbols | internal/client/encryption/service.go:232-299 | in every reachable world a logged-in user loads from the bytes of the store what LoadFile loads from the symbolic one, with the same errors, if no key of the run finds a valid tag on a payload it did not seal |
| ByteStore.PrimitivesSuffice | internal/client/encryption/utils.go:60-110 | the hypothesis about tags follows from the primitives: if hash, HMAC and drawn bytes do not collide on what a run asks of them, no key of the run finds a valid tag on a payload it did not seal |
| ByteStore.BytesExist | internal/client/encryption/utils.go:46-58 | for every symbolic store there is a byte store with an envelope of each sealed payload |
| ByteWrites.StoreMirrors | internal/client/encryption/service.go:149-229 | StoreFile on bytes, with fresh IVs, leaves an envelope of every payload the symbolic StoreFile leaves, without any hypothesis |
| ByteWrites.BytesRunAsSymbols | internal/client/encryption/service.go:149-383 | every run of stores and appends on the bytes has the results of the symbolic run and leaves an envelope of each of its payloads, if no key of the run finds a valid tag on a payload it did not seal |
| ByteWrites.BytesReadBack | internal/client/encryption/service.go:149-383 | after such a run every logged-in user loads from the bytes what the symbolic store gives |
| Wire.Uint32Back | internal/userlib/userlib.go:276-283 | a length field holds the length modulo 2^32 |
| Wire.ParsesBackIffFits | internal/server/handler/handler.go:33-86 | the server reads back the request that was written, with nothing left over, if and only if its lengths fit |
| Wire.ParseLonger | internal/server/handler/handler.go:33-86 | what was understood does not depend on the bytes that follow |
| Wire.PrefixFails | internal/server/handler/handler.go:33-86 | no strict prefix of a request is a request |
| Wire.PrefixError | internal/server/handler/handler.go:33-86 | a request that is cut off is an end of input between two fields and an unexpected one inside a field |
| Server.Handler.Handle | internal/server/handler/handler.go:33-59 | one request is parsed completely, then answered; a request that cannot be read changes and sends nothing (by its bytes: the `WireBytes` rows) |
| Server.Handler.HandleGet | internal/server/handler/handler.go:61-70 | value, not found, or the store's error |
| Server.Handler.HandleSet | internal/server/handler/handler.go:72-86 | the value is read before anything is changed; the reply tells whether the store took it |
| Server.Handler.HandleDelete | internal/server/handler/handler.go:88-93 | the entry is gone, or the store's error is sent |
| Server.Handler.WriteValue | internal/server/handler/handler.go:100-107 | status, length and value in one buffer |
| Server.Handler.WriteError | internal/server/handler/handler.go:109-116 | status, length and message in one buffer |
| Server.Handler.HandleConn | internal/server/server.go:78-86 | a connection is the answers to all its requests, up to the one that cannot be read |
| Server.StreamServed | internal/server/server.go:78-86 | a stream of requests is split into exactly those requests, and what follows is served as if it came first |
| Server.BrokenOff | internal/server/handler/handler.go:33-86 | a connection that breaks off inside a request has the effect and the replies of the requests before it, and ends with the error of the place where it breaks off |
| Server.PipelinedAgrees | internal/server/server.go:78-86 | requests sent together decode back to one reply each, in order, as a map in memory gives them |
| WireBytes.RequestBytes | internal/userlib/userlib.go:275-287 | a request starts with 1, 2 or 3 for Get, Set and Delete; lengths are four bytes, most significant first |
| WireBytes.ReplyBytes | internal/server/handler/handler.go:95-116 | a reply is one status byte, or 0 with a value or 2 with a message behind its length |
| WireBytes.GetDoes | internal/server/handler/handler.go:61-70 | on the bytes of a Get the server sends the value, the single byte 1, or the store's error, and changes nothing |
| WireBytes.SetDoes | internal/server/handler/handler.go:72-86 | on the bytes of a Set it stores the value and sends 0, or stores nothing and sends the store's error |
| WireBytes.DeleteDoes | internal/server/handler/handler.go:88-93 | on the bytes of a Delete it removes the entry and sends 0, or sends the store's error |
| WireBytes.OtherDoes | internal/server/handler/handler.go:56-58 | any other first byte gets an error that names it in decimal, and changes nothing |
| Remote.WriteOp | internal/userlib/userlib.go:275-287 | the bytes of a request, length fields and all (in numbers: `WireBytes.RequestBytes`) |
| Remote.ReadStatus | internal/userlib/userlib.go:289-295 | one byte, or a panic when there is none |
| Remote.ReadValue | internal/userlib/userlib.go:297-312 | nothing for NotFound, and a value for every other status |
| Remote.DatastoreSet | internal/userlib/userlib.go:120-128 | one request on its own connection, the status ignored |
| Remote.DatastoreGet | internal/userlib/userlib.go:141-148 | one request on its own connection, the value read back |
| Remote.DatastoreDelete | internal/userlib/userlib.go:165-173 | one request on its own connection, the status ignored |
| Remote.KeystoreSet | internal/userlib/userlib.go:216-228 | publishing a key over a connection succeeds on status OK |
| Remote.ConnectedAgrees | internal/userlib/userlib.go:119-177 | for every sequence of operations that fit, connected mode returns and leaves what the local map does |
| Remote.SetThenGet | internal/userlib/userlib.go:275-312 | a stored value reads back if and only if its length fits, whatever the server makes of the rest |
| Remote.GetFaultAgreesIff | internal/userlib/userlib.go:297-312 | a store error is read as a value; the exact case in which that agrees with the map |
| Remote.SetFaultIsSilent | internal/userlib/userlib.go:126-128 | a failed Set looks like a successful one to the caller |
| WireBytes.RefusedCalls | internal/userlib/userlib.go:165-228 | a refused Delete is silent as well; publishing a key reports the refusal |
| WireBytes.GetSeesLastWrite | internal/userlib/userlib.go:119-177 | after any calls over connections a Get gives the value of the last Set of its key, or nothing after a Delete |
| Remote.PublishAgreesIff | internal/userlib/userlib.go:215-236 | publishing over a connection agrees with the keystore in memory exactly when the name is free |
| Keystore.GlobalKeystore.KeystoreSet | internal/userlib/userlib.go:230-236 | a taken name is refused and keeps its value |
| Keystore.GlobalKeystore.KeystoreGet | internal/userlib/userlib.go:256-259 | a lookup in the one keystore |
| Keystore.UserlibKeyStore.Get | internal/client/encryption/memory.go:100-108 | the cache answers before the keystore |
| Keystore.UserlibKeyStore.Set | internal/client/encryption/memory.go:110-117 | the cache takes the value even when the keystore refuses it |
| Keystore.SetKeepsCoherentIff | internal/client/encryption/memory.go:110-117 | setting a key keeps every cache right if and only if the name was free or had that value |
| Keystore.SetIsSeen | internal/client/encryption/memory.go:100-117 | after a Set the object it went through answers with the new value, refused or not; every other object as before, or with the new value if it knew none |
| Keystore.EveryObjectAgrees | internal/client/encryption/service.go:46-93 | over every run of registrations through any objects, every object answers with the published key |
| Keystore.KeysNeverChange | internal/client/encryption/service.go:46-93 | a registered user's keys never change, whichever object they are looked up through |

## Left out

- RSA, SHA-512, HMAC, the AES block function and Argon2: function parameters with stated output lengths in `Envelope`, symbolic in `Records`; forgery and collisions of hashes of different strings are outside the model.
- JSON: records are values; `Derivation` takes an encoding that decodes back, and its failure on a record of another kind is the same error as a failed tag check. The program's decoder would often accept another kind; no read of a represented store meets one.
- Randomness and time: random UUIDs and keys are never repeated.
- Invitations longer than RSA-OAEP allows, and the length check of a payload before its signature is split off (internal/client/encryption/service.go:516-518): a payload that is not an invitation fails as a bad signature.
- The type of a published key is checked by type assertion in the code; the model has an error for a wrong type where the encryption call has one.
- Derivation.BytesOpenAsSymbols: assumes of one read that a key that does not fit the payload finds no valid tag on it, and that a key that fits reads the kind it sealed. ByteStore.BytesLoadAsSymbols assumes the first once for all keys of a run and derives the second; ByteStore.PrimitivesSuffice derives the first from the primitives.
- Stability.StorerKeepsReading: assumes that every step meets the condition of Stability.KeepsAccessIff, because the code lets every live holder revoke.
- Remote.ConnectedAgrees: assumes that store operations do not fail and that lengths are below 2^32; the other cases have their own exact lemmas.
- Remote.DatastoreSet: the server is taken to read everything that was sent, also behind a request with a truncated length.
- StoreFile, CreateInvitation, AcceptInvitation and RevokeAccess are single steps; only appends and loads are taken apart and interleaved. An unfinished append or load goes on after another operation in `Overlaps` and `OverlapRuns` only, alone and after a revocation.
- On bytes only loading, storing and appending are modelled: invitations are sealed with RSA, and registration, acceptance and revocation write the same envelopes one by one (`Derivation.BytesStoreAsSymbols`).
- KeyFree.SealedRunsMayPlay: what interleaved appends leave depends on the schedule, so the system without keys allows every list of whole contents without repetition there.
- A nil and an empty value are the same byte sequence, except for the nil content AppendToFile refuses.
- BadgerDB is a map; its time-to-live and Exists, the TLS listener, the command line, configuration, bandwidth counters, test shards and locks are not modelled.
