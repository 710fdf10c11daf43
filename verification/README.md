# Secure mesh: admission, revocation and pairing, in Dafny

A model of the security core of the mesh, with proofs of what it promises across files, processes,
crashes and machines.

**One root directory under concurrent use** (`Protocol*.dfy`). Pairing handlers and command-line processes
share `join-codes.json`, `peers.json` and `revocations.json`. Each file has a lock directory that is tried
once. A state holds the committed file contents, the lock directories, every attempt ever started with its
program counter and local copies, and the log of commits. An action starts an attempt, lets one take its
next step, or kills it; it carries all that the environment decides: the clock, calls that fail, a lock
directory that cannot be removed, and the three fates of a save (`AtomicWriteFile` can report an error after
the rename has happened). A run is any sequence of actions, from any sound files and any stale lock
directories. The operations are making a code, consuming a code from the command line, answering a pairing
request, importing a peer, trusting a peer, revoking a node and verifying a peer certificate.
`ProtocolInvariant.dfy` states what holds at each program counter and that a step keeps it;
`ProtocolRuns.dfy` lifts that to runs. The results are in `ProtocolTheorems.dfy` (order of commits,
soundness, locks, revocation), `ProtocolAccounting.dfy` (counting, termination), `ProtocolAdmission.dfy`
(what a code can be used for, and when a peer is admitted without one), `ProtocolRevocation.dfy` (pairings
and peers of revoked nodes), `ProtocolFaults.dfy` (failing calls and the locks an attempt leaves behind),
`ProtocolUnreadable.dfy` (files with a bad record), `ProtocolCommits.dfy` (each attempt has written its own
operation and nothing else, and what each commit does to the files), `ProtocolVerification.dfy` (what a
successful verification has read), and, with exactly when an attempt of each kind succeeds that nobody
interrupts, `ProtocolUndisturbed.dfy` (pairing), `ProtocolRetry.dfy` (revocation),
`ProtocolVerification.dfy` and `ProtocolCommands.dfy` (the rest).

**The stores as methods** (`Stores.dfy`, `Files.dfy`). The loops that load, scan, change and save are
methods on a root object, each proved to perform the same atomic operation (`StoreOps.dfy`) that the
protocol's commits stand for, or to fail in a way a failing write allows, and to do and answer exactly what
it should when the files load and no call fails. Below them are the replacement of a file by rename, with
crash points, and the lock handle; `StoreFiles.dfy` derives the three fates of a save from the former.

**Two machines** (`Pairing.dfy`, `PairingTheorems.dfy`, `Messages.dfy`, `TlsIdentity.dfy`). The joining
node's side with every disk and lock directory it can stop at, agreement of both disks after success, and
verification of certificates afterwards. The master's side of these theorems is an arbitrary run of the
protocol. In `Wire.dfy` connections are added to such runs, and that an answer was made for the request
that was sent is derived from pipes that keep the order of bytes and alter none.

**Bytes** (`Base32.dfy`, `Identity.dfy`, `Framing.dfy`). Base32 without padding (sections 3.2 and 6 of
RFC 4648) and its tolerant reading, the preimage of node ids, and length-prefixed frames over sources and
sinks that deliver and accept arbitrary pieces.

Hash functions, the key generator, the clock and upper-casing outside ASCII are parameters; no property
assumes anything about them except where its contract says so. Times are integers with 0 as Go's zero
time, in seconds, which is also the resolution of certificate windows.

## Where documents and code differ

- `SECURITY.md` says revoked nodes are not active peers. The code does not keep that: importing a peer
  reads no revocations, and a revocation is on file before the peer is marked.
  `ProtocolTheorems.RevokedInactiveKeptIff` says exactly which operations keep it,
  `ProtocolTheorems.ImportedAfterRevocation` is an example, and `ProtocolTheorems.RevocationIsPermanent`
  and `ProtocolRevocation.RevokedNeverPairs` are what does hold: such a node is not let in and cannot pair.
- `docs/PAIRING.md` says that if peer persistence fails the code should remain unused, which
  `ProtocolAdmission.FailedPeerSaveKeepsCode` proves, and that a peer should not be considered admitted if
  consuming its code fails, which the code does not keep: the peer stays on file as active.
  `ProtocolUndisturbed.OrphanedPeerExample` is a run on concrete files,
  `ProtocolAdmission.AdmittedWithoutConsumptionIff` says for every attempt and every continuation exactly
  when it happens, and `ProtocolAccounting.AdmissionAccounting` bounds how many such peers there are.
- A joining node that stops before its identity is saved generates a new one next time. Its old code is
  used up as soon as a consumption with it has committed, whether or not an answer arrived
  (`PairingTheorems.UsedCodeCannotResume`); with a fresh one it resumes (`PairingTheorems.FreshCodeResumes`),
  with one exception.
- Nothing removes a lock directory whose owner is gone. A joining node killed after it has taken the peers
  lock and before the master is on file is blocked: each later attempt at that master is granted, uses up
  its code, and fails locally. `PairingTheorems.StoppedJoinResumes` gives the exact condition,
  `PairingTheorems.SomeStopIsBlocked` shows that every first join has this one bad stop,
  `Pairing.LockedRootStaysBlocked` that it is for good, and `PairingExample.BlockedJoinExample` is a join on
  concrete disks. For revocations, `ProtocolRetry.UndisturbedRevocationIff` gives the condition.
- Decoding Base32 is not injective and normalising it twice is not normalising it once. `Base32.ReencodesIff`
  and `Base32.NormalizeIdempotentIff` say on which inputs they are.

## Model

| member | source | states |
|---|---|---|
| ProtocolTheorems.Serialisable | packages/securemesh/join/store.go:30-113 | For any number of attempts, any interleaving, failing saves and crashes: the three files at every point are the committed atomic operations applied one by one in commit order, none of which fails there, so no update is lost and unlocked reads see a prefix of the final order |
| ProtocolTheorems.FromEmptyRoot | packages/securemesh/join/store.go:132-140 | Starting without any of the three files, every reachable state is the log applied to empty stores, and sound |
| ProtocolRuns.RunOk | packages/securemesh/peer/store.go:27-112 | Every reachable state satisfies the protocol invariant, and files only grow: records keep their place, join records only go unused to consumed, peers only active to revoked, revocations are only appended |
| ProtocolRuns.AdvanceOk | packages/securemesh/network/pairing/pairing.go:181-227 | Each step of each operation from its program-counter assertion reaches the next one, writes a file only while holding its lock, and its commit is exactly the change of the disk |
| ProtocolRuns.Undisturbed | packages/securemesh/config/lock.go:17-28 | Steps of other attempts cannot invalidate an attempt's assertion: growth of the unlocked files is harmless and locked files do not move |
| ProtocolCommits.SuccessMeans | packages/securemesh/join/store.go:30-113 | In every run, the commits of an attempt that answered with success are exactly its own operation: one made code, one use for its request, at most one new peer before it, one imported peer of the local network, a revocation and a mark for its node, or none for a verification; a paired request was well made |
| ProtocolCommits.EveryAttemptWritesItsOwn | packages/securemesh/join/store.go:93-109 | At every point of every run, ended or not, each attempt has committed a first part of its own operation, in order and each write at most once |
| ProtocolCommits.CommitMeans | packages/securemesh/revocation/store.go:46-72 | What each kind of commit did to the files, field by field: one new join record, one record from unused to consumed, one new peer, one peer marked with its revocation's time, one new revocation with the node, role, time, revoker and reason of its request |
| ProtocolCommits.SuccessfulCreateIsKept | packages/securemesh/join/store.go:30-50 | A code answered with success is the attempt's only commit, and from then on the file holds, at one place, the record that was made or that record consumed |
| ProtocolCommands.UndisturbedCreateIff | packages/securemesh/join/store.go:30-50 | Left alone, making a code succeeds exactly when the lock is free and network, role, issuer, time, secret, salt and verifier are there; then the one record with these fields is added, otherwise nothing is written and the error says why |
| ProtocolCommands.UndisturbedConsumeIff | packages/securemesh/join/store.go:56-113 | Left alone, using a code succeeds exactly when the request is complete, the lock is free, the scan accepts and there is a time; then that one record is consumed by the requester |
| ProtocolCommands.UndisturbedImportIff | packages/control/actions/peer.go:79-107 | Left alone, importing a peer succeeds exactly when the export is of version 1 and complete, for the local network, under a new node id, the lock is free and there is a time; then an active record of it is added; the errors for a bad export and a foreign network are told apart |
| ProtocolCommands.UndisturbedTrustIff | packages/securemesh/network/pairing/pairing.go:431-453 | Left alone, making sure of a peer is the one atomic step, or answers that the lock is held when it is needed |
| ProtocolTheorems.FilesStaySound | packages/securemesh/join/store.go:132-154 | Every committed record passes the validation its own load applies, node ids are unique in peers and in revocations, and a peer that is not active carries the time of a revocation on file for it |
| ProtocolUnreadable.LoadsIff | packages/securemesh/join/types.go:66-107 | A store file loads exactly when none of its records has one of the listed faults, field by field; the same for peers and revocations |
| ProtocolUnreadable.UnreadableFileStays | packages/securemesh/join/store.go:132-148 | From a file with one bad record, whatever else is true of the root and whatever runs, crashes or fails: that file never changes and no attempt that reads it succeeds |
| ProtocolTheorems.AdmissionSpansBothFiles | packages/securemesh/network/pairing/pairing.go:208-217 | At every step and crash point, a record consumed by pairing names a node in the peers file with the record's network and expected role, whose id derives from its stored keys |
| ProtocolTheorems.SingleUse | packages/securemesh/join/store.go:56-113 | Between any two points of a run consumed records do not change, no two attempts succeed on one record, and a success means the record is consumed for that request |
| ProtocolAdmission.OneCodeOneUse | packages/securemesh/join/store.go:72-110 | Two attempts that have both consumed a record were given codes with different bytes: a code admits once, whatever the number of records it fits, of attempts and of spellings |
| ProtocolTheorems.UsedCodeIsRefusedForGood | packages/securemesh/join/store.go:84-86 | After a consumption has committed, every later scan for the same code bytes, in any spelling and by anyone, is refused as consumed |
| ProtocolAccounting.AdmissionAccounting | packages/securemesh/network/pairing/pairing.go:208-217 | Peers added by pairing are at most the distinct records consumed by pairing, plus pairings that ended between their two writes, plus at most one still between them |
| ProtocolAdmission.AdmittedWithoutConsumptionIff | packages/securemesh/network/pairing/pairing.go:208-217 | A pairing that wrote its peer and has ended used up no code exactly when that save reported an error, or it was killed before the turn that saves the consumption, or that save failed before committing, or the clock read zero |
| ProtocolAdmission.FailedPeerSaveKeepsCode | packages/securemesh/join/store.go:93-97 | A pairing whose peer was not saved without error uses up no code, in any continuation |
| ProtocolUndisturbed.KilledBetweenWrites | packages/securemesh/network/pairing/pairing.go:208-217 | Wherever a pairing could be granted to a node not yet on file, one killed after its ninth turn leaves an active peer and every join record as it was |
| ProtocolUndisturbed.OrphanedPeerExample | packages/securemesh/network/pairing/pairing.go:208-217 | The same on concrete files: an active peer and an unused code at the end of a run |
| ProtocolUndisturbed.UndisturbedPairingIff | packages/securemesh/network/pairing/pairing.go:181-227 | From any reachable state and for any clock, a pairing left alone succeeds exactly when the request is well made, the node is not revoked, no other peer has its id, its locks are free, the scan accepts and the clock is not at zero in the turns that make a new peer and save the consumption; then both writes are done and no lock stays; otherwise the answer is the first refusal that applies and nothing is written, except the peer when only the last time is missing |
| ProtocolAccounting.EveryAttemptEnds | packages/securemesh/config/lock.go:17-28 | Locks are tried once and nothing waits: an attempt still running has been scheduled fewer than seventeen times, whatever the others do |
| ProtocolTheorems.MutualExclusion | packages/securemesh/config/lock.go:17-28 | No two attempts are ever between taking and giving back the same lock |
| ProtocolFaults.FailedCall | packages/securemesh/config/file.go:14-59 | A turn with a failed call fails the attempt, takes and returns no lock and changes no file, except that a save that failed after its rename has the effect of a good one |
| ProtocolFaults.SuccessHadNoFailedCall | packages/securemesh/join/store.go:30-113 | Whatever else runs, an attempt that succeeded had no turn of its own in which a read, a lock or a save failed |
| ProtocolFaults.LockKeptIff | packages/securemesh/config/lock.go:17-39 | An attempt that has come to its end, by success or any error, still has a lock exactly if it had a turn to release it and the release failed |
| ProtocolTheorems.DeadOwnerBlocks | packages/securemesh/config/lock.go:30-39 | A crashed owner, or one whose release failed, blocks for good: the directory stays, the file never changes again and nobody enters the section |
| ProtocolTheorems.RevocationIsPermanent | packages/securemesh/network/tlsidentity/tlsidentity.go:262-288 | Once a revocation is on file, no verification that had not already succeeded ever accepts the node, in any continuation |
| ProtocolVerification.SuccessfulVerificationRead | packages/securemesh/network/tlsidentity/tlsidentity.go:240-289 | A verification that succeeded had three turns of its own, in order: in the first the certificate was the node's own, in its window, and of the network and role asked for; in the second the peers file knew that node with those keys as active; in the third there was no revocation of it |
| ProtocolVerification.UndisturbedVerificationIff | packages/securemesh/network/tlsidentity/tlsidentity.go:240-289 | Left alone, a verification succeeds exactly when all of this holds of the certificate, the time of its first turn and the files; otherwise it answers what the verification answers on them; nothing is written |
| ProtocolTheorems.VerificationReadsRevocations | packages/securemesh/network/tlsidentity/tlsidentity.go:281-287 | The step that makes a verification succeed reads a revocation file without the node |
| ProtocolRevocation.RevokedNeverPairs | packages/securemesh/network/pairing/pairing.go:191-197 | With a revocation on file, a pairing for the node that had not yet read it adds no peer, consumes no record and does not succeed, in any continuation |
| ProtocolRevocation.SuccessfulRevocationMarks | packages/control/actions/revocation.go:28-35 | A revocation answered with success is on file for good, and a turn of its own left no active peer for the node: any active one later was added after that turn |
| ProtocolTheorems.RevokedInactiveKeptIff | packages/control/actions/peer.go:79-107 | Exactly which commits keep revoked nodes from being active peers: an import of a node not yet revoked, a revocation of a node that is not an active peer, and everything else |
| ProtocolTheorems.ImportedAfterRevocation | packages/control/actions/peer.go:97-107 | Concrete files on which an import leaves a revoked node active |
| ProtocolInvariant.SavePeerOk | packages/securemesh/peer/store.go:27-48 | Writing a peer, whichever fate the save has, keeps files sound, admits the peer on file and commits exactly one Add |
| ProtocolInvariant.SaveConsumedOk | packages/securemesh/join/store.go:99-109 | Writing a consumption commits exactly one atomic consume of an unused record, with the pairing's peer already on file |
| ProtocolInvariant.SaveMarkOk | packages/securemesh/peer/store.go:90-112 | Marking a peer keeps it in agreement with a revocation that is already on file |
| StoreOps.ScanIsFirstDecision | packages/securemesh/join/store.go:72-112 | The first record that is not skipped decides: its index when accepted, its own refusal otherwise; an invalid code when all are skipped |
| StoreOps.JudgeIff | packages/securemesh/join/store.go:72-92 | A record is accepted exactly when its algorithm is known, the keyed hash of the code's bytes under its salt is its verifier, it is not consumed, and network and role fit; a used code is refused before a wrong network and that before a wrong role |
| StoreOps.ConsumeChangesOneRecord | packages/securemesh/join/store.go:93-109 | A consumption changes one record, with the code's verifier and the request's network and role, from unused to consumed by the requester at a nonzero time, and no other |
| StoreOps.NewCodeIsAccepted | packages/securemesh/join/code.go:32-65 | The code returned when a record is made is accepted for that record wherever it is in the file, in any spelling, for its network and role, unless an earlier record matches too |
| Records.NewJoinRecordIff | packages/securemesh/join/code.go:32-65 | Exactly when a record is made, every field of it, and the code given out |
| Records.ConsumeRequestIff | packages/securemesh/join/code.go:100-117 | Which requests to use a code are complete, and which error an incomplete one gets |
| Records.CodeIdCarriesDigest | packages/securemesh/join/code.go:81-88 | A code id read back gives the hash of the domain, a zero byte and the verifier |
| Records.CodeIdDeterminesVerifier | packages/securemesh/join/code.go:81-88 | Unless the hash collides on them, two records have one id exactly when they have one verifier |
| StoreOps.UsedCodeStaysRefused | packages/securemesh/join/store.go:77-86 | However the file develops after a consumption, the same code bytes are refused as consumed |
| StoreOps.ActivePeersInOrder | packages/securemesh/peer/store.go:76-88 | The list holds exactly the active peers of the file, each once and in the order of the file |
| StoreOps.AddPeerIff | packages/securemesh/peer/store.go:27-48 | A complete record under a new node id is appended; nothing else is added, and an id on file is an error of its own |
| StoreOps.MarkRevokedIff | packages/securemesh/peer/store.go:90-112 | Marking changes status and time of the first record with the id and nothing else |
| StoreOps.EnsurePeerIff | packages/securemesh/network/pairing/pairing.go:431-453 | A peer that agrees on file is enough whatever its status; a missing one with an id that fits its keys is added as active; another one is an error |
| StoreOps.RevokeIff | packages/securemesh/revocation/store.go:46-72 | A node with a record keeps it as the answer; any other gains one that says who was revoked, in which role, when, by whom and why |
| Records.EverySpellingVerifies | packages/securemesh/join/code.go:67-79 | Every way to type a code gives the verifier on record, which is the keyed hash of the secret under the record's salt |
| Stores.Root.ValidateAndConsumeWith | packages/securemesh/join/store.go:56-113 | Success is the atomic consume, after making sure of the peer; on failure each file is old or that result, and a changed join-code file implies the peer is there; a refused scan changes nothing; when no call fails it answers exactly its refusal, and otherwise succeeds |
| Stores.Root.CreateCode | packages/securemesh/join/store.go:30-50 | Appends the new record and nothing else, or fails leaving the file old or so changed; when no call fails it succeeds exactly when the lock is free and the record can be made |
| Stores.Root.AddPeer | packages/securemesh/peer/store.go:27-48 | The scan and append are the atomic Add: refused for invalid or existing ids with the file unchanged, and when no call fails refused for nothing but these and a held lock |
| Stores.Root.GetPeer | packages/securemesh/peer/store.go:50-64 | The loop finds the first record with the id, or there is none |
| Stores.Root.ListActivePeers | packages/securemesh/peer/store.go:76-88 | The filter loop returns exactly the active peers in order |
| Stores.Root.MarkRevoked | packages/securemesh/peer/store.go:90-112 | The in-place change of the first matching record is the atomic mark, which always happens when no call fails and the lock is free |
| Stores.Root.AddPeerIfMissing | packages/securemesh/network/pairing/pairing.go:431-453 | An agreeing peer of any status is enough, a disagreeing one is an error, none means Add |
| Stores.Root.Revoke | packages/securemesh/revocation/store.go:46-72 | An existing record is answered unchanged; otherwise one record with the request's node, role, revoker and reason is appended and answered; when no call fails it ends so, or with the reason for which no record can be made, or because the lock is held |
| Stores.Root.IsRevoked | packages/securemesh/revocation/store.go:74-88 | The loop answers whether the file has a record for the node |
| Stores.Root.RevokePeer | packages/control/actions/revocation.go:12-50 | Success is both writes, and the answer for a new revocation has the request's node, role, revoker and reason; stopped anywhere the files are untouched, have the revocation only, or have both |
| Stores.RevocationRetryConverges | packages/control/actions/revocation.go:28-35 | Once a retry gets both locks: repeating after a stop between the writes, with any clock, role, revoker and reason, ends as one uninterrupted attempt does, and further repeats change nothing |
| ProtocolRetry.UndisturbedRevocationIff | packages/control/actions/revocation.go:28-35 | From any reachable state, a revocation left alone succeeds exactly when both locks are free and node, role, time and revoker are there or the node has a record; then the file has that record or gains one with the request's node, role, revoker and reason, the peer is marked and no lock stays; with only the peers lock in the way the revocation alone is on file. So a stop between the writes is completed by any retry exactly when it left no lock directory |
| Stores.Root.Accept | packages/securemesh/network/pairing/pairing.go:181-227 | The handler's answer field by field, that a granted request was well made, and every pair of file contents it can leave; a refused or revoked requester changes nothing; when no call fails the answer is the refusal of the undisturbed attempt, and success where there is none |
| Messages.AdmissionIff | packages/securemesh/network/pairing/pairing.go:181-190 | A request passes the checks before the stores exactly when it has version and kind, a code, a time, a role that is the peer's, the master's network, and valid keys that give its node id |
| Messages.AdmissionRefusals | packages/securemesh/network/pairing/pairing.go:181-190 | Which error comes first: form, code, network, role |
| Messages.ResponseIff | packages/securemesh/network/pairing/pairing.go:506-520 | An answer is taken exactly when it has version and kind, is an acceptance of this node, for the certificate's network, by the pinned master with keys that give its id |
| Messages.ResponseRefusals | packages/securemesh/network/pairing/pairing.go:506-520 | Which error comes first: form, network, master |
| Files.AtomicWriteFile | packages/securemesh/config/file.go:14-59 | However it ends and wherever it crashes, the target is wholly old or wholly new and no other file changed, apart from a left-over temporary; completing means new, and it completes when no call fails |
| StoreFiles.SaveRecords | packages/securemesh/config/file.go:14-68 | Saving encoded records has exactly the three fates of the protocol: no error and new, an error and old, an error and new; a load finds all of the old or all of the new records and no other file has changed |
| Files.AcquireLock | packages/securemesh/config/lock.go:17-28 | Succeeds only if the directory was not there and then created it; an existing one is an error, and the only one when no call fails |
| Files.DirLock.Release | packages/securemesh/config/lock.go:30-39 | Removes the directory only for a held handle, so a repeated release frees nobody else's lock; a failed removal keeps the handle held |
| TlsIdentity.AcceptedIff | packages/securemesh/network/tlsidentity/tlsidentity.go:240-289 | For any certificate, acceptance is equivalent to: own key and metadata agree, the id derives from the keys, the clock is in the window, network and role fit, the stored peer is this node and active, and no revocation is on file |
| TlsIdentity.VerificationRefusals | packages/securemesh/network/tlsidentity/tlsidentity.go:240-289 | For a certificate whose metadata can be read, which error is answered first: window, network, role, unknown, inactive, stored network, stored role, stored keys, revoked |
| TlsIdentity.NewCertificateIff | packages/securemesh/network/tlsidentity/tlsidentity.go:80-149 | Exactly when a node can issue a certificate, and every field of it: its own signing key, its metadata under the mesh identifier, and the window |
| TlsIdentity.IssuedCertificateAcceptedIff | packages/securemesh/network/tlsidentity/tlsidentity.go:80-149 | A certificate the node issued is accepted exactly inside its window by a verifier of the same network that knows the node as active and unrevoked |
| TlsIdentity.MetadataFromCertificate | packages/securemesh/network/tlsidentity/tlsidentity.go:151-180 | The search loop reads the first extension with the mesh identifier and no other |
| TlsIdentity.OneNodeIdOneKeySet | packages/securemesh/network/tlsidentity/tlsidentity.go:166-179 | Two certificates whose metadata is accepted with one node id carry the same two keys, unless the hash collides on them |
| Identity.SameMaterialSameKeys | packages/securemesh/identity/generate.go:99-113 | Valid key sets with one preimage are equal exactly when their signing keys are equally long |
| Identity.UnequalLengthsCollide | packages/securemesh/identity/generate.go:104-113 | Two different valid key sets with one preimage and one node id |
| Identity.NodeIdDeterminesKeys | packages/securemesh/identity/generate.go:99-117 | Through hash, Base32 and lower case: equal node ids and equally long signing keys mean equal key sets, unless the hash collides on them |
| Identity.NodeIdCarriesDigest | packages/securemesh/identity/generate.go:99-117 | A node id exists exactly for valid keys; it starts with the prefix, and read back it gives the hash of domain, algorithm names and keys in their order |
| Identity.GenerateIdentityIff | packages/securemesh/identity/generate.go:46-97 | Exactly when an identity is made, and every field of it: the public and private keys are the ones given for each, and the id is the public ones' |
| Pairing.WorkerRoot.PerformJoin | packages/securemesh/network/pairing/pairing.go:237-308 | On success the result and disk of an uninterrupted join, up to a lock directory its release did not get rid of; in every case one of the disks it can stop at; when no write fails the uninterrupted result, success or error |
| Pairing.WorkerRoot.SaveJoinedState | packages/securemesh/network/pairing/pairing.go:400-410 | Network, identity and master are saved in that order; every stop leaves a prefix of these writes, and one inside the peers section its lock directory too; when no write fails it is the uninterrupted save |
| Pairing.WorkerRoot.SaveMaster | packages/securemesh/network/pairing/pairing.go:431-453 | The lock is taken only to add a master that is not on file, and fails if the directory is there; every stop, with or without the directory, is listed |
| Pairing.NegotiateIff | packages/securemesh/network/pairing/pairing.go:237-293 | A join gets as far as saving exactly when the certificate is the pinned master's own and in its window, there is a stored or new identity to act under for the certificate's network, and the one request sent, field by field, was answered by an acceptance that passes |
| Pairing.CheckMasterIff | packages/securemesh/network/pairing/pairing.go:347-380 | Which certificates the joining node goes on with; a wrong id or role is told before a wrong time |
| Pairing.LocalJoinIdentityIff | packages/securemesh/network/pairing/pairing.go:382-398 | Which identity a join acts under, and the errors for another network and another role |
| Pairing.SaveJoinedIff | packages/securemesh/network/pairing/pairing.go:400-429 | Exactly when the joined state is saved and every field of it; nothing on file is replaced, and another network on file is an error |
| Pairing.AttemptsKeepRootConsistent | packages/securemesh/network/pairing/pairing.go:382-429 | After any sequence of join attempts stopped anywhere, an identity is never without its network and every peer belongs to that network |
| Pairing.FreshRootStaysConsistent | packages/securemesh/network/pairing/pairing.go:382-429 | The same from a root that starts with nothing |
| PairingTheorems.StoppedJoinResumes | packages/securemesh/network/pairing/pairing.go:382-453 | On each disk at which a join that would have succeeded can stop, a new attempt whose one request the same master accepts succeeds, with the stored identity if there is one, exactly when the peers lock directory is not there or the master is already on file; otherwise it answers that the lock is held |
| PairingTheorems.FreshCodeResumes | packages/securemesh/network/pairing/pairing.go:237-308 | The master does accept it when it holds the record of the new code, the locks it needs are free and the node is neither revoked nor known under other data: the attempt in the run succeeds and consumes the code, and the join is resumed, with both disks in agreement, exactly unless its own root is blocked as above |
| PairingTheorems.SomeStopIsBlocked | packages/securemesh/peer/store.go:27-48 | Of the six stops of a join that has its master to add, exactly one is blocked: after taking the lock and before the save |
| Pairing.LockedRootStaysBlocked | packages/securemesh/config/lock.go:17-28 | A root with that lock directory keeps it and gains no peer whatever joins are attempted, and no join of a master that is not on file ever succeeds on it |
| PairingExample.BlockedJoinExample | packages/securemesh/network/pairing/pairing.go:400-453 | On concrete disks: a join from the empty root succeeds, and repeated on its six stops it fails on the fourth only, with the lock held |
| PairingTheorems.UsedCodeCannotResume | packages/securemesh/join/store.go:84-86 | Once any attempt has consumed a record, however it ended and whether or not its answer arrived, no other attempt in any continuation grants a request with the same code bytes, so a retry with that code fails and leaves the disk as it is |
| PairingTheorems.PairingStays | packages/securemesh/network/pairing/pairing.go:208-226 | A successful pairing's peer and consumed record are on the master's disk then and in every later state |
| PairingTheorems.TwoDisksAgree | packages/securemesh/network/pairing/pairing.go:287-307 | When Join succeeds over an authenticated pipe, both disks agree with its result: id, network, role, keys and consumed record on the master, identity, network and pinned master on the joining node |
| Wire.Handle | packages/securemesh/network/pairing/pairing.go:158-179 | No byte is sent unless a whole request was read and accepted; what is sent is part of the answer to it; when no call fails it is refused for the reasons of the undisturbed attempt or for a too long answer only |
| Wire.IntactPipeAnswers | packages/securemesh/network/pairing/pairing.go:279-285 | For one handler and its attempt: over a pipe that delivers any prefix of what was sent, unaltered, an answer that can be read was made by a successful attempt for the very request that was sent |
| Wire.AnswersAreReal | packages/securemesh/network/pairing/pairing.go:154-179 | The same in every run with any traffic, where handlers start attempts for what they have read and send only when the attempt has succeeded; the attempts are those of a run of the protocol |
| Wire.JoinOverWireAgrees | packages/securemesh/network/pairing/pairing.go:237-308 | From bytes to disks: a join that succeeds with what it read from such a connection leaves both disks in agreement, the master's in every continuation |
| Wire.WholeAnswerArrives | packages/securemesh/network/pairing/pairing.go:543-558 | A whole answer frame is read as the answer |
| PairingTheorems.MasterAcceptsWorker | packages/securemesh/network/tlsidentity/tlsidentity.go:240-289 | In every later state the master accepts the joined node's certificates inside their window unless the node is revoked when the revocations are read |
| PairingTheorems.WorkerAcceptsMaster | packages/securemesh/network/tlsidentity/tlsidentity.go:240-289 | In every later state of its own root the joined node accepts the master's certificates likewise |
| PairingTheorems.JoinKeepsFilesSound | packages/securemesh/network/pairing/pairing.go:431-453 | A join leaves the joining node's stores sound if they were |
| Base32.EncodingIsTheBitString | packages/securemesh/crypto/encoding.go:11-13 | The characters spell the input's bit string filled with zero bits to a multiple of five, as RFC 4648 defines; the length is the number of groups |
| Base32.TolerantRoundTrip | packages/securemesh/crypto/encoding.go:15-30 | Any case and any dashes, spaces, tabs, carriage returns and line feeds anywhere: decoding gives back the encoded bytes |
| Base32.SpellingIff | packages/securemesh/crypto/encoding.go:19-30 | What counts as a spelling of a code, character by character: one of the five separators, or the next letter or digit in either case |
| Base32.NormalizeBase32 | packages/securemesh/crypto/encoding.go:19-30 | The loop over runes computes the specified normal form |
| Base32.NormalizeIdempotentIff | packages/securemesh/crypto/encoding.go:19-30 | Normalising twice changes nothing exactly when the trimmed input has no space, other than the five separators, with nothing but separators before it or nothing but separators after it |
| Base32.NormalizeIsNotIdempotent | packages/securemesh/crypto/encoding.go:19-30 | An input on which the second pass removes more |
| Base32.LowerEncodingInjective | packages/securemesh/identity/generate.go:115-116 | Lower-case encodings determine the encoded bytes |
| Base32.ReencodesIff | packages/securemesh/crypto/encoding.go:11-17 | A string that decodes is the encoding of its bytes exactly when its last group has 0, 2, 4, 5 or 7 characters and the unused bits of the last character are zero |
| Base32.ReencodingClears | packages/securemesh/crypto/encoding.go:15-17 | What any string decodes to: re-encoded, it is the string with the unused bits of its last character cleared and without a last group of a length no encoding has |
| Base32.DecodesIff | packages/securemesh/crypto/encoding.go:15-30 | A text is decoded exactly when, trimmed, every character that is no separator is upper-cased into the alphabet |
| Base32.DecodingInjectiveOnCanonical | packages/securemesh/crypto/encoding.go:15-17 | Two strings of that form decode to the same bytes only if they are equal |
| Base32.DecodingIsNotInjective | packages/securemesh/crypto/encoding.go:15-17 | Strings not of that form that decode to what another one does |
| Framing.ReadsExactlyFrames | packages/securemesh/network/pairing/pairing.go:522-541 | A message is read exactly when the stream starts with a length of 1 to 65536 in four bytes, most significant first, and that many bytes of payload; the rest stays unread |
| Framing.StreamRoundTrip | packages/securemesh/network/pairing/pairing.go:522-558 | The frames of any list of messages, one after the other, are read as the same list with nothing left over |
| Framing.CutStreamYieldsPrefix | packages/securemesh/network/quictransport/quictransport.go:295-308 | Cut short at any byte, the stream yields the messages whose frames are whole and then an end-of-stream error |
| Framing.ProperPrefixIsTruncated | packages/securemesh/network/quictransport/quictransport.go:295-308 | A frame cut short anywhere never yields a message |
| Framing.PipeDelivers | packages/securemesh/network/pairing/pairing.go:522-558 | Writing a list of messages and reading it from a source that delivers the bytes in any pieces gives the whole list if writing reported no error, and the first of the messages otherwise; nothing stays unread |
| Framing.ReadFull | packages/securemesh/network/pairing/pairing.go:525-535 | For a source delivering arbitrary pieces, the buffer is filled with exactly the next bytes, or the stream was too short |
| Framing.ReadMessage | packages/securemesh/network/quictransport/quictransport.go:295-316 | Reading depends on the stream only, not on how it is cut, and takes exactly one frame |
| Framing.ReceiveAll | packages/securemesh/network/quictransport/quictransport.go:295-316 | Reading message after message depends on the stream only, not on how it is cut |
| Framing.WriteMessage | packages/securemesh/network/quictransport/quictransport.go:318-340 | For every writer the loop ends; success means exactly header and payload were accepted, an error means a prefix of them; a payload of legal length fails exactly if some write failed or accepted nothing |
| Framing.SendAll | packages/securemesh/network/quictransport/quictransport.go:318-340 | Writing message after message adds their frames in order, or on an error a part of that |
| Framing.WriteMessageInTwo | packages/securemesh/network/pairing/pairing.go:543-558 | The same for the two-call version over writers that report short writes |

## Left out

- Sockets, TLS and QUIC handshakes, X.509 and ASN.1: a certificate is its key, its extensions and its window, and an exchange is a function from request to answer.
- JSON text and file modes: a store file is the list of its records, and a missing file is the empty list. The state's version number is not modelled.
- Peer endpoints and peer metadata, which no operation here reads or writes.
- HMAC, SHA-256 and constant-time comparison: parameters and plain equality; nothing is claimed about strength or timing.
- Most validation errors on stored records are one error, `InvalidRecord`, and every failing load or write is `IoError`; the errors callers tell apart are kept.
- Bytes that are not UTF-8 in typed codes: text is a sequence of Unicode characters.
- `InitNetwork`, `ImportNetwork` and `InitIdentity`, which overwrite state without looking; the theorems about later states exclude them.
- Endpoint normalisation and the printing of equivalent command lines.
- `packages/securemesh/network/tlstcp/tlstcp.go`, whose framing and configuration repeat the modelled files.
- The master-role check of `RevokePeer` and `CreateJoinCode`: the protocol lets the operations happen on any root, which covers more runs.
- A clock that shows Go's zero time where the source then reads the clock again (`normalizeTime`: new codes, revocations, identities and certificates): the time given here is the one that results, and zero is refused in records.
- Locks for the identity and network files, which the source does not have either: joins on one root are taken one after the other.
- Framing.SendAll and Framing.ReceiveAll: the loops over several messages stand for repeated calls by the users of one connection.
