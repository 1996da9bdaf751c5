# Verified model of the micro:bit registry

A registry daemon watches the USB ports of one machine for micro:bit boards and serves them to local processes and to remote
sessions: listing, exclusive locks, serial streams, flashing. Registries on other machines mirror each other's boards and the table of
robot names. This project models the parts where a mistake would be hard to see from any one function, and proves what they
guarantee.

- **Sessions** (`sessions.dfy`, `session_safety.dfy`, `registry.dfy`, `daemon.dfy`, `locks.dfy`, `store.dfy`, `virtual.dfy`).
  Both API servers, the two liveness sweeps, `force_unlock`, virtual boards, `rescan`, the daemon's scan cycle and the peers all work
  on one lock table and one device table. A critical section under the shared lock is one step of a transition system
  (`Sessions.Step`); a stream or a flash lies between two steps, so it is interleaved with everything else. `Registry` and
  `Daemon` are the operations themselves, as methods on the shared state, each proved to make exactly its step. The invariant in
  `Sessions.Inv` holds after every run of any length, with any number of connections; `session_effects.dfy` says, field by field and
  without the terms of the transition system, what each step is for.
- **Universal Hex** (`hex_records.dfy`, `universal_hex.dfy`, `universal_hex_meaning.dfy`). The two-pass block extraction is proved equal to
  a one-pass specification with one line of lookahead, and that specification is compared with an independent interpreter of the whole
  file: the extracted file makes the same memory writes exactly when the address bases agree at every wanted data record.
- **Byte streams** (`stream_frames.dfy`, `line_framing.dfy`, `bytes.dfy`). Length-prefixed frames and newline framing, read through a
  `recv` that may return any non-empty chunk.
- **Names** (`naming.dfy`, `names.dfy`). The base-5 codec, its second copy in the chip's friendly name, the Chinese-remainder reverse map,
  and the table of robot names with its replication to peers.
- **Replication and fan-out** (`peering.dfy`, `event_bus.dfy`). Ownership-gated events and snapshots, and the event bus under any
  interleaving.
- **Flash recovery** (`flash_recovery.dfy`). The controller around pyOCD against an arbitrary pyOCD.

Where code and documentation disagree, the code is modelled:

- `extract_for_mcu` carries only a linear (04) base across a Block Start, and a block without a base of its own borrows whatever base
  the kept records before it left. `UniversalHexMeaning.BasesCanBeLost` gives files whose bytes move for each reason;
  `MeaningKeptIffAligned` is the exact condition.
- `_retype` never looks at the checksum it replaces, so a custom data record with a wrong checksum comes out valid.
- The name patterns end in `$`, which also matches just before a final newline; after `normalize` that case cannot arise, for board
  names at registration it can.
- Two connections of one process share a holder, so mutual exclusion of streams needs the board's lock to belong to one connection
  (`SessionSafety.OneProcessCanStreamTwice`); `SecondWorkerIff` gives exactly the steps that put a second connection to work. It also
  needs the lock not to be revoked (`RevocationLetsTwoWork`).
- Every claimed board is attached, but not every attached board is claimed. The three causes: a row stored as attached before start-up,
  giving up on a board after a flash, and a probe whose board is unplugged before its result is stored. `Daemons.AttachedNeedsNoClaim` gives runs,
  `SessionSafety.AttachedIsClaimedIffNeverRevived` says that there is no other cause.
- If the row of an overdue flash re-probe is gone, `apply_known_blank` raises and ends the cycle (`aborted` in `Daemon.RunOnce`).
- A peer that already had rows keeps those that neither the snapshot nor an event mentions, so it agrees with the origin about every robot exactly
  when no such leftover contradicts the robot's default address. Defaults the origin stores by itself are not published, so a fresh peer
  has all registered rows of the origin, no row the origin lacks, and of the stored defaults exactly those `CaughtUpRows` names.

## Model

| member | source | states |
|---|---|---|
| RadioNames.NameOfAndNameValueAreInverse | src/mbtools/relay/naming.py:89-106 | numbers below 3125 and well-formed names are in bijection, place value against digit extraction |
| RadioNames.Decode | src/mbtools/relay/naming.py:89-94 | the digit loop succeeds exactly when the normalised text is the name of some number below 3125, and returns that number |
| RadioNames.Encode | src/mbtools/relay/naming.py:97-106 | the backwards digit loop writes the name of every n below 3125 and fails on every other integer |
| RadioNames.DecodeThenEncode | src/mbtools/relay/naming.py:69-106 | decoding and encoding again gives the normal form of every accepted spelling |
| RadioNames.NormalizedMatchIsExact | src/mbtools/relay/naming.py:69-85 | after normalisation the pattern accepts exactly the five-letter names, its final-newline case cannot arise |
| RadioNames.RobotNamesAreNormal | src/mbtools/relay/naming.py:69-85 | normalising a well-formed name changes nothing, so validating is idempotent |
| RadioNames.NormalizeIgnoresOuterBlanks | src/mbtools/relay/naming.py:69-73 | texts that differ only in ASCII blanks around them normalise alike |
| RadioNames.NormalizeIgnoresCase | src/mbtools/relay/naming.py:69-73 | a text and its lower-case form normalise alike |
| RadioNames.FriendlyName | src/mbtools/registry/identity.py:172-188 | for every integer the chip name is the robot name of its low 32 bits modulo 3125, and it always validates unchanged |
| RadioNames.LowDigits | src/mbtools/registry/identity.py:172-188 | the five digits taken from a 32-bit number are those of its residue modulo 3125 |
| RadioNames.ResiduesDetermine | src/mbtools/relay/naming.py:57-60 | every n below 73 * 241 is recovered from its two residues by the reverse map |
| RadioNames.FromResiduesHasResidues | src/mbtools/relay/naming.py:57-60 | the reverse map lands below 73 * 241 on a number with the residues it was given |
| RadioNames.RadioToNameIsExact | src/mbtools/relay/naming.py:109-133 | for all integers, the reverse map answers exactly on the addresses some name derives, with that name, which is the only one |
| RadioNames.DerivedAddressesAreDistinct | src/mbtools/relay/naming.py:109-117 | no two names derive the same channel and group |
| RadioNames.PublishedNames | src/mbtools/relay/naming.py:89-111 | published names have their published numbers, device ids and radio addresses |
| NameRegistry.NameTable.Resolve | src/mbtools/registry/store.py:1391-1422 | answers for exactly the well-formed names, with the stored or the default address, and stores what it answered |
| NameRegistry.NameTable.Set | src/mbtools/registry/store.py:1443-1469 | overwrites the row of exactly the well-formed names and keeps derived rows at their defaults |
| NameRegistry.NameTable.Clear | src/mbtools/registry/store.py:1471-1482 | drops the row of exactly the well-formed names; no row is no error |
| NameRegistry.NameTable.NameFor | src/mbtools/registry/store.py:1484-1509 | answers exactly when some robot's whereabouts are the given link, with such a robot, a registered one if there is one |
| NameRegistry.DerivedNameIsTheOnlyDefault | src/mbtools/registry/store.py:1484-1509 | the reverse map names the one robot whose default is the link |
| NameRegistry.RowAfterPublished | src/mbtools/registry/_api_base.py:805-848 | the published event does to every row exactly what the origin's set or clear did; a refused write and a stored default do nothing |
| NameRegistry.CaughtUpRows | src/mbtools/registry/peering.py:1117-1126 | row by row, leftovers apart, the peer has exactly the origin's registered rows and the stored defaults that the snapshot held and no event touched, at the origin's addresses |
| NameRegistry.FreshPeerHasTheRows | src/mbtools/registry/peering.py:1117-1126 | a fresh peer has no row the origin lacks, every row at the origin's address, every registered row, and exactly which stored defaults it lacks |
| NameRegistry.CaughtUpWhereabouts | src/mbtools/registry/peering.py:1117-1126 | after subscribing, applying a later snapshot and replaying every event since, each robot is where the origin has it, or on a leftover row |
| NameRegistry.CatchUpAgreesIffNoStaleLeftover | src/mbtools/registry/peering.py:1117-1126 | the peer agrees about every robot if and only if no leftover row contradicts the default address |
| NameRegistry.FreshPeerCatchesUp | src/mbtools/registry/peering.py:1117-1126 | a fresh peer also answers where every robot is as the origin does, for every write log, subscription point and snapshot point |
| NameRegistry.ApplySnapshot | src/mbtools/registry/peering.py:624-637 | applying name rows in any order gives the peer's rows overridden by the snapshot's, all as registered |
| NameRegistry.Replay | src/mbtools/registry/peering.py:724-739 | handling the published events in order gives the specified table and keeps it valid |
| HexRecords.RetypeLine | src/mbtools/registry/universal_hex.py:78-82 | the in-place byte edit gives the specified line, and fails exactly where the hex text is unreadable |
| HexRecords.RetypeKeepsTheRest | src/mbtools/registry/universal_hex.py:78-82 | for every valid record only the type changes; length, address and data stay and all bytes again sum to zero |
| HexRecords.RetypeIgnoresTheChecksum | src/mbtools/registry/universal_hex.py:78-82 | a record whose only fault is its checksum comes out valid |
| HexRecords.OnlyTheChecksumDecodes | src/mbtools/registry/universal_hex.py:80-82 | exactly one last byte makes a line a valid record |
| HexRecords.DecodeOfRendered | src/mbtools/registry/universal_hex.py:53-60 | a rendered record decodes to itself and shows its type in columns 8 and 9 |
| HexRecords.RecordTypeOfDecoded | src/mbtools/registry/universal_hex.py:53-60 | the column test agrees with the type byte of every valid record |
| UniversalHexMeaning.UniversalIffBlockStart | src/mbtools/registry/universal_hex.py:63-65 | a file is a Universal Hex exactly when one of its records, anywhere in it, is a Block Start |
| UniversalHex.GroupIntoBlocks | src/mbtools/registry/universal_hex.py:88-107 | grouping loses nothing that is selected, notes every board of the file, and fails only on an unreadable Block Start |
| UniversalHex.OpenBlock | src/mbtools/registry/universal_hex.py:98-104 | closing a block with its trailing linear base carried over preserves what the file will contribute |
| UniversalHex.KeepBlock | src/mbtools/registry/universal_hex.py:114-122 | the filtering loop keeps the specified lines and fails exactly on unreadable custom data |
| UniversalHex.ExtractForMcu | src/mbtools/registry/universal_hex.py:85-131 | for every input the two passes give the one-pass specification: lines, missing image with the boards found, unknown target or bad record |
| UniversalHex.WellFormedIsReadable | src/mbtools/registry/universal_hex.py:78-105 | a file of valid records never makes the conversion raise |
| UniversalHexMeaning.UnreadableIffFault | src/mbtools/registry/universal_hex.py:78-119 | the conversion raises exactly when some line is a Block Start without a board ID or unreadable custom data of a wanted board |
| UniversalHexMeaning.KeptRecord | src/mbtools/registry/universal_hex.py:114-122 | of a wanted board each valid record is dropped, turned into data or kept as written, by its type alone |
| UniversalHexMeaning.BoardIdsByChip | src/mbtools/registry/universal_hex.py:68-75 | the first five letters of the target name, in either case, decide the board IDs |
| UniversalHexMeaning.BoardIdOfRecord | src/mbtools/registry/universal_hex.py:105-105 | the board ID of a valid Block Start is the first two bytes of its payload |
| UniversalHexMeaning.BoardsInIff | src/mbtools/registry/universal_hex.py:109-129 | the error names exactly the boards of the readable Block Starts |
| UniversalHexMeaning.WritesAreTheWantedData | src/mbtools/registry/universal_hex.py:85-131 | the reference interpreter writes exactly the data and custom data records whose last Block Start is a wanted board, at the base in force |
| UniversalHexMeaning.OrdinaryFileIsReduced | src/mbtools/registry/universal_hex.py:85-131 | a file with one block for each board, the base of the first before its Block Start, is converted to exactly the writes of the wanted board |
| UniversalHexMeaning.MeaningKeptIffAligned | src/mbtools/registry/universal_hex.py:85-131 | the extracted file makes exactly the writes of the whole file's wanted data records if and only if the bases agree at each of them |
| UniversalHexMeaning.SelfContainedIsAligned | src/mbtools/registry/universal_hex.py:90-104 | wanted blocks that set their own base, inside or directly before their Block Start, always agree |
| UniversalHexMeaning.ExtractedImageIsTheWantedImage | src/mbtools/registry/universal_hex.py:85-131 | for such files the output loads at every address the byte the wanted 00 and 0D records write in file order |
| HexRecords.ByteAtIsTheLastWrite | src/mbtools/registry/universal_hex.py:85-131 | the image an address sees is the last write that covers it |
| UniversalHexMeaning.NoImageIffNothingToWrite | src/mbtools/registry/universal_hex.py:124-129 | the call fails exactly when the wanted blocks hold no data record |
| UniversalHexMeaning.ExtractedIsPlainIntelHex | src/mbtools/registry/universal_hex.py:109-131 | the output has no block record and exactly one EOF, last, so a second conversion passes it through |
| UniversalHexMeaning.BasesCanBeLost | src/mbtools/registry/universal_hex.py:98-104 | concrete valid files whose wanted byte moves: a borrowed base, and a segment base before a Block Start |
| UniversalHexMeaning.NormalizedHex | src/mbtools/registry/universal_hex.py:134-162 | a file passes through exactly when none of its records is a Block Start, any other is converted or fails as specified |
| StreamFrames.Encode | src/mbtools/registry/stream_frame.py:78-85 | type byte, four length bytes with the most significant first, payload |
| StreamFrames.DecodeOneOfEncoded | src/mbtools/registry/stream_frame.py:78-127 | a frame followed by anything decodes to that frame and leaves the rest |
| StreamFrames.DecodeOneOfTruncated | src/mbtools/registry/stream_frame.py:115-126 | every proper non-empty part of an encoding is an error, never a frame or a clean end |
| StreamFrames.OversizeIsRefused | src/mbtools/registry/stream_frame.py:112-119 | a frame declaring more than a mebibyte is an error on its header alone, whatever follows |
| StreamFrames.CutStreamDecodes | src/mbtools/registry/stream_frame.py:78-127 | any cut of any concatenated frames decodes to the frames wholly before it, then a clean end on a boundary and an error otherwise |
| StreamFrames.EncodingIsInjective | src/mbtools/registry/stream_frame.py:78-85 | two frame lists with the same bytes are equal |
| StreamFrames.ReadExact | src/mbtools/registry/_api_base.py:1135-1144 | for every chunking, n bytes in order, fewer only at the end of the stream, and no byte lost |
| StreamFrames.ReadFrame | src/mbtools/registry/stream_frame.py:88-127 | reading through recv gives the chunking-independent decoding and leaves exactly the undecoded bytes |
| StreamFrames.HandleStream | src/mbtools/registry/_api_base.py:1146-1189 | if no port call fails and no recv raises the port sees exactly the events of the frames before the first that ends the session, otherwise a prefix |
| StreamFrames.NothingAfterTheEnd | src/mbtools/registry/_api_base.py:1178-1189 | nothing after a close or an unknown frame reaches the port |
| StreamFrames.FrameEffects | src/mbtools/registry/_api_base.py:1156-1177 | which frame makes which port call; an empty line setting makes none |
| StreamFrames.ReadFrames | src/mbtools/registry/_api_base.py:1146-1155 | reading frames off a socket until one cannot be had gives the decoding of the whole stream for every chunking |
| StreamFrames.PortSeesAPrefixOfTheRequests | src/mbtools/registry/remote_client.py:155-173 | wherever the connection is cut, the port sees a prefix of the client's requests, and all of them if nothing is lost |
| StreamFrames.ServeClient | src/mbtools/registry/_api_base.py:1135-1189 | end to end over recv: for any cut and chunking the port sees a prefix of the client's requests, all of them if nothing is lost or fails |
| LineFraming.SplitLinesIsExact | src/mbtools/registry/api_windows.py:552-575 | lines concatenate to the input, hold a newline only at their ends, and only the last may lack one |
| LineFraming.SplitLinesIsUnique | src/mbtools/registry/api_windows.py:552-575 | there is no other such division into lines |
| LineFraming.PipeLineReader.ReadLine | src/mbtools/registry/api_windows.py:552-566 | for every chunking the first line of what is unread, with everything after it kept for later calls |
| LineFraming.PipeLineReader.ReadAll | src/mbtools/registry/api_windows.py:568-575 | iterating yields exactly the lines of the whole input |
| LineFraming.EndpointConn.Read | src/mbtools/registry/_api_base.py:217-234 | a line exactly when a newline is there; line, newline and what stays unread make up what was unread, and the line holds no newline |
| LineFraming.TwoLines | src/mbtools/registry/_api_base.py:217-234 | of two lines and a rest the two reads of the handshake return the lines, without their newlines, and leave the rest |
| LineFraming.EndpointConn.OpenStream | src/mbtools/registry/_api_base.py:939-971 | unless a send fails, succeeds exactly when the first two lines both accept, and what follows the second newline is then unread |
| LineFraming.Forward | src/mbtools/registry/_api_base.py:986-1009 | a forwarding loop delivers a prefix, and everything if the receiver stays up and the source is not shut down from here |
| LineFraming.PumpEndpointToClient | src/mbtools/registry/_api_base.py:986-1001 | buffered bytes go first; the client gets a prefix of the unread bytes, all of them if it stays up and the endpoint is not shut down from here |
| LineFraming.VirtualStream | src/mbtools/registry/_api_base.py:939-1022 | for the two lines and the rest the endpoint sends, the client gets a prefix of the rest, all of it unless it fails or the other direction ends first; the endpoint gets a prefix of the client's bytes; nothing moves without a session |
| EventBuses.SubscribersAreInForce | src/mbtools/registry/eventbus.py:69-77 | the queues the bus snapshots are exactly those subscribed and not since unsubscribed, read off the steps alone |
| EventBuses.DeliveredInOrder | src/mbtools/registry/eventbus.py:69-83 | in every interleaving, one publisher's part of a queue's history plus its pending put is what is due to the queue, in publish order |
| EventBuses.DeliveredExactlyOnce | src/mbtools/registry/eventbus.py:69-83 | history plus pending puts hold each event due to the queue exactly once, and no other |
| EventBuses.PutDelivers | src/mbtools/registry/eventbus.py:82-83 | a pending put can be made at any time and delivers its event at the end of the queue |
| EventBuses.IdlePublisherHasDelivered | src/mbtools/registry/eventbus.py:79-83 | a publisher is busy only while a put is pending, and once it is not, each queue holds exactly what is due from it, in order |
| EventBuses.DueIsDistinct | src/mbtools/registry/eventbus.py:79-83 | nothing is due twice |
| EventBuses.EventBus.Subscribe | src/mbtools/registry/eventbus.py:69-73 | a new empty queue joins the subscribers |
| EventBuses.EventBus.Publish | src/mbtools/registry/eventbus.py:79-83 | every subscriber's queue gets the event once, at its end |
| Locks.EveryRunIsFaithful | src/mbtools/registry/locks.py:300-449 | after any operations, replaying the display callbacks gives exactly the lock table, and flash releases are flash acquires minus the one held |
| Locks.CallbacksShowTheLocks | src/mbtools/registry/locks.py:300-449 | what the callbacks show is locked, with the kind, holder, label and time it was acquired with; what they do not show is free |
| Locks.OnlyOwnOrForcedReleaseEndsALock | src/mbtools/registry/locks.py:344-410 | a lock stays as granted until its holder releases it, it is forced, or a sweep finds it dead |
| Locks.LockManager.Acquire | src/mbtools/registry/locks.py:300-342 | grants a free uid and shows it; refuses a held one, to its own holder too, with the current status |
| Locks.LockManager.Release | src/mbtools/registry/locks.py:344-359 | removes the entry exactly for its own holder |
| Locks.LockManager.ForceRelease | src/mbtools/registry/locks.py:361-387 | removes the entry of any holder and reports what it was |
| Locks.LockManager.Sweep | src/mbtools/registry/locks.py:389-410 | releases exactly the locks of dead holders, each once, and keeps all others unchanged |
| Locks.LockManager.ReleaseEntry | src/mbtools/registry/locks.py:424-449 | every release path drops the entry and fires the flash hook exactly for a flash lock |
| DeviceStore.CandidatesArePurgeable | src/mbtools/registry/store.py:1258-1372 | every row proposed for purging is one purge deletes; among rows of known peers the two rules are equal |
| DeviceStore.PurgeableRows | src/mbtools/registry/store.py:1308-1372 | purge agrees to a row exactly when its board is gone or its peer is known and unreachable |
| DeviceStore.Store.UpsertDevice | src/mbtools/registry/store.py:654-722 | one write path for local and remote claims; a remote claim leaves a board attached here alone |
| DeviceStore.Store.ApplyProbeResult | src/mbtools/registry/store.py:724-788 | the probed state; an unknown uid changes nothing |
| DeviceStore.Store.ApplyKnownBlank | src/mbtools/registry/store.py:790-822 | the no-firmware state; an unknown uid changes nothing |
| DeviceStore.Store.ApplyRemoteLockState | src/mbtools/registry/store.py:995-1021 | only the mirrored lock changes; an unknown uid changes nothing |
| DeviceStore.Store.UpsertVirtual | src/mbtools/registry/store.py:881-922 | replaces any stale row by the registration's |
| DeviceStore.Store.RemoveVirtual | src/mbtools/registry/store.py:924-935 | deletes the row only while it is a virtual one |
| DeviceStore.Store.CandidatesForPurge | src/mbtools/registry/store.py:1258-1306 | the union of the three documented reasons |
| DeviceStore.Store.Purge | src/mbtools/registry/store.py:1308-1372 | deletes exactly the given uids that still qualify and the given peers still unreachable |
| VirtualBoardTable.ReservedNamesAreTheRobotNames | src/mbtools/registry/virtual.py:71-74 | a name is reserved exactly when it normalises to the name of some number |
| VirtualBoardTable.NeverAChipName | src/mbtools/registry/api.py:835-847 | no accepted board name, however cased or padded, normalises to the friendly name of any chip |
| VirtualBoardTable.BoardNameShape | src/mbtools/registry/virtual.py:46-51 | an accepted board name has 2 to 32 characters and no @, blank or separator, one final newline excepted |
| VirtualBoardTable.VirtualBoards.Add | src/mbtools/registry/virtual.py:153-155 | the registration stands under the key of its name |
| VirtualBoardTable.VirtualBoards.Remove | src/mbtools/registry/virtual.py:157-163 | removes a registration only while it is itself the live one for its name |
| VirtualBoardTable.VirtualBoards.ByUid | src/mbtools/registry/virtual.py:165-171 | finds a live registration with that uid exactly when there is one |
| Peering.ApplyEvent | src/mbtools/registry/peering.py:640-748 | handling a live event makes exactly the ownership-gated change of the specification |
| Peering.EventEffect | src/mbtools/registry/peering.py:640-748 | the owner decides state, announcement and shown lock of its row, nobody else does; anyone may claim a board not attached here |
| Peering.EntryEffect | src/mbtools/registry/peering.py:556-621 | a snapshot device that is not attached here becomes the peer's, on its port and in its state; one attached here stays as it is |
| Peering.ApplySnapshotDevice | src/mbtools/registry/peering.py:556-621 | handling one snapshot device makes exactly the specified change |
| Peering.ApplySnapshot | src/mbtools/registry/peering.py:1198-1224 | handling a snapshot applies its devices in order, then disconnects that peer's rows it does not list |
| Peering.EventRespectsOwnership | src/mbtools/registry/peering.py:640-748 | an event of a peer leaves each row alone or attributed to that peer, and never touches a board attached here |
| Peering.SnapshotRespectsOwnership | src/mbtools/registry/peering.py:1198-1224 | so does a whole snapshot |
| Peering.PeersNeverTouchLocalBoards | src/mbtools/registry/peering.py:539-748 | over every interleaving of snapshots and events of any peers, local attached rows never change and every changed row belongs to a reporting peer |
| Peering.EntryDecidesItsRow | src/mbtools/registry/peering.py:1199-1207 | the order of distinct snapshot devices does not matter: each decides its own row alone |
| Peering.SnapshotMirrorsTheOrigin | src/mbtools/registry/peering.py:1198-1224 | after a snapshot the peer's attached rows are exactly the boards it advertises that are not attached here, on its ports, in its probed states and with its announcements |
| SessionSafety.ReachableStatesAreSafe | src/mbtools/registry/_api_base.py:598-643 | in every reachable state locks are owned by open connections, workers hold their locks, locked rows are present, boards match rows, claims are attached and handles conserved |
| SessionEffects.LockEndsIff | src/mbtools/registry/_api_base.py:598-643 | over all steps, exactly which end a lock, by holder, pid, session and activity; through every other step it stays as it is |
| SessionEffects.LockStartsIff | src/mbtools/registry/_api_base.py:598-628 | a free uid is locked by exactly the lock request of a connection that may use a board that is not gone, as it asks |
| SessionEffects.ConnectionAfterStep | src/mbtools/registry/_api_base.py:864-927 | what an open connection does and will release after every step, and that only its own close ends it |
| SessionEffects.ConnectionsAreAccepted | src/mbtools/registry/remote_api.py:464-485 | a connection appears only by being accepted, with nothing acquired |
| SessionEffects.SessionsComeAndGo | src/mbtools/registry/remote_api.py:473-543 | a session is live from being accepted until dropped with no connection left |
| SessionEffects.RowAfterStep | src/mbtools/registry/daemon.py:430-503 | the whole row of every uid after every step that is not a peer's: which steps add, remove or change it, and how |
| SessionEffects.PeersAfterStep | src/mbtools/registry/_api_base.py:721-747 | a rescan forgets exactly the unreachable peers |
| SessionEffects.BoardsAfterStep | src/mbtools/registry/api.py:823-901 | registrations come and go by their own steps only, under the lower-case name |
| SessionEffects.ClaimsAfterStep | src/mbtools/registry/daemon.py:454-480 | which scans take and give back a claim, each grant under a handle of its own |
| SessionSafety.StepKeepsOwners | src/mbtools/registry/_api_base.py:598-643 | every step keeps each lock owned by an open connection of its holder that recorded the uid |
| SessionSafety.StepKeepsSessions | src/mbtools/registry/remote_api.py:456-547 | every step keeps the sessions of open remote connections live and distinct |
| SessionSafety.StepKeepsWorkers | src/mbtools/registry/_api_base.py:864-927 | every step keeps whoever dials, streams or flashes in possession of a fitting lock, unless it was taken away |
| SessionSafety.StepKeepsRows | src/mbtools/registry/_api_base.py:511-524 | every step keeps a row for each locked uid, and a locked local row attached |
| SessionSafety.StepKeepsBoards | src/mbtools/registry/api.py:849-901 | every step keeps local sim- rows and live registrations in correspondence |
| SessionSafety.StepKeepsClaims | src/mbtools/registry/daemon.py:430-481 | every step keeps each claimed uid a real board attached here |
| SessionSafety.StepKeepsHandles | src/mbtools/registry/daemon.py:454-480 | every step keeps each granted handle held for one uid or returned exactly once |
| SessionSafety.GrantsNeverOverwrite | src/mbtools/registry/daemon.py:456-470 | a granted handle is never filed over another |
| SessionSafety.WorkersShareAHolder | src/mbtools/registry/_api_base.py:895-927 | two connections at work on one board without revocation are of one holder, and the board is locked and attached |
| SessionSafety.LostOnlyByRevocation | src/mbtools/registry/locks.py:344-410 | while the lock has one owner, working without it comes only from force_unlock, a dead process, a deregistration or a detach |
| SessionSafety.WorkersAreNeverDispossessed | src/mbtools/registry/_api_base.py:1191-1198 | along every run in which the lock has one owner at a time and is not revoked, whoever works on the board has its lock |
| SessionSafety.NeverTwoOnOneBoard | src/mbtools/registry/_api_base.py:1191-1198 | in such runs no two connections are ever inside a stream or flash of one board, although both run outside the shared lock |
| SessionSafety.SecondWorkerIff | src/mbtools/registry/_api_base.py:883-923 | while one connection works on a board under its lock, over all steps exactly the matching check by a ready connection of the same holder that sees the board puts another to work on it |
| SessionSafety.OneProcessCanStreamTwice | src/mbtools/registry/api.py:289-299 | without a single owner it fails: a run with two streams of one board by one process |
| SessionSafety.RevocationLetsTwoWork | src/mbtools/registry/api.py:975-1024 | with a revocation it fails: a run in which two processes stream one board after force_unlock |
| SessionSafety.ClaimsMissedOnlyByReviving | src/mbtools/registry/daemon.py:483-503 | a step leaves a claimed-when-attached board attached without a claim exactly when a probe result or a give-up lands on its disconnected row |
| SessionSafety.AttachedIsClaimedIffNeverRevived | src/mbtools/registry/daemon.py:430-503 | over every run a board is claimed whenever attached if and only if it was not stored as attached and no such step happens |
| SessionSafety.RemoteSweepReleasesNothing | src/mbtools/registry/remote_api.py:425-454 | in every reachable state the remote liveness sweep changes nothing |
| SessionSafety.ClosingTheLastConnectionFreesEverything | src/mbtools/registry/api.py:692-704 | once the last connection of a holder closes, none of its locks is left |
| SessionSafety.LockedBoardsAreRegistered | src/mbtools/registry/api.py:884-901 | a locked local sim- uid is a live registration with its own virtual row |
| Registry.Registry.Accept | src/mbtools/registry/remote_api.py:464-485 | accepting a connection is the connect step; a remote one becomes live |
| Registry.Registry.OpLock | src/mbtools/registry/_api_base.py:598-628 | makes exactly the lock step, and answers not found, locked with the holder's status, or ok |
| Registry.Registry.OpUnlock | src/mbtools/registry/_api_base.py:630-643 | makes exactly the unlock step, and reports whether the lock was this holder's |
| Registry.Registry.OpStreamPrecheck | src/mbtools/registry/_api_base.py:864-929 | starts a session exactly with the connection's own serial or relay lock, a known port and an attached board; each refusal has its own answer |
| Registry.Registry.EndStream | src/mbtools/registry/_api_base.py:1191-1198 | ending a stream is the release step followed by the discard step |
| Registry.Registry.OpFlashCheck | src/mbtools/registry/remote_api.py:762-783 | starts a flash exactly with the connection's own flash lock on an attached board |
| Registry.Registry.EndFlash | src/mbtools/registry/remote_api.py:807-819 | ending a flash makes exactly the flash-end step |
| Registry.Registry.CloseConnection | src/mbtools/registry/api.py:692-704 | the release loop frees exactly the recorded locks its holder still has, and makes the close step |
| Registry.Registry.DropSession | src/mbtools/registry/remote_api.py:541-542 | after its connection is closed a session stops being live |
| Registry.Registry.SweepDeadProcesses | src/mbtools/registry/api.py:580-625 | releases exactly the locks whose holder is a local process with a dead pid, and no other |
| Registry.Registry.SweepDeadSessions | src/mbtools/registry/remote_api.py:425-454 | releases exactly the locks whose holder is a session no longer live, and no other |
| Registry.Registry.OpForceUnlock | src/mbtools/registry/api.py:975-1024 | frees the lock of any known uid and reports the status that was broken |
| Registry.Registry.OpRegisterBoard | src/mbtools/registry/api.py:823-860 | refuses malformed requests, reserved names and used names with their own answers and no change, else registers and writes the row in one step |
| Registry.Registry.DetachVirtual | src/mbtools/registry/api.py:884-901 | does nothing for a replaced registration, else drops registration, lock and row in one step |
| Registry.Registry.OpRescan | src/mbtools/registry/_api_base.py:721-771 | removes exactly the stale unlocked rows it reports, reports the stale locked ones, and changes nothing on a dry run |
| Daemons.Daemon.Attach | src/mbtools/registry/daemon.py:454-471 | claims before it writes; a denied claim leaves no trace |
| Daemons.Daemon.Detach | src/mbtools/registry/daemon.py:473-481 | releases lock and claim and disconnects the row, as one step |
| Daemons.Daemon.AttachNew | src/mbtools/registry/daemon.py:454-471 | a run of scan steps after which exactly the newly seen granted uids have changed, and are attached |
| Daemons.Daemon.DetachGone | src/mbtools/registry/daemon.py:473-481 | a run of scan steps after which exactly the gone uids have changed: no lock, no claim, disconnected |
| Daemons.AttachedNeedsNoClaim | src/mbtools/registry/daemon.py:473-501 | attached does not imply claimed: a board unplugged under its flash lock is awaited and given up on; and a probe ends after its board was unplugged |
| Daemons.OverdueFromTheDeadline | src/mbtools/registry/daemon.py:483-485 | a wait is overdue from its deadline on, and only while the board is absent |
| Daemons.ArmedIff | src/mbtools/registry/daemon.py:473-477 | exactly the real boards that go while flash-locked get the new deadline, every other wait stays |
| Daemons.Daemon.OnFlashRelease | src/mbtools/registry/daemon.py:324-343 | a released flash lock starts a wait with its deadline, except for a virtual board, so no virtual board is ever awaited |
| Daemons.Daemon.ProbeOutcome | src/mbtools/registry/daemon.py:608-617 | silence while a flash is awaited means no firmware, any other outcome is an ordinary probe step; the wait ends unless the row is gone |
| Daemons.Daemon.GiveUp | src/mbtools/registry/daemon.py:483-503 | marks exactly the absent overdue boards blank and ends their waits, keeps every other wait, and raises exactly when one of them has no row |
| Daemons.Daemon.RunOnce | src/mbtools/registry/daemon.py:420-503 | one cycle is a run of scan steps that attaches what is seen and granted, leaves denied uids alone, strips what is gone, starts waits for flash locks lost that way and ends exactly the overdue ones, raising exactly when an overdue board has no row |
| FlashRecovery.JoinedNamesIffALineDoes | src/mbtools/registry/flash.py:151-160 | joined output names a one-line signature exactly when one of its lines does |
| FlashRecovery.NamesInAnyCase | src/mbtools/registry/flashlogic.py:134-175 | output names a signature exactly when one is a part of its lower-case form |
| FlashRecovery.RunStreamed | src/mbtools/registry/flash.py:258-293 | stops at the end, at the first silence or at the first permission line; the joined output names a permission problem exactly in the last case, and a killed command never returns 0 |
| FlashRecovery.RunCommand | src/mbtools/registry/flashlogic.py:237-265 | for arbitrary output, stalls and exit codes, output naming a permission problem comes with a failure |
| FlashRecovery.EveryRunHasTheShape | src/mbtools/registry/flashlogic.py:386-476 | the only command orders are flash, maybe one retry, maybe one erase and flash, then reset |
| FlashRecovery.RecoveryIsSafe | src/mbtools/registry/flashlogic.py:386-476 | for every pyOCD behaviour: at most one mass erase, only right after a flash that failed as locked; 0 exactly when the last flash and its reset returned 0; a permission failure ends the run |
| FlashRecovery.RecoveryIsTried | src/mbtools/registry/flashlogic.py:396-476 | for every pyOCD behaviour: a locked failure is followed by an erase, a transient first failure by a retry, an erase by a flash, a flash by a reset, unless permission was missing |
| FlashRecovery.BlankIffFlashFailedAfterErase | src/mbtools/registry/flashlogic.py:418-448 | a finished run leaves the board erased exactly when it ends in a successful erase and a failed flash |
| FlashRecovery.FlashHex | src/mbtools/registry/flashlogic.py:296-476 | the code follows the decision table, runs nothing for a bad file or missing permission, and logs "no firmware" exactly when the board is left erased |
| FlashRecovery.FlashFile | src/mbtools/registry/flashlogic.py:268-293 | only the target's image of a Universal Hex, or the plain file itself, is ever flashed; raises exactly on an unreadable Universal Hex |

## Left out

- Resolving a token (short uid, device name, `@host`, ambiguity): the operations take the uid it resolves to.
- The map from uid to connection (`_uid_connections`): its only effect is to close a connection, which the model lets any connection do at any step.
- RunOnce: the probing pass that follows the locked part is not modelled; a probe result is a step of its own (`ProbeOutcome`), so the gap between the lock check and opening the port stays open as documented.
- Opening the endpoint, the serial port or the pipe, sockets, processes and pyOCD: replaced by arbitrary chunks, failures, output and exit codes.
- OpenStream: how a JSON answer is read is a parameter; what it means (accepted, refused, not an object) is modelled.
- OpRegisterBoard: whether the endpoint, role, serial and simulated fields are well formed is one given verdict; only the name is checked here.
- The relay pool's listener takes locks on the same table under holders of its own that no connection of the two API servers owns, and works outside the shared lock; that every lock is owned by an open connection is about the locks taken through the two API servers.
- HandleStream: a recv that raises ends the session wherever it happens; the bytes of the frame it was reading are not accounted for.
- PipeLineReader: lines are bytes; decoding them as UTF-8 is not modelled.
- Text that is not ASCII, and Python's more liberal `int(x, 16)`, `fromhex`, `splitlines` and `lower`: hex lines are given stripped and non-empty.
- ExtractForMcu: an overlap of two records, which the Intel HEX library rejects on loading, is here simply a later write.
- Timestamps, short uids, chip identity and flash counts in a device row, and `mark_flashed`: no rule modelled here depends on them.
- SQL and transactions of the store: each write is one assignment to the table.
- UpsertVirtual: the raw announcement, null in the database for a virtual board, is an empty text.
- NameFor: which of several registered robots on one link is returned is left open, as the query does.
- FreshPeerCatchesUp: names are published in the order they are written; the publish happens after the shared lock is left, so this is a hypothesis about callers.
- Reachability threads of the peers and their resync: only that a peer may become reachable or unreachable at any step.
- The order in which a sweep, a close or a scan visits uids: arbitrary.
- Connections that only watch events, the names listener, command lines, service installation, release fetching and table rendering: plumbing or easy members.
- The flash operation object in `flash.py` beyond the watchdog loop: its error path builds an exception with too few arguments, and nothing is claimed about it.
