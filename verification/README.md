# librtcdc and its file synchronisation: a verified model

This Dafny project models the two communicating systems of the repository, and the threads
beneath them, and proves what they guarantee over whole runs.

1. **Data channels between two peers** (`src/dcep.c`, `src/rtcdc.c`, `src/sctp.c`): a byte-level
   codec for the OPEN message of RFC 8832, a `Peer` class with its 128-slot table, and a system of
   two peers joined by one ordered queue for each direction and stream. A step is one API call or
   one delivery; SCTP may refuse any send.
2. **Session descriptions** (`src/sdp.c`, `src/rtcdc.c`): the printer and the parser over a
   64 KiB buffer, and the roles of two peers that exchange descriptions in any order.
   `APIs/sy_rtcdc.c` adds the framing of candidates.
3. **File synchronisation** (`APIs/ms`, `APIs/cli`, `APIs/fs`): the outer join of two checksum
   lists, the chunked transfer of files and its receiver, whole synchronisations, and the
   three-party session protocol with any number of sequential clients and file servers.
4. **Threads** (`src/rtcdc.c`, `src/ice.c`, `src/sctp.c`): start-up over unlocked flags, and the
   two mutex-guarded byte queues between SCTP, DTLS and ICE. Every flag access, and the load and
   the store of every queue call, is a step of its own.

Code that changes state is imperative Dafny (classes `PeerConnection.Peer`, `Sdp.Endpoint`,
`Transfer.Receiver`, `Metadata.MetadataServer` and methods with loops), each method proved equal to
a function of the old state; the theorems are about those functions. `dafny verify dfyconfig.toml`
checks the project.

## What the proofs found

- A channel created before the SCTP handshake is done is published but never announced, because
  `send_sctp_message` reports success without sending (`Careless.CreateExplainedIff`).
- Stream numbers can repeat, and in any run they do exactly when a creation or an accepted OPEN
  takes a number that is in the table (`StreamNumbers.RunUniqueIff`); neither call looks. Runs that
  do: a cursor that wraps after 32768 creations (`StreamNumbers.CursorWraps`), a client that creates
  both before and after its handshake (`StreamNumbers.RestartRepeats`), a server that creates before
  its handshake (`StreamNumbers.EarlyServerRepeats`), and peers of equal roles
  (`StreamNumbers.EqualRolesClash`), which `Roles.LockstepExact` can leave behind.
- An OPEN is decoded faithfully only if both texts are shorter than 65536 bytes
  (`Dcep.DecodeRecoversIff`).
- A media line with fewer than four columns gives `atoi` no string (`SdpTheorems.ParsedExact`).
- Two peers with equal roles that describe themselves at the same time never settle
  (`Roles.LockstepExact`); offer and answer always do (`Roles.HandoffsSettle`).
- A file is transferred faithfully exactly if it contains no NUL (`Reassembly.TransferFaithfulIff`).
- `gen_md5` hashes zeros, so a status compares lengths (`Lengths.StatusOfLengths`) and different
  files of one length are never brought together (`Convergence.SameLengthStaysApart`); with 256 files the 8-bit count is 0 and nothing is
  transferred (`Convergence.CountWraps`).
- A client waits for ever exactly if the server dropped its request or a write slot was filled again
  before it was written (`Replies.RunReplies`).
- The senders ignore refused packets. A transfer survives just the refusals of data packets that
  carry nothing (`Losses.HarmlessRefusalsIff`).
- All uploads to a file server share one static file pointer: two of them both arrive exactly if no
  header of one comes within a file of the other (`SharedReceiver.TwoTransfersIff`).
- Two threads in `sctp_data_ready_cb` can seal segments out of order (`PumpRaces.OrderCanBeLost`);
  serialised calls keep the order (`PumpOrder.SerialInOrder`).
- The startup thread's first handshake takes no mutex and can lose bytes of the DTLS queue
  (`PumpRaces.BytesCanBeLost`). In any run nothing is lost exactly if no thread stores over bytes
  that are not what it loaded (`PumpTheorems.RunConservedIff`).

## Model

| member | source | states |
|---|---|---|
| Dcep.BuildOpen | src/rtcdc.c:269-302 | the buffer filled field by field is the serialized OPEN of the label and protocol |
| Dcep.HeaderFields | src/dcep.h:39-47 | every field of a serialized OPEN is at its offset, big-endian, with the two text lengths modulo 65536 and the texts behind the header |
| Dcep.DecodeRecoversIff | src/dcep.c:13-35 | decoding an OPEN recovers type, priority, the reliability field that the type selects, label and protocol exactly if both texts are shorter than 65536 |
| CallLaws.OpenBytes | src/dcep.h:39-47 | the bytes of an OPEN by position: 3, type, then priority, reliability and the two text lengths in base 256 with the high byte first, then label, then protocol |
| CallLaws.AllocateLaw | src/dcep.c:13-35 | the channel made of any OPEN of at least 12 bytes, field by field, with the reliability field that each channel type selects |
| CallLaws.CreateLaw | src/rtcdc.c:245-317 | a creation succeeds exactly if fewer than 128 slots are taken and SCTP takes the OPEN or is not up; its channel has the label and the protocol of the call, type 0 and the number under the cursor, and so has the OPEN, each text in its place |
| CallLaws.AcceptedAsAsked | src/dcep.c:37-58 | whatever peer accepts the OPEN of a creation gets a channel with the label and the protocol of the call |
| CallLaws.SendLaw | src/rtcdc.c:332-353 | result and PPID of a send, in numbers: 51, 53, 56 or 57 by type and length, and -1 for an unknown type or a refusal |
| CallLaws.OpenLaw | src/dcep.c:37-71 | an OPEN of 12 bytes or more with a slot free adds one channel, calls `on_channel` and is answered by the one byte 2; any other does nothing |
| CallLaws.AckLaw | src/dcep.c:73-87 | an ACK connects the first channel of its stream and calls its `on_open` |
| CallLaws.DataLaw | src/dcep.c:89-135 | data go to the first channel of their stream with the type that the PPID in numbers says; other PPIDs and empty packets do nothing |
| Channels.Find | src/dcep.c:76-79 | the scan stops at the first slot with the stream, and nowhere else |
| PeerConnection.Peer.CreateDataChannel | src/rtcdc.c:245-317 | the table, cursor, packets sent and result are those of the specification `CreateChannel`: a full table refuses, the number is burnt even when the send fails, and the slot is published only after sending; the new slot has the label, the protocol and the number of the call |
| PeerConnection.Peer.Send | src/rtcdc.c:332-353 | the packet sent has the PPID for the data type, with the EMPTY variants for length zero, and an unknown type fails |
| PeerConnection.Peer.SendSctpMessage | src/sctp.c:350-406 | before the handshake nothing is sent and 0 is returned; afterwards -1 exactly if SCTP does not take the message |
| PeerConnection.Peer.HandleOpenRequest | src/dcep.c:37-71 | an OPEN with a free slot is published CONNECTED, announced to the user and acknowledged; without one nothing happens |
| PeerConnection.Peer.HandleOpenAck | src/dcep.c:73-87 | the first channel of the stream becomes CONNECTED and its user is told; an unknown stream changes nothing |
| PeerConnection.Peer.HandleDataMessage | src/dcep.c:89-104 | the first channel of the stream is given the message, whatever its state |
| PeerConnection.Peer.DataReceived | src/dcep.c:106-135 | dispatch by PPID and message type is that of the specification, and zero-length input is refused |
| PeerConnection.Peer.Start | src/rtcdc.c:388-412 | the stream cursor starts at the parity of the role and sending is enabled |
| Steps.RunInv | src/rtcdc.c:245-317 | every careful run of two peers of opposite roles keeps the invariant of tables, streams and queues |
| ChannelTheorems.RunAgrees | src/dcep.c:37-87 | in every reachable state a channel that its opener sees CONNECTED has exactly one counterpart at the other peer, with the same stream, type, priority, reliability, label and protocol |
| Requests.CreatedStays | src/rtcdc.c:282-302 | in any run, careful or not, the slot of a creation that succeeded keeps the label and the protocol of that call, type 0 and the number that the cursor had |
| Requests.RunAnchored | src/dcep.c:37-87 | in any careful run, every channel at the other peer on the number of a creation is CONNECTED and has the label and the protocol that the creator was called with, and there is one if the creator sees its own CONNECTED |
| Callbacks.RunTold | src/dcep.c:37-104 | in any careful run, each peer's calls are just these: `on_open` once for each own channel that is CONNECTED, `on_channel` once for each channel of the other peer, and on each stream the messages that were given to it, in order |
| ChannelTheorems.RunExplains | src/dcep.c:44-70 | each channel still CONNECTING at its opener has its OPEN in flight, or its ACK in flight, or was refused, or lost its ACK to a failed send, and only one of these |
| ChannelTheorems.RunBalanced | src/rtcdc.c:293-315 | OPENs sent are exactly the disjoint union of OPENs in flight, accepted and refused, as sets and in number |
| ChannelTheorems.RunDelivers | src/dcep.c:89-135 | on each stream and direction the messages given to the receiver are a prefix of the non-empty messages sent, types kept, and all of them once the queue is empty; after a refused OPEN nothing is given |
| ChannelTheorems.RunSids | src/rtcdc.c:290-291 | no two channels of a table share a stream, own parity tells who opened it, and without failed sends every number issued is below 256 |
| ChannelTheorems.RunExtends | src/rtcdc.c:259-266 | occupied slots are a prefix that only grows, channels never move or change but in state, and CONNECTED is final, for careless creations too |
| Careless.CreateExplainedIff | src/sctp.c:357-405 | a creation that SCTP would take leaves every CONNECTING channel explained exactly if the handshake is done |
| StreamNumbers.CreateDistinctIff | src/rtcdc.c:259-315 | a creation keeps stream numbers unique exactly if the table is full, or SCTP refuses the OPEN, or the number under the cursor is not in the table |
| StreamNumbers.ReceiveDistinctIff | src/dcep.c:37-71 | a packet from SCTP keeps them unique exactly if it is not an OPEN, long enough and with a free slot, on a number that is in the table |
| StreamNumbers.RunUniqueIff | src/rtcdc.c:290-291 | for any two peers of any roles and any run, careless creations included: both tables end without a repeated number exactly if they began so and no creation and no accepted OPEN took a number in the table |
| StreamNumbers.CarefulNeverRepeats | src/rtcdc.c:388-412 | creations after the handshake, before the cursor wraps and with texts that fit never lead to such a step |
| StreamNumbers.RestartRepeats | src/rtcdc.c:389 | a client that creates before and after its handshake has two channels on stream 0 |
| StreamNumbers.EarlyServerRepeats | src/dcep.c:44-58 | a server that creates before its handshake takes stream 0 and then accepts the client's OPEN on it |
| StreamNumbers.EqualRolesClash | src/dcep.c:44-58 | peers of equal roles open the same stream: after one OPEN arrives two channels share it, and whatever comes on it goes to the one opened here |
| StreamNumbers.CursorWraps | src/rtcdc.c:290-291 | after one creation and 32767 failed ones, the next creation gets the stream of the first |
| Text.PiecesReplaced | src/rtcdc.c:204-231 | splitting at a separator and ending every piece with another text replaces exactly the separators |
| Text.PiecesOfLines | src/rtcdc.c:204 | splitting separated lines gives the lines back, and an empty piece |
| Text.AtoiDecimal | src/rtcdc.c:213 | reading a printed integer gives it back |
| Descriptions.AtoiLaw | src/rtcdc.c:213 | one digit more multiplies by ten and adds it, and what follows the first other character does not count |
| Sdp.Endpoint.GenerateSdp | src/sdp.c:18-66 | the text built through `pos` is the specified lines, each ended with CRLF; `Descriptions.PrintedText` says which |
| Descriptions.IceChosen | src/sdp.c:45-52 | the lines copied from libnice are those that start with `a=ice-ufrag:` or `a=ice-pwd:`, each at its own position, in their order and as often as they occur |
| Descriptions.ChosenUnique | src/sdp.c:45-52 | no other sequence of lines is that |
| Descriptions.PrintedText | src/sdp.c:35-65 | a description is, word for word, five fixed lines, the media line, the connection line, those lines of libnice, fingerprint, role, `a=mid:data` and the port again, and the other peer's libnice gets the same lines |
| Sdp.Endpoint.ParseOfferSdp | src/rtcdc.c:192-234 | role, remote port, text for libnice and outcome are those of the specification, also when the loop returns early |
| SdpTheorems.ParsedExact | src/rtcdc.c:211-231 | for any offer: reading stops at the first line that starts with `m=application` and has no positive port; of what was read the last `a=setup:` line with `active` or `passive` gives the opposite role, the last media line the port, and the text is the lines ended with LF |
| SdpTheorems.RewrittenExact | src/rtcdc.c:204-231 | an offer read to its end becomes itself with CRLF turned into LF and one LF more; its length is len - k + 1, and it fits the buffer with its NUL exactly if len <= 65534 + k |
| SdpTheorems.PrintedRecovered | src/sdp.c:35-65 | whoever parses a printed description takes its port and the opposite role and hands on the lines that `Descriptions.IceChosen` names; it is refused, changing nothing, exactly if the port is not positive |
| Roles.ReadTakes | src/rtcdc.c:218-228 | reading any description posted earlier gives the reader the opposite of the role its maker had then |
| Roles.RunComplementaryIff | src/rtcdc.c:165-177 | after any run of describing and reading, in any order, the roles are complementary exactly if the last description read was current, or none was read and they began so |
| Roles.HandoffsSettle | src/rtcdc.c:171-176 | offer and answer from any roles, repeated in any directions, end complementary, and the first offerer keeps its role |
| Roles.LockstepExact | src/rtcdc.c:218-228 | when both describe before either reads, equal roles stay equal and flip every round, and complementary ones stay |
| Candidates.CandidateSet.OnCandidate | APIs/sy_rtcdc.c:7-18 | appends a line, and the parser at the other peer finds this candidate after all those before it exactly if it has no line end and is shorter than 128 |
| Candidates.GetLine | APIs/sy_rtcdc.c:27-45 | returns the text up to the first line end and moves past it |
| Candidates.ParseCandidates | APIs/sy_rtcdc.c:47-53 | the loop yields the lines of the text, its remaining length decreasing |
| Candidates.UnframedIff | APIs/sy_rtcdc.c:27-53 | parsing yields a list exactly if the text is that list collected and every candidate is free of line ends and shorter than 128 |
| Checksums.JoinChecksumArrays | APIs/ms/metadata_server.c:385-427 | the nested loops compute the specified fold of the second list into the first |
| Checksums.JoinExact | APIs/ms/metadata_server.c:385-427 | the result is the full outer join with duplicates and nothing else is: the names of A in order, then the new names of B in first-occurrence order; the first row of a name has the last checksum of B, every other is ""; its length is between those of A and A plus B |
| Checksums.CompareLists | APIs/ms/metadata_server.c:708-743 | the loop classifies every joined row |
| Checksums.DiffCorrect | APIs/ms/metadata_server.c:708-743 | for distinct names and non-empty checksums every file of either side is listed once, with CLIENT_LACK, FS_LACK, CLEAN or DIRTY each exactly when presence and checksums call for it; upload and download overlap exactly on DIRTY |
| Transfer.InputFile.Gets | APIs/cli/cli_rtcdc.c:41-47 | one `fgets` takes the next chunk: up to the first newline, the end or 1207 bytes |
| Transfer.SendFiles | APIs/cli/cli_rtcdc.c:8-62 | the sender's loops send header, data and trailer for every selected file that opens, in order |
| Transfer.Receiver.OnMessage | APIs/cli/cli_rtcdc.c:122-151 | one packet changes repository and open file as specified |
| Reassembly.StripExact | APIs/cli/cli_rtcdc.c:46 | a file survives chunking unchanged, and keeps its length, exactly if it has no NUL |
| Reassembly.FileShape | APIs/cli/cli_rtcdc.c:30-54 | the packets of a file are a header, data numbered 1, 2, 3, ... in chunks of 1 to 1207 bytes, each but the last ended by the first newline or full, and together the file, and a trailer; an empty file has no data packet |
| Reassembly.TransferExact | APIs/fs/fs_rtcdc.c:7-37 | after the whole trace the receiver holds its old store overridden by exactly the selected files that open, with their NUL-stripped contents, and no file is open; no packet reaches a closed file |
| Reassembly.TransferFaithfulIff | APIs/fs/fs_rtcdc.c:91-143 | all files of a transfer arrive unchanged exactly if none of them contains a NUL |
| Sync.GenMd5 | APIs/cli/sy.c:29-66 | the result is `md5` of a sequence of as many bytes as the file has, all of them zero |
| Lengths.HashOfZeros | APIs/cli/sy.c:41-45 | the checksum of a file is that of any all-zero sequence of its length |
| Lengths.HashIsLength | APIs/cli/sy.c:41-45 | two files have equal checksums exactly if they are equally long, given that `md5` tells zeros of different lengths apart, as every injective function does |
| Lengths.StatusOfLengths | APIs/ms/metadata_server.c:693-770 | a status lists every file once, and a file of both sides as DIRTY exactly if its lengths differ and as CLEAN exactly if they do not |
| Lengths.SyncByLengths | APIs/cli/sy.c:436-732 | NUL-free repositories of at most 255 files end with the same names; a file equally long on both sides keeps its contents on each, every other file ends on both sides as the client had it, or as the file server had it if the client had none |
| Sync.StatusExact | APIs/ms/metadata_server.c:693-770 | a status request reports every file of both sides once, with the state that its two checksums give |
| Sync.RunTransfer | APIs/cli/cli_rtcdc.c:19-57 | whatever SCTP's verdicts on the packets, the receiver ends with what it makes of those taken, of the files below the 8-bit count |
| Sync.RunWholeTransfer | APIs/fs/fs_rtcdc.c:100-143 | when every packet is taken exactly the selected files below the 8-bit count are overridden |
| Sync.ReachedExact | APIs/common.h:67-70 | the files that a transfer looks at are those at positions below the number of all files modulo 256 in the file server's listing followed by the client's without what is on the file server |
| Losses.UnopenedStays | APIs/fs/fs_rtcdc.c:16-35 | a file whose header is lost stays as it was, whatever else arrives |
| Losses.HeaderArrived | APIs/fs/fs_rtcdc.c:16-35 | a file whose header arrives holds just the data that arrive, and is closed exactly if its trailer arrives |
| Losses.LossyTransferIff | APIs/cli/cli_rtcdc.c:37-53 | for distinct files that all differ from the receiver's: all arrive whole and closed exactly if SCTP refuses nothing but data packets that carry nothing |
| Losses.HarmlessRefusalsIff | APIs/cli/cli_rtcdc.c:37-53 | the refusals after which everything is right whatever the receiver had are exactly those |
| SharedReceiver.TwoTransfersIff | APIs/fs/fs_rtcdc.c:15-36 | for any interleaving of two whole transfers of different files into one receiver: both arrive, and no closed file is used, exactly if no header of one comes between a header and its trailer of the other |
| Convergence.Synchronise | APIs/cli/sy.c:436-732 | status, upload, fresh status and download leave the two repositories of the specification |
| Convergence.SyncExact | APIs/cli/sy.c:436-732 | for any number of files a third status is all CLEAN exactly if every file settles, given its position in the listing orders of the two reports |
| Convergence.SyncConvergesIff | APIs/ms/metadata_server.c:693-770 | with at most 255 files a third status is all CLEAN, and both sides have the same names and checksums, exactly if each file that only the file server has keeps its checksum when stripped |
| Convergence.SyncConverges | APIs/fs/fs_rtcdc.c:102-142 | with at most 255 files, and no NUL in files that only the file server has, a third status reports every file CLEAN |
| Convergence.NothingLost | APIs/cli/cli_rtcdc.c:19-57 | the upload leaves alone what only the file server has, and no file is lost on either side |
| Convergence.ContentsConvergeIff | APIs/cli/sy.c:436-732 | NUL-free repositories of at most 255 files end equal exactly if no two different files of one name had equal checksums |
| Convergence.SameLengthStaysApart | APIs/cli/sy.c:43-44 | with the checksum of the source, different files of one name and length keep their contents on both sides |
| Convergence.CountWraps | APIs/common.h:67-70 | with a multiple of 256 files nothing is transferred in either direction |
| Metadata.MetadataServer.InsertSession | APIs/ms/metadata_server.c:71-112 | an id that no session and no address has gets the record |
| Metadata.MetadataServer.HandleInitOk | APIs/ms/metadata_server.c:550-599 | a fresh address shows the session's file server and repository, and the answer goes to the session's client |
| Metadata.MetadataServer.HandleConnect | APIs/ms/metadata_server.c:600-646 | a new session takes file server and repository from the address |
| Metadata.MetadataServer.HandleStatusOk | APIs/ms/metadata_server.c:693-770 | the record gets joined rows and diff, and the diff is the answer; `Statuses.StatusRight` says over all runs that it is the right one |
| Metadata.MetadataServer.Receive | APIs/ms/metadata_server.c:472-922 | every RECEIVE case changes sessions, addresses, slots and pending writes as specified; what that means over runs is in `Statuses`, `Bindings` and `Replies` |
| Metadata.MetadataServer.Writeable | APIs/ms/metadata_server.c:928-1056 | writes the slot's frame to its target and clears the target only |
| Metadata.MetadataServer.ConnectionClosed | APIs/ms/metadata_server.c:462-470 | drops the slot, the pending write and the first registration of the connection |
| Metadata.OthersKept | APIs/ms/metadata_server.c:135-253 | no handler changes the record of another session, rebinds a record, or removes one except for SY_CLEANUP |
| SessionTheorems.RunInv | APIs/ms/metadata_server.c:507-922 | every interleaving of clients, server and file servers keeps the invariant of records, clients and frames in flight |
| SessionTheorems.SessionsSafe | APIs/ms/metadata_server.c:507-922 | in every reachable state each frame in flight finds its session's record, no write goes to a cleared target, and each frame for a client goes to the connection that made the latest request of its session and waits for just that reply |
| Statuses.StatusRight | APIs/ms/metadata_server.c:647-770 | in any run, every SY_STATUS_OK on its way answers the latest status request of its session: its list is the outer join of the sums of that request and those of the FS_STATUS_OK it answers, with the status that each pair of sums calls for; for lists without repeated names each file is there once with the right status |
| Statuses.DownloadAsAnswered | APIs/ms/metadata_server.c:832-872 | in any run, every SY_DOWNLOAD for a file server carries the list of the session's latest status answer, and none before the first |
| Statuses.RepositoryNamed | APIs/ms/metadata_server.c:507-872 | in any run, every frame for a file server goes to the one that its session is bound to and names the repository it is bound to |
| Statuses.AddressTold | APIs/ms/metadata_server.c:550-599 | in any run, the address in a SY_INIT_OK is the one made for that session and shows what the session was bound to |
| Replies.RunReplies | APIs/ms/metadata_server.c:450-922 | in any run, a waiting client has exactly one frame in flight, exactly if no step lost it: a SY_INIT without a file server, a SY_CONNECT to an unknown address, or a write slot filled again before it was written |
| Replies.ReplyInReach | APIs/ms/metadata_server.c:472-1056 | from every reachable state, a waiting client whose frame was not lost can get its reply within seven steps, unless that frame is a request that the server would drop |
| Bindings.RunBinds | APIs/ms/metadata_server.c:507-646 | in every reachable state a record shows the first registered file server and the repository named by its SY_INIT, or what its address shows, and so do addresses and the sessions connected by them |
| Bindings.RunRegistry | APIs/ms/metadata_server.c:480-506 | in any run the registry is the list of the registrations taken, in order |
| Bindings.RunLives | APIs/ms/metadata_server.c:893-922 | in any run a session has its record from the request that opened it until its SY_CLEANUP is taken |
| Bindings.WithoutFirst | APIs/ms/metadata_server.c:462-470 | CLOSED takes out the first registration of the connection and leaves the others in order |
| Bindings.RunFrozen | APIs/ms/metadata_server.c:71-132 | no later step of any run rebinds a session or an address, or removes an address |
| Bindings.ConnectedLikeOrigin | APIs/ms/metadata_server.c:312-348 | a session opened by SY_CONNECT has the pair of the SY_INIT session whose FS_INIT_OK made the address |
| Startup.AdvanceKeeps | src/ice.c:100-113 | one step of any thread, with any answer from the libraries, keeps the order of the flags and what the thread may rely on, and takes no flag back |
| Startup.RunOrdered | src/rtcdc.c:364-443 | in every interleaving SCTP is up only after DTLS and DTLS only after ICE, no library call comes before its time, `on_connect` is called at most once by a thread and with everything up, and the process is killed only after it was told to exit; `Arrivals` says what does happen |
| Startup.RunRises | src/rtcdc.c:461 | no flag is ever taken back |
| Startup.ConnectedForGood | src/rtcdc.c:406-431 | once a thread has called `on_connect`, all flags and the stream cursor stay set and that thread never calls it again |
| Arrivals.RunShown | src/rtcdc.c:406-434 | in every run SCTP is marked as up exactly if some thread is about to call `on_connect` or has called it once |
| Arrivals.CallLogged | src/rtcdc.c:406-434 | a thread that is about to call `on_connect` ends only by calling it, with its count one higher |
| Arrivals.StartupConnects | src/rtcdc.c:364-443 | from every reachable state without a request to exit, whatever threads there are, each startup thread that has not ended can still call `on_connect`, and then has called it once |
| Arrivals.SomeRunConnects | src/rtcdc.c:364-443 | whatever kinds of threads a process starts with, a run exists in which the startup thread among them calls `on_connect` |
| Arrivals.RunAnswered | src/ice.c:105-113 | in every run SCTP is marked as up only after it reported a connection, DTLS only after a finished handshake, and `on_connect` is called only after both |
| Arrivals.ThreadGetsDone | src/sctp.c:220-292 | in any run that is ready for data, a thread of any kind that starts and goes on shows just its deeds in order: handshake and `on_connect`; a packet sent; a packet for SCTP; a segment sealed and a packet sent |
| Arrivals.IceHandshakeRound | src/ice.c:249-269 | until DTLS is up a round of the ICE thread sends, goes on with the handshake, and marks DTLS as up once that is finished |
| Arrivals.GivesUp | src/sctp.c:226-275 | a waiting thread that is told to exit ends within two steps without a deed, and ends the process exactly if it was sending |
| PumpTheorems.RunBooks | src/sctp.c:277-291 | in every run, for both queues and any handshakes, each removed segment is non-empty, fits the buffer, and is in one thread's buffer or was handed over once |
| PumpTheorems.DoneConservesIff | src/sctp.c:277-282 | any single act on a conserved queue, a write, a record, a read or a handshake, with or without the mutex, keeps it so exactly if it does not store over bytes other than those it loaded |
| PumpTheorems.RunConservedIff | src/sctp.c:19-31 | in any run with any number of threads and handshakes of both kinds, the bytes written to a queue are at every moment the removed segments in order and what remains, exactly if no thread stores over bytes that are not what it loaded |
| PumpTheorems.StaleNeedsStore | src/rtcdc.c:377 | such a store needs another thread's store between this thread's load and its own |
| PumpTheorems.RunConserves | src/ice.c:249-269 | the SCTP queue is conserved in every run, and the DTLS queue in every run in which a handshake without the mutex begins only while the mutex is free and finishes before anything else happens |
| PumpTheorems.MutexExcludes | src/ice.c:262-268 | which is so if every handshake takes the mutex |
| PumpOrder.RunWrites | src/sctp.c:19-31 | the bytes written to the SCTP queue are the data of the callbacks, each once, and DTLS record n seals the n-th segment handed over, later segments in later records |
| PumpOrder.InOrderIff | src/sctp.c:286-290 | segments are handed over in the order of removal exactly if no thread hands one over while another still holds an older one, on both queues and in any run |
| PumpOrder.SerialInOrder | src/sctp.c:19-31 | if each callback takes its first step only when no other is between its first step and the end of its SSL_write, then DTLS record k seals the k-th segment removed, in order, and what was sealed is the beginning of what was written |
| PumpOrder.InOrderPrefix | src/sctp.c:286-290 | in that case what was handed over is the beginning of what was written |
| PumpProgress.DeliversAlone | src/sctp.c:220-292 | from every reachable state with idle queues, a callback that runs undisturbed gets its data through: written and taken from the SCTP queue, its record added to the DTLS queue, taken and handed to ICE, both queues empty again |
| PumpProgress.IceSends | src/ice.c:246-257 | a round of the ICE thread takes all that is pending, hands it to ICE and is back where it began |
| PumpProgress.FlightWritten | src/ice.c:262-265 | a handshake with the mutex puts its flight at the end of the DTLS queue |
| PumpRaces.OrderCanBeLost | src/sctp.c:259-292 | of any two callbacks that wrote a and then b, the second can seal b as the first record |
| PumpRaces.BytesCanBeLost | src/rtcdc.c:377 | when a handshake of the ICE thread falls between load and store of the one without the mutex, its bytes are gone; nothing is lost exactly if it wrote none |

## Left out

- ChannelTheorems.RunAgrees: holds for runs whose creations meet `MayCreate` (handshake done, cursor not wrapped, NUL-free texts shorter than 65536); `Careless` and `StreamNumbers` show what goes wrong otherwise.
- ChannelTheorems.RunExplains: for such runs too; `Careless.CreateExplainedIff` shows that the handshake condition is exact.
- ChannelTheorems.RunBalanced: for such runs too.
- ChannelTheorems.RunDelivers: for such runs too.
- ChannelTheorems.RunSids: for such runs too; `StreamNumbers.RunUniqueIff` is the exact condition for any run.
- Steps.RunInv: for such runs too.
- PeerConnection.Peer.CreateDataChannel: each API call and callback is one atomic step, so another call between the send and the publication of the slot, or a send from inside `on_channel`, is not modelled.
- PeerConnection.Peer.HandleOpenRequest: an OPEN whose declared lengths exceed the bytes received is cut at the end of the message, where the source reads on.
- Reassembly.TransferExact: file names are C strings that fit the name field of a diff entry, into which the source copies them unchecked.
- PumpTheorems.RunConserves: on the DTLS queue for runs that treat the startup thread's first handshake as if it had the mutex; `PumpTheorems.RunConservedIff` covers all runs.
- Losses.LossyTransferIff: for lists without repeated names, as the status reports are.
- SharedReceiver.TwoTransfersIff: for two transfers of different files, without refused packets.
- Convergence.Synchronise: both its transfers lose no packet.
- SessionTheorems.SessionsSafe: clients and file servers do not disconnect in the middle of a request, and a client's receipt of a reply and the server's CLOSED event are one step.
- Sdp.Endpoint.GenerateSdp: the text must fit the buffer, which the source does not check; ParseOfferSdp likewise.
- Text.AtoiDecimal: numbers outside the range of a C `int` are not modelled.
- Peer role 0 (unknown), which no transport ever has, and slots of destroyed channels, which the source never reuses.
- Allocation failures, logging, `usleep` timing, DEBUG branches, `sctp_thread` and the deferred-message queue.
- Empty messages: a zero-length send is modelled, but SCTP hands none of them to the receiver's code.
- The order of frames between two websocket parties, which the session model leaves free.
- Replies.ReplyInReach: the reply can come, from every such state; that the scheduler lets it come is not modelled. The same holds of Arrivals.StartupConnects.
- Statuses.StatusRight: the list as an outer join for any lists; each file once for lists without repeated names and empty sums.
- Requests.RunAnchored: for runs whose creations meet `MayCreate`; Callbacks.RunTold likewise.
- Lengths.SyncByLengths: for NUL-free files; `Convergence.SyncExact` covers the others.
- SDP texts and candidates inside session frames, API keys and tokens, JSON, BSON and MongoDB, fixed-size path and string buffers, subdirectories; session states are reduced to the four that are set.
- Handshake flights enter the DTLS queue as threads of their own, whichever thread of the source makes them.
- `exit_thread` in the byte queues (its effect on the waits is in `Startup`), and the incoming queues, which have one reader.
- `src/dtls.c`, libnice and OpenSSL: handshakes and readiness are free choices, a BIO is a byte sequence, sealing a record is any function of its number and content.
- `g_context_ref` and `g_sctp_ref`, `src/util.c`, the demo programs, `sandbox/`, `python/`, `generate_local_candidate_sdp`: counters, demos, bindings and a second filter, with nothing hard in them.
