# Verified model of the game-server framework

Dafny models of the parts of the framework that carry real state, branching or
arithmetic, and proofs of what they promise. `dafny verify dfyconfig.toml`
checks everything.

| part | files | main results |
|---|---|---|
| CRC-32 | `Crc32Table`, `Crc32` | the unrolled table form is the bitwise CRC of section 8 of RFC 1952; the residue law; every burst of up to 32 bits is detected, the 33-bit generator never is |
| stream framing | `Framing`, `Chunking`, `Streams`, `Oversized`, `Connector`, `Delivery` | independence of how TCP cuts the stream, and the exact fate of a frame too long for it; end-to-end delivery over every interleaving |
| server registry | `ServerIds`, `Registry`, `Introductions` | the three maps agree; every compatible pair is introduced exactly once, every accepted registration answered once |
| login admission | `LoginPackets`, `LoginKeys`, `MasterUsers`, `MasterLogin`, `GateClients`, `GateRuns`, `Admission`, `LoginFailures` | conservation laws across master, gates and network; one acceptance admits at most one login, and every user in the table is there for a reason |
| brokerage | `Peers`, `Brokerage` | the accounts of every request balance; every connect job was asked for, relayed, and carries the address its server gave |
| stored procedures | `Decimals`, `SqlStatements`, `SqlConnector`, `SqlMeaning` | the generated texts parse back; arguments and outputs are routed to their own parameters |
| threads | `ThreadPools`, `AcceptLoop` | load accounting and balance; what each failed step of accepting gives back, hands over, announces and loses |

Shared helpers: `Tallies`, `ObjectMaps`, and `Folds` (in `Crc32.dfy`). Automatic
induction is switched off on every lemma; the proofs make their own inductive
calls.

Objects whose methods change fields are classes; each method is proved equal to
a function of the old state, and the laws are proved about those functions over
every run. Runs are sequences of steps in any order, with outcomes of the
operating system, the database library and the allocator as part of the steps,
wherever the source looks at them. Fields called history in the comments exist
only so that a law can be stated.

Where the code does not do what one would expect, the exact condition is proved:

- Only the first length of a call is held against 8192. For every stream of
  frames and every cutting, everything is received exactly when each frame over
  the limit fits the largest packet class and some call finds the whole of it
  behind at least one other byte; otherwise the connection breaks. The limit is
  the smaller of 8192 and the largest class (4096 with the ini files shipped), and
  frames up to it are received however they are cut.
- The retained bytes survive a reconnect. A new connection is read right exactly
  when there are none: for whole streams however they are cut, and even for one
  packet of one byte. A rejected length breaks every later connection, and frames
  queued before a refusal are queued again.
- A full receive ring drops packets; those that remain stay in order, and none
  is dropped exactly when the ring had room at every call.
- A short `send` is taken for a complete one, and the stream loses bytes exactly
  then.
- A server that registers under an identity value with a non-zero top byte is
  filed under the cleared value but announced under the raw one, so nobody is
  introduced to it and it is introduced to nobody. In the lobby's peer table
  removal by session keeps the two indices in agreement exactly when the top byte
  is clear; the master never relays other identities, so there they do agree. A
  server for whose announcement there is no packet (no class holds 100 bytes, or
  sending packets of this kind is not compiled in) is registered without being
  introduced to anybody that was there before.
- A gate that already expects a user keeps the old key but hands out a new one,
  which then does not open the gate; a wrong attempt uses the record up. A run is
  given in which the login server's session is gone when the gate's answer comes
  back, so that the master forgets the user and the gate does not; the login
  server registers again, asks again, and the key it is handed fails.
- A gate's good answer is written into a packet requested with 120 bytes
  (GateServer/LGateServerPacketProcess_FromMasterServer.cpp:219) and is cut short
  unless the class that serves this holds its 196 bytes. With the ini files shipped
  (128) every good answer is cut short, and then no login ever gets a good verdict.
- The master's handler of L2M_USER_OFFLINE is defined but not registered
  (MasterServer/LMasterServer_PacketProcess_Proc.cpp:56-71), so a login server
  cannot withdraw a request. The laws hold with and without that step.
- `ProcessTimeOutWillConnect` is declared and defined
  (GateServer/LClientManager.h:82, GateServer/LClientManager.cpp:289) but nothing
  calls it. So in the program no record expires and the queue of deadlines only
  grows. Where it is called, a stale deadline expires a newer record, and every
  deadline is reported OFFLINE to the master, also for users that logged in; a
  run is given for each.
- The select text ends in a comma exactly when the last parameter is an input
  (or there is no output). An output of the unhandled type shifts the next one.
- When committing the notice of a new connection fails, the session is given
  back but its notice stays queued, and is sent with a later commit; in one case,
  given exactly, it has been sent already. When the notice cannot be queued,
  everything is given back but its packet, which is lost.
- The close thread's ring may be full when a session is handed over; the result
  is ignored and the session flagged all the same, so that nobody ever closes it.

## Model

| member | source | states |
|---|---|---|
| Crc32Table.TableEntry | NetWork/CRC32.h:11-67 | each of the 256 printed constants is its index shifted eight times with feedback 0xEDB88320 |
| Crc32.Do1IsSerial | NetWork/CRC32.h:70 | one table step on a byte equals feeding its eight bits, least significant first, to the shift register |
| Crc32.ComputeCrc32 | NetWork/CRC32.cpp:15-44 | the loop of eight and the tail loop compute the bitwise CRC for every buffer and starting value below 2^32; null gives 0 |
| Crc32.CrcChain | NetWork/CRC32.cpp:35-43 | the CRC of a concatenation is the CRC of the second part started from that of the first |
| Crc32.CrcInRange | NetWork/CRC32.cpp:35-43 | from a starting value below 2^32 the result stays below 2^32 |
| Crc32.Residue | NetWork/CRC32.cpp:15-44 | the complement before and after: a buffer followed by the four bytes of its own CRC, low byte first, has the CRC 0x2144DF1C, for every buffer and starting value |
| Crc32.CheckValue | NetWork/CRC32.cpp:15-44 | the CRC of the nine digits "123456789" is 0xCBF43926 |
| Crc32.SerialXor | NetWork/CRC32.h:70 | the register is linear: differing inputs change it by what their difference alone would produce |
| Crc32.BurstNonzero | NetWork/CRC32.h:70 | a non-zero difference confined to 32 consecutive bits leaves a non-zero register however many zeros follow |
| Crc32.BurstDetected | NetWork/CRC32.cpp:15-44 | buffers of equal length that differ only inside one window of 32 bits have different CRCs |
| Crc32.BurstOf33Missed | NetWork/CRC32.cpp:15-44 | the bound is tight: buffers of equal length that differ by the 33-bit generator polynomial, at any bit position, have the same CRC for every starting value |
| Crc32.CorruptionMissed | NetWork/CRC32.cpp:15-44 | every buffer has such a partner, different from it, at every bit position with 33 bits left |
| Framing.PrefixCode | NetWork/LConnector.cpp:476-531 | frames form a prefix code: bytes that begin the encoding of a list and hold whole frames hold the first frames of that list |
| Framing.WireLayout | NetWork/LConnector.cpp:476-531 | on the wire the low byte of the total length comes first, then the high one, then the payload |
| Framing.ShortLengthIsFlawed | NetWork/LConnector.cpp:476-531 | a length field below two makes an empty flagged packet, and the next frame is looked for that many bytes on |
| Framing.ParseLeavesLittle | NetWork/LConnector.cpp:476-531 | whatever the bytes, a call that succeeds leaves fewer than 65535 of them, so the next receive has room |
| Framing.LoopEnds | NetWork/LConnector.cpp:492-529 | with more packets than bytes the loop ends by itself exactly when it meets no zero length field; otherwise it runs until no packet is left |
| Chunking.DecodeResumes | NetWork/LConnector.cpp:476-531 | decoding any stream can stop after any prefix and resume with its undecoded tail |
| Chunking.ParseDecodes | NetWork/LConnector.cpp:476-531 | one call queues what the whole-stream decoder produces, except that a lone empty frame waits for the next byte |
| Chunking.FeedDecodes | NetWork/LConnector.cpp:152-194 | for every cutting of a stream whose lengths are between 2 and the smaller of 8192 and the largest packet class, successive calls queue exactly the decoder's packets and retain exactly its tail, but for a final empty frame that may still wait |
| Chunking.CuttingsAgree | NetWork/LConnector.cpp:152-194 | two cuttings of one stream differ at most in whether a final empty frame has been queued yet |
| Oversized.StreamFate | NetWork/LConnector.cpp:476-531 | for every stream of frames of any lengths and every cutting: all of it is received if and only if each frame beyond the limit fits the largest packet class and some call's data holds the whole of it behind at least one other byte; otherwise the connection is broken |
| Oversized.OversizedFate | NetWork/LConnector.cpp:488-530 | in particular the fate of one frame beyond the limit at the end of others within it |
| Oversized.OversizedDependsOnCutting | NetWork/LPacketPoolManager.h:374-391 | some cutting breaks the connection if and only if some frame is beyond the limit; some cutting receives everything if and only if every frame fits the largest packet class and the first is within the limit |
| Connector.LConnector.AddOneRecvedPacket | NetWork/LConnector.cpp:399-408 | a packet joins the queue of received ones unless the ring is full |
| Connector.LConnector.GetOneRecvedPacket | NetWork/LConnector.cpp:392-398 | takes the oldest received packet |
| Connector.LConnector.AddOneSendPacket | NetWork/LConnector.cpp:540-551 | a packet is accepted for sending exactly when the ring has room |
| Connector.LConnector.ParseRecvedData | NetWork/LConnector.cpp:476-531 | the loop over the buffer is the incremental parse: bytes used, packets queued, -1 exactly when it breaks, by the first length, by a length above the largest packet class, or by an exhausted pool |
| Connector.LConnector.OnRecv | NetWork/LConnector.cpp:152-194 | the whole new state for every outcome of `recv`, with the in-place buffer compacted to the unused bytes; connected afterwards exactly when it was before and the call returned 0 |
| Connector.LConnector.OnSend | NetWork/LConnector.cpp:195-205 | the connection becomes sendable again |
| Connector.LConnector.SendData | NetWork/LConnector.cpp:562-617 | peek, send and pop at most 50 packets: new state, bytes written and the number returned, for every sequence of outcomes of `send` |
| Connector.SendDataExact | NetWork/LConnector.cpp:562-617 | while the connection is sendable a call pops exactly the packets before the first refusal, the end of the queue, or the fiftieth; it stops being sendable exactly when the kernel would block and breaks exactly when it fails; of each packet the kernel has a prefix as long as it said; otherwise nothing happens |
| Connector.RejectedFrameIsForever | NetWork/LConnector.cpp:167-175 | after a rejected length every later connection breaks on its first bytes and queues nothing |
| Connector.RejectionPoisons | NetWork/LConnector.cpp:488-491 | a rejected length stays at the head of the retained bytes |
| Connector.StarvedCallReplays | NetWork/LConnector.cpp:494-498 | a call that is refused a packet keeps the frames it queued, so a later call queues them again |
| Connector.PartialFrameMisreads | NetWork/LConnector.cpp:154-176 | a frame within the limit of which at least the length was retained at a disconnection is completed with the first bytes of the next connection, whatever they mean |
| Connector.ReconnectExact | NetWork/LConnector.cpp:154-176 | a new connection is read right if and only if no byte was retained: every stream within the limit under every cutting, and likewise every packet of one byte |
| Delivery.EndToEnd | NetWork/LConnector.cpp:540-617 | over every interleaving, with no short write, what the receiver consumed or has queued is a subsequence of what was accepted: in order and each once; it is all that was parsed, and so the first packets accepted, if and only if the ring had room at every call; no write was short if and only if the bytes written encode the packets sent |
| Delivery.AllArrive | NetWork/LConnector.cpp:152-194 | once the wire is empty every packet sent has been produced, except possibly a final empty one |
| Delivery.DeliverKeepsUp | NetWork/LConnector.cpp:476-531 | one call over frames within 8192 and the largest packet class does not break the connection |
| Delivery.StaysUp | NetWork/LPacketPoolManager.h:374-391 | over every run of such frames without a short write the connection stays up while packets are left |
| Delivery.ShortWriteMisreads | NetWork/LConnector.cpp:586-607 | after a short write the peer reads a packet nobody submitted |
| ServerIds.UnpackPack | include/Server_Define.h:82-120 | unpacking a packed identity gives the four fields back |
| ServerIds.PackUnpack | include/Server_Define.h:97-120 | packing an unpacked value gives it back exactly when its top byte is clear |
| ServerIds.Layout | include/Server_Define.h:82-120 | type, area, group and number lie above one another in this order, from the seventh byte down, each in bits of its own |
| ServerIds.PackInjective | MasterServer/LServerManager.cpp:174-192 | lookup by four fields and by packed identity agree |
| Registry.AddServerSound | MasterServer/LServerManager.cpp:91-145 | adding keeps identities canonical, types creatable and sessions distinct |
| Registry.FirstGateIsSmallest | MasterServer/LServerManager.cpp:437-453 | the selected gate is the registered gate with the smallest identity, and none is selected only when there is none |
| Registry.ToKindAscends | MasterServer/LServerManager.cpp:344-358 | the announcements go to the servers of the type, each once, in ascending order of identity |
| Registry.PeersAscend | MasterServer/LServerManager.cpp:366-435 | the servers a new one is told of are those its type connects to, each once, in ascending order of identity |
| Registry.AgreeIsSound | MasterServer/LServerManager.cpp:142-143 | when the two maps hold the same objects under their own keys, the registry they show is sound and covers every session |
| Registry.RegisteredNotWaiting | MasterServer/LServerManager.cpp:123-125 | no registered object is in the map of newly connected ones |
| Registry.LServerManager.AddNewUpServer | MasterServer/LServerManager.cpp:75-88 | the session waits to register; the maps still agree and nothing deleted is reachable |
| Registry.LServerManager.AddServer | MasterServer/LServerManager.cpp:91-145 | succeeds exactly when the session waits, the type can be created and neither identity nor session is taken; the session stops waiting and its waiting object is deleted in every case |
| Registry.LServerManager.FindServer | MasterServer/LServerManager.cpp:148-156 | finds the server with that identity and no other |
| Registry.LServerManager.FindServerByFields | MasterServer/LServerManager.cpp:174-192 | finds the server with those four fields, and null only when there is none |
| Registry.LServerManager.FindServerBySessionID | MasterServer/LServerManager.cpp:158-172 | prefers the registered server of a session, then the waiting one, and never returns a deleted object |
| Registry.LServerManager.RemoveServerByNetWorkSessionID | MasterServer/LServerManager.cpp:194-232 | the session leaves all three maps, and only it; its registered object is deleted |
| Registry.LServerManager.RemoveServer | MasterServer/LServerManager.cpp:234-250 | the identity leaves both maps, and only it; its object is deleted |
| Registry.LServerManager.BroadCastToServersByServerType | MasterServer/LServerManager.cpp:344-358 | one packet to every registered server of the type, in ascending order of identity |
| Registry.LServerManager.SendPacketToServerCanConnectToServerInfos | MasterServer/LServerManager.cpp:366-435 | the server named gets one packet for every server it may connect to, in order; nothing when the value is not registered |
| Registry.LServerManager.SelectBestGateServer | MasterServer/LServerManager.cpp:437-453 | the session of the first gate |
| Introductions.BroadCastServerToServers | MasterServer/LMasterServerMainLogic.cpp:43-115 | the packets that announce a new server; none when no packet can be allocated |
| Introductions.RegisterServer | MasterServer/LMasterServerPacketProcess_Common.cpp:56-103 | registry, packets and disconnection after a registration request, for every value and session and whichever packets can be allocated; kicked, with nothing sent, exactly when the value names no server or the registry does not admit it |
| Introductions.BroadcastIsConverse | MasterServer/LMasterServerMainLogic.cpp:77-114 | the switch over the announced type is the converse of the switch over the type that is told: a server is announced to exactly those that connect to its type |
| Introductions.SentNaming | MasterServer/LMasterServerPacketProcess_Common.cpp:84-102 | what one accepted registration tells one server about another |
| Introductions.AnsweredOnce | MasterServer/LMasterServerPacketProcess_Common.cpp:56-103 | over every run a session has been sent as many responses as it had registrations accepted for which there was a packet, so none for a refused one; acceptance is read from the registry before and after |
| Introductions.ExactlyOnce | MasterServer/LMasterServerPacketProcess_Common.cpp:56-103 | over every run, since the later of two registered servers registered, the one was told about the other once if their types pair up, the later one's top byte was clear, and, when it is the later one that is announced, there was a packet for it; and never otherwise |
| Introductions.TopByteHidesTheServer | MasterServer/LMasterServerMainLogic.cpp:72-75 | a lobby registering with a non-zero top byte is not announced to the gate |
| Introductions.NoPacketHidesTheServer | MasterServer/LMasterServerMainLogic.cpp:60-66 | where no packet class holds the 100 bytes of an announcement, a lobby is registered and neither answered nor announced to the gate |
| MasterUsers.LUserManager.InitializeUserPool | MasterServer/LUserManager.cpp:84-100 | the pool grows by the size asked for, or by 100 |
| MasterUsers.LUserManager.AllocOneUser | MasterServer/LUserManager.cpp:102-115 | an object in no map and not in the pool any more |
| MasterUsers.LUserManager.FreeOneUser | MasterServer/LUserManager.cpp:117-124 | the object returns to the pool; no user changes |
| MasterUsers.LUserManager.AddNewUserInfo | MasterServer/LUserManager.cpp:33-46 | adds exactly when the number is new |
| MasterUsers.LUserManager.FindUser | MasterServer/LUserManager.cpp:62-70 | null exactly when the user is not in the table |
| MasterUsers.LUserManager.RemoveUser | MasterServer/LUserManager.cpp:72-82 | the user leaves the table and its object returns to the pool |
| MasterUsers.LUserManager.UpdateUserState | MasterServer/LUserManager.cpp:126-144 | only Created may become waiting for the gate |
| MasterLogin.UserOnlineFromLoginServer | MasterServer/LMasterServerMainLogic.cpp:139-165 | unknown error for number 0, already online for a known user, otherwise a new Created user |
| MasterLogin.UserOnline | MasterServer/LMasterServerPacketProcess_LoginServer.cpp:37-164 | table and packets after a login request, for every branch, with and without a packet to send, and which error is reported; the two failure branches after the gate was selected cannot be taken |
| MasterLogin.UserOfflineFromLogin | MasterServer/LMasterServerPacketProcess_LoginServer.cpp:166-198 | a login server could only withdraw a user no gate has answered for; the handler is not registered, so it never runs |
| MasterLogin.UserWillLogin | MasterServer/LMasterServerPacketProcess_GateServer.cpp:34-138 | table and verdict after the gate's answer, for every branch: too short for its first fields, too short for the key of a good answer, or readable; a user whose login failed leaves the table |
| MasterLogin.UserGateServerOffline | MasterServer/LMasterServerPacketProcess_GateServer.cpp:141-162 | an OFFLINE report removes users from the waiting state on, connected ones included |
| MasterLogin.UserGateServerOnline | MasterServer/LMasterServerPacketProcess_GateServer.cpp:165-214 | a report makes a known user connected and is confirmed, an unknown one is refused |
| LoginKeys.KeysRepeat | GateServer/LClientManager.cpp:327-336 | two keys are equal exactly when a multiple of 2^32 was issued between them, so the first 2^32 - 1 are distinct |
| GateClients.LClientManager.AllocClient | GateServer/LClientManager.cpp:223-232 | the front of the pool, which is in no map and not in the pool any more; null exactly when the pool is empty |
| GateClients.LClientManager.AddNewUpClient | GateServer/LClientManager.cpp:43-64 | a client is filed unless its session is known or the pool is empty |
| GateClients.LClientManager.BuildLoginKey | GateServer/LClientManager.cpp:327-336 | the decimal text of the next 32-bit counter value |
| GateClients.LClientManager.AddWillConnectClientInfo | GateServer/LClientManager.cpp:244-268 | a new record with its deadline; an existing one is left as it is |
| GateClients.LClientManager.UserWillLogin | GateServer/LGateServerPacketProcess_FromMasterServer.cpp:149-231 | state and answer for an announced login |
| GateClients.LClientManager.CheckClientInfo | GateServer/LClientManager.cpp:67-100 | uses the record up and binds the user exactly when the key is right |
| GateClients.LClientManager.UserLoginKey | GateServer/LGateServerPacketProcess_Client_Login.cpp:37-74 | ignored exactly when the session is unknown, reported exactly when the key opens the gate, else kicked, with the client's new state |
| GateClients.LClientManager.UserOnlineConfirm | GateServer/LGateServerPacketProcess_FromMasterServer.cpp:233-275 | a known client is logged in by result 0 and kicked by any other; an unknown one is neither |
| GateClients.LClientManager.ProcessTimeOutWillConnect | GateServer/LClientManager.cpp:289-325 | pops at most 100 overdue entries, expires their records and reports every one of them |
| GateRuns.Accounts | GateServer/LClientManager.cpp:67-100 | over every run and for every user: inserted = pending + used up rightly + used up wrongly + expired; inserted = entries queued + OFFLINE reports; admissions = 1 exactly when bound; every pending record holds the key it was issued and its own entry; the queue is sorted |
| GateRuns.SessionsAsTold | GateServer/LGateServerPacketProcess_FromMasterServer.cpp:233-275 | over every run a session is told to go exactly as often as its key did not open the gate or the master refused it, and the gate holds of it what was said last: connected, let in by its key, or confirmed |
| GateRuns.TimeoutIsExpire | GateServer/LClientManager.cpp:289-325 | the history follows the gate's timer call |
| GateRuns.TimeoutReports | GateServer/LClientManager.cpp:289-325 | the OFFLINE reports counted in the history are those the timer call makes |
| GateRuns.ExpireReports | GateServer/LClientManager.cpp:289-325 | the users a timer call reports are those of the deadlines it takes from the front of the queue, each as often, and exactly their records are gone |
| GateRuns.ExpireExact | GateServer/LClientManager.cpp:289-325 | a call that stops early removes exactly the records of users with an overdue entry |
| GateRuns.SurvivorsAreYoung | GateServer/LClientManager.cpp:262-265 | after a call that stops early every record was added at most five seconds ago |
| GateRuns.QueueNeedsTimer | GateServer/LClientManager.cpp:289-325 | in every run without the timer call no record expires, OFFLINE is never reported, and the queue holds one deadline for every record ever inserted |
| GateRuns.LoggedInUsersTimeOutToo | GateServer/LClientManager.cpp:307-318 | with timer calls, once the queue is empty, OFFLINE was reported for every user that logged in |
| GateRuns.HandedOutKeyOpens | GateServer/LGateServerPacketProcess_FromMasterServer.cpp:184-230 | the key in the answer is the key stored exactly when no record was pending, or a multiple of 2^32 keys later |
| Admission.AdmissionLaw | MasterServer/LMasterServerPacketProcess_GateServer.cpp:165-214 | over every run: marked connected <= reports = right keys <= records inserted <= announcements handled <= announcements sent <= acceptances |
| Admission.ConnectedWasLetIn | MasterServer/LMasterServerPacketProcess_GateServer.cpp:201 | a user marked connected is bound at some gate |
| Admission.VerdictsConserved | MasterServer/LMasterServerPacketProcess_LoginServer.cpp:37-164 | every request is answered, on its way, dropped, or lost on the network or for want of a packet, exactly one of them, and an answer names the login server, client and user that asked |
| Admission.EveryUserExplained | MasterServer/LMasterServerPacketProcess_GateServer.cpp:34-138 | over every run a user is in the table for a reason: Created only if once no gate was found for it, waiting for a gate only while a request for it is under way or was lost, waiting for its login only if one was answered, connected only if reported |
| Admission.VerdictsCarryIssuedKeys | MasterServer/LMasterServerPacketProcess_GateServer.cpp:107-121 | a verdict of success carries a key some gate issued |
| Admission.CutAnswersNeverSucceed | MasterServer/LMasterServerPacketProcess_GateServer.cpp:84-106 | over every run in which the gates' good answers are cut short, no verdict of success is ever sent and no user waits for its login |
| LoginFailures.HandedOutKeyFails | GateServer/LClientManager.cpp:244-268 | a run: the login server's session is gone when the gate's answer arrives, it registers again and asks again, the verdict of success carries key 2 while the gate expects key 1, and the client that presents it is refused, its record used up and the user left waiting at the master |
| LoginFailures.StaleDeadlineExpires | GateServer/LClientManager.cpp:289-325 | a run with a timer call, which nothing in the program makes: a record due in nine seconds is removed at six with the deadline of an earlier one, its user is removed at the master, and the key handed out for it is refused |
| LoginFailures.LoggedInUserRemoved | GateServer/LClientManager.cpp:307-318 | a run with a timer call, which nothing in the program makes: a user that logged in is removed at the master when its deadline passes, and stays logged in at the gate |
| Peers.AddKeeps | LobbyServer/LLBServerManager.cpp:56-88 | adding keeps the two indices in agreement |
| Peers.RemoveByIdKeeps | LobbyServer/LLBServerManager.cpp:101-120 | removing by identity keeps them in agreement |
| Peers.RemoveBySessionKeeps | LobbyServer/LLBServerManager.cpp:141-160 | removing by session keeps them in agreement exactly when the identity value has a clear top byte |
| Peers.LLBServerManager.AddNewServer | LobbyServer/LLBServerManager.cpp:56-88 | adds exactly when the value names a server and neither value nor session is filed |
| Peers.LLBServerManager.FindServerByServerID | LobbyServer/LLBServerManager.cpp:91-99 | null exactly when the value is not filed |
| Peers.LLBServerManager.RemoveServerByServerID | LobbyServer/LLBServerManager.cpp:101-120 | the value and its server's session are erased |
| Peers.LLBServerManager.RemoveServerBySessionID | LobbyServer/LLBServerManager.cpp:141-160 | the session and the identity its server reports are erased |
| Peers.LLBServerManager.AddConnectWork | LobbyServer/LLBServerManager.cpp:179-186 | a job is queued when there is room |
| Brokerage.WillConnectReq | MasterServer/LMasterServerPacketProcess_Common.cpp:106-147 | relayed exactly when both servers are registered, refused exactly when only the asker is, dropped when the asker is not |
| Brokerage.WillConnectRes | MasterServer/LMasterServerPacketProcess_Common.cpp:150-189 | one answer to the asking server if it is registered, with the code as it came and an address only with success |
| Brokerage.RegisterBroadcast | LobbyServer/LLobbyServerPacketProcess_ServerToServer.cpp:145-190 | one request for every database server announced, up to the first that is already connected |
| Brokerage.RequestsExact | LobbyServer/LLobbyServerPacketProcess_ServerToServer.cpp:145-190 | what is asked for, with how often: each database server as often as it is announced before the first that is already connected, and nothing else |
| Brokerage.CanConnectTo | LobbyServer/LLobbyServerPacketProcess_ServerToServer.cpp:290-339 | a request exactly when the packet is for this lobby and names an unconnected database server |
| Brokerage.WillConnectResult | LobbyServer/LLobbyServerPacketProcess_ServerToServer.cpp:239-288 | a job exactly for a success meant for this lobby and a server not yet connected |
| Brokerage.EveryRequestAccounted | MasterServer/LMasterServerPacketProcess_Common.cpp:106-189 | over every run and for every lobby, server and address, as equations: requests = under way + relayed + refused + dropped + lost; relayed = under way + answered + not taken + lost; acceptances = under way + passed on + undelivered + lost; passed on = under way + queued + discarded + lost; refusals = under way + seen + lost; and the jobs a lobby holds are those queued. Which of these happened is read from the registry and the processes when the packet arrives |
| Brokerage.AllowedRequestEndsAsJob | LobbyServer/LLobbyServerPacketProcess_ServerToServer.cpp:239-339 | a run: whenever the master knows a lobby and a database server, an allowed request of which nothing is lost ends as a connect job with the server's address |
| Brokerage.ConnectCausality | DBServer/LDBServerPacketProcess_Common.cpp:77-119 | over every run each job was requested by a lobby of that identity, relayed, accepted by the server it names, and carries that server's address; jobs <= acceptances <= relays <= requests |
| Brokerage.TablesAgree | LobbyServer/LLBServerManager.cpp:56-160 | over every run the indices of every lobby agree and no server is filed twice |
| SqlStatements.CallParses | DBLib/XMySqlConnector.cpp:313-388 | reading the call text back gives one item per parameter, a placeholder for an input and the k-th variable for the k-th output |
| SqlStatements.SelectParses | DBLib/XMySqlConnector.cpp:338-380 | the select reads back as the variables in order, exactly when the last parameter returns a value |
| SqlStatements.TextsFit | DBLib/XMySqlConnector.cpp:163-175 | neither text exceeds its 4096 bytes for any accepted name and parameter list |
| SqlStatements.CallPlaceholders | DBLib/XMySqlConnector.cpp:326-336 | the call has one placeholder per input, besides any in the name |
| SqlConnector.XMySqlConnector.InitBindParam | DBLib/XMySqlConnector.cpp:142-162 | everything collected is cleared |
| SqlConnector.XMySqlConnector.SetProcedureName | DBLib/XMySqlConnector.cpp:163-175 | accepted up to 256 characters |
| SqlConnector.XMySqlConnector.BindParam | DBLib/XMySqlConnector.cpp:714-726 | appended up to 150 parameters |
| SqlConnector.XMySqlConnector.BindParamExcute | DBLib/XMySqlConnector.cpp:389-713 | the next placeholder is bound to the parameter; the unhandled type is passed over; the 150th binding fails |
| SqlConnector.XMySqlConnector.ExcuteBindParamAndPrepareSetValueSqlStatement | DBLib/XMySqlConnector.cpp:313-388 | both texts, the bound inputs, the assignments and the positions of the outputs, and exactly when it fails |
| SqlConnector.XMySqlConnector.ExcuteSql | DBLib/XMySqlConnector.cpp:1034-1087 | exactly when it succeeds and, whether it does or not, which statements are sent: the call only on success, the assignments exactly when there are some, every input could be bound and the library ran them |
| SqlConnector.XMySqlConnector.BindCol | DBLib/XMySqlConnector.cpp:752-980 | the next column is bound; the unhandled type is passed over; the 150th fails |
| SqlConnector.XMySqlConnector.BindOutputCol | DBLib/XMySqlConnector.cpp:981-1002 | the columns are the outputs that can be bound, in order |
| SqlConnector.XMySqlConnector.GetOutputResult | DBLib/XMySqlConnector.cpp:1185-1218 | the select is sent and its columns bound, and exactly when each happens |
| SqlMeaning.ArgumentsIntended | DBLib/XMySqlConnector.cpp:318-337 | every input and INOUT value arrives at its own position, whatever the session variables held |
| SqlMeaning.SentRuns | DBLib/XMySqlConnector.cpp:1034-1087 | running the statements that ExcuteSql sends from a clean connector is calling with the collected bindings after the collected assignments |
| SqlMeaning.FetchedWhenReturned | DBLib/XMySqlConnector.cpp:1185-1218 | from a clean connector the two flags send the select exactly when some parameter returns a value |
| SqlMeaning.OutputRouting | DBLib/XMySqlConnector.cpp:981-1002 | for any procedure, what a clean connector sends and fetches stores each output at the address of the parameter at its position, a NULL leaving what was there, and changes no other memory |
| SqlMeaning.CallGoesOut | DBLib/XMySqlConnector.cpp:1040-1087 | the call is sent exactly when all inputs can be bound, there are at most 149, the name has no question mark, and some INOUT value can be written when there is one |
| SqlMeaning.SecondExecutionRefused | DBLib/XMySqlConnector.cpp:1069-1072 | executing twice without clearing goes through if and only if there is no input |
| SqlMeaning.SelectAccepted | DBLib/XMySqlConnector.cpp:346-357 | the select is well formed exactly when the last parameter returns a value |
| SqlMeaning.UnboundOutputIsLost | DBLib/XMySqlConnector.cpp:976-979 | an output of the unhandled type is never stored, so the routing law needs every output to be bindable |
| SqlMeaning.UnboundOutputShiftsTheNext | DBLib/XMySqlConnector.cpp:976-979 | where the client library accepts fewer columns than the select returns, an output of the unhandled type lets the next output receive its value |
| ThreadPools.SelectionUnique | NetWork/LEpollThreadManager.cpp:252-266 | being the first least loaded thread below the limit determines the thread |
| ThreadPools.LThreadManager.SelectThread | NetWork/LEpollThreadManager.cpp:252-266 | the running minimum finds it |
| ThreadPools.LThreadManager.BindThread | NetWork/LEpollThreadManager.cpp:191-213 | its count goes up by one, or nothing happens when there is none |
| ThreadPools.LThreadManager.UnBindThread | NetWork/LEpollThreadManager.cpp:214-250 | the count goes down by one exactly for a thread number in range |
| ThreadPools.LoadAccounting | NetWork/LEpollThreadManager.cpp:191-250 | over every run each count is the number of sessions that note the thread plus the bindings to it that were overwritten |
| ThreadPools.UnbindOnce | NetWork/LEpollThreadManager.cpp:223-249 | a session that gave its thread back changes nothing by giving it back again, whatever happened in between |
| ThreadPools.ExactAccounting | NetWork/LEpollThreadManager.cpp:191-250 | when only unbound sessions are bound, each count is exactly the number of sessions bound |
| ThreadPools.BindingBalances | NetWork/LEpollThreadManager.cpp:252-266 | while sessions are only bound, counts that differ by at most one stay so |
| AcceptLoop.LAcceptThread.AddNotice | NetWork/LFixLenCircleBuf.cpp:78-156 | a notice is queued while the ring holds fewer than nine |
| AcceptLoop.LAcceptThread.CommitPackets | NetWork/LFixLenCircleBuf.cpp:314-378 | the ring is copied whole, or in two parts when it reaches its end, each of them whole or not at all; what moves and what is reported for every state of the two queues |
| AcceptLoop.CommitExact | NetWork/LFixLenCircleBuf.cpp:314-378 | in closed form, by the length, the place in the ring and the room in the main queue: when a commit succeeds, how much it moves when it does not, and that the order of all notices stays |
| AcceptLoop.CommitReports | NetWork/LFixLenCircleBuf.cpp:364-370 | reported success leaves nothing behind; reported failure does so too if and only if the notices end at the end of the ring and fill the main queue |
| AcceptLoop.LAcceptThread.GiveBack | NetWork/LSessionManager.cpp:361-409 | the session returns to the pool |
| AcceptLoop.LAcceptThread.GetOneAcceptedPacket | NetWork/LAcceptThread.cpp:355-367 | a packet from the pool, or a new one |
| AcceptLoop.LAcceptThread.AppendToClose | NetWork/LCloseSocketThread.cpp:106-120 | the session joins the close thread's ring unless it is full |
| AcceptLoop.LAcceptThread.TellClosed | NetWork/LAcceptThread.cpp:251-282 | a disconnect notice, the session offered to the close thread, and flagged whether or not its ring took it |
| AcceptLoop.LAcceptThread.AcceptOne | NetWork/LAcceptThread.cpp:129-319 | one turn of the loop for every outcome of every step |
| AcceptLoop.LAcceptThread.ThreadDoing | NetWork/LAcceptThread.cpp:116-322 | turns until it is stopped or `accept` fails |
| AcceptLoop.RollbackIsExact | NetWork/LAcceptThread.cpp:187-248 | every rollback leaves pool, sessions and counts as they were, and gives everything back but the packet of the notice |
| AcceptLoop.AcceptTransactions | NetWork/LAcceptThread.cpp:122-320 | at each loop head: sessions taken and free add up; each one taken has a receive and a send thread and is flagged as handed over exactly when its epoll binding or registration failed; all counts are exact; connections are announced once each |
| AcceptLoop.HandedOver | NetWork/LAcceptThread.cpp:276-281 | over every run a session taken is with the close thread exactly when its epoll binding or registration failed and the ring of the close thread had room in that turn |
| AcceptLoop.DisconnectsTold | NetWork/LAcceptThread.cpp:251-289 | over every run and for every session: its disconnect notice is queued exactly once if it was taken and flagged as handed over, else never, and directly behind the notice of its connection |
| AcceptLoop.TurnLog | NetWork/LAcceptThread.cpp:129-319 | a turn adds nothing, the notice of the connection, or that and the notice of the disconnect, to the notices of all earlier turns |
| AcceptLoop.TakenExactly | NetWork/LAcceptThread.cpp:129-319 | a turn takes a session exactly when every acquisition up to the moved notice succeeds, and which threads it then notes and whether it is flagged |
| AcceptLoop.PoolFirst | NetWork/LAcceptThread.cpp:355-367 | over every run, while packets are left in the pool none has been allocated |
| AcceptLoop.StrandedForGood | NetWork/LCloseSocketThread.cpp:106-120 | after any run, a turn leaves a session flagged and with nobody if and only if its binding or registration fails while the ring is full, and it stays so whatever happens afterwards |
| AcceptLoop.PacketsConserved | NetWork/LAcceptThread.cpp:213-233 | over every run: packets in the pool, packets in notices, and one for each turn that bound both threads and could not queue its notice, are the packets of the start and those allocated since |
| AcceptLoop.OrphanIsAnnounced | NetWork/LAcceptThread.cpp:237-248 | a session given back after a failed commit is announced, at the latest by the next commit with room |

## Left out

- Sockets, threads, locks, ini files, printing and error logs: outcomes are inputs of the steps.
- Packet field layouts of the protocols between servers: the writer and reader of USER_ONLINE_VERIFY disagree about the order of fields.
- Packets too short to be read count as lost, except a gate's answer, for which the branches are modelled. Whether a packet is available and how much of an answer can be read are inputs of each step; in the program both follow from the packet classes of the ini files.
- Account names, server addresses other than the brokered one, server states and serve counts.
- Connector.LConnector.OnRecv: the copy that compacts the buffer may overlap and is modelled as a move; `LFixLenCircleBuf` is a queue with a capacity; of the packet pool the largest class and the number of requests met in a call are modelled.
- Connector.LConnector.SendData: the packet type byte and packets without a buffer are not modelled; the host is little-endian.
- Crc32.ComputeCrc32: `unsigned long` is 64 bits wide; the variants that `DYNAMIC_CRC_TABLE` and `BYFOUR` would select are not compiled.
- Registry.LServerManager.AddNewUpServer: overwriting the entry of a session that already waits leaks the old object, as in the source; it is not counted as deleted.
- Server objects are filled in completely when created; the setters in between are not modelled.
- GateClients.LClientManager.CheckClientInfo: a key is the text before its first zero byte; removing clients is not modelled because nothing calls it, so a user once bound stays bound.
- The gate's kick-out queue and the packets to game clients.
- Lobby entry, the account database, the game server's side of brokerage and the managers of accepted servers in the database servers: unfinished or only easy members.
- Brokerage.EveryRequestAccounted: the thread that takes connect jobs off a lobby's queue appears only in whether the queue has room; a job once queued stays listed.
- Brokerage.ConnectCausality: whether a database server accepts the request is an input, since its manager of accepted servers is not part of this model.
- SqlConnector.XMySqlConnector.ExcuteSql: the text of the `set` statements, escaping, buffer types and result-set walking belong to the MySQL client library; assignments are values, and preparing and running a statement succeeds or fails as a whole.
- SqlMeaning.UnboundOutputShiftsTheNext: that the client library accepts a result binding with fewer columns than the select returns is taken as given; the source does not show it.
- SqlMeaning.OutputRouting: several assignments are taken to run as one batch, which a prepared statement may refuse.
- AcceptLoop.LAcceptThread.AcceptOne: session numbers grow without wrapping, `new` does not fail, and what the close thread does with its ring is not modelled beyond whether it has room.
- Where the source uses a packet without checking that there is one (MasterServer/LServerManager.cpp:426 and the answers to gates and lobbies), it is taken to be there; without it the process would dereference null.
- The SQL Server connector, the Windows stubs and the test programs.
