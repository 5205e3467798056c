# FruitSpy, modelled and proved in Dafny

FruitSpy replaces the GameSpy services for one game and patches the game's binaries. This project
models the parts of it that keep state or rewrite bytes, and proves what they promise. A pure
function or a state machine on values says what a component does; a class or a method with the
source's own loops and field updates is proved to compute it; lemmas state the properties over all
inputs and all runs. `dafny verify dfyconfig.toml` checks everything.

The components, and what is hard about each:

- **NatNeg and its relay** (`NatNeg*.dfy`). Datagrams, fallback timers, idle timers, expiry sweeps,
  drain and socket loss act on five coupled maps. Proved over every run: sent bytes never exceed three
  times admitted bytes (each fallback's pings are paid by the slack of the INIT that created its
  session), the address bindings are exactly the inverse of the relays' endpoints, forwarding is
  verbatim and paired and only after both sides returned the ping, a relay and a direct success never
  coexist, drain only shrinks, timers belong to exactly the live relays and are never late. A datagram
  is forwarded if and only if the relay, both pings, the size and the rate permit it, and what the
  packets say (who is introduced to whom, what is echoed) is stated by byte positions.
- **Admission control** (`TokenBucket.dfy`, `Admission*.dfy`). The token bucket equals its min-plus
  closed form. The bounded source table decides like an unbounded memory, in all runs in which it is
  never full, if and only if burst <= rate * ttl, which the shipped configuration meets and config.py
  does not check, or the global bucket is no larger and no faster than a source's.
- **Stream ciphers and framing** (`EnctypeX.dfy`, `PeerChatStream.dfy`, `CipherMeaning.dfy`,
  `PeerChatLines.dfy`). Both directions invert each
  other across arbitrary chunking, decks stay permutations, the selection loop ends, and PeerChat's
  line framing depends on the byte stream only, as long as each read that delivers a CRYPT ends with it.
  Lines sent encrypted arrive in any reads. The key set-up is told by draws and swaps, with the exact
  condition under which a byte of the key counts.
- **PeerChat rooms** (`PeerChat.dfy`, `PeerChatCoherence.dfy`, `PeerChatSafety.dfy`,
  `PeerChatMeaning.dfy`, `PeerChatServer.dfy`). Nicks, clients, rooms, operators and keys stay
  coherent under every command (the room and nick rules of sections 3.1.2 and 3.2.1 of RFC 2812). A
  rename can be undone, a part undoes a join, a disconnect leaves no trace, a refusal changes nothing.
  For each command: when it is carried out, what it costs, and whose standing it changes.
- **Server list and its push channel** (`ServerKeys.dfy`, `ServerEntry.dfy`, `Browser*.dfy`). Entries
  read back for every flag combination; a round's frames take a client from the old listing to the new
  one in any order; no update is lost while the push task runs; an automatch lists the open host that
  has been registered longest. Two findings. A round clears its event before it builds its frames, so
  one that raises, on an entry too long for a frame or a decimal text too long for `int()`, ends the
  push task and leaves its client a stale listing for good; this is proved to happen exactly there,
  never where `qr_packet_bytes` is at most 4300 (4096 is shipped), and with two heartbeats that larger
  limits admit. And `report_server` compares dictionaries, whose equality ignores order, while
  `_server_entry` serialises in order, so a report that only reorders its keys changes the entry without
  notifying: tracking is proved up to the order of keys, with the exact condition for byte equality and
  a counterexample.
- **ELF injector and hooks** (`Elf*.dfy`). A byte-level description that leaves no byte open, met by
  the sequence of writes; the loaded image (chapter 5 of the System V gABI) and the sections are
  preserved; the exact condition under which the cave is found and can grow; two injections compose to
  one and hooks commute with them.
- **Binary manifest** (`Manifest*.dfy`). Appending pool strings and retargeting two attributes decodes
  to the same strings and the same element tree with just those attributes changed; when a manifest is
  patched at all, and where every byte of the result comes from.

What the ELF code leaves unchecked is stated as preconditions: the program header table lies between
the ELF header and the cave, a section table lies whole before or behind the cave (`Laid`), segments
and sections are not torn apart by the insertion point (`Clear`), and, for composing, the plan of the
second injection continues that of the first (`Composes`, which is exact). The check in patcher/patch_apk.py:292 that the payload
does not overlap the next segment can never fire, because the filter in line 285 implies it; it has
no branch in the model. For the manifest, which the source accepts by hash only, `Undisturbed` says
that the two records are attributes and lie off everything else a reader looks at.

Assumptions on the environment: each handler, timer callback and PeerChat command runs to
completion; a step reads the clock once and the clock does not run backwards; PeerChat commands come
from open connections; every peer has an IPv4 address, as the four bytes of an entry and of a NatNeg
packet need, though config.py does not check that `bind_host` is one. Case folding, UTF-8,
`inet_aton`, decimal parsing, filter expressions and the order of address tuples are functions with
only the properties stated in `Valid` predicates. `int()` takes at most 4300 digits, the default of
the Python versions that pyproject.toml asks for; the random keys that CRYPT draws are given by the
lines before it.

## Model

| member | source | states |
|---|---|---|
| NatNegAmplification.NeverAmplifies | server/fruitspy/natneg.py:136-179 | over every run, all bytes the socket has sent are at most three times the bytes it admitted |
| NatNegAmplification.StepPays | server/fruitspy/natneg.py:181-302 | amortised cost of one step of any kind: bytes sent plus the pings still owed grow by at most three times the bytes received |
| NatNegAmplification.PairingNeverSuppressed | server/fruitspy/natneg.py:396-421 | the answers to the INIT that pairs a session are never suppressed, and what they add up to |
| NatNegInvariant.StepKeeps | server/fruitspy/natneg.py:136-852 | every datagram, fallback timer, idle timer, sweep, drain and close keeps the five maps sound: bindings inverse to endpoints, timers exactly for live relays and never late, counters, capacities |
| NatNegInvariant.RunKeeps | server/fruitspy/natneg.py:136-852 | the invariant holds after every run under a clock that does not run backwards |
| NatNegSafety.BindingsAreInverse | server/fruitspy/natneg.py:582-650 | in every reachable state an address is bound to (cookie, i) if and only if it is endpoint i of that live relay |
| NatNegSafety.EndpointsDistinct | server/fruitspy/natneg.py:614-650 | no two endpoints of live relays share an address |
| NatNegSafety.ForwardingIsPaired | server/fruitspy/natneg.py:699-785 | whatever is sent in answer to game traffic is that datagram verbatim, from endpoint i to endpoint 1 - i of one live relay, and both addresses have returned its ping since it was opened |
| NatNegSafety.ReadyMeansPinged | server/fruitspy/natneg.py:666-697 | an endpoint is ready only because its own address returned the cookie ping of this very relay |
| NatNegSafety.RelayStep | server/fruitspy/natneg.py:538-664 | a relay present after a step was there before, or was opened by its own fallback timer outside drain, with nobody ready |
| NatNegSafety.RelayOrDirect | server/fruitspy/natneg.py:442-536 | no reachable state has both a live relay and a direct success for one cookie |
| NatNegSafety.ActivationsAccounted | server/fruitspy/natneg.py:821-840 | each session object activates at most one relay; activated = closed + live at every moment; both tables within their capacity |
| NatNegSafety.DrainOnlyShrinks | server/fruitspy/natneg.py:375-394 | once drain is requested neither the relays nor the sessions ever gain a cookie |
| NatNegSafety.NoRelayOutlivesDeadline | server/fruitspy/natneg.py:787-810 | once all due timers have run, no relay is past last_seen + session_seconds |
| NatNegSafety.TimersForLiveRelays | server/fruitspy/natneg.py:787-797 | expiration timers exist for exactly the live relays |
| NatNegSafety.NoEarlyIdleClose | server/fruitspy/natneg.py:442-831 | before its idle deadline a relay is closed if and only if all are closed, the socket is lost, a peer of its session reports direct success while nobody is ready, or a due fallback that may activate and finds room takes one of its addresses |
| NatNegSafety.UnboundTrafficLeavesRelays | server/fruitspy/natneg.py:699-712 | traffic from an address no relay has bound changes no relay, so it moves no deadline |
| NatNegTraffic.ForwardsIff | server/fruitspy/natneg.py:699-785 | in every run an admitted datagram without the magic is sent on to the other endpoint, as it is, if and only if its sender is endpoint i of a relay that the sweep leaves open, both endpoints are ready, the socket is connected, it fits the packet limit, and its length is at most min(burst, tokens + rate * elapsed); else nothing is sent |
| NatNegTraffic.RelayRateIsBounded | server/fruitspy/natneg.py:66-73 | in every run, while a relay is open, what one endpoint gets forwarded in any window is at most byteBurst + bytesPerSecond * elapsed |
| NatNegAnswers.ClaimIff | server/fruitspy/state.py:138-175 | a claim is accepted if and only if, among the sessions still within their ttl, the session is new and there is room, the index is this address again, or the index is free and the other peer has another address; the session then holds this peer under its index, and every other session is as the expiry leaves it |
| NatNegAnswers.InitMeans | server/fruitspy/natneg.py:204-302 | an INIT that is refused is not answered; one accepted is acknowledged byte by byte, adds its peer, and, once paired, sends the introductions and arms the fallback exactly when the pair is new |
| NatNegAnswers.PeersAreIntroduced | server/fruitspy/natneg.py:279-302 | when an INIT leaves its session paired, each peer is sent exactly one CONNECT: magic, its own version, type 5, the cookie, and in bytes 12 to 17 host and port of the other peer |
| NatNegAnswers.RepliesMean | server/fruitspy/natneg.py:303-373 | each other request is answered with one packet to its sender, byte by byte: what is echoed, which type and which bytes replace it, and where the address stands |
| NatNegAnswers.RefusedMeans | server/fruitspy/natneg.py:181-203 | too long, too short, or an INIT for a new session under drain: nothing is sent and nothing changes |
| NatNegAnswers.SuppressedIff | server/fruitspy/natneg.py:396-421 | answers are held back, all of them, if and only if they add up to more than three times the request |
| NatNegAnswers.OpensIff | server/fruitspy/natneg.py:538-613 | a fallback opens its relay if and only if it is due, outside drain, on a connected socket, for a paired session without a report, and fewer than max_relays relays are left after the idle ones |
| NatNegAnswers.OpeningMeans | server/fruitspy/natneg.py:614-664 | an opened relay pings each peer once with its own version and the cookie, binds each address to its index with a full bucket, and sets the idle timer to its deadline |
| NatNegAnswers.PingReadiesIff | server/fruitspy/natneg.py:666-697 | an endpoint becomes ready if and only if its own address sends the ping of this relay: 20 bytes or more, magic, type 7, the cookie |
| NatNegAnswers.TrafficMarksSeen | server/fruitspy/natneg.py:699-730 | game traffic and pings of an endpoint move the last_seen of relay and session to now, sent on or not |
| NatNegAnswers.ReportMeans | server/fruitspy/natneg.py:442-536 | which reports count, and what they change in the session and the relays |
| NatNegAnswers.ReportCallsOff | server/fruitspy/natneg.py:505-536 | a report calls off a fallback if and only if it is its session's, counts as a direct success, and is the first of that peer |
| NatNegEnds.SweepMeans | server/fruitspy/natneg.py:812-840 | a datagram sweeps if a second has passed since the last sweep, and then closes exactly the relays idle for session_seconds, with bindings and count |
| NatNegEnds.IdleTimerMeans | server/fruitspy/natneg.py:798-810 | a relay's timer closes it if and only if it has been idle for session_seconds, and else waits for last_seen + session_seconds |
| NatNegEnds.ClosingMeans | server/fruitspy/natneg.py:125-134 | closing all relays leaves none, no binding and every session, counted one by one; a lost socket leaves no timer either |
| NatNegEnds.RelayInitMeans | server/fruitspy/natneg.py:213-241 | for an open relay an INIT is acknowledged only to the endpoint whose index it gives, and only marks the relay as seen |
| NatNegEnds.BadInitMeans | server/fruitspy/natneg.py:204-211 | an INIT of less than 21 bytes, or with an index above one, changes nothing and is not answered |
| NatNegEnds.SessionSweepMeans | server/fruitspy/state.py:193-197 | the session sweep forgets exactly the sessions not heard of within their ttl |
| NatNegEnds.DrainMeans | server/fruitspy/natneg.py:375-382 | drain leaves open relays alone and calls off every pending fallback |
| NatNegProtocols.NatNegProtocol.constructor | server/fruitspy/natneg.py:96-118 | the initial state |
| NatNegProtocols.NatNegProtocol.HandleRelayPing | server/fruitspy/natneg.py:666-697 | a ping is the state machine's ping step: it counts only from a bound address with the relay's own cookie |
| NatNegProtocols.NatNegProtocol.ForwardRelay | server/fruitspy/natneg.py:699-785 | forwarding is the state machine's step, with its byte bucket and its readiness check |
| NatNegProtocols.NatNegProtocol.HandleInitDatagram | server/fruitspy/natneg.py:204-302 | an INIT is the state machine's INIT step: claim, acknowledge, introduce both peers, arm the fallback |
| NatNegProtocols.NatNegProtocol.RecordPeerReport | server/fruitspy/natneg.py:442-536 | a report is the state machine's report step: cancels the fallback, closes the relay on direct success |
| NatNegProtocols.NatNegProtocol.HandleDatagram | server/fruitspy/natneg.py:181-373 | dispatch by packet type and length is the state machine's |
| NatNegProtocols.NatNegProtocol.DatagramReceived | server/fruitspy/natneg.py:136-179 | a datagram event is the state machine's, admission decision included |
| NatNegProtocols.NatNegProtocol.ScheduleRelayFallback | server/fruitspy/natneg.py:423-440 | a fallback is armed only for a session that has no success, no relay and no timer |
| NatNegProtocols.NatNegProtocol.ActivateRelay | server/fruitspy/natneg.py:538-664 | the fallback timer's whole effect: guards, displaced holders, the new relay, the pings |
| NatNegProtocols.NatNegProtocol.FinishRelay | server/fruitspy/natneg.py:821-852 | closing a relay removes its bindings, its timers and itself, and counts once |
| NatNegProtocols.NatNegProtocol.FinishRelays | server/fruitspy/natneg.py:812-819 | the loop over relays is one removal of the whole set |
| NatNegProtocols.NatNegProtocol.ExpireIdleRelays | server/fruitspy/natneg.py:812-819 | exactly the relays past their deadline are closed |
| NatNegProtocols.NatNegProtocol.ExpireRelayAfterIdle | server/fruitspy/natneg.py:798-810 | the idle timer's step |
| NatNegProtocols.NatNegProtocol.BeginDraining | server/fruitspy/natneg.py:375-382 | drain cancels every fallback and refuses new sessions |
| NatNegProtocols.NatNegProtocol.CloseAllRelays | server/fruitspy/natneg.py:392-394 | closes every relay |
| NatNegProtocols.NatNegProtocol.LoseConnection | server/fruitspy/natneg.py:125-134 | a lost socket closes every relay and forgets every timer |
| NatNegProtocols.NatNegProtocol.ExpireNatSessions | server/fruitspy/state.py:193-197 | exactly the sessions within their ttl are retained |
| NatNegProtocols.NatNegProtocol.ClaimNatPeer | server/fruitspy/state.py:138-175 | a claim creates, refreshes, extends or is rejected with the source's reasons |
| TokenBuckets.TokenBucket.Allow | server/fruitspy/admission.py:25-38 | accepts exactly if the refilled level covers the cost, and charges it; a cost below one raises and changes nothing |
| TokenBuckets.RelayEndpoint.Allow | server/fruitspy/natneg.py:66-73 | the relay endpoint's byte bucket is the same function of its calls |
| TokenBuckets.AcceptsIffEveryWindowFits | server/fruitspy/admission.py:25-38 | a cost is accepted if and only if every window from an earlier call up to now stays within burst + rate * elapsed |
| TokenBuckets.LevelIsLeastRoom | server/fruitspy/admission.py:25-38 | the tokens equal the min-plus closed form: the least room over all windows and the burst |
| TokenBuckets.WindowsAreBounded | server/fruitspy/admission.py:25-38 | what a run accepted in any window is at most burst + rate * elapsed |
| TokenBuckets.LevelNonNegative | server/fruitspy/admission.py:25-38 | the bucket is never overdrawn, whatever the clock does |
| TokenBuckets.RefillIsMin | server/fruitspy/admission.py:25-38 | the level is min(burst, tokens + elapsed * rate), and a clock that runs backwards adds nothing |
| Admission.UdpAdmission.Allow | server/fruitspy/admission.py:103-141 | the decision and the new table are those of the state machine: ban, global bucket, table bound, source bucket, violation count |
| Admission.UdpAdmission.Expire | server/fruitspy/admission.py:143-149 | a sweep drops exactly the sources that are idle for the ttl and not banned |
| Admission.TableIsBounded | server/fruitspy/admission.py:103-131 | the source table never exceeds max_sources |
| Admission.BanStartsOnKthRejection | server/fruitspy/admission.py:132-141 | a bucket rejection starts a ban if and only if it is the k-th of its source since its last ALLOWED or ban start; eviction splits no streak |
| Admission.BannedExactlyWhileBanRuns | server/fruitspy/admission.py:103-149 | a datagram is answered banned if and only if a ban of its source is still running: no sweep lifts one |
| AdmissionMeaning.AnswerIs | server/fruitspy/admission.py:103-141 | which answer a datagram gets: banned while the ban runs, else the global level below one, else no place for a new source, else allowed if the source has one token, else a ban at the k-th offence |
| AdmissionMeaning.GlobalLeft | server/fruitspy/admission.py:105-113 | every datagram that is not banned refills the global bucket and takes a token if there is one |
| AdmissionMeaning.SourceLeft | server/fruitspy/admission.py:127-141 | what an answer leaves of the source: its level, its offences and the end of its ban |
| AdmissionMeaning.OthersStay | server/fruitspy/admission.py:143-149 | an answer changes no other source and drops only stale ones, and all of them when the sweep is due |
| AdmissionMeaning.GlobalLimitIff | server/fruitspy/admission.py:112-113 | in every run a datagram that is not banned meets the global limit if and only if with it some window that ends now would exceed burst + rate * elapsed |
| AdmissionRefinement.EvictionIsInvisible | server/fruitspy/admission.py:103-149 | with burst <= rate * ttl, a run decides like the table that never forgets if and only if no decision is table-full |
| AdmissionRefinement.EvictedIsFullIffRefillsWithinTtl | server/fruitspy/admission.py:143-149 | every evicted bucket is full again if and only if burst <= rate * ttl |
| AdmissionRefinement.SlowBucketShowsEviction | server/fruitspy/admission.py:103-149 | a full burst, a gap beyond the ttl and a second burst show eviction, if the bucket does not refill for the second and the global level after the gap covers it |
| AdmissionRefinement.EvictionShowsIff | server/fruitspy/admission.py:103-149 | under the bounds config.py sets, some run without table-full decisions shows eviction if and only if burst > rate * ttl and the global bucket is larger or faster than a source's |
| AdmissionRefinement.TightGlobalHides | server/fruitspy/admission.py:103-141 | with a global bucket equal to a source's, every run without table-full decisions decides like the memory, whatever the ttl: the global bucket alone decides |
| EnctypeXs.DecryptInvertsEncrypt | server/fruitspy/crypto.py:170-246 | decryption undoes encryption from an equal state and leaves an equal state |
| EnctypeXs.EncryptInvertsDecrypt | server/fruitspy/crypto.py:170-246 | and the other way round |
| EnctypeXs.AnyChunkingDecrypts | server/fruitspy/crypto.py:170-246 | frames encrypted one by one and decrypted under any other chunking give the concatenated plaintext |
| EnctypeXs.DeckIsAlwaysPermutation | server/fruitspy/crypto.py:127-142 | after key set-up and after every byte in either direction the 256 cards hold every byte exactly once |
| EnctypeXs.StreamsKeepPermutation | server/fruitspy/crypto.py:173-205 | every byte keeps any permutation a permutation, coinciding indices included |
| EnctypeXs.SelectCard | server/fruitspy/crypto.py:144-168 | the rejection loop ends within twelve draws with an index at most count |
| EnctypeXs.EnctypeX.EncryptBytes | server/fruitspy/crypto.py:170-207 | encrypts in place byte by byte as the stream function says |
| EnctypeXs.EnctypeX.DecryptBytes | server/fruitspy/crypto.py:209-246 | decrypts in place byte by byte as the stream function says |
| CipherMeaning.XorIs | server/fruitspy/crypto.py:203 | an exclusive or has exactly the bits in which its two bytes differ |
| CipherMeaning.TurnMoves | server/fruitspy/crypto.py:174-195 | how one byte moves the deck: the two counters, the four cards, the third register |
| CipherMeaning.PadIs | server/fruitspy/crypto.py:196-203 | what a byte is xored with, card by card |
| CipherMeaning.StreamIs | server/fruitspy/crypto.py:170-246 | encryption and decryption of a byte: one turn, the pad xored on, plain and coded byte noted |
| CipherMeaning.MixingIs | server/fruitspy/crypto.py:120-123 | each challenge byte changes one of the eight bytes, the one that the key selects |
| CipherMeaning.KeyCountsIff | server/fruitspy/crypto.py:121-124 | when a byte of the key first counts, it changes the mixed identity if and only if it selects another place and the byte mixed in is not the one already there |
| CipherMeaning.SelectIs | server/fruitspy/crypto.py:144-168 | a selected card is given by the low bits, as many as count needs, of the first of eleven draws that falls in range, or of the twelfth reduced modulo count |
| CipherMeaning.FreshDeckIs | server/fruitspy/crypto.py:127-141 | a fresh deck is 256 swaps from the ordered one, from the last place down, and its registers are the cards 1, 3, 5, 7 and that of the last draw |
| PeerChatCiphers.TransformIsInvolution | server/fruitspy/crypto.py:96-110 | two ends with equal packs undo each other and stay in step |
| PeerChatCiphers.TransformKeepsPermutation | server/fruitspy/crypto.py:75-110 | the pack stays a permutation |
| PeerChatCiphers.PackIsAlwaysPermutation | server/fruitspy/crypto.py:75-110 | so it is from its key set-up on |
| PeerChatCiphers.PeerChatCipher.TransformBytes | server/fruitspy/crypto.py:96-110 | transforms in place as the stream function says |
| CipherMeaning.PackTurnIs | server/fruitspy/crypto.py:102-107 | a byte moves the two counters, swaps their cards, and is xored with the card at their sum |
| CipherMeaning.TransformIs | server/fruitspy/crypto.py:96-110 | the key stream does not depend on the data |
| CipherMeaning.KeyedIs | server/fruitspy/crypto.py:87-91 | key set-up, place by place, from the cards in falling order |
| CipherMeaning.FreshPackIs | server/fruitspy/crypto.py:84-94 | all 256 places, under the challenge xored with the repeated key |
| PeerChatFraming.ChunkingIsInvisible | server/fruitspy/peerchat.py:215-291 | two ways of cutting one byte stream leave the same lines, status and, while open, reader, if in both every read that delivers a CRYPT line ends with it |
| PeerChatFraming.CleanReadsAreBytewise | server/fruitspy/peerchat.py:215-291 | such reads bring what the stream brings byte by byte, keys changing right behind each CRYPT line |
| PeerChatFraming.CryptReadIsBytewiseIff | server/fruitspy/peerchat.py:215-291 | the condition is needed: a read that delivers one CRYPT with fewer than 256 bytes behind it and stays open is what its bytes are one by one if and only if it ends with that line |
| PeerChatFraming.ReadBehindCryptShows | server/fruitspy/peerchat.py:215-291 | any read that goes on behind a CRYPT, by a number of bytes no multiple of 256, with no further CRYPT and the connection still open, leaves another reader than reading on later |
| PeerChatFraming.CryptAndOneByteShows | server/fruitspy/peerchat.py:215-291 | an input: a connection's first CRYPT line and one byte behind it, whatever the key |
| PeerChatFraming.QuietChunkingIsInvisible | server/fruitspy/peerchat.py:215-291 | where the stream, decrypted with the key it starts with, delivers no CRYPT, chunking is invisible without any condition |
| PeerChatFraming.CryptInMidReadIff | server/fruitspy/peerchat.py:215-291 | the lines alone: two bytes behind a CRYPT that the key before reads as a one-byte line, read together with it or apart, have the same outcome if and only if the key installed decrypts them alike |
| PeerChatFraming.ReadsParseTheStream | server/fruitspy/peerchat.py:215-229 | for such a stream lines, status and unfinished line are those of the decrypted stream taken as a whole |
| PeerChatFraming.LineReader.Receive | server/fruitspy/peerchat.py:215-229 | one read: decrypt, append, take lines, run each, a new decryptor with a CRYPT, check the limit |
| PeerChatLines.SentLinesArrive | server/fruitspy/peerchat.py:216-229 | lines written out, encrypted with an equal key and cut into any reads are delivered one by one, without returns and empty lines, and what follows them is kept, or ends the connection if it is over the limit |
| PeerChatLines.LongLineEnds | server/fruitspy/peerchat.py:221-229 | a line over the limit ends the connection whatever follows, and exactly the lines before it have been delivered |
| PeerChatLines.ClosingLineEnds | server/fruitspy/peerchat.py:224-227 | a line that closes the connection is the last one delivered, whatever follows |
| PeerChatCoherence.StepKeeps | server/fruitspy/peerchat.py:248-787 | every connection, command and disconnect keeps nicks, clients, rooms, operators, keys and limits coherent |
| PeerChatCoherence.RunKeeps | server/fruitspy/peerchat.py:248-787 | so does every run |
| PeerChatSafety.MembershipIsMutual | server/fruitspy/peerchat.py:293-489 | an open connection lists a room if and only if it is one of its users, under its own folded nick only |
| PeerChatSafety.LimitsHold | server/fruitspy/peerchat.py:134-446 | folded nicks unique, no empty room, operators among users, key owners equal users, staging rooms hold two, every cap holds, the one on each member's keys in a room included |
| PeerChatSafety.RefusalsChangeNothing | server/fruitspy/peerchat.py:692-748 | a command refused for capacity, budget, registration or a bad nick changes no room, no nick and no key |
| PeerChatSafety.ModeSetsRank | server/fruitspy/peerchat.py:643-670 | a rank change that goes through sets the rank of its target and of nobody else, and moves nobody |
| PeerChatSafety.RenameCarriesStanding | server/fruitspy/peerchat.py:308-323 | a rename takes the member along in each room with rank and keys, and changes nobody else's standing |
| PeerChatSafety.RenameCanBeUndone | server/fruitspy/peerchat.py:308-323 | renaming back restores the whole state |
| PeerChatSafety.PartUndoesJoin | server/fruitspy/peerchat.py:475-489 | a part undoes a join, rooms created included |
| PeerChatSafety.DisconnectLeavesNoTrace | server/fruitspy/peerchat.py:764-787 | a disconnect removes the connection everywhere, dissolves exactly the rooms it was alone in, and changes nobody else's standing |
| PeerChatMeaning.JoinAnswers | server/fruitspy/peerchat.py:365-441 | a join is carried out if and only if the client is welcomed, names a room, is in it already or has a room left and finds space, and can pay 0, 1 or 2; the conditions of each refusal, 451, 461, 405, 471 |
| PeerChatMeaning.JoinSetsStanding | server/fruitspy/peerchat.py:438-446 | a join leaves everybody else's standing and every other room; one who is in the room keeps its standing; a new member has this id, no keys, and is an operator if and only if the room was not there before |
| PeerChatMeaning.JoinKeepsHead | server/fruitspy/peerchat.py:134-148 | an existing room keeps name, topic, keys and limit; a new one has this name and neither topic nor keys |
| PeerChatMeaning.JoinTouches | server/fruitspy/peerchat.py:434-446 | a join adds the room to the client's list, charges it the price, and changes no nick and no other client |
| PeerChatMeaning.NickAnswers | server/fruitspy/peerchat.py:293-307 | a nick is taken if and only if it has 1 to 31 characters, no other open connection bears it up to case, and a change beyond case can be paid; the conditions of 432 and 433 |
| PeerChatMeaning.NickTakes | server/fruitspy/peerchat.py:308-324 | the new nick replaces the old one among the nicks and completes the registration of a client with a user name |
| PeerChatMeaning.NickCarriesStanding | server/fruitspy/peerchat.py:312-323 | and in every room takes rank and keys along, and nobody else's |
| PeerChatMeaning.UserSets | server/fruitspy/peerchat.py:325-338 | a user name is set, and completes the registration of a client with a nick |
| PeerChatMeaning.PartAnswers | server/fruitspy/peerchat.py:471-489 | a part is carried out if and only if the client is in the room, and takes the room from its list |
| PeerChatMeaning.PartTakesOnlyOneself | server/fruitspy/peerchat.py:475-489 | a part takes the user from the room, with rank and keys, and the room from the server if and only if nobody else is in it; everybody else's standing and every other room stay |
| PeerChatMeaning.KeySets | server/fruitspy/peerchat.py:541-548 | one's own keys: all updates or none, if and only if the result fits the cap and its growth can be paid |
| PeerChatMeaning.ChanKeySets | server/fruitspy/peerchat.py:564-573 | likewise the keys of a room, and nothing else of any room |
| PeerChatMeaning.CKeyAnswers | server/fruitspy/peerchat.py:590-604 | likewise the keys of a user who is in the room; otherwise the command is ignored |
| PeerChatMeaning.CKeySets | server/fruitspy/peerchat.py:600-606 | which change no rank and nobody else's keys |
| PeerChatMeaning.ModeAnswers | server/fruitspy/peerchat.py:643-670 | when a rank change goes through, is ignored or refused, and that only a new rank costs a token |
| PeerChatMeaning.TopicSets | server/fruitspy/peerchat.py:672-681 | a topic that is not empty becomes the topic of an existing room |
| PeerChatMeaning.ConnectionStarts | server/fruitspy/peerchat.py:160-194 | a new connection has no nick, no room and both budgets full |
| PeerChatMeaning.LineIsHeardIff | server/fruitspy/peerchat.py:248-267 | a line is carried out if and only if the command budget holds a token, which it costs; else the connection is closed |
| PeerChatMeaning.DisconnectKeepsTheRest | server/fruitspy/peerchat.py:764-787 | a disconnect leaves names, topics, keys and limits of the rooms that stay, and every other client and nick |
| PeerChatServers.PeerChatServer.Connect | server/fruitspy/peerchat.py:159-194 | a new connection starts without nick and rooms and with full budgets |
| PeerChatServers.PeerChatServer.ConsumeStateCreationBudget | server/fruitspy/peerchat.py:692-713 | a call for nothing passes without touching the bucket; others are the bucket's |
| PeerChatServers.PeerChatServer.SetNick | server/fruitspy/peerchat.py:293-323 | the command's outcome and new state, each refusal included |
| PeerChatServers.PeerChatServer.RenameInRooms | server/fruitspy/peerchat.py:312-321 | the loop over the client's own rooms renames it in all of them and in no other |
| PeerChatServers.PeerChatServer.SetUser | server/fruitspy/peerchat.py:325-333 | sets user and user key, and welcomes when both names are there |
| PeerChatServers.PeerChatServer.Join | server/fruitspy/peerchat.py:365-446 | the command's outcome and new state, each refusal included; the client is a member afterwards if and only if it was or the command went through |
| PeerChatServers.PeerChatServer.LeaveChannel | server/fruitspy/peerchat.py:475-489 | the member goes with its keys and rank, an emptied room goes too |
| PeerChatServers.PeerChatServer.UpdateKeyCollection | server/fruitspy/peerchat.py:716-748 | limit first, then budget; it updates if and only if the result fits the cap and the budget affords its growth, and then every update lands and every other key stays |
| PeerChatServers.PeerChatServer.SetKey | server/fruitspy/peerchat.py:541-548 | the command's outcome and new state |
| PeerChatServers.PeerChatServer.SetChanKey | server/fruitspy/peerchat.py:564-573 | the command's outcome and new state |
| PeerChatServers.PeerChatServer.SetCKey | server/fruitspy/peerchat.py:590-606 | the command's outcome and new state |
| PeerChatServers.PeerChatServer.SetMode | server/fruitspy/peerchat.py:643-670 | +o for users only, charged when new; -o for anyone |
| PeerChatServers.PeerChatServer.Disconnect | server/fruitspy/peerchat.py:764-787 | the loop over the client's rooms is one removal from all of them |
| PeerChatServers.PeerChatServer.Command | server/fruitspy/peerchat.py:248-278 | one line of an open connection, the command budget included; the state stays coherent |
| ServerKeys.ParseQrServerKeys | server/fruitspy/availability_qr.py:44-52 | the parser's loop, failing exactly on an unterminated string |
| ServerKeys.ParsedIsWellFormed | server/fruitspy/availability_qr.py:44-52 | whatever the heartbeat, the keys are distinct, non-empty and free of NUL |
| ServerKeys.RulesParseBack | server/fruitspy/server_browser.py:575-579 | serialised keys parse back to the same keys in the same order, whatever follows |
| ServerKeys.RulesFit | server/fruitspy/availability_qr.py:44-52 | serialised keys are at most three times as long as the heartbeat they came in |
| ServerKeys.ValuesFit | server/fruitspy/availability_qr.py:44-52 | no value of a heartbeat is longer than the heartbeat |
| BrowserMeaning.PairsAreAssignments | server/fruitspy/availability_qr.py:44-52 | pairs written one behind the other are read as assignments: of a repeated key the last value counts |
| ServerEntries.EntryReadsBack | server/fruitspy/server_browser.py:537-590 | for every combination of flags a full-rules entry reads back to source, negotiation flag, private address, private port and keys |
| ServerEntries.EntryIsInjective | server/fruitspy/server_browser.py:537-590 | equal entries mean equal sources and equal keys in equal order |
| ServerEntries.ServerEntry | server/fruitspy/server_browser.py:548-590 | the encoder's statements build that entry; they raise exactly on a private port of more than 4300 digits |
| BrowserMeaning.EntryBytes | server/fruitspy/server_browser.py:548-580 | the bytes of an entry: flags 128, 4, 16, 2 and 32 and when each is set, the host, the port, the private host and port and when each is there, the key-value strings |
| BrowserMeaning.RulesBytes | server/fruitspy/server_browser.py:575-579 | each key and each value is followed by a zero byte |
| BrowserTracking.FramesReachListing | server/fruitspy/server_browser.py:509-535 | if every entry that is new or changed fits a frame, the frames of a round, deletes and pushes in any order, turn the old listing into exactly the new one |
| BrowserTracking.RoundSendsIff | server/fruitspy/server_browser.py:521-534 | a round gets its frames out if and only if every entry that is new or changed fits one; what is known and unchanged may be longer |
| BrowserMeaning.RoundSends | server/fruitspy/server_browser.py:509-535 | a round sends a delete for each source no longer listed and a push for each that is new or changed, each once and nothing else, the deletes first |
| BrowserMeaning.FrameBytes | server/fruitspy/server_browser.py:523-534 | length in two bytes, then type 4 and an address, or type 2 and an entry; an entry fits up to 65532 bytes |
| BrowserPush.PushReachesClient | server/fruitspy/server_browser.py:141-152 | frames encrypted one by one, delivered in any chunks, decrypted, cut and applied leave the client with the server's listing |
| BrowserTracking.NoUpdateIsLost | server/fruitspy/server_browser.py:141-152 | in every run a client holds what its subscription knows, and while its push task runs and its event is clear that is the current listing up to the order of keys |
| BrowserTasks.FlushRaisesIff | server/fruitspy/server_browser.py:141-152 | a round that is due ends its push task if and only if it meets a matching or listed server with a decimal text of more than 4300 digits, or a new or changed entry too long for a frame, both told from keys, ports and what is known before the round |
| BrowserTasks.TaskEndsIff | server/fruitspy/server_browser.py:141-247 | in every reachable state a step ends a running push task if and only if its connection ends, its list request raises, or its round meets such a server or entry |
| BrowserTasks.RaisingFlushStrands | server/fruitspy/server_browser.py:141-152 | a round that raises leaves its client behind: through every run that follows, until the connection ends or sends a list request, no push task runs for it and it holds what it held before the round |
| BrowserTasks.SmallDatagramsNeverStrand | server/fruitspy/availability_qr.py:112 | with datagrams of at most 4300 bytes, as shipped, the push task of every open connection runs in every run |
| BrowserTasks.SmallDatagramsLoseNothing | server/fruitspy/server_browser.py:141-152 | there, in every run, a clear event alone means that the client holds the current listing up to the order of keys |
| BrowserStranded.StrandedIff | server/fruitspy/server_browser.py:141-152 | subscribe, any heartbeat of a new server, registration, one round: the subscriber is left with a clear event, an ended task and without the listed server if and only if its entry is too long or its port has too many digits; otherwise it holds the entry |
| BrowserStranded.ReplacedBytesStrand | server/fruitspy/server_browser.py:530-534 | a heartbeat with 21845 bytes 255 in one value does that, as each is re-encoded in three bytes |
| BrowserStranded.LongPortStrands | server/fruitspy/server_browser.py:560-561 | so does one with more than 4300 digits for the private port |
| BrowserTracking.ListingDepends | server/fruitspy/server_browser.py:464-493 | the listing depends only on which servers are registered, since when, and on their keys as dictionaries |
| BrowserTracking.OneHostIsListed | server/fruitspy/server_browser.py:475-493 | an automatch query lists exactly one host if any is open |
| BrowserMeaning.AutomatchListsTheOldest | server/fruitspy/server_browser.py:475-493 | an automatch lists the open host registered longest, the first by address among equals, and none if none is open |
| BrowserMeaning.SearchListsIff | server/fruitspy/server_browser.py:464-476 | a search lists exactly the registered servers of the game that pass the filter |
| BrowserMeaning.AutomatchRaisesIff | server/fruitspy/server_browser.py:478-486 | an automatch raises if and only if a matching host has two decimal counts, one of more than 4300 digits |
| BrowserMeaning.RegistrationLasts | server/fruitspy/state.py:92-102 | whatever happens, a server is registered only by its own registration, which sets the time that ranks it, and keeps both while it stays |
| BrowserMeaning.ServersGoOnlyIf | server/fruitspy/state.py:177-192 | a server goes only by a heartbeat of its own or by a sweep that finds it silent for longer than the ttl |
| BrowserMeaning.SweepDropsIff | server/fruitspy/state.py:177-204 | a sweep drops exactly the silent servers and wakes the subscribers if and only if one was registered |
| BrowserMeaning.ReportSets | server/fruitspy/state.py:68-90 | what a report does to its own server and to all others, and when a new one finds room |
| BrowserMeaning.RemoveSets | server/fruitspy/state.py:104-108 | a removal takes just its server, and wakes the subscribers if and only if that was registered |
| BrowserMeaning.RegisterSets | server/fruitspy/state.py:92-102 | a registration marks the server and refreshes it; the first one sets its time and wakes the subscribers |
| BrowserMeaning.HeartbeatSays | server/fruitspy/availability_qr.py:200-217 | a heartbeat written out, type byte, instance key and pairs, removes its server, reports it with these keys, or does nothing |
| BrowserTracking.ReportTells | server/fruitspy/state.py:68-90 | a report that changes the registered servers or their keys as dictionaries sets every event |
| BrowserTracking.HeartbeatTells | server/fruitspy/availability_qr.py:111-217 | any datagram sets every event if it changes the registered servers or their keys as dictionaries |
| BrowserTracking.HeartbeatsBring | server/fruitspy/availability_qr.py:44-52 | what an accepted heartbeat brings: well-formed keys, serialised in at most three times the datagram limit, no value beyond the limit |
| BrowserOrder.UntoldReportIsExactIff | server/fruitspy/state.py:81-86 | a report that, told from what is registered before it, notifies nobody leaves the known entries the listing byte for byte if and only if the source is not listed or its keys keep their order |
| BrowserOrder.SteadyRunsAreExact | server/fruitspy/state.py:81-86 | in a run in which no heartbeat merely reorders a registered server's keys, a running task with a clear event knows the listing byte for byte |
| BrowserOrder.ExactnessIsLostIff | server/fruitspy/state.py:81-86 | in every run, a step that leaves the event of a running task clear costs its exact knowledge if and only if it is a heartbeat that reorders the keys of a listed server |
| BrowserOrder.ReorderingGoesUntold | server/fruitspy/state.py:81-86 | a concrete report that only reorders keys changes the entry and sets no event |
| BrowserServers.ServerState.NotifyServerChange | server/fruitspy/state.py:118-120 | every event is set |
| BrowserServers.ServerState.Expire | server/fruitspy/state.py:177-204 | retains exactly the servers within their ttl; notifies if a registered one went |
| BrowserServers.ServerState.Remove | server/fruitspy/state.py:104-108 | removes and notifies if it was registered |
| BrowserServers.ServerState.Register | server/fruitspy/state.py:92-102 | registers, keeps the first registration time, notifies the first time |
| BrowserServers.ServerState.Report | server/fruitspy/state.py:68-90 | the report's new state; it raises only for a new source at capacity |
| BrowserServers.ListServers | server/fruitspy/server_browser.py:464-493 | the filter loop, and the oldest open host for an automatch; it raises exactly when a matching server has both player counts decimal and one of more than 4300 digits |
| BrowserServers.HandleHeartbeat | server/fruitspy/availability_qr.py:200-217 | a heartbeat removes, reports or is ignored as the source decides |
| BrowserServers.SubscriptionFrames | server/fruitspy/server_browser.py:509-535 | deletes of what went and pushes of what is new or changed, each once, turn what was known into the listing; it raises exactly on such an entry too long for a frame |
| BrowserServers.ServerBrowserServer.ListEntries | server/fruitspy/server_browser.py:513-520 | the loop over the listing builds its full-rules entries, or raises with the listing or a port |
| BrowserServers.ServerBrowserServer.Subscribe | server/fruitspy/server_browser.py:338-354 | a subscription starts with the current listing as known; a list request that raises ends its connection |
| BrowserServers.ServerBrowserServer.Push | server/fruitspy/server_browser.py:141-152 | one round of the push task: it sends frames that turn the known entries into the new ones, or ends itself exactly where something breaks it; the tracking invariant is kept either way |
| ElfProgram.InjectDescribed | patcher/patch_apk.py:264-351 | a successful injection yields exactly the file described byte by byte, with the shift it reports |
| ElfImage.WrittenIsInjected | patcher/patch_apk.py:318-345 | the sequence of writes meets the description: old bytes in place, cave filled, every header word as it should be |
| ElfUnique.InjectedIsUnique | patcher/patch_apk.py:318-345 | the description leaves no byte open |
| ElfProgram.ShiftRounds | patcher/patch_apk.py:302-306 | the & -alignment round-up is the multiple of the alignment at or above what is required, less than one alignment more |
| ElfProgram.SegmentImageKept | patcher/patch_apk.py:325-329 | every other load segment keeps addresses and image at its possibly shifted offset, outside rewritten table words |
| ElfProgram.ExecutableImage | patcher/patch_apk.py:331-333 | the executable segment keeps its bytes and the payload follows, unless it is empty and itself pushed back; the payload loads at payload_vaddr if and only if p_filesz = p_memsz; what it becomes part of is a load segment with the execute flag |
| ElfProgram.SectionBytesKept | patcher/patch_apk.py:335-341 | every section that is not torn apart keeps its bytes at the offset its header now gives |
| ElfProgram.CongruenceKept | patcher/patch_apk.py:347-350 | offsets stay congruent to addresses if and only if the shift is a multiple of the alignment of every load segment moved |
| ElfProgram.InjectSucceeds | patcher/patch_apk.py:264-351 | from a congruent file the injection succeeds if and only if every number fits its word and the shift suits every load segment moved |
| ElfPlan.PlanFoundIff | patcher/patch_apk.py:265-306 | a plan is found if and only if some load segment with the execute flag ends at the cave in file and memory, a load segment follows the payload, the cave before the nearest is zero and not behind it, and its alignment is a power of two if the cave has to grow |
| ElfPlan.PlanIs | patcher/patch_apk.py:266-306 | the plan grows the first such segment, inserts before the nearest load segment that follows, and shifts by the least sufficient multiple of its alignment |
| ElfPlan.InjectionNeedsPlan | patcher/patch_apk.py:265-306 | without such a place the injection raises |
| ElfPlan.WritableIff | patcher/patch_apk.py:308-342 | what must fit: the section table in the file, the moved offsets and the grown sizes in their words |
| ElfPlan.VerifiedIff | patcher/patch_apk.py:238-248 | what the search takes from the file check: 52 bytes or more, entries of 32 and of 40 bytes |
| ElfPlan.HeaderFields | patcher/patch_apk.py:251-261 | which words of the file are the fields of a program header |
| ElfCompose.ShiftsAdd | patcher/patch_apk.py:302-306 | whatever the gap and alignment, the shifts of two injections add up to that of one |
| ElfCompose.TwoInjectionsAreOne | patcher/nickname_patch.py:108-117 | injecting a second payload right behind the first gives the very file, shift and failures of one injection of both, if the plans make up one plan |
| ElfCompose.TwoInjectionsAreOneIff | patcher/nickname_patch.py:108-117 | and, for a second payload that is not empty, only then, unless both ways fail: the same segment grows, the shifts add up, and a first shift was made at the same place |
| ElfCompose.AgreeingSearchesCompose | patcher/patch_apk.py:264-306 | the plans make up one plan if both searches of the second injection find the segments of the first |
| ElfCompose.ApartSearchesAgree | patcher/patch_apk.py:266-293 | they do if no load segment lies in the payload's addresses and the executable one is not empty |
| ElfHooks.HooksCommute | patcher/patch_apk.py:354-370 | any hooks before the cave commute with an injection, failures included |
| ElfHooks.HookAppliesAlike | patcher/patch_apk.py:354-370 | a hook applies after an injection if and only if it applies before it |
| ElfHooks.ClockThenNickname | patcher/nickname_patch.py:108-123 | clock payload, hooks, nickname payload: where the plans make up one plan, the file is one injection of both payloads, hooked |
| ElfInjector.InjectPayload | patcher/patch_apk.py:264-351 | the procedure with its loops computes the injection, failures included |
| ElfInjector.ChoosePlan | patcher/patch_apk.py:265-306 | the checks and the choice of insertion point and shift |
| ElfInjector.WriteAll | patcher/patch_apk.py:308-345 | the writes, giving up exactly where a number does not fit its word |
| ElfInjector.ReplaceInPlace | patcher/patch_apk.py:354-370 | replaces the range in place if and only if it holds the expected bytes |
| Manifest.StringReadsBack | patcher/identity_patch.py:20-29 | every text reads back, in both forms of the UTF-16 length prefix |
| ManifestLayout.StringBytes | patcher/identity_patch.py:20-29 | the bytes of a pool string: length prefix in either form, units low byte first, a zero unit |
| ManifestMeaning.MeaningKept | patcher/identity_patch.py:32-83 | the patched manifest decodes, sizes and alignment included: old strings at their old indices, new ones behind, and the same elements but for the two attributes |
| ManifestMeaning.AttributesSay | patcher/tests/test_patch_apk.py:74-91 | the package and label attributes now show the new strings; names and namespaces of all elements and attributes and every other attribute are unchanged |
| ManifestLayout.PatchedIff | patcher/identity_patch.py:32-83 | a manifest is patched if and only if its pool header has the eight known words, the records to set are in their places, and the strings and the file keep within their limits |
| ManifestLayout.HeadersSay | patcher/identity_patch.py:75-83 | the headers of the result: type 3, header size 8, its size; pool size, count, no styles, no flags, start of the strings |
| ManifestLayout.OldStringsStay | patcher/identity_patch.py:46-47 | old offsets and old strings stand where they stood, behind the longer offset table |
| ManifestLayout.NewStringsStand | patcher/identity_patch.py:69 | the new strings stand behind them |
| ManifestLayout.NewOffsetsPoint | patcher/identity_patch.py:68 | and the new offsets point at them |
| ManifestLayout.RecordsSay | patcher/identity_patch.py:64-71 | the two records of the result, field by field |
| ManifestLayout.TailStays | patcher/identity_patch.py:48-72 | every other byte behind the pool is as it was |
| ManifestMeaning.PatchManifestBytes | patcher/identity_patch.py:32-83 | the procedure with its loop computes the patched manifest, failures included |

## Left out

- Sockets, listeners, signals, health checks, the metrics server, logs and log sanitising: I/O plumbing. Timers, events and drain are explicit steps and flags.
- Floating point: tokens and times are reals.
- Traffic counters that only feed metrics and logs (packets, bytes, drops, establishment of a relay).
- `gsseckey` and the proof of registration: a registration is a step of its own. Challenges and their randomness are not modelled.
- `ConnectionAdmission`, config.py's range checks, diagnostics and rendering: easy members. Bounds from the configuration appear as preconditions.
- Parsing of PeerChat command parameters, replies, broadcasts and the read-only commands. Of CRYPT, the switch of the decryptor is modelled, its random key being a parameter; the encryptor is not.
- Objects held in dictionaries (sessions, relays, channels, clients, reported servers) are values in map fields, so aliasing between them is not modelled; one history field of a session counts its activations.
- Server Browser entries with selected fields, group bodies, info and message requests, the encryption header of the first response.
- Resource table package name, APK, DEX and signing steps, endpoint strings: fixed-size replacements and foreign tools.
- The machine code that payloads and hooks contain; ABI, hashes and concrete offsets are parameters.
- PeerChatCoherence.StepKeeps: commands run to completion; interleaving at `await`, as inside the rename loop, does not keep the invariant.
- PeerChatFraming.ChunkingIsInvisible: for reads that end with each CRYPT line they deliver, because the code decrypts a whole read with one key; CryptReadIsBytewiseIff and ReadBehindCryptShows say that the reader differs otherwise. Where a multiple of 256 bytes stands behind it, or for the lines alone, it depends on the key: CryptInMidReadIff.
- BrowserTracking.NoUpdateIsLost: for running push tasks and up to the order of keys, because a round that raises has cleared the event before, and a reordering report notifies nobody; BrowserTasks and BrowserOrder state exactly when.
- ElfInjector.InjectPayload: the cave lies behind the ELF header, and an injection that would overwrite the header's own table sizes counts as failed.
- ElfCompose.TwoInjectionsAreOne: where the plans of the two injections make up one plan, because the code does not check that the second finds the segments of the first; TwoInjectionsAreOneIff says that the files differ otherwise.
- ElfHooks.ClockThenNickname: under the same condition.
- ManifestMeaning.MeaningKept: for a manifest in which the two records are attributes, which the source establishes by the file's hash.
