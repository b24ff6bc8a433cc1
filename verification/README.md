# A verified model of mhuxd's shared CAT line

mhuxd sits between up to nine applications and one radio on a single serial line. It cuts byte
streams into frames, works out whose command each radio answer belongs to, gives applications
turns, slips in its own queries, and packs everything onto the microHam wire. This project models
that part in Dafny and proves what it promises. `dafny verify dfyconfig.toml` checks all of it.

Nothing here runs the original program. Each source file is modelled twice: as step functions on
values, about which the theorems are proved, and as a class or a method with loops that updates
its fields as the source does and is proved to take exactly these steps. Time is a natural number
in milliseconds. What comes from outside (bytes, times, which connector has data waiting, whether
a buffer has room, what a completion callback submits) is input to the steps, so the theorems hold
for all of it.

| files | source | subject |
|---|---|---|
| YbinTables, Ybin, YbinRuns, YbinHonest, YbinDecoder, PackedBcd | src/cat_ybin.c | Yaesu binary decoder: answers framed by length tables, order and time |
| CivFramer, CivTables, Civ, CivRuns, CivDiscards, CivHonest, CivDecoder | src/cat_civ.c | CI-V decoder: framer, echo, reply and acknowledge matching, collisions |
| AsciiFramer, AsciiNumbers, AsciiTables, AsciiSplit, Ascii, AsciiRuns, AsciiHonest, AsciiDecoder | src/cat_ascii.c | Kenwood, Elecraft, Yaesu and Flex ASCII decoder |
| CatState, CatStateVfos | src/cat_state.c | normalized radio state, two slots for two VFOs |
| Arbiter, ArbiterRuns, ArbiterSafety, ArbiterRouting, ArbiterClients, LineArbiter | src/cat_native.c, src/mhrouter.c | turns, own queries, routing of radio data |
| Ptt | src/mhrouter.c | PTT ownership, and the way of the flags bytes to the keyer |
| Wire, Demux, WireRoundTrip, WireCommand, WireMachine | src/mux.c, src/demux.c | microHam frames |
| CommandQueue, CommandQueueRuns, CommandControl | src/mhcontrol.c | keyer command queue |
| Vsp, VspSession | src/con_vsp.c | reads of a virtual serial port that wait |
| Buffer | src/buffer.c | the bounded FIFO below everything |
| Cat, SeqFacts, Wrappers | src/cat.h | shared types, facts about sequences |

Where the code does not meet a property on all inputs, the model keeps the code and states exactly
when it does:

- `AsciiSplit.FramesKeepSplit`: an IF answer with a good layout that selects the other VFO and has
  a mode code that is none is reported as bad, but has changed the selection already, so split no
  longer fits the transmitting VFO. `AsciiSplit.SplitCanBeTorn` shows such a frame; every other
  frame keeps them together.
- `WireRoundTrip.FourFrameDecoderIsComplete`: src/mux.c fills five frames a sequence, src/demux.c
  takes four of the keyer's. The same decoder loses the fifth frame of such a sequence;
  `WireRoundTrip.FiveBytesLoseOne` shows five bytes that lose one, and
  `WireRoundTrip.FiveFrameRoundTrip` is the round trip for a decoder that takes five.
- `CivDiscards.DiscardedClientsCredit`: a discard empties the pending list of src/cat_civ.c, but
  not the last frame that is kept for learning the radio's address. While the address is not
  known and a discarded client's frame is the last one seen, a frame of the radio that mirrors it
  makes it pending again, and what answers it then, at once or later, is credited to that client.
  `CivDiscards.DiscardMissesOnlyTheMirrored` says when exactly this happens, and
  `CivRuns.CreditIsSound` that it is the only case.
- `Ptt.KeyerFollowsHolders`: mhr_set_keyer_fd leaves flags bytes in the buffers. If PTT on was
  queued when the keyer went, the old byte goes out to the next keyer and keys a radio that nobody
  holds; `Ptt.OldByteKeysARadio` is such a run. Without room, or without a flags channel, PTT
  changes do not reach the keyer at all.
- `CatStateVfos.ModeReadsBack`: a mode without data flag that is set again while its data flag is
  on reads back with the flag.

A read of a virtual port that is interrupted loses the bytes collected for it; the model records
them as thrown away (`Vsp.HeldReadsKeepOrder`). The held reads follow VMIN and VTIME of section
11.1.7 of POSIX.1-2017, Base Definitions.

## Model

| member | source | states |
|---|---|---|
| YbinTables.RecordsLieInside | src/cat_ybin.c:177-229 | every offset read from an answer lies inside the exact length that answer_len gives for its command, which is never a guess then |
| YbinTables.FrequenciesFit | src/cat_ybin.c:403-429 | for the frequency fields of records, in the coding of every family: the computed frequency is the field's value as a plain number, and fits 32 bits |
| YbinTables.AnswerTellsFrequency | src/cat_ybin.c:403-550 | all twelve models, every command and answer: when an answer updates the state, each frequency it tells, in a record or in the BCD digits of FT-817 and FT-847, is what its VFO ends up with, with no wrap |
| YbinTables.CommandTellsFrequency | src/cat_ybin.c:555-624 | the frequency that a client's command sets is what the VFO it means ends up with, with no wrap |
| YbinTables.ToldModeReadsBack | src/cat_ybin.c:391-396 | a mode told by a mode code reads back as that mode, whatever the data flag was |
| YbinTables.OwnQueryIsAnswered | src/cat_ybin.c:865-881 | all twelve models: the own query has an answer of known length that tells frequency and mode |
| PackedBcd.BcdRoundTrip | src/cat_ybin.c:241-251 | decoding the BCD bytes of a number gives the number |
| PackedBcd.BcdIsExact | src/cat_ybin.c:241-251 | every decodable BCD field is the encoding of its value |
| PackedBcd.DecBcd | src/cat_ybin.c:241-251 | the byte loop computes the BCD value in either byte order, or finds a digit that is none |
| PackedBcd.DecLittleEndian | src/cat_civ.c:138-154 | the digit loop of CI-V frequencies computes the BCD value of the reversed field |
| YbinRuns.RadioBytesAreConserved | src/cat_ybin.c:630-758 | over any run with expiry, give-up, eviction and discards: radio frames plus the partial answer are the bytes received, in order; only the head has received bytes, and the partial answer holds got mod 80 of them |
| YbinHonest.HonestRadioIsFramedExactly | src/cat_ybin.c:630-758 | if the radio answers each command of all clients in order with its length and no command is expired, given up, evicted or discarded, the radio frames are exactly these answers, cut into 80-byte pieces and credited to their senders, and what is still missing is what the radio still owes |
| YbinDecoder.YbinDecoder.AnswerDone | src/cat_ybin.c:660-683 | in place: the head's answer is emitted, applied only if it is complete with exactly its length, and removed |
| YbinDecoder.YbinDecoder.PendExpire | src/cat_ybin.c:686-693 | in place: expired heads go, with their partial answers passed on |
| YbinDecoder.YbinDecoder.PendGiveup | src/cat_ybin.c:696-699 | in place: unanswered heads go when a new command comes after their time |
| YbinDecoder.YbinDecoder.Command | src/cat_ybin.c:719-736 | in place: a complete command is queued, applied and emitted |
| YbinDecoder.YbinDecoder.HostByte | src/cat_ybin.c:771-780 | in place: five bytes make a command, a partial one expires |
| YbinDecoder.YbinDecoder.RadioByte | src/cat_ybin.c:738-758 | in place: a radio byte goes to the head's answer, or is an unexpected frame of its own |
| YbinDecoder.YbinDecoder.ClientDiscard | src/cat_ybin.c:811-824 | in place: the client's commands go, and what came of its answer is passed on |
| YbinDecoder.YbinDecoder.Feed | src/cat_ybin.c:826-849 | in place: the run of the steps of all bytes |
| YbinDecoder.YbinDecoder.ClientBusy | src/cat_ybin.c:800-809 | the loop finds whether the client has a partial command, a hold, or a live pending command |
| CivFramer.FramerSynchronises | src/cat_civ.c:522-600 | from any reachable framer state and any garbage, FE FE, 3 to 61 bytes outside FC..FE, FD emit exactly that frame and leave the framer idle |
| CivFramer.ChunksDoNotMatter | src/cat_civ.c:664-687 | splitting the input changes nothing |
| CivFramer.BytesKeep | src/cat_civ.c:546-600 | collecting means 2 to 63 bytes, every other state none |
| CivTables.OnlyUpdatesChange | src/cat_civ.c:194-307 | what is reported as invalid or as nothing leaves the radio state as it was |
| CivRuns.CreditIsSound | src/cat_civ.c:346-516 | over any run an echo, reply, acknowledge or rejection credited to a client fits an earlier frame of that client, which went out, or one before it did, at most 2 s before; it never skips an older fitting command that is credited later; for one controller and client answers come in the order of their commands, one each, with no echo after; no command gets two echoes; and nothing from before a client's discard is credited after it, but for the very last frame, if the address was unknown and the next frame mirrored that one and taught it |
| CivRuns.AddressStays | src/cat_civ.c:418-489 | a known address stays, and only frames from it to others count as broadcasts (to 00), replies, acknowledges (exactly FB) and rejections (exactly FA) |
| CivRuns.AnswersAreTimely | src/cat_civ.c:346-365 | while nothing is sent again, a credited command was itself seen at most 2 s before its echo or answer, or the frame that mirrored it and taught the address was |
| CivDiscards.DiscardMissesOnlyTheMirrored | src/cat_civ.c:629-637 | from any reachable state: after the next frame one of a discarded client's frames is pending or credited if and only if the address was unknown, the client's frame was the last one seen, and the next one mirrors it |
| CivDiscards.DiscardedClientsCredit | src/cat_civ.c:418-432 | some frames to come can still credit a discarded client with what it sent before, if and only if the address is unknown, the client's frame is the last one seen, is no broadcast, FB or FA, and not from and to one address |
| CivHonest.OldestIsCredited | src/cat_civ.c:376-412 | every frame of the radio is credited to the oldest unexpired pending command that it fits by its bytes, and to nobody if and only if it fits none |
| CivHonest.HonestRadioIsCreditedInOrder | src/cat_civ.c:434-516 | if the radio answers all commands in time and in order, over any bytes of all sources, with echoes, broadcasts, other controllers and collisions in between, the n-th answer is credited to the n-th command and its sender, and the rest are pending in order |
| CivRuns.StateIsEvidence | src/cat_civ.c:194-335 | over any run the state is the fold of the radio's frames to 00, its replies to the queries they were credited to, and the pending sets that a frame with command FB was credited to, the oldest ones (CivHonest.OldestIsCredited), read from the bytes; nothing else changes it |
| CivRuns.OnlyTheRadioChangesState | src/cat_civ.c:434-516 | no byte of a host or of mhuxd, no discard and no resend changes the state |
| CivRuns.ConsumeRemovesOnlyItsOwn | src/cat_civ.c:369-374 | an answered command takes along exactly the earlier entries of its controller and client |
| CivDecoder.CivDecoder.PendConsume | src/cat_civ.c:369-374 | in place: the loop that removes answered entries backwards |
| CivDecoder.CivDecoder.PendAdd | src/cat_civ.c:351-365 | in place: a full list drops its oldest entry |
| CivDecoder.CivDecoder.LearnAddr | src/cat_civ.c:418-432 | in place: the radio's address is learned from a broadcast, an acknowledge, or a command and its reply |
| CivDecoder.CivDecoder.ProcessRadio | src/cat_civ.c:434-489 | in place: classification of a radio frame |
| CivDecoder.CivDecoder.ProcessFrame | src/cat_civ.c:491-516 | in place: a frame from any source |
| CivDecoder.CivDecoder.MarkLost | src/cat_civ.c:529-535 | in place: commands sent within 150 ms of a jam and not echoed are marked |
| CivDecoder.CivDecoder.RxByte | src/cat_civ.c:546-600 | in place: one byte through its source's framer |
| CivDecoder.CivDecoder.Feed | src/cat_civ.c:664-687 | in place: the run of the steps of all bytes |
| CivDecoder.CivDecoder.ClientDiscard | src/cat_civ.c:629-637 | in place: the client's framer and commands are emptied |
| CivDecoder.CivDecoder.Resend | src/cat_civ.c:646-662 | in place: the oldest lost command not sent too often is taken, those before it are given up |
| AsciiFramer.BytesAreConserved | src/cat_ascii.c:658-682 | frames plus the partial one are the input minus line ends, spaces and NULs between frames |
| AsciiFramer.FramesReplay | src/cat_ascii.c:658-682 | the bytes of all frames, complete, broken or overlong, give the same frames again; a partial frame has at most 63 bytes |
| AsciiFramer.ChunksDoNotMatter | src/cat_ascii.c:721-744 | splitting the input changes nothing |
| AsciiNumbers.FreqFieldIsExact | src/cat_ascii.c:138-151 | a field reads as a frequency if and only if it is that number written with 8 to 11 digits, nonzero and within 32 bits |
| AsciiNumbers.DecFreq | src/cat_ascii.c:138-151 | the digit loop computes that |
| AsciiSplit.FramesKeepSplit | src/cat_ascii.c:521-550 | a frame keeps split equal to whether the transmitting VFO is not the receiving one, if and only if it is not an IF answer that selects the other VFO with an invalid mode code; and that one is reported as bad |
| AsciiSplit.SplitCanBeTorn | src/cat_ascii.c:363-383 | such an IF answer |
| AsciiSplit.HostFramesLeaveVfos | src/cat_ascii.c:519-550 | frames of clients and mhuxd never touch the selection, split or the transmitting VFO |
| AsciiSplit.FrequencyGoesToTheNamedVfo | src/cat_ascii.c:272-278 | FA and FB set exactly the VFO they name, whichever is selected |
| AsciiSplit.SelectionMovesNothing | src/cat_ascii.c:454-469 | FR and VS change the selection and split, and no VFO's contents |
| AsciiRuns.CreditIsSound | src/cat_ascii.c:572-652 | over any run a credited radio frame answers a command of that client with its prefix and in time, no command is answered twice, a set repeated by the radio answers nothing, and older queries are answered first |
| AsciiHonest.HonestRadioIsCreditedInOrder | src/cat_ascii.c:572-652 | if the radio answers all queries in time and in order, or refuses them, and none is pushed out or discarded, over any run with sets, their repetitions and other auto information in between, the n-th answer is credited to the n-th query and its sender, and the rest are pending in order |
| AsciiRuns.TxFreqIsTheTxVfos | src/cat_ascii.c:287-301 | split fits the transmitting VFO all along a run if and only if no radio frame of it is the tearing IF answer; then, once the transmitting VFO is known, the transmit frequency is what that VFO holds |
| AsciiRuns.EverySourceIsFramed | src/cat_ascii.c:721-744 | each of the eleven sources is framed as if it were alone, so conservation and replay hold for each |
| AsciiRuns.DiscardEndsBusy | src/cat_ascii.c:701-719 | after its discard a client is not busy, and every other client is as busy as before |
| AsciiRuns.BusyEnds | src/cat_ascii.c:701-710 | without new data no client stays busy longer than two seconds |
| AsciiDecoder.AsciiDecoder.PendAdd | src/cat_ascii.c:572-587 | in place: dead entries go, a full list drops its oldest |
| AsciiDecoder.AsciiDecoder.PendTake | src/cat_ascii.c:594-617 | in place: the two searches and the repeated set |
| AsciiDecoder.AsciiDecoder.ProcessFrame | src/cat_ascii.c:619-652 | in place: one frame from any source |
| AsciiDecoder.AsciiDecoder.RxByte | src/cat_ascii.c:658-682 | in place: one byte through its source's framer |
| AsciiDecoder.AsciiDecoder.Feed | src/cat_ascii.c:721-744 | in place: the run of the steps of all bytes |
| AsciiDecoder.AsciiDecoder.ClientBusy | src/cat_ascii.c:701-710 | finds whether the client has a partial frame or a live command |
| AsciiDecoder.AsciiDecoder.ClientDiscard | src/cat_ascii.c:712-719 | in place: the client's framer and commands are emptied |
| CatState.WithoutData | src/cat_state.c:73-84 | splitting a mode into base mode and data flag loses nothing |
| CatStateVfos.SlotsRefineVfos | src/cat_state.c:108-172 | once the selection is known, the two slots follow a machine of VFO A, VFO B and the selected VFO for ever |
| CatStateVfos.SelectingKeepsContents | src/cat_state.c:146-160 | any number of selections changes neither VFO's contents |
| CatStateVfos.FirstSelectionForgets | src/cat_state.c:146-160 | the first selection makes all earlier values invalid |
| CatStateVfos.TxFreqIsTheTxVfos | src/cat_state.c:181-192 | while split tells, transmit and receive frequency are those of the right VFOs |
| CatStateVfos.ModeReadsBack | src/cat_state.c:113-127 | a mode set reads back as itself, except exactly a base mode set again while its data flag is on |
| CatState.RadioState.Freq | src/cat_state.c:108-111 | in place: frequency of a slot |
| CatState.RadioState.Mode | src/cat_state.c:113-127 | in place: mode of a slot, and what becomes of its data flag |
| CatState.RadioState.Data | src/cat_state.c:129-132 | in place: data flag of a slot |
| CatState.RadioState.Select | src/cat_state.c:146-160 | in place: slots swap, or are forgotten on the first selection |
| CatState.RadioState.SwapVfos | src/cat_state.c:138-144 | in place: the slots are exchanged |
| CatState.RadioState.EqualizeVfos | src/cat_state.c:167-172 | in place: the other slot becomes the selected one |
| ArbiterSafety.ArbitrationIsSafe | src/cat_native.c:523-537 | in every reachable state the router's turn, hold and intercept are what the arbiter holds; no connector's data ever entered while another had the turn or an own query waited, and an own query only with no command pending, while nobody had the line or its holder had not sent |
| ArbiterSafety.TurnsCloseInTime | src/cat_native.c:614-634 | while the decoder stays, a turn closes only at a check, only when its client is not busy or after 500 ms without data or answer, with pending commands discarded exactly then; a check closes the turn of a client that is not busy, the timer exactly these |
| ArbiterSafety.WaitingIsBounded | src/mhrouter.c:1025-1044 | with n > 1 connectors that stay, one whose data keeps waiting has the line after at most n - 1 handovers, or n if the turn was still that of a removed one |
| ArbiterSafety.NextIsNearer | src/mhrouter.c:1025-1044 | the cyclic distance from the holder, there or removed, to a waiting connector strictly falls at every choice |
| ArbiterSafety.NextIsAnother | src/mhrouter.c:1025-1044 | the choice is a waiting connector other than the holder; there is none only if no other waits |
| ArbiterSafety.SenderHasTheTurn | src/cat_native.c:1287-1302 | while several connectors share the radio, whoever sends has the turn, its time starts, and its data is in the channel |
| ArbiterSafety.ClientsStayApart | src/cat_native.c:573-593 | one request for a number: connectors that are there keep theirs, no two have the same, a new one gets none only if nine others have theirs |
| ArbiterClients.ClientNumbersStay | src/cat_native.c:573-593 | in every reachable state no two client numbers belong to one connector, and from then on, over any run, a connector keeps its number for as long as it is there |
| ArbiterSafety.RadioDataIsConserved | src/cat_native.c:510-537 | over any run every radio byte is delivered to one destination or held, once and in order, at most 256 are held, and each connector's stream is a subsequence of the radio's made of whole segments |
| ArbiterRouting.FrameIsRouted | src/cat_native.c:1202-1284 | whatever frames a byte completes, collisions included, the held data goes as one segment where the last one says that is no own answer: to the connector that asked, to those that take unsolicited frames, nowhere for a lost command that is sent again, else to the turn's holder or all; nowhere if all are own answers; and without a frame it stays held, or goes to all when routing ends |
| ArbiterRouting.OwnQueryEnds | src/cat_native.c:692-701 | applications are held back until the own query is answered, timed out with no answer coming, or the decoder starts over |
| ArbiterRuns.RunOk | src/cat_native.c:598-701 | all of this is kept by every event, connectors coming and going included |
| LineArbiter.Router.NextWaitingProducer | src/mhrouter.c:1025-1044 | the scan finds the first waiting producer behind the holder, else the first before it |
| LineArbiter.Router.PassOut | src/mhrouter.c:1097-1112 | in place: exactly the consumers that take the data and have room for all of it get it |
| LineArbiter.Router.MayRead | src/mhrouter.c:147-150 | not held, and nobody or this producer has the turn |
| LineArbiter.CatNative.RouteFlush | src/cat_native.c:510-515 | in place: the held data goes to one destination |
| LineArbiter.CatNative.RouteStart | src/cat_native.c:523-529 | in place: radio data is intercepted from now on |
| LineArbiter.CatNative.RouteStop | src/cat_native.c:531-537 | in place: held data goes to all, then the router passes data on itself |
| LineArbiter.CatNative.RouteCheck | src/cat_native.c:540-561 | in place: routing ends when nothing needs it any more |
| LineArbiter.CatNative.ClientSlot | src/cat_native.c:573-593 | the scan finds the connector's slot, else a free one, else one of a removed connector |
| LineArbiter.CatNative.TurnGive | src/cat_native.c:598-608 | in place: the turn, here and in the router |
| LineArbiter.CatNative.TurnCheck | src/cat_native.c:614-634 | in place: a turn goes on, or over to the next |
| LineArbiter.CatNative.MultiUpdate | src/cat_native.c:643-686 | in place: taking turns and routing follow the connectors |
| LineArbiter.CatNative.OwnEnd | src/cat_native.c:692-701 | in place: the hold is released, and the time of a new turn starts |
| LineArbiter.CatNative.SetupDecoder | src/cat_native.c:704-833 | in place: a new decoder, with turns and routing reset |
| LineArbiter.CatNative.KeyerState | src/cat_native.c:1304-1320 | in place: the decoder starts over with the keyer |
| LineArbiter.CatNative.OnFrame | src/cat_native.c:1202-1232 | in place: destination of a frame, end of an own query |
| LineArbiter.CatNative.OwnTry | src/cat_native.c:1020-1139 | in place: an own query goes out only on a free line, with the applications held |
| LineArbiter.CatNative.OwnTimeout | src/cat_native.c:1077-1094 | in place: the hold ends unless an answer is coming in |
| LineArbiter.CatNative.CivAgain | src/cat_native.c:1162-1195 | in place: a lost command is sent once more, if line and protocol allow it |
| LineArbiter.CatNative.HostRead | src/cat_native.c:1287-1302 | in place: a connector's data is read, its turn starts |
| LineArbiter.CatNative.RadioByte | src/cat_native.c:1235-1284 | in place: a radio byte through router, routing, turn check and own query |
| LineArbiter.CatNative.Tick | src/cat_native.c:1141-1159 | in place: the periodic look |
| Ptt.PttIsTheUnionOfHolders | src/mhrouter.c:249-322 | over any run a PTT bit of the flags byte is set if and only if some producer holds that radio, nobody holds two radios or a radio that is not its channel's, no other flag is touched, and nothing is held while the keyer is gone |
| Ptt.KeyerFollowsHolders | src/mhrouter.c:937-964 | all along a run a keyer that is there has, once nothing waits for it, the PTT bits the producers hold, if and only if no change was refused for want of room or of a flags channel, no keyer came while a byte with a PTT bit waited, and no connector of the flags channel wrote other bits |
| Ptt.LatestArrives | src/mhrouter.c:503-546 | however the bytes are packed and written, none overtakes another, and the keyer ends up with the latest |
| Ptt.RepeatedStateResyncs | src/mhrouter.c:245-267 | a client that repeats its state brings keyer and producers together again from any state, if there is room |
| Ptt.OldByteKeysARadio | src/mhrouter.c:640-668 | PTT on that is queued when the keyer goes keys a radio nobody holds when the keyer is back |
| Ptt.RemovalReleasesItsShare | src/mhrouter.c:824-859 | removing a producer leaves exactly what the others hold |
| Ptt.LastByteDecides | src/mhrouter.c:269-322 | after any data the last valid byte decides: off leaves the producer nothing, on its channel's radio, or for the focus channel the one with the focus now; others hold what they held |
| Ptt.PttRouter.SendIn | src/mhrouter.c:937-964 | in place: a flags byte is queued, or refused without a flags channel, a keyer or room |
| Ptt.PttRouter.PushPtt | src/mhrouter.c:249-267 | in place: the union of all masks goes into the flags byte, and that is queued for the keyer |
| Ptt.PttRouter.KeyerOut | src/mhrouter.c:503-546 | in place: flags bytes are packed into frames and written, or the keyer is lost |
| Ptt.PttRouter.ProcessPtt | src/mhrouter.c:269-322 | in place: the last valid byte decides what a producer holds |
| Ptt.PttRouter.RemoveProducer | src/mhrouter.c:824-859 | in place: a producer goes, its share is released |
| Ptt.PttRouter.SetKeyerFd | src/mhrouter.c:629-668 | in place: nobody holds anything after the keyer is gone, and what was queued stays queued |
| Wire.SendFits | src/mux.c:19-98 | a call never sends more than there is room for |
| Wire.SendEnds | src/mux.c:19-98 | a call ends only with all inputs empty or less than 20 bytes free |
| Demux.FrameDecodes | src/demux.c:28-109 | a frame within the limit comes back whole, from any decoder state |
| Demux.FrameLost | src/demux.c:28-109 | a frame beyond the limit is lost, and disturbs nothing |
| WireRoundTrip.FiveFrameRoundTrip | src/mux.c:19-98 | a decoder with the limit at five frames gives back, for every slot, exactly the bytes that left its channel, in order |
| WireRoundTrip.FifthFrameIsUsed | src/mux.c:19-98 | a call stays within four frames if and only if it sends nothing, or R1 and R2 have at most four bytes and the second FSK channel none |
| WireRoundTrip.FourFrameDecoderIsComplete | src/demux.c:28-109 | the decoder of the source reports all that was sent if and only if that holds |
| WireRoundTrip.FourFrameRoundTrip | src/demux.c:28-109 | then it gives back every slot's bytes in order |
| WireRoundTrip.FiveBytesLoseOne | src/demux.c:45-51 | five bytes on R1 of which one is missed |
| WireCommand.CommandRoundTrip | src/mux.c:77-87 | one control command is reported exactly once with identical bytes, whatever the other channels carry and however the calls split it, and nothing before |
| WireMachine.MuxSequence | src/mux.c:27-91 | in place: one sequence, byte for byte, and the eight drained channels |
| WireMachine.Mux | src/mux.c:19-98 | in place: sequences until all is sent or the room is too small; terminates |
| WireMachine.Decoder.Demux | src/demux.c:28-109 | in place: one byte, and the channel it completes a byte or a command for |
| CommandQueueRuns.ExactlyOnce | src/mhcontrol.c:394-426 | over any run with answers, timeouts, send failures, disconnects and callbacks that submit again, each command is completed once, will be by one deferred callback, or is queued |
| CommandQueueRuns.OneInFlightInOrder | src/mhcontrol.c:1842-1917 | commands are sent and leave in submission order, a queue that is not empty has exactly its head in flight and the timer runs exactly then, and it never fires without a command |
| CommandQueueRuns.ResultsHaveCauses | src/mhcontrol.c:506-531 | over any run: Ok came with a reply of the command's first byte while it was in flight, NotSupported with the keyer's 7F then, TimedOut with the timer, Offline with the keyer's going; deferred ones are refusals only, errors or offline |
| CommandQueueRuns.StepResults | src/mhcontrol.c:264-281 | exactly which completions an event adds, and that a deferred callback gets the result it was deferred with |
| CommandControl.CommandControl.SubmitCmd | src/mhcontrol.c:1879-1917 | in place: refused commands complete later, others are queued and pushed |
| CommandControl.CommandControl.PushCmds | src/mhcontrol.c:1842-1868 | in place: the head is sent, heads that can not be sent are dropped |
| CommandControl.CommandControl.ControlChannel | src/mhcontrol.c:506-611 | in place: a reply completes the head, then the next command is pushed |
| CommandControl.CommandControl.CmdTimeout | src/mhcontrol.c:394-410 | in place: the head times out, the next is pushed |
| CommandControl.CommandControl.FlushCmds | src/mhcontrol.c:414-426 | in place: all commands complete, also those that callbacks submit meanwhile; terminates |
| CommandControl.CommandControl.Disconnected | src/mhcontrol.c:786-807 | in place: the queue is empty after the keyer is gone |
| CommandControl.CommandControl.HandleDeferred | src/mhcontrol.c:264-281 | in place: a deferred completion runs once |
| Vsp.HeldReadsKeepOrder | src/con_vsp.c:351-400 | over any run a held read has an empty buffer behind it and less than VMIN and its size owe it, and none is held with VMIN and VTIME 0; every answer pays what VMIN and VTIME owe, short or empty ones come from the timer; answers, held and buffered bytes are what arrived, in order, apart from flushes and interrupts |
| Vsp.ReadsWaitForWhatTheyAreOwed | src/con_vsp.c:768-847 | a read is held if and only if it may block and the buffer has less than VMIN and its size owe it; a read that may not block leaves an empty buffer's session alone |
| Vsp.DataAnswersWhenItPays | src/con_vsp.c:486-535 | data answers a held read if and only if it then has what is owed, the first byte with VMIN 0, and no byte is lost or reordered |
| Vsp.TimerFollowsData | src/con_vsp.c:363-376 | every byte restarts the interbyte timer, which starts with the read only if VMIN is 0 or data was there |
| Vsp.OnlyThrownOnPurpose | src/con_vsp.c:748-766 | without flush and interrupt nothing is thrown away |
| VspSession.VspSession.DvRead | src/con_vsp.c:768-847 | in place: a read is answered with what is there, told to try again, or held |
| VspSession.VspSession.DataIn | src/con_vsp.c:486-535 | in place: data is appended, and answers or feeds the held read |
| VspSession.VspSession.ReadTimer | src/con_vsp.c:389-400 | in place: the held read is answered with what it has |
| VspSession.VspSession.Interrupt | src/con_vsp.c:748-766 | in place: the held read is gone, with what was collected |
| Buffers.FirstInFirstOut | src/buffer.c:36-71 | what was read and what is left is what was accepted, in order |
| Buffers.Buffer.Consume | src/buffer.c:36-40 | in place: space is free again only when the buffer is empty |
| Buffers.Buffer.AppendAll | src/buffer.c:49-57 | in place: as much as fits is appended |
| Buffers.Buffer.AppendC | src/buffer.c:42-47 | in place: one byte, refused when full |
| Buffers.Buffer.GetC | src/buffer.c:63-71 | in place: the oldest byte, or none |

## Left out

- libev watchers, sockets, FUSE and tty calls, FIONREAD: steps of the model instead. The leaky bucket of src/mhrouter.c only delays reads and is not modelled.
- Statistics, the `changes` counter of the radio state, the CAT monitor and log output; histories in the model stand for the frame callback.
- Wrap-around of 64-bit millisecond times.
- cat_state is shared by pointer in the source; the decoders hold it as a value, and CatState.RadioState shows the setters in place.
- The receive and frame buffers of the decoders are sequences with proved bounds; the pending arrays are sequences that the methods shift as the source's memmove does.
- ibuf of mx_mux is an array of buffer values, so that the eight channels are not eight objects; the output buffer is an object.
- Setters of src/cat_state.c called with a slot number that does not exist.
- LineArbiter.CatNative.RadioByte: one radio byte a call, as keyer_in_cb makes it; the loop over longer data in catn_radio_cb is not modelled.
- The arbiter does not run the three decoders: which frames a byte completes and which clients are busy is any input, so its theorems hold for every decoder. Which own query is due, the query's bytes, and learning which queries the radio rejects are inputs too.
- Ptt.KeyerFollowsHolders: which bytes of the output buffer are flags frames is the matter of Wire; here whole frames are counted. A keyer is taken to drop PTT when it goes, and not to understand a frame whose first byte it missed.
- CivDiscards.DiscardedClientsCredit: speaks of the whole frames that may be seen next, not of the bytes they come in.
- LineArbiter.CatNative.TurnCheck: a discard is only noted. A discard that makes cat_ybin pass on a partial answer also sets the destination, the frame mark and the answered mark through the frame callback. This happens only in the turn timer (an answer still coming in at a radio byte keeps the turn, and one that ended was passed on before the check), and the next radio byte resets all three before they are read.
- ArbiterRouting.FrameIsRouted: a byte at which a change of the radio's configuration is noticed starts the decoder over, and is left to ArbiterSafety.RadioDataIsConserved.
- ArbiterSafety.WaitingIsBounded: counts handovers; that a turn ends at all is ArbiterSafety.TurnsCloseInTime.
- Initialisation, radio info, keyer mode policy and message layouts of src/mhcontrol.c: only the command queue. What else a message makes the program submit is any input.
- A NULL completion callback of a command: it counts as one that submits nothing.
- WireCommand.CommandRoundTrip: assumes that the control channel holds the bytes of one command and nothing else. The queue has one command in flight at a time, but after a timeout or a disconnect bytes of the one before may still lie in the channel.
- The PS2 and other device channels of src/demux.c beyond the shared bytes that are reported.
- Opening, closing and ioctl calls of src/con_vsp.c apart from flush and the VMIN/VTIME settings, and its writing side.
- src/mhsm.c, src/kcfg.c, rig type tables, HTTP, configuration, device and connector management.
