# Paracord client, verified

A Dafny model of the parts of the Paracord client whose correctness is not visible from reading one function: the
realtime connection protocol, the recovery phrase and text codecs, the markdown scanners, the replicas of server state,
and the audio pipeline. Run `dafny verify dfyconfig.toml`.

**Realtime protocol** (`Realtime*.dfy`, `ConnectionManager.dfy`). `RealtimeModel` is the realtime-v2 path of the
connection manager as a state machine: a state is what the manager, the browser and the servers hold between two steps,
and an event is one step (a call, a continuation, a stream or timer callback, a change outside). A run is any sequence
of events, so a statement about every run covers every interleaving. Coming back online is a turn of several steps:
`RealtimeOnline` takes events together into turns and states what holds at their ends. `ConnectionManagers` is the same
code as a class that updates its fields in place, each method proved to move the abstract state exactly as the state
machine says. `RealtimeLifecycle` shows that every live connection is a small machine that knows nothing of the others,
and `RealtimeHistory` reads a connection's record from the events of the run alone. The other files prove safety,
retries, liveness and its exact failures, and `RealtimeServer` puts the same client in front of the repository's own
server.

**Recovery phrase** (`RecoveryPhrase.dfy`, `JsBits.dfy`). The 24-word phrase with JavaScript's shift semantics. The code
departs from BIP-39: six of the 24 words are always word 0, so packing loses information; the theorems say exactly
which bits survive and when a key can be recovered.

**Text** (`CustomEmoji.dfy`, `InlineMarkdown.dfy`, `InlineGrammar.dfy`, `MarkdownLines.dfy`, `BlockMarkdown.dfy`,
`BlockGrammar.dfy`, `Utf8.dfy`, `Base64Url.dfy`, `PortableLinks.dfy`). Regular expressions are written out as scans with
their greedy, lazy and backtracking behaviour; the two grammars say in characters alone what is read, and the scans are
proved to read exactly that. `parseMarkdown` does not terminate on some inputs, among them any text that starts with a
heading and has Windows line ends; the theorem gives the exact set.

**Replicas** (`Reactions.dfy`, `MessageStore.dfy`, `MessageCards.dfy`, `Channels.dfy`, `ChannelStore.dfy`,
`ChannelCards.dfy`, `ChannelGroups.dfy`, `FetchGuards.dfy`). Reducers against sets, id lists, sorted lists and plain
tables of messages and channels, over any order of optimistic updates, replies, gateway events and late decryptions.

**Audio** (`NoiseGate.dfy`, `PcmCapture.dfy`, `StereoQueue.dfy`). A hysteresis gate with timing bounds, PCM decoding and
downmix, and a stereo queue that never swaps channels.

Where the code and its documentation or purpose disagree, the code is modelled and the difference is a theorem:

- the phrase is documented as BIP-39 and is not (`EncodeAgainstBip39`, `RoundTripIff`, `ImportOfStandardPhrase`);
- the resume cursor promises that nothing is missed, while the repository's own server replays nothing, loses what is
  queued when a stream ends and numbers every READY 1 (`ReceivesAllIff`, `CursorGoesBackIff`, `LogExplainsIff`,
  `ResumeFails`), and a stream that arrives while an older one of its session is there ends that one, whose clean-up ends
  the newer one in turn (`UnregisteredIff`, `ArrivalEndsBoth`);
- a heading prefix that is not a full heading hangs `parseMarkdown` (`HaltsIff`, `CarriageReturnHangs`);
- connecting again while a stream is opening leaves `connecting` set for good (`LosesItsWork`, `StaysAbandonedInRun`),
  and a connection can stay `connected` with nothing behind it, after the stream that covered it is gone or after its own
  was closed for want of a token (`BecomesSilentIff`, `StaysSilentInRun`, `SilentIsReachable`);
- the echo of an optimistic reaction is counted twice (`EchoOfAddCountsTwice`), a failed reaction on a message without
  reactions is not rolled back (`RollbackRestoresIff`), a rollback forgets what the gateway reported meanwhile
  (`RollbackRepresentsIff`), and a late decryption of an old version wins over the new one (`NewestShownIff`);
- a created channel is listed twice when its gateway event comes before the reply (`CreatedTwice`), and a failed reorder
  brings back channels that were deleted meanwhile (`FailedReorderRevivesIff`);
- the unwinding of an aborted channel fetch removes the guard of a newer one (`StaleFetchBreaksGuard`).

## Model

| member | source | states |
|---|---|---|
| RealtimeSafety.EveryRunKeeps | client/src/lib/connectionManager.ts:146-579 | the protocol invariant (map, pending requests, streams, timers, one busy connection per URL) holds after every run of every interleaving |
| RealtimeSafety.OneStreamPerServer | client/src/lib/connectionManager.ts:405-579 | in every run at most one unclosed EventSource exists per normalized URL, and it is the one a connection in the map holds |
| RealtimeSafety.OneBusyPerServer | client/src/lib/connectionManager.ts:441-464 | no two mapped connections to one URL are both connecting or streaming |
| RealtimeSafety.StaleIsInert | client/src/lib/connectionManager.ts:485-546 | a callback of a connection that is not in the map changes nothing but the set of pending requests |
| RealtimeSafety.StaleCallbacksAreInert | client/src/lib/connectionManager.ts:916-937 | the same over every run: after a disconnect no timer is left and pending requests and stream callbacks do nothing |
| RealtimeSafety.NeverOverwritten | client/src/lib/connectionManager.ts:146-261 | an entry of the map is never replaced by another object; only disconnectServer removes one |
| RealtimeSafety.RetiredForGood | client/src/lib/connectionManager.ts:916-937 | a connection taken out of the map never comes back and none of its fields changes again |
| RealtimeSafety.RetiredForGoodInRun | client/src/lib/connectionManager.ts:916-937 | the same after any number of further events |
| RealtimeResume.EveryRunResumes | client/src/lib/connectionManager.ts:490-543 | in every run each connection's handled payloads and each open stream match the server's log up to the cursor |
| RealtimeResume.CursorNeverGoesBack | client/src/lib/connectionManager.ts:490-532 | once set, the cursor never decreases and its first value is kept |
| RealtimeHistory.ExactlyOnce | client/src/lib/connectionManager.ts:487-566 | the payloads a connection handled are the log entries after the first cursor that a session answer gave it, or after the end of the log when the stream that brought the first of them was made, each once and in order up to its cursor, across any errors, RECONNECTs and INVALID_SESSIONs |
| RealtimeHistory.SessionThroughRun | client/src/lib/connectionManager.ts:487-489 | in every run a connection's session is that of the last answer or READY that named one, and none after an INVALID_SESSION |
| RealtimeHistory.TokenThroughRun | client/src/lib/connectionManager.ts:291-321 | in every run the token for a server, or the local one, is there iff the last event that says anything about it says so |
| RealtimeHistory.TasksIff | client/src/lib/connectionManager.ts:146-163 | a server is among those that are connecting from a call for it until its task settles, and waits for authentication iff the call found no connection and no token and can answer a challenge |
| RealtimeHistory.NormalizeIs | client/src/lib/connectionManager.ts:446-450 | normalizing a URL strips the slashes at its end, all of them and nothing else |
| RealtimeLifecycle.LifeRefines | client/src/lib/connectionManager.ts:405-579 | every event moves the stream, the flags, the retry and the session requests of a live connection as one small machine of five happenings says |
| RealtimeLifecycle.NewIsBorn | client/src/lib/connectionManager.ts:291-325 | every new connection comes from one of the three calls, stands for the server it was made for under the URL listed then, and is connecting iff its session request waits |
| RealtimeLifecycle.StreamPhase | client/src/lib/connectionManager.ts:509-523 | in every run whoever holds a stream is connecting iff the stream has not opened since it was made, and connected once it has |
| RealtimeLifecycle.ConnectingIff | client/src/lib/connectionManager.ts:411-484 | in every run a live connection without a stream is connecting iff its session request waits for the answer or a call once asked it to connect while its stream was opening |
| RealtimeServer.ClientAgrees | client/src/lib/connectionManager.ts:525-534 | the client put in front of the repository's own server is the one of the protocol: same cursor, history, session and stream after every payload |
| RealtimeServer.CompleteIffNothingLost | crates/paracord-core/src/events.rs:136-200 | what the client handled, followed by what is queued on its stream, is everything published iff no turn lost an event: published while its stream was not registered or its queue full, or still queued when its stream ended |
| RealtimeServer.ReceivesAllIff | crates/paracord-api/src/routes/realtime.rs:168-300 | so the client receives every event, in order, iff no turn lost one and nothing is still queued |
| RealtimeServer.CursorGoesBackIff | crates/paracord-api/src/routes/realtime.rs:115-201 | after any run a turn moves the client's cursor back, against CursorNeverGoesBack, iff it delivers a READY to a cursor past 1 |
| RealtimeServer.LogExplainsIff | crates/paracord-api/src/routes/realtime.rs:145-270 | after any run the handled payloads are a segment of some increasing log, as ExactlyOnce has it, iff there is at most one of them |
| RealtimeServer.ResumeFails | crates/paracord-api/src/routes/realtime.rs:115-293 | one run with all three failures: a reconnection after three payloads that no increasing log explains, with an event lost and the cursor about to go back from 2 to 1 |
| RealtimeServer.StreamSends | crates/paracord-api/src/routes/realtime.rs:186-290 | in every run a stream sends READY numbered 1 first and counts on from its cursor; what waits is the newest that was published to it; a RECONNECT is owed, and sent next, iff an event was lost since the last one; and as long as none was, what it sent and what waits is everything |
| RealtimeServer.UnregisteredIff | crates/paracord-core/src/events.rs:52-107 | in every run a stream that is there is unregistered iff, since it arrived, another request of its session arrived or another stream of it ended or was dropped |
| RealtimeServer.UnregisteredEndsIff | crates/paracord-api/src/routes/realtime.rs:199-291 | an unregistered stream is still there after any turns iff it was not dropped and was polled at most as often as it had payloads left: it sends what is queued, gets nothing more and ends |
| RealtimeServer.ArrivalEndsBoth | crates/paracord-api/src/routes/realtime.rs:137-183 | a stream that arrives while an older one of its session is there ends both: once the older one is polled past its queue it is gone and the newer one unregistered, and once that one is polled past its own the client has lost it, whatever else happens |
| RealtimeServer.DeafIsReachable | crates/paracord-api/src/routes/realtime.rs:137-143 | a run from the initial state, with a reconnection before the old stream is cleaned up, in which the client's stream is unregistered and two polls later gone |
| RealtimeServer.DeafGetsOnlyQueued | crates/paracord-core/src/events.rs:84-107 | however much is published, until such a stream ends the client gets exactly what was queued on it already |
| RealtimeLiveness.LosesItsWork | client/src/lib/connectionManager.ts:411-417 | a connecting connection loses the work behind it iff it is asked to connect again while its stream is opening |
| RealtimeLiveness.StaysAbandoned | client/src/lib/connectionManager.ts:432-435 | such a connection is changed by no event but its disconnection |
| RealtimeLiveness.StaysAbandonedInRun | client/src/lib/connectionManager.ts:432-435 | the same over every run without that disconnection |
| RealtimeLiveness.ReconnectWhileOpening | client/src/lib/connectionManager.ts:413-416 | connectServer between the session answer and onopen always leads there |
| RealtimeLiveness.AbandonedIsReachable | client/src/lib/connectionManager.ts:413-416 | a run from the initial state that abandons a connection |
| RealtimeRetry.EveryRunRetries | client/src/lib/connectionManager.ts:875-906 | in every run every pending timer waits for Backoff(attempts - 1) with attempts at least 1 and no stream held, and a stream is never held by a connection that is neither connecting nor connected |
| RealtimeRetry.AttemptsMove | client/src/lib/connectionManager.ts:509-566 | any event sets the attempt counter to 0 iff it is the stream's opening or READY, raises it by 1 iff it schedules a retry, and otherwise leaves it |
| RealtimeRetry.BackoffClosedForm | client/src/lib/connectionManager.ts:897-898 | the clamp of the exponent never matters: the delay is min(1000 * 2^(n-1), 30000) |
| RealtimeRetry.NthRetryWaits | client/src/lib/connectionManager.ts:875-906 | in every run the first retry since the connection last worked is immediate and the n-th after it waits min(1000 * 2^(n-1), 30000) ms |
| RealtimeOnline.StopsTryingIff | client/src/lib/connectionManager.ts:436-577 | an event makes a trying connection stop iff it disconnects it, fails it while offline with no retry pending, or is its retry and finds no token |
| RealtimeOnline.StartsTryingIff | client/src/lib/connectionManager.ts:255-261 | an event makes a live connection try that does not iff it asks it to connect and a token is there |
| RealtimeOnline.OfflineDropGivesUp | client/src/lib/connectionManager.ts:875-881 | a failure while offline with no retry pending leaves a live connection that does not try |
| RealtimeOnline.StaysGivenUp | client/src/lib/connectionManager.ts:875-881 | it stays so through every run that neither asks it to connect with a token nor disconnects its server |
| RealtimeOnline.OnlineRevives | client/src/lib/connectionManager.ts:57-60 | the turn in which the browser comes back online leaves every live listed connection with a token trying |
| RealtimeOnline.NoDeadEnd | client/src/lib/connectionManager.ts:57-60 | in every run of turns, offline spells included, in which one server's token is there whenever its connection is live, that connection is connected, connecting or waiting for a retry whenever it is live and the manager online, the local one from the moment the handler reaches it; other servers may lack their tokens |
| RealtimeOnline.NoDeadEnds | client/src/lib/connectionManager.ts:940-957 | so in a run that holds the token of every live connection no live connection is ever at a dead end while online |
| RealtimeOnline.TurnsAreRuns | client/src/lib/connectionManager.ts:940-957 | a run of turns is a run of events, so every other result applies to it |
| RealtimeOnline.AskedWorksIff | client/src/lib/connectionManager.ts:405-475 | connectServer on a live connection with a token starts a session request, or finds the connection covered, iff it was not already connecting |
| RealtimeCovered.BecomesSilentIff | client/src/lib/connectionManager.ts:411-464 | an event leaves a live connection `connected` with nothing behind it iff it asks it to connect, by a call or its own timer, while it is not connecting and has no other timer, and it is covered, or connected without a token |
| RealtimeCovered.MadeSilentIff | client/src/lib/connectionManager.ts:446-463 | a new connection is so from the start iff it has a token and is covered |
| RealtimeCovered.StaysSilentInRun | client/src/lib/connectionManager.ts:446-463 | it stays so through every run that does not ask it again or disconnect it, whatever becomes of the other connection |
| RealtimeCovered.SilentIsReachable | client/src/lib/connectionManager.ts:446-566 | a run from the initial state after which a connection is so and no stream is open anywhere |
| ConnectionManagers.ConnectionManager.ConnectRealtime | client/src/lib/connectionManager.ts:405-418 | the method in place takes the abstract state to the state machine's, new request and closed stream included |
| ConnectionManagers.ConnectionManager.ConnectRealtimeSse | client/src/lib/connectionManager.ts:427-484 | the guards, the covering scan and the request, against the state machine |
| ConnectionManagers.ConnectionManager.PostDone | client/src/lib/connectionManager.ts:485-578 | the continuation of the session request, against the state machine |
| ConnectionManagers.ConnectionManager.OnOpen | client/src/lib/connectionManager.ts:509-523 | the open callback, stale streams included |
| ConnectionManagers.ConnectionManager.OnMessage | client/src/lib/connectionManager.ts:525-543 | the message callback: cursor first, then the payload |
| ConnectionManagers.ConnectionManager.OnError | client/src/lib/connectionManager.ts:545-566 | the error callback |
| ConnectionManagers.ConnectionManager.HandlePayload | client/src/lib/connectionManager.ts:676-720 | READY, dispatch, RECONNECT and INVALID_SESSION on the stream path |
| ConnectionManagers.ConnectionManager.ReconnectGateway | client/src/lib/connectionManager.ts:875-906 | the retry guards, the attempt counter and the timer |
| ConnectionManagers.ConnectionManager.OnTimer | client/src/lib/connectionManager.ts:889-903 | the timer callback |
| ConnectionManagers.ConnectionManager.DisconnectServer | client/src/lib/connectionManager.ts:916-937 | everything is closed and cleared before the entry leaves the map |
| ConnectionManagers.ConnectionManager.ConnectServer | client/src/lib/connectionManager.ts:146-163 | the in-flight guard and the three ways to connect, against the state machine |
| ConnectionManagers.ConnectionManager.AuthSucceeded | client/src/lib/connectionManager.ts:291-325 | what follows a successful authentication: the token is stored and a new connection registered and connected |
| ConnectionManagers.ConnectionManager.ConnectLocal | client/src/lib/connectionManager.ts:165-253 | the local connection, against the state machine |
| ConnectionManagers.ConnectionManager.HandleOnline | client/src/lib/connectionManager.ts:57-60 | the online handler up to its first await is one turn of the model: every listed server is asked in order |
| RecoveryPhrase.WordBits | client/src/lib/account.ts:267-276 | word i holds bits 11i..11i+10 of the stream, except that a window over three bytes reads 0 |
| RecoveryPhrase.EncodeAgainstBip39 | client/src/lib/account.ts:257-278 | the words are BIP-39's, except words 2, 5, 10, 13, 18 and 21, which are 0 |
| RecoveryPhrase.RoundTripBit | client/src/lib/account.ts:308-325 | decoding an encoded stream keeps every bit outside those six windows and clears every bit inside |
| RecoveryPhrase.RoundTripIff | client/src/lib/account.ts:257-325 | packing inverts iff those six windows are zero |
| RecoveryPhrase.ImportOfStandardPhrase | client/src/lib/account.ts:308-325 | a standard phrase is read with bytes 3, 7, 14, 18, 25 and 29 cleared and the others right |
| RecoveryPhrase.StandardRoundTrip | client/src/lib/account.ts:257-278 | reading whole windows, as BIP-39 asks, loses nothing |
| RecoveryPhrase.StandardRoundTripBack | client/src/lib/account.ts:308-325 | and is onto: every 24 indices come from their bytes |
| RecoveryPhrase.LastByteKept | client/src/lib/account.ts:258-263 | the checksum byte always survives |
| RecoveryPhrase.GenerateRecoveryPhrase | client/src/lib/account.ts:249-281 | the loop computes the words of the key, and each error case |
| RecoveryPhrase.Unpack | client/src/lib/account.ts:308-325 | the in-place loop over the byte array computes the decoded bytes |
| RecoveryPhrase.RecoverKey | client/src/lib/account.ts:283-341 | splitting, lookup, unpacking and both checksums, and each error case |
| RecoveryPhrase.SplitJoin | client/src/lib/account.ts:293-293 | splitting joined words gives the words back |
| RecoveryPhrase.RecoverGenerated | client/src/lib/account.ts:257-341 | what recovering one's own phrase gives: the key with the windows cleared, if its checksum agrees |
| RecoveryPhrase.KeyRecoveredIff | client/src/lib/account.ts:257-341 | a key is recovered from its phrase iff its six windows are zero |
| RecoveryPhrase.RecoveredMeans | client/src/lib/account.ts:283-341 | for every phrase: the word count, the first unknown word, or the decoded key iff its last byte is the hash of the others or has their older checksum |
| RecoveryPhrase.LegacyBit | client/src/lib/account.ts:333-336 | a bit of the older checksum is set iff an odd number of key bytes have it |
| RecoveryPhrase.LookupMeans | client/src/lib/account.ts:299-306 | every word is found at its first place in the list, or the first that the list does not have is reported |
| RecoveryPhrase.SplitSpaced | client/src/lib/account.ts:293-293 | however the words are set apart by white space, they are split again |
| RecoveryPhrase.SpacedRecovers | client/src/lib/account.ts:293-296 | white space around and between the words, and the case of letters, make no difference |
| CustomEmoji.ExecSound | client/src/lib/customEmoji.ts:3-3 | what the scan accepts is a token in the sense of the pattern |
| CustomEmoji.ExecComplete | client/src/lib/customEmoji.ts:3-3 | and every such token is accepted with its name, id and flag |
| CustomEmoji.ParseFormat | client/src/lib/customEmoji.ts:16-34 | parsing a formatted emoji gives the sanitized name, id and flag iff the id is all digits, and nothing otherwise |
| CustomEmoji.FormatParse | client/src/lib/customEmoji.ts:16-34 | formatting what was parsed reproduces the token |
| CustomEmoji.NameCharIff | client/src/lib/customEmoji.ts:3-3 | the class of the pattern has exactly the 63 letters, digits and underscore |
| CustomEmoji.SafeNameIs | client/src/lib/customEmoji.ts:28-28 | a name keeps its letters, digits and underscores, has an underscore for every other character and is cut after 32; a blank one is "emoji" |
| JsText.TrimIs | client/src/lib/customEmoji.ts:17-17 | trimming takes white space off both ends, and all of it |
| JsText.IsSpaceIff | client/src/lib/markdown.ts:110-110 | white space is the 25 code points of ECMAScript |
| InlineMarkdown.FirstTokenPrefix | client/src/lib/markdown.ts:31-134 | whatever branch is taken, the token's source is a non-empty prefix of what remained |
| InlineMarkdown.TokenizeInline | client/src/lib/markdown.ts:27-137 | the loop ends for every string and returns the tokens of the specification |
| InlineMarkdown.Lossless | client/src/lib/markdown.ts:27-137 | the tokens with their delimiters put back, concatenated, are the text, for every string |
| InlineMarkdown.Pair | client/src/lib/markdown.ts:75-101 | the doubled-mark branches take the shortest content and miss only when there is none |
| InlineMarkdown.Stable | client/src/lib/markdown.ts:31-134 | the source of any token, tokenized alone, is that token again: no branch steals another's text |
| InlineMarkdown.FormattedEmojiIsOneToken | client/src/lib/markdown.ts:31-48 | a formatted emoji at the front of any text is exactly one custom emoji token |
| InlineGrammar.BranchIff | client/src/lib/markdown.ts:31-122 | every branch reads a token iff the text begins with what stands for it in characters: emoji, code block, code, spoiler, the four doubled marks, the two italics, link and break |
| InlineGrammar.FirstTokenIff | client/src/lib/markdown.ts:31-133 | one turn pushes the token of the first kind that reads one, and plain text up to the next place where one may begin when none does |
| InlineGrammar.TokenizeIff | client/src/lib/markdown.ts:27-137 | the tokens of a text are its only reading from front to back in that sense |
| MarkdownLines.KindIffTest | client/src/lib/markdown.ts:251-269 | no line passes two tests, so each test alone decides the kind of a line and their order does not matter |
| MarkdownLines.StuckIff | client/src/lib/markdown.ts:255-304 | exactly which heading prefixes are not headings |
| MarkdownLines.ReadHeading | client/src/lib/markdown.ts:304-307 | marks, white space and text are read back as level and text |
| MarkdownLines.ReadBullet | client/src/lib/markdown.ts:263-361 | an indented bullet is recognised and stripped to its text |
| MarkdownLines.ReadNumber | client/src/lib/markdown.ts:267-390 | an indented number is recognised and stripped to its text |
| BlockGrammar.FenceIff | client/src/lib/markdown.ts:286-288 | a line opens a code block in a language iff it is three backquotes, the language and white space |
| BlockGrammar.FenceEndIff | client/src/lib/markdown.ts:291-291 | a line closes one iff it is three backquotes and white space |
| BlockGrammar.HeadingIff | client/src/lib/markdown.ts:304-307 | a heading of a level and text is the marks, white space and the text, which begins with white space only if it is one character |
| BlockGrammar.HeadingStartIff | client/src/lib/markdown.ts:255-257 | a line stops a paragraph as a heading iff it begins with one to three marks and white space |
| BlockGrammar.QuoteIff | client/src/lib/markdown.ts:259-331 | a quote is the mark, at most one character of white space and the rest |
| BlockGrammar.BulletIff | client/src/lib/markdown.ts:263-361 | a list item is white space, one of two marks, white space and the rest |
| BlockGrammar.NumberIff | client/src/lib/markdown.ts:267-390 | a numbered item is white space, digits, a full stop, white space and the rest |
| BlockMarkdown.JoinSplit | client/src/lib/markdown.ts:274-274 | splitting into lines loses nothing |
| BlockMarkdown.NextMoves | client/src/lib/markdown.ts:278-444 | a turn leaves the index where it was iff its line is a heading prefix but no heading |
| BlockMarkdown.HaltsIff | client/src/lib/markdown.ts:278-444 | the loop ends iff no line outside code fences, found by an independent one-pass scan, is such a line |
| BlockMarkdown.CarriageReturnHangs | client/src/lib/markdown.ts:255-304 | every text that starts with a heading and has Windows line ends hangs |
| BlockGrammar.EndsIff | client/src/lib/markdown.ts:278-444 | the loop ends iff every line outside fenced blocks that begins as a heading is one, in characters alone |
| BlockMarkdown.TurnDescribed | client/src/lib/markdown.ts:281-443 | a turn that advances pushes a block whose content is exactly that of the lines it passed, taken as far as the line tests allow |
| BlockMarkdown.ParseMarkdown | client/src/lib/markdown.ts:271-447 | it returns iff no line is stuck, and then its blocks partition the lines in order, each describing its own |
| BlockMarkdown.OnlyPartition | client/src/lib/markdown.ts:278-444 | there is at most one way to cut the lines into described blocks, so the one returned is the only one |
| BlockGrammar.DescribesIff | client/src/lib/markdown.ts:281-443 | a block describes lines iff it stands on them in characters alone, so what is returned is the one sequence of blocks that stand on the lines |
| BlockGrammar.FencedThenRest | client/src/lib/markdown.ts:286-302 | an opening fence, lines that close nothing, a bare fence and any further text parse as that code block followed by what the further text parses as, and return for the same texts |
| BlockMarkdown.TakeLines | client/src/lib/markdown.ts:328-425 | the quote, list and paragraph loops take the maximal run and strip each line |
| BlockMarkdown.TakeCode | client/src/lib/markdown.ts:290-295 | the code loop takes the lines up to the first closing fence |
| Reactions.HandleRefinesIff | client/src/stores/messageStore.ts:475-527 | a gateway reaction event keeps the list equal to the sets of users iff it changes a set, or removes where there is nothing |
| Reactions.GatewayRefinesSets | client/src/stores/messageStore.ts:475-527 | after any run of effective events emojis are distinct, counts are set sizes, `me` is membership, and entries are the non-empty sets |
| Reactions.OwnAddRefines | client/src/stores/messageStore.ts:386-405 | the optimistic add agrees with the sets |
| Reactions.OwnRemoveRefinesIff | client/src/stores/messageStore.ts:432-450 | the optimistic removal agrees iff the user had reacted or nobody had |
| Reactions.EchoOfAddCountsTwice | client/src/stores/messageStore.ts:382-499 | the gateway's echo of an optimistic add always leaves a count one too high |
| Reactions.EchoOfRemoveHarmlessIff | client/src/stores/messageStore.ts:428-527 | the echo of an optimistic removal is harmless iff nobody else had chosen the emoji |
| Reactions.OldListRepresentsIff | client/src/stores/messageStore.ts:475-527 | a list represents the server's sets before and after a run of effective events iff the run adds each emoji as often as it removes it, over all users and for this one |
| Reactions.RepresentsBothIff | client/src/stores/messageStore.ts:475-527 | a list that represents some sets represents others iff all sizes and the user's own memberships are the same |
| MessageStore.ListRefines | client/src/stores/messageStore.ts:211-644 | every reducer moves the ids of a channel as a list of ids alone does |
| MessageStore.StepDistinctIff | client/src/stores/messageStore.ts:211-644 | an event keeps ids unique iff its page is distinct and new, or its edit reply carries its own id |
| MessageStore.RunKeepsUnique | client/src/stores/messageStore.ts:211-644 | ids stay unique in every channel under any interleaving of fitting events |
| MessageStore.ShownIff | client/src/stores/messageStore.ts:283-644 | after any run an id is shown iff the last event that says anything about it says so; late decryptions say nothing |
| MessageStore.NothingLeftDecrypting | client/src/stores/messageStore.ts:544-621 | once every decryption has come back no message is marked as decrypting |
| MessageStore.ContentThroughRun | client/src/stores/messageStore.ts:303-621 | through any run that leaves a message in place its content is what the last update, decryption or edit reply for it wrote |
| MessageStore.NewestShownIff | client/src/stores/messageStore.ts:563-620 | so the newest version is shown iff that last write is its own, where the encrypted payload tells versions apart |
| MessageStore.LastDecryptionWins | client/src/stores/messageStore.ts:563-620 | the instance of one creation and one update with nothing in between: for both orders of the two decryptions, what the channel then lists |
| MessageCards.CardRefines | client/src/stores/messageStore.ts:211-644 | every fitting event makes of the message under an id what a plain table of messages says, field by field |
| MessageCards.CardsThroughRun | client/src/stores/messageStore.ts:211-644 | so after any fitting run a channel shows under every id the message of the table |
| MessageCards.TableIsList | client/src/stores/messageStore.ts:211-644 | and a list holds nothing but its ids in order and the message of each |
| MessageCards.ArrivalAppends | client/src/stores/messageStore.ts:544-562 | a new message is appended as it is, and with empty content while it is encrypted |
| MessageCards.ContentFromArrival | client/src/stores/messageStore.ts:544-621 | from its arrival on a message left in place shows what its last update, decryption or edit reply wrote, or what it arrived with |
| MessageCards.PendingIs | client/src/stores/messageStore.ts:563-620 | every arrival and update of an encrypted message starts one decryption, shown or not, and each ends once |
| MessageCards.MarkIff | client/src/stores/messageStore.ts:556-620 | after any run a message is marked as decrypting iff the last event that speaks of the mark says so |
| MessageCards.PinsThroughRun | client/src/stores/messageStore.ts:334-379 | after any run the pins hold under every id what the last page of pins, or a later removal, says |
| MessageStore.ReactionsThroughRun | client/src/stores/messageStore.ts:475-644 | through any run that spares a message its reactions are what its own reaction events make of them |
| MessageStore.ShownReactionsRefineSets | client/src/stores/messageStore.ts:475-644 | so they show the server's sets when each of those events changed one |
| MessageStore.RollbackRestoresIff | client/src/stores/messageStore.ts:382-473 | a failed reaction restores the list iff the message is absent or had reactions |
| MessageStore.RollbackRepresentsIff | client/src/stores/messageStore.ts:408-423 | after any run that keeps the message, a rollback to an earlier list leaves it representing the server's sets iff the reactions in between left every size and the user's own memberships as they were; when each changed the sets, iff they add each emoji as often as they remove it, over all users and for this one |
| Channels.IsSortIff | client/src/stores/channelStore.ts:100-100 | the sort by position is the one sequence that is sorted and keeps the order at every position |
| Channels.UniqueIff | client/src/stores/channelStore.ts:213-223 | ids are unique iff none is counted twice, whatever the order |
| ChannelStore.UpdateLastMessageId | client/src/stores/channelStore.ts:248-266 | the loop with its `found` flag computes the reducer |
| ChannelStore.StepAgreesIff | client/src/stores/channelStore.ts:100-266 | every reducer keeps the flat list equal to the selected guild's, except setChannels with another list |
| ChannelStore.RunAgrees | client/src/stores/channelStore.ts:100-266 | so it does in every run without setChannels |
| ChannelStore.StepUniqueIff | client/src/stores/channelStore.ts:100-266 | an event keeps a guild's ids unique iff it brings no repeated id, created duplicate or foreign update |
| ChannelStore.RunUnique | client/src/stores/channelStore.ts:100-266 | no guild lists a channel twice in any run of such events, rollbacks included |
| ChannelStore.CreatedTwice | client/src/stores/channelStore.ts:139-223 | gateway event then reply lists a created channel twice, reply then gateway event once |
| ChannelStore.StepSortedIff | client/src/stores/channelStore.ts:100-266 | a sorted list stays sorted iff an update reply keeps its channel between its neighbours, or the direct messages come sorted |
| ChannelStore.ListedIff | client/src/stores/channelStore.ts:100-266 | after any run a guild lists a channel iff the last event that says anything about it says so |
| ChannelStore.RunSorted | client/src/stores/channelStore.ts:100-266 | guild lists are sorted in every run without update replies, rollbacks included |
| ChannelStore.ReorderKeepsIds | client/src/stores/channelStore.ts:176-197 | a reorder keeps the ids as a multiset |
| ChannelStore.FailedReorderRestores | client/src/stores/channelStore.ts:176-211 | a failed reorder with nothing in between restores every list and what is shown |
| ChannelStore.FailedReorderRevivesIff | client/src/stores/channelStore.ts:176-211 | a failed reorder brings a channel back iff it was listed when the reorder began and is gone by the last word since, and drops one iff it was not listed then and has been added since |
| ChannelCards.CardRefines | client/src/stores/channelStore.ts:100-266 | every fitting event makes of the channel under an id what a plain table of channels says, field by field |
| ChannelCards.CardsThroughRun | client/src/stores/channelStore.ts:100-266 | so after any fitting run a guild holds under every id the channel of the table |
| ChannelCards.PatchForIff | client/src/stores/channelStore.ts:183-186 | of several patches for one channel the last counts |
| ChannelCards.AddedLast | client/src/stores/channelStore.ts:213-223 | an added channel comes after those at its position and moves none |
| ChannelCards.FetchedOrder | client/src/stores/channelStore.ts:100-100 | channels of a fetched list keep its order at every position |
| ChannelCards.ReorderedOrder | client/src/stores/channelStore.ts:180-196 | a reorder keeps the order of the channels that end at one position |
| ChannelCards.FlatUnselected | client/src/stores/channelStore.ts:126-172 | while no guild is selected the flat list is what was set last, less what was deleted since |
| ChannelGroups.BuildChannelGroups | client/src/lib/channelGroups.ts:28-36 | the loops compute the groups of the specification |
| ChannelGroups.BuildVirtualGroups | client/src/lib/channelGroups.ts:38-78 | text and voice groups without categories |
| ChannelGroups.BuildRealGroups | client/src/lib/channelGroups.ts:80-127 | the map of categories, the dealing loop and the collection |
| ChannelGroups.GroupsPartition | client/src/lib/channelGroups.ts:28-127 | with unique ids every channel that is no category is in exactly one group, and no category in any |
| ChannelGroups.HomeIff | client/src/lib/channelGroups.ts:104-111 | a channel is in a category's group iff that category is its parent, and uncategorized iff none is |
| ChannelGroups.VirtualHomeIff | client/src/lib/channelGroups.ts:38-78 | without categories a channel is in the voice group iff it is a voice channel |
| ChannelGroups.VirtualGroupsAre | client/src/lib/channelGroups.ts:57-78 | the text group comes first and the voice group after it, under their names, each iff it has a channel |
| ChannelGroups.GroupsSorted | client/src/lib/channelGroups.ts:113-126 | every group is sorted by position |
| ChannelGroups.FrontIs | client/src/lib/channelGroups.ts:113-118 | the uncategorized group is there iff some channel has no category |
| ChannelGroups.GroupsFollowCategories | client/src/lib/channelGroups.ts:83-126 | it comes first, then one group per category, empty or not, in the stable order of the categories' positions |
| FetchGuards.AbortLoop | client/src/stores/messageStore.ts:214-220 | the loop aborts and forgets every controller but the channel's own |
| FetchGuards.MessageFetchesExclusive | client/src/stores/messageStore.ts:211-281 | in every run of the message store at most one fetch of a channel is under way and at most one is live |
| FetchGuards.MessageLiveIff | client/src/stores/messageStore.ts:211-281 | a fetch of the message store begins iff none of its channel is under way, is under way until it ends, and live until then unless its channel is cancelled or the fetch of another channel begins |
| FetchGuards.ChannelStepIff | client/src/stores/channelStore.ts:62-124 | an event keeps the channel store's guard, controllers and live fetches in step iff it does not begin a fetch of a guild whose aborted one is still unwinding |
| FetchGuards.CleanFetchesExclusive | client/src/stores/channelStore.ts:62-124 | in the channel store at most one fetch is live while no guild is fetched again before its aborted fetch has unwound |
| FetchGuards.GuildLiveIff | client/src/stores/channelStore.ts:62-124 | in clean runs of the channel store a fetch begins iff no live one of its guild is under way, and is live until it ends or a fetch of another guild is asked for |
| FetchGuards.StaleFetchBreaksGuard | client/src/stores/channelStore.ts:62-124 | otherwise two live fetches of one guild follow, one of which nothing can abort |
| FetchGuards.StaleIsReachable | client/src/stores/channelStore.ts:62-72 | opening one guild and then another reaches that state |
| NoiseGates.NoiseGateProcessor.Measure | client/src/lib/noiseGate.ts:125-132 | the scan finds the peak and its level |
| NoiseGates.NoiseGateProcessor.Tick | client/src/lib/noiseGate.ts:117-186 | the method moves the gate as the step function says |
| NoiseGates.RunKeepsGain | client/src/lib/noiseGate.ts:134-188 | in every run the gain is between the floor and 1, and at the floor when closed |
| NoiseGates.GainFallsOnlyAfterHold | client/src/lib/noiseGate.ts:147-188 | a tick lowers the gain only after a span of at least the hold time that began below the close threshold and stayed below the open threshold |
| NoiseGates.BandMovesNothing | client/src/lib/noiseGate.ts:138-158 | a level between the thresholds never moves an open or a closed gate |
| NoiseGates.OpenIff | client/src/lib/noiseGate.ts:137-177 | in every run the gate is open iff some tick was loud and none since was below the close threshold |
| NoiseGates.HoldIff | client/src/lib/noiseGate.ts:147-167 | it holds iff it was open when a tick fell below the close threshold and since then nothing was loud and less than the hold time has passed |
| NoiseGates.OpeningTakes | client/src/lib/noiseGate.ts:138-158 | a closed gate opens at the first loud tick, and from the tick before it its gain is on the attack's line |
| NoiseGates.GainMovesOnly | client/src/lib/noiseGate.ts:137-187 | the gain rises only while the gate is open or opens and falls only while it closes and hears nothing loud |
| NoiseGates.TenTimesIsTwentyDecibels | client/src/lib/noiseGate.ts:125-132 | ten times the amplitude is 20 dB more, and full scale is at 0 dB |
| NoiseGates.SilentLevel | client/src/lib/noiseGate.ts:125-132 | silence is at -100 dB |
| NoiseGates.ReleaseTakes | client/src/lib/noiseGate.ts:170-187 | a quiet closing gate is at the floor from exactly releaseMs * (gain - floor) on, and on the line before |
| NoiseGates.AttackTakes | client/src/lib/noiseGate.ts:147-152 | an open gate's gain is min(gain + elapsed / attackMs, 1) |
| NoiseGates.SilenceCloses | client/src/lib/noiseGate.ts:147-188 | from any open gate silence reaches the floor within holdMs, the full release and two ticks |
| PcmCapture.Signed24Is | client/src-tauri/src/audio_capture.rs:598-609 | the shifts, masks and sign extension are three-byte two's complement |
| PcmCapture.Decode16Encode | client/src-tauri/src/audio_capture.rs:593-597 | 16-bit samples decode to v / 32768 in [-1, 1) wherever they stand |
| PcmCapture.Decode24Encode | client/src-tauri/src/audio_capture.rs:598-609 | 24-bit samples decode to v / 8388608 in [-1, 1) wherever they stand |
| PcmCapture.Encode16Decode | client/src-tauri/src/audio_capture.rs:593-597 | no two 16-bit patterns decode alike |
| PcmCapture.Encode24Decode | client/src-tauri/src/audio_capture.rs:598-609 | no two 24-bit patterns decode alike |
| PcmCapture.InBounds | client/src-tauri/src/audio_capture.rs:617-697 | every read of every whole frame is within the data |
| PcmCapture.FramesAreAll | client/src-tauri/src/audio_capture.rs:622-626 | every frame that is whole is taken |
| PcmCapture.InterleavedAt | client/src-tauri/src/audio_capture.rs:630-652 | the sample of a channel in a frame is the one that stands there, the channels of a frame and the frames one after the other |
| PcmCapture.InterleavedToStereo | client/src-tauri/src/audio_capture.rs:617-675 | two samples per whole frame, for every data length, channel count and width: the averages of even and odd channels |
| PcmCapture.InterleavedToMono | client/src-tauri/src/audio_capture.rs:680-697 | one sample per whole frame: the average of all channels |
| PcmCapture.MonoIsWeighted | client/src-tauri/src/audio_capture.rs:640-697 | N * mono = left * number of even channels + right * number of odd channels |
| PcmCapture.SideIsAverage | client/src-tauri/src/audio_capture.rs:640-670 | the left sample is the average of channels 0, 2, 4 and so on, the right one of channels 1, 3, 5 and so on, and a single channel is both |
| PcmCapture.StereoInRange | client/src-tauri/src/audio_capture.rs:617-675 | integer PCM of any shape stays in [-1, 1) through the downmix |
| StereoQueue.SystemAudioProcessor.Push | client/src/lib/systemAudioWorklet.ts:6-10 | a message appends its samples |
| StereoQueue.SystemAudioProcessor.Process | client/src/lib/systemAudioWorklet.ts:12-36 | a block takes as many pairs as it can, writes them to the two outputs in place and leaves the rest of both alone |
| StereoQueue.Conservation | client/src/lib/systemAudioWorklet.ts:3-37 | under any interleaving the emitted pairs followed by the buffer are the pushed stream |
| StereoQueue.ChannelsNeverSwap | client/src/lib/systemAudioWorklet.ts:12-36 | the k-th pair is always samples 2k and 2k+1 of the stream |
| StereoQueue.ProcessTakesAllItCan | client/src/lib/systemAudioWorklet.ts:17-34 | after a call either the block was filled or less than a pair is left |
| Utf8.DecodeEncode | client/src/lib/portableLinks.ts:7-20 | decoding UTF-8 of a text gives it back without a leading byte order mark |
| Utf8.StartsWithMark | client/src/lib/portableLinks.ts:7-20 | the bytes start with the mark iff the text does |
| Utf8.EncodeIff | client/src/lib/portableLinks.ts:7-7 | a character's bytes are the one well-formed sequence of the shortest length that makes its code point |
| Utf8.DecodeCharIs | client/src/lib/portableLinks.ts:20-20 | reading goes by characters, and where there is none takes the longest beginning of one, or one byte, for a replacement character |
| Base64Url.RoundTrip | client/src/lib/portableLinks.ts:5-21 | every byte sequence survives: the stripped padding is restored exactly |
| Base64Url.EncodeShape | client/src/lib/portableLinks.ts:5-10 | ceil(4n/3) characters of the URL alphabet and no padding |
| Base64Url.UrlDigitIff | client/src/lib/portableLinks.ts:46-46 | the alphabet of a token is the 64 letters, digits, minus and underscore |
| Base64Url.EncodeAt | client/src/lib/portableLinks.ts:5-10 | the k-th character is the digit of the URL alphabet for the k-th six bits |
| Base64Url.DecodeIff | client/src/lib/portableLinks.ts:12-20 | a token of the alphabet decodes iff it does not end in a lone digit, and its bytes are the bits of its digits |
| PortableLinks.DecodeText | client/src/lib/portableLinks.ts:12-20 | the padding loop and the byte loop, in place |
| PortableLinks.DecodePortableLink | client/src/lib/portableLinks.ts:27-37 | prefix, decoding and the last separator, and both errors |
| PortableLinks.DecodeMeans | client/src/lib/portableLinks.ts:27-37 | for every token, with the prefix or without: the two errors, and the link whose URL and code stand around the last separator of its text |
| PortableLinks.RoundTripIff | client/src/lib/portableLinks.ts:22-37 | a link survives iff its code has no separator and its URL does not start with a byte order mark |
| PortableLinks.NeverPrefixed | client/src/lib/portableLinks.ts:22-28 | an encoded token never begins with the invite prefix |
| PortableLinks.UriMeansTheSame | client/src/lib/portableLinks.ts:27-55 | the URI form decodes to the same link |
| PortableLinks.UriIsPortable | client/src/lib/portableLinks.ts:39-55 | every URI is recognised |
| PortableLinks.TokenIsPortableIff | client/src/lib/portableLinks.ts:39-51 | a bare token is recognised iff both parts are there and the link has six bytes or more |
| PortableLinks.PortableIff | client/src/lib/portableLinks.ts:39-51 | an input is recognised iff, trimmed, it has the prefix or is eight characters or more of the alphabet that stand for a link with both parts |

## Left out

- The legacy WebSocket gateway, heartbeats, inflate, pendingMessages and the diagnostics of the connection manager.
- The status bar and its recovery timer. Of connectAll, what follows its first await (the local connection, and the disconnection of what is no longer listed) and its other callers are modelled as the single connect and disconnect events they issue; the disconnections that an online turn with an empty list and no token makes at once are such events too.
- RealtimeServer.CompleteIffNothingLost: one user and one client; a payload that the server sends on a stream, and the end of a stream, reach the client at once, guild membership is not modelled, so every publish is meant for the user, and the sequence number does not saturate.
- Malformed stream payloads, which the code ignores, and op 10, which belongs to the WebSocket path.
- The server behind ExactlyOnce is assumed to send its log strictly after the supplied cursor; RealtimeServer says where that fails for the repository's own.
- SHA-256, scrypt, Ed25519 and encryption: the checksum byte is a function of the key, toLowerCase and the word list are parameters, the list having 2048 distinct words without white space.
- Strings are sequences of Unicode scalar values: lone surrogates cannot occur, and the length of a string counts characters and not UTF-16 units.
- The stores replace their state with each `set`, so their reducers are functions on values; only updateLastMessageId, the grouping and the abort loop, which the source writes as loops, are methods.
- React elements, styling, hrefs and stripMarkdown; a code token without a language and one with an empty language are the same here.
- Message fields that no modelled operation reads (author, attachments, poll), poll updates, and the texts of errors and toasts.
- The retry loops of the two fetches, their delays and time-outs; a page event is the successful end of a fetch.
- normalizeChannel's defaults for fields the model has not (role ids, thread data, creation time), and guildChannelsLoaded and isLoading.
- Positions are integers; a comparator that returns NaN is not modelled.
- NoiseGates.NoiseGateProcessor.Tick: attackMs and releaseMs must be positive, the thresholds ordered and the floor between 0 and 1, as the configuration's comments say; gains and times are real numbers, log10 is a parameter, and the Web Audio graph is left out.
- PcmCapture.InterleavedToMono: sums are not rounded to f32, the meaning of four float bytes is a parameter, NaN and infinities do not occur, and channels * width does not overflow.
- StereoQueue.SystemAudioProcessor.Process: the two output channels have the same length, as the audio worklet guarantees; calls without two outputs do nothing and are not events.
- Interfaces to WASAPI, PulseAudio and Tauri, REST wrappers, the remaining stores and the Rust server apart from its event stream.
