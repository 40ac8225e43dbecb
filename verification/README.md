# decent-share model

`decent-share` lets peers swap files one for one. A peer is two tasks: the main task, which handles one
typed line or one network event at a time through a `Client`, and the event loop, which owns the tables of
offers and of parked reply senders and reacts to commands and to what libp2p reports. This project models
both tasks, any number of such peers over a lossy request-response network, the DHT-backed username
directory with its cache, and the command line, and proves what the parts promise together.

## How it is organised

| file | content |
|---|---|
| `Protocol.dfy` | wire messages, commands, events, effects |
| `Handlers.dfy` | for every handler of one event loop, the *turn* it takes: new tables and ordered effects |
| `EventLoop.dfy` | the event loop as a class updated in place; every method is proved to take its turn |
| `SwapNetwork.dfy` | many peers, requests and replies in flight, losses, and a log of what happened |
| `SwapMoves.dfy` | the protocol as thirteen kinds of move on offers and answers; every step is one of them |
| `SwapAccounting.dfy` | tallies and tokens per trade key, the single-trade automaton |
| `SwapCorrespondence.dfy`, `SwapGuarantees.dfy` | tracing each success to its offer, answer and written file |
| `SwapIndependence.dfy`, `Notices.dfy` | trades do not interfere; what users are shown |
| `Quiescence.dfy` | the network of atomic handlers falls silent |
| `NodeMachine.dfy` | one peer: main task and event loop over rendezvous channels, effect by effect |
| `Fleet.dfy`, `FleetProjection.dfy` | many such peers with a wire between them; each of their runs is a run of `SwapNetwork` |
| `FleetDeeds.dfy`, `FleetSwaps.dfy` | what peers have really written, released and obtained; one for one as a fact about these deeds |
| `FleetRest.dfy` | a fleet left alone comes to rest, and exactly where |
| `Doings.dfy`, `Origins.dfy`, `Letters.dfy` | all a peer does, in order; where each notice, request and reply comes from; each request dealt with and replied to once |
| `Callers.dfy`, `Outcomes.dfy` | what each client call hears; what offers, direct messages and registrations report and what has then happened |
| `Chats.dfy` | the chat is shown as delivered and published as asked |
| `Plays.dfy` | how one client call, one notice or one arrival plays out in a fleet, lookups included |
| `SwapRuns.dfy` | runs any two peers at rest can make: a swap, an orphaned accept, a stalled swap |
| `Queries.dfy` | interleaved DHT queries |
| `Client.dfy`, `Directory.dfy` | the client calls, the cache in place, the DHT, cache transparency |
| `Tokenizer.dfy`, `Interface.dfy` | the tokenizer, the dispatch over actions, the file checks |

There are two levels. In `SwapNetwork` a handler is one step and users may issue commands at any time; this is
where tokens are counted and answers are traced to offers. In `Fleet` every peer has both its tasks, a handler's
effects reach the wire, the disk and the other task one by one, a loop in the middle of a handler takes no delivery,
and main makes one call at a time. `FleetProjection.Projects` shows that every fleet run is a network run with the
same tables and the same log, so what all network runs keep, all fleet runs keep. The log says what handlers set out
to do; `FleetDeeds.DeedsFollowTheLog` says that this is what each peer has done, except for the rest of its running
handler. Safety holds for every number of peers, every interleaving, and duplicate or repeated offers.

Assumed of libp2p: a peer's request numbers are fresh; a request is delivered at most once; its sender is told at
most one outcome, a reply or a failure; a failure says nothing about delivery, so a request may still arrive after
its failure was reported; replies may be lost. That a swarm owes each started query or request one decision is used
where waiting ends: `NodeMachine.BlockedExactly` and `FleetRest`.

A `TradeKey` is (offerer, recipient, both file names): the key under which both machines file an offer. A key
is *re-offered early* when its offerer makes the same offer again before the earlier one has settled; the log
counts these in `Tally.replaced`. The code allows it, and it is what decides which properties hold:

* without early re-offers, the two tables and the wire together hold at most one token per key, an answer
  always finds its offer, and the run seen through the key is the automaton
  Unoffered, Travelling, Received, Replying, with Stuck for lost messages (`SingleToken`, `RefinesSingleTrade`,
  `PromptSwap`);
* with early re-offers, even between users who wait for each of their calls, an answer can find no offer
  (`ReofferOrphansAnAnswer`), yet the accounting stays exact and the swap stays one for one (`ExactAccounting`, `TokenConservation`, `NoFileWithoutAFile`,
  `EverySuccessIsASwap`, `EveryRealSuccessIsASwap`), and whether an answer finds an offer is decided by the offerer's
  history alone (`FateIsHistory`).

Channels: both are `mpsc::channel(0)`, and a `send().await` on such a channel completes only once the other
side has taken the item. The node machine therefore hands commands and events over directly. The two tasks of a peer
can wait for each other forever, and this cyclic wait is the only way a peer gets stuck (`BlockedExactly`,
`RestExactly`). It needs no more than a chat message during a lookup (`CyclicWaitIsReachable`), and it can hit a swap:
if an accept arrives before the acknowledgement of its offer, the offer is used up and no file is ever written or
released (`AnswerOvertakesAcknowledgement`).

What a user is told is tied to what has happened, over every run of a fleet: each call hears exactly the verdict of the
first event that decides it (`CallersHear`), an offer or a direct message is reported as delivered only when the
recipient has dealt with that very request (`OfferHeard`, `MessageHeard`), and no notice is shown that does not go back
to something another peer has really sent (`NothingFromNowhere`, `ShownWasSent`, `ShownOnce`).

The runs of `SwapRuns` start from any state a fleet can reach in which the two peers are at rest, whatever their caches
hold, an empty cache included. Each main is followed exactly: what its line sends, with the lookup a missing cache entry
costs, the way back to its select, and the lookup it makes to show who sent a notice. The caches are followed through
all of these.

Where code and documentation differ, the model follows the code: `send <message>` sends only the first token
(`SendFidelity`); a quoted token keeps its quotes; the documentation's `register` action and its count of six
actions have no counterpart.

## Model

| member | source | states |
|---|---|---|
| EventLoopTask.EventLoop.constructor | src/network/event_loop/mod.rs:55-83 | a new loop has empty tables, nothing registered and has done nothing |
| EventLoopTask.EventLoop.HandleRegisterUsername | src/network/event_loop/command_handlers.rs:13-48 | two records are put, the lowercased name to the peer and back; the sender waits on the first put only; no other table changes |
| EventLoopTask.EventLoop.HandleFindPeerId | src/network/event_loop/command_handlers.rs:50-59 | one get for the lowercased name, its sender parked under that query |
| EventLoopTask.EventLoop.HandleFindPeerUsername | src/network/event_loop/command_handlers.rs:61-70 | one get for the peer's bytes, its sender parked under that query |
| EventLoopTask.EventLoop.HandleMakeTradeOffer | src/network/event_loop/command_handlers.rs:72-105 | an offer to oneself is refused at once; any other is sent, its sender parked and its bytes and path filed, replacing an equal offer |
| EventLoopTask.EventLoop.HandleRespondTrade | src/network/event_loop/command_handlers.rs:107-139 | only an inbound offer can be answered, and it is used up; a decline parks no sender |
| EventLoopTask.EventLoop.HandleSendChatMessage | src/network/event_loop/command_handlers.rs:141-156 | the sender is used within the handler |
| EventLoopTask.EventLoop.HandleDirectMessage | src/network/event_loop/command_handlers.rs:158-180 | a message to oneself is refused; any other is sent with its sender parked |
| EventLoopTask.EventLoop.HandleCommand | src/network/event_loop/command.rs:51-105 | each command takes the turn of its handler |
| EventLoopTask.EventLoop.HandleGetRecord | src/network/event_loop/behaviour_handlers.rs:14-49 | a record or error resolves the peer-id sender of its query, else its username sender, else nothing; other progress is ignored |
| EventLoopTask.EventLoop.HandlePutRecord | src/network/event_loop/behaviour_handlers.rs:52-64 | only the tracked put decides the registration |
| EventLoopTask.EventLoop.HandleKademliaRoutingUpdated | src/network/event_loop/behaviour_handlers.rs:368-378 | a registration of the configured username is requested when none is made or under way |
| EventLoopTask.EventLoop.HandleTradeOfferingRequest | src/network/event_loop/behaviour_handlers.rs:116-137 | acknowledged, filed as inbound under the sending peer, announced, in that order |
| EventLoopTask.EventLoop.HandleTradeOfferingReport | src/network/event_loop/behaviour_handlers.rs:139-161 | the parked sender is told success on an acknowledgement and failure on a failure, and the outgoing offer stays in place |
| EventLoopTask.EventLoop.HandleTradeResponseRequest | src/network/event_loop/behaviour_handlers.rs:168-218 | without a matching outgoing offer nothing happens; with one it is consumed, announced, the file written before the offered bytes go out, and a decline releases nothing |
| EventLoopTask.EventLoop.HandleTradeResponseReport | src/network/event_loop/behaviour_handlers.rs:220-248 | the parked accept hears the received bytes or the failure |
| EventLoopTask.EventLoop.HandleDirectMessagingRequest | src/network/event_loop/behaviour_handlers.rs:71-88 | the sending peer and its words are announced, then the request is acknowledged |
| EventLoopTask.EventLoop.HandleDirectMessagingReport | src/network/event_loop/behaviour_handlers.rs:89-109 | the sender is told, or the handler panics when none is parked |
| EventLoopTask.EventLoop.HandleGossipsubMessage | src/network/event_loop/behaviour_handlers.rs:280-290 | the chat is announced with its author and nothing else changes |
| EventLoopTask.EventLoop.HandleEvent | src/network/event_loop/mod.rs:111-198 | each modelled swarm event takes the turn of its handler |
| SwapMoves.StepDoes | src/network/event_loop/mod.rs:85-109 | every step of any peer or of the network is one of thirteen moves, each of which says what changes on both tables, the wire, the replies, the open requests and the log, and that nothing else does |
| SwapMoves.NextWellFormed | src/network/event_loop/command_handlers.rs:94-138 | request names stay fresh, replies fit their requests, and whoever waits is still owed an outcome |
| SwapMoves.AnswerArrivalDoes | src/network/event_loop/behaviour_handlers.rs:168-218 | an arriving answer settles its offer, writing the given file at the offer's path and releasing the offer's bytes, or is orphaned |
| SwapMoves.AnswerCommandDoes | src/network/event_loop/command_handlers.rs:107-139 | an answer leaves only for an offer that arrived, uses it up, and parks a sender exactly when it is an accept |
| SwapMoves.OfferCommandDoes | src/network/event_loop/command_handlers.rs:90-104 | a new offer leaves under a fresh name and its bytes and path become what the key stands for |
| SwapAccounting.ExactAccounting | src/network/event_loop/command_handlers.rs:103-126 | for every run and key: offers made = settled + replaced + still outgoing, offers arrived = answered + collapsed duplicates + still inbound, settled ≤ answered ≤ arrived ≤ made, and every message spent in vain is covered by an early re-offer |
| SwapAccounting.TokenConservation | src/network/event_loop/command_handlers.rs:90-138 | everything under way, waiting or lost for a key amounts exactly to its outgoing entry plus its early re-offers |
| SwapAccounting.SingleToken | src/network/event_loop/behaviour_handlers.rs:173-180 | the tokens equal the outgoing entry if and only if the key was never re-offered early; then there is at most one, nothing collapses, and the missing-entry return is never taken |
| SwapAccounting.RefinesSingleTrade | src/network/event_loop/behaviour_handlers.rs:111-235 | seen through one key every run is a run of the single-trade automaton, tables and wire in step, if and only if the key was never re-offered early |
| SwapCorrespondence.OutgoingIsHistory | src/network/event_loop/command_handlers.rs:103-104 | with any re-offers, the outgoing entry is that of the latest offer in the peer's history not settled since |
| SwapCorrespondence.SettlementIsHistory | src/network/event_loop/behaviour_handlers.rs:173-204 | with any re-offers, every settlement writes the answer's bytes at the path, and releases the bytes, of the latest offer of its key not settled before, and no answer is settled twice |
| SwapCorrespondence.FateIsHistory | src/network/event_loop/behaviour_handlers.rs:173-180 | with any re-offers, an arriving answer is orphaned if and only if the history has no offer of its key that is not settled yet, and it was sent before |
| SwapCorrespondence.EverySuccessIsASwap | src/network/client.rs:89-121 | every accept that returns bytes traces to one offer, whose bytes these are, and to one settlement before it, at which the acceptor's bytes had been written to that offer's path |
| SwapCorrespondence.SwapsAreDistinct | src/network/client.rs:113-118 | two accepts that return bytes share neither a settlement nor an offer |
| SwapGuarantees.NoFileWithoutAFile | src/network/event_loop/behaviour_handlers.rs:192-217 | per key, in every run, replies with bytes are as many as requested files written, and no more than answers sent |
| SwapGuarantees.AcceptDeclineFidelity | src/network/client.rs:113-145 | a request that was an accept moves both files or fails, a decline moves neither and is awaited by nobody, and no accept ever hears success without bytes |
| SwapGuarantees.PromptSwap | src/network/event_loop/behaviour_handlers.rs:127-217 | without an early re-offer, each settlement is preceded by its own offer, arrival and answer, in that order and with nothing else about the key between |
| SwapIndependence.SubjectLocally | src/network/event_loop/command_handlers.rs:90-138 | what a step makes of its key's entries depends on these entries alone |
| SwapIndependence.StaysPossible | src/network/event_loop/mod.rs:85-109 | a step is disabled only by one that uses up the same request, reply or outcome |
| SwapIndependence.StepsCommute | src/network/event_loop/behaviour_handlers.rs:127-177 | steps on different keys that do not compete for a message stay possible after each other and leave the same offer tables in either order |
| SwapIndependence.TransitCommutes | src/network/event_loop/mod.rs:85-109 | such steps, unless one user issues both, also leave the same requests and replies in transit and the same requests open in either order |
| Notices.OfferNoticeAnswers | src/network/event_loop/behaviour_handlers.rs:127-136 | the notice of an offer names exactly the one answer that has become possible, and that answer goes to the offerer |
| Notices.AnswerNoticeTruthful | src/network/event_loop/behaviour_handlers.rs:182-216 | an arriving answer is to be announced to the offerer if and only if it settles an offer, and the notice names that offer and is to say `accepted` exactly when the handler goes on to write the file and release the bytes |
| Notices.NoticeComesFirst | src/network/event_loop/behaviour_handlers.rs:182-217 | in every run of a fleet, when the offerer's main is being told of an answer its settlement is in the log and all the handler still has to do is to write the given file and then release the bytes, if the notice says accepted, or else to refuse them; while the notice waits nothing has been written |
| Quiescence.StepDecreases | src/network/event_loop/behaviour_handlers.rs:111-248 | with atomic handlers, every network step uses up part of a measure in which a request outweighs its reply |
| Quiescence.NetworkRunsAreFinite | src/network/event_loop/behaviour_handlers.rs:111-248 | with atomic handlers, a run without new commands has at most as many steps as its measure |
| Quiescence.ParkedExactly | src/network/event_loop/command_handlers.rs:94-138 | a sender is parked if and only if its request is open and, among answers, is an accept |
| Quiescence.SilenceIsQuiescence | src/network/event_loop/mod.rs:36-43 | with atomic handlers, that is provided no loop is in the cyclic wait: when the network has nothing left to do, no request-response sender is parked on any peer |
| NodeMachine.CommandParks | src/network/event_loop/command_handlers.rs:13-180 | a command either uses its sender in the handler or parks it in exactly one of the six maps under something the swarm now owes |
| NodeMachine.EventAnswers | src/network/event_loop/behaviour_handlers.rs:14-109 | only the event that decides a lone waiter's query or request uses its sender, once |
| NodeMachine.EventLatch | src/network/event_loop/behaviour_handlers.rs:52-64 | only a tracked put moves the registration latch back, only a routing update with an open latch announces |
| NodeMachine.StepInv | src/network/event_loop/mod.rs:85-109 | every step of main, loop or swarm keeps the one-waiter, no-crash, in-order and latch invariants |
| NodeMachine.AtMostOneWaiter | src/main.rs:50-55 | in every interleaving the six maps and the running handler hold exactly one sender while main awaits and none otherwise |
| NodeMachine.ExactlyOnceReplies | src/network/event_loop/mod.rs:34-43 | every accepted sender was used exactly once, in order, except the one main awaits; no pending-lookup or receiver `expect` ever fires |
| NodeMachine.OnlyUnknownMessagesPanic | src/network/event_loop/behaviour_handlers.rs:89-109 | a handler panics if and only if a direct message is decided that no sender is parked for |
| NodeMachine.RegistrationLatch | src/network/event_loop/behaviour_handlers.rs:368-378 | registration requests number at most one more than failed registrations, and exactly one more while one is under way; a routing update announces the configured name if and only if every registration requested so far has failed |
| NodeMachine.BlockedExactly | src/network/mod.rs:137-138 | a reachable node with work outstanding cannot go on if and only if the loop is sending an event while main is inside a client call |
| NodeMachine.CyclicWaitIsFinal | src/network/event_loop/behaviour_handlers.rs:182-190 | in that state no step at all is possible |
| NodeMachine.CyclicWaitIsReachable | src/network/client.rs:164-176 | a chat message arriving during the first lookup of any name is enough to reach it |
| FleetProjection.StepProjected | src/network/event_loop/mod.rs:85-109 | every step of a fleet, in the middle of handlers too, is a step of the network of atomic handlers or invisible to it |
| FleetProjection.Projects | src/main.rs:44-55 | every run of a fleet is a run of that network, with the same tables and log, and on its wire exactly what the fleet has sent or its handlers are still to send |
| FleetDeeds.DeedsFollowTheLog | src/network/event_loop/behaviour_handlers.rs:182-217 | each peer has written, released and handed to its accepts, in order, exactly what the log says, up to what its running handler has still to do |
| FleetSwaps.FleetAccounting | src/network/event_loop/command_handlers.rs:103-126 | the books of every key balance in every state of every fleet, and the key follows the single-trade automaton if and only if it was never re-offered early |
| FleetSwaps.NoRealFileWithoutAFile | src/network/event_loop/behaviour_handlers.rs:192-217 | for any set of answers, one, those of one key, or all: the replies with bytes a peer has really sent to them are as many as the requested files it has really written for them, but for one whose reply is its very next act; a blocked peer has given nothing |
| FleetSwaps.KeyGivesOneForOne | src/network/event_loop/behaviour_handlers.rs:192-217 | per key, in every state of every fleet, the files really written and the bytes really released differ by at most the one reply still to be sent, the file being first |
| FleetSwaps.EveryRealSuccessIsASwap | src/network/client.rs:113-118 | every accept that has really been handed bytes belongs to a swap whose offerer had, before that and for this very answer, really written the acceptor's bytes at the path of the offer whose bytes were handed over |
| FleetSwaps.RealSwapsAreDistinct | src/network/client.rs:113-118 | no two such accepts share a written file, an offer or a settlement |
| FleetRest.RestExactly | src/network/event_loop/mod.rs:85-109 | nothing that is due can happen any more if and only if every peer is idle or in the cyclic wait, and nothing is on the wire but requests to blocked or absent peers |
| FleetRest.WhoWaitsIsBlocked | src/network/event_loop/mod.rs:34-43 | at rest, a peer that has a sender parked or main waiting is in the cyclic wait |
| FleetRest.RunsEnd | src/network/event_loop/behaviour_handlers.rs:14-248 | left alone, a fleet takes at most as many steps as it weighs, losses included |
| FleetRest.ComesToRest | src/main.rs:50-55 | from every state, what is due leads to rest without anything being lost |
| Origins.NothingFromNowhere | src/network/event_loop/behaviour_handlers.rs:71-137 | in every run: an announced offer, answer or direct message was really sent to this peer by the peer it names, with these very names, words and verdict; an announced chat was delivered, an announced registration carries the configured username; whatever a peer sends or publishes its own main asked for; whatever it replies to was really sent to it |
| Letters.ShownWasSent | src/network/event_loop/behaviour_handlers.rs:71-88 | every direct message a peer shows was typed by the peer it names, really sent in one request, and that request is replied to right afterwards |
| Letters.ShownOnce | src/network/event_loop/behaviour_handlers.rs:71-88 | no request is replied to, and so no direct message shown, twice, by one peer or by two |
| Callers.CallersHear | src/network/event_loop/mod.rs:34-43 | in every run the caller of any command is told exactly the verdict of the first event that decides its request or query: found or not for a lookup, the record read, acknowledged or failed for an offer or message, the bytes or an error for an accept, stored or not for a registration; at once if no network is needed; and nothing before or besides |
| Outcomes.OfferHeard | src/network/event_loop/behaviour_handlers.rs:139-161 | an offer call returns success if and only if the reply to its request has come back, and then the recipient has noted this very offer and announces it next; failure if and only if a failure was reported; always failure, with nothing sent, for an offer to oneself |
| Outcomes.MessageHeard | src/network/event_loop/behaviour_handlers.rs:71-109 | a direct message call returns success if and only if the reply to its request has come back, and then the recipient was really shown this very message right before it replied; failure if and only if a failure was reported or the message is to oneself |
| Outcomes.RegistrationHeard | src/network/event_loop/command_handlers.rs:13-48 | a registration call returns exactly the result of storing the record under the lowercased name, the first of its two puts |
| Outcomes.AnnouncedNameRegisters | src/network/event_loop/behaviour_handlers.rs:368-378 | the name a loop announces in any run is the configured one, and once its records are stored that name leads to this peer and this peer to the lowercased name |
| Chats.ChatsAsDelivered | src/network/event_loop/behaviour_handlers.rs:280-290 | in every run a peer shows exactly the chats delivered to it and publishes exactly those its user asked for, each once and in order |
| SwapRuns.SwapCompletes | src/interface.rs:53-181 | from any reachable state in which both are at rest, any two peers can complete a swap of any contents under any names and paths, whatever their caches hold: each main does exactly what its line and its one notice make it do, a lookup for each user or peer its cache lacks, and both files have then really changed hands |
| SwapRuns.ReofferOrphansAnAnswer | src/network/event_loop/behaviour_handlers.rs:177-180 | the missing-entry return can be reached from any such state, for any contents, paths and caches, by users who wait for their calls: offer, decline, offer again before the decline arrives, accept; each main's calls and lookups are given exactly |
| SwapRuns.AnswerOvertakesAcknowledgement | src/network/event_loop/behaviour_handlers.rs:177-190 | from any such state, for any contents, paths and caches, an accept that arrives before the acknowledgement of its offer uses the offer up and blocks the offerer for good, with nothing ever written or released for it |
| SwapRuns.FrozenForever | src/network/event_loop/behaviour_handlers.rs:182-190 | a peer in the cyclic wait never does anything again, whatever the rest of the fleet does |
| Queries.OwnFirstDecisiveEvent | src/network/event_loop/behaviour_handlers.rs:14-49 | among any interleaved queries, each is answered by its own first record or error and by nothing else |
| Queries.InterleavingIndependence | src/network/event_loop/behaviour_handlers.rs:20-46 | two interleavings of the same query streams end in the same tables and answers |
| Queries.LoopKeepsApart | src/network/event_loop/command_handlers.rs:50-70 | after any commands and events, with any number of queries outstanding, no query is parked in both the peer-id and the username map |
| ClientTask.UsernameStore.GetUsername | src/network/username_store.rs:12-14 | the stored name of a peer, if any |
| ClientTask.UsernameStore.GetPeerId | src/network/username_store.rs:16-18 | the stored peer of a name exactly as typed, if any |
| ClientTask.UsernameStore.Insert | src/network/username_store.rs:20-23 | both directions are overwritten and nothing is evicted |
| ClientTask.LearnedBothWays | src/network/username_store.rs:20-23 | after a name and a peer were learned together either is answered without a query, whatever a query would say, and nothing else is answered differently |
| ClientTask.Client.GetPeerId | src/network/client.rs:25-37 | a cached peer is returned without a query; otherwise one query is sent and a found peer remembered |
| ClientTask.Client.GetUsername | src/network/client.rs:41-53 | likewise for names |
| ClientTask.Client.FindUser | src/network/client.rs:164-186 | one query, whose positive answer is remembered |
| ClientTask.Client.FindPeerUsername | src/network/client.rs:188-210 | one query, whose positive answer is remembered |
| ClientTask.Client.OfferTrade | src/network/client.rs:60-87 | an unknown recipient is an error and nothing is offered; otherwise one offer follows the lookup; a found recipient is remembered |
| ClientTask.Client.AcceptTrade | src/network/client.rs:89-121 | returns bytes exactly when the reply carried them; a found offerer is remembered |
| ClientTask.Client.DeclineTrade | src/network/client.rs:123-145 | sends an answer with neither bytes nor sender; a found offerer is remembered |
| ClientTask.Client.SendMessage | src/network/client.rs:212-227 | one chat command |
| ClientTask.Client.SendDirectMessage | src/network/client.rs:229-250 | an unknown recipient is an error; otherwise one message follows the lookup; a found recipient is remembered |
| ClientTask.Client.RegisterName | src/network/client.rs:147-162 | one registration command |
| Directory.FindPeerIdLooksUp | src/network/event_loop/command_handlers.rs:50-59 | a name query answered by the DHT resolves its sender with the uncached lookup |
| Directory.FindPeerUsernameLooksUp | src/network/event_loop/command_handlers.rs:61-70 | likewise for a peer query, in any state a loop can reach (`Queries.LoopKeepsApart`) |
| Directory.LookUpPeerIs | src/network/event_loop/behaviour_handlers.rs:20-24 | looking up a name in any case, unless its key is a registered peer's, gives the peer registered for its lowercased form, and nothing for others |
| Directory.LookUpNameIs | src/network/event_loop/behaviour_handlers.rs:25-31 | looking up a peer, unless its key is a registered name's, gives its registered name and nothing for others |
| Directory.PeerLookUpExactly | src/network/event_loop/behaviour_handlers.rs:20-24 | names and peers share one key space: without assuming the two apart, looking up a name is right if and only if no registered peer has the name's bytes and a name that reads as a peer |
| Directory.NameLookUpExactly | src/network/event_loop/behaviour_handlers.rs:25-31 | likewise looking up a peer is right if and only if no registered name has the peer's bytes and a peer id that reads as text |
| Directory.RegistrationLists | src/network/event_loop/command_handlers.rs:18-47 | the two records of a registration add exactly one user to the directory and leave all others findable |
| Directory.PeerCacheTransparent | src/network/client.rs:25-37 | after any lookups, failures and registrations, in any letter case, whose keys are not mistaken for one another, a cached peer lookup gives the DHT's answer |
| Directory.NameCacheTransparent | src/network/client.rs:41-53 | likewise for names up to lowercasing, although stale spellings stay cached |
| Directory.FoundPeerStaysFound | src/network/client.rs:25-37 | a user once found is found for good, without a query and even while every query fails, and so is that peer's name up to letter case |
| Directory.FoundNameStaysFound | src/network/client.rs:41-53 | likewise a peer whose name was once found, and the user of that name |
| Tokenizer.SplitExactly | src/interface.rs:231-236 | a line splits into given tokens if and only if it lays them out with admissible gaps |
| Tokenizer.SplitPrint | src/interface.rs:231-236 | printing token-shaped tokens with any admissible gaps and splitting gives them back |
| Tokenizer.NormalForm | src/interface.rs:231-236 | splitting the single-space join of a split gives the same tokens, for every input |
| Tokenizer.Conservation | src/interface.rs:231-236 | no character but white space is lost, added or moved |
| Tokenizer.QuotationIsOneToken | src/interface.rs:231-236 | whatever stands between two double quotes is one token, quotes included |
| Tokenizer.BlanksSeparate | src/interface.rs:231-236 | a space, tab or line end separates a word from what follows |
| Interface.ParseExactly | src/interface.rs:29-163 | a line means an action with its fields if and only if it lays out, with admissible gaps, the action's name in any case and those fields; surplus tokens are ignored |
| Interface.DocumentedLines | src/interface.rs:29-163 | the five documented lines mean their five requests, field by field, for any words or quotations in their places |
| Interface.SendFidelity | src/interface.rs:36-41 | `send m` sends `m` if and only if `m` is a single token; otherwise its first token, or nothing for a blank one |
| Interface.SendDropsWords | src/interface.rs:37-41 | of two or more words, whatever they are, only the first is sent |
| Interface.HandleStdIn | src/interface.rs:16-165 | the commands sent, the file placed and the cache left by any line are those of the request it means, and a malformed line sends nothing |
| Interface.WordsAreSent | src/interface.rs:36-137 | a chat, direct message or decline is sent if and only if its line asks for it and its user is known, with the words typed, to that user, and for the file names typed |
| Interface.HandleTrade | src/action.rs:15-45 | nothing is sent unless the offered file can be read and the target path is empty |
| Interface.OffersAreChecked | src/action.rs:15-45 | a line sends an offer if and only if it is a trade whose file can be read, whose target path neither file nor anything else occupies and whose user is known; the offer carries exactly that file's bytes, that path, those names and that user |
| Interface.HandleAcceptTrade | src/action.rs:47-86 | likewise; a file is placed exactly when the swap returned bytes |
| Interface.AcceptsAreChecked | src/action.rs:47-86 | likewise for an accept and the file given in return |
| Interface.PlacedIsReceived | src/action.rs:47-86 | a file is placed if and only if an accept was sent and its reply carried bytes: these bytes, at the free path typed |
| Interface.HandleRegistrationRequest | src/interface.rs:215-227 | the process ends exactly when somebody answers to the name; otherwise one registration is sent |
| Interface.SentShaped | src/network/client.rs:103-140 | what a line sends carries a bytes sender exactly when it carries bytes, as the network of peers assumes of commands |
| Interface.LinesMeet | src/action.rs:66-73 | a `trade` line and an `accept` or `decline` line name the same swap if and only if they agree on both file names |
| Interface.TypedSwapCompletes | src/interface.rs:53-181 | the documented walk-through for all names, paths, contents and caches: from any reachable state in which both are at rest, a `trade` and an `accept` request, whatever lines mean them (`ParseExactly`), whose users resolve to each other and that agree on the files can be played out, each main doing exactly what its line sends (`HandleStdIn`) and what its one notice makes it look up, so that the acceptor is really handed the offered contents and its own are really written where the offerer asked |

## Left out

- libp2p itself (swarm, Kademlia routing, gossipsub, request-response, noise, yamux, CBOR): replaced by the contract above and by a DHT that is one map.
- Rendezvous server, dialling, mDNS, identify and address handling: plumbing without state the above depends on.
- File system detail: a write is an entry in a log; failing writes and parent directories are not modelled, and nothing is claimed about the path being empty at the time of writing, which the code checks only when the offer is made.
- Atomicity at the recipient: a reply can be lost after the offerer wrote the file, so an accept that returns an error may have had an effect. A failing `send_response` counts as a lost reply instead of the panic it is.
- Uniqueness of usernames: the check before registering and the puts are separate steps, so the cache theorems take it as a hypothesis that a name is registered once and by one peer (`Free`); the two puts of a registration take effect together there.
- Codec laws: idempotent lowercasing and the UTF-8 round trip (`Lawful`) are hypotheses of the directory theorems. The code puts names and peers under one key space, so that the names and peers in use are not mistaken for each other (`NameApart`, `PeerApart`) is a hypothesis of the cache theorems; `PeerLookUpExactly` and `NameLookUpExactly` give the exact condition without it.
- SwapMoves.StepDoes: takes each handler as one step, as does everything in `SwapNetwork`; a loop blocked in the middle of a handler is a state of `Fleet` only, which `FleetProjection.Projects` and `FleetDeeds.DeedsFollowTheLog` relate to these steps.
- SwapMoves.AnswerArrivalDoes: an entry that is consumed by a handler which then blocks before writing is a `Settled` entry here; `SwapRuns.AnswerOvertakesAcknowledgement` has that case, and `FleetSwaps` counts only files really written.
- Quiescence.SilenceIsQuiescence: speaks of handlers that always finish; `FleetRest.RestExactly` is the statement about peers that can block.
- EventLoopTask.EventLoop.HandleEvent: does not cover the events of the behaviours left out above, which touch none of the modelled tables.
- EventLoopTask.EventLoop.HandleKademliaRoutingUpdated: the latch is set together with the announcement in the class; in the node machine it is set when the handler starts, slightly before the send completes, which no other handler can observe.
- ClientTask.Client.GetPeerId: awaited replies are parameters of all client calls, so that which reply belongs to which call is stated by the node machine and not here.
- NodeMachine.StepInv: the end of the process on a taken username is not a step; it happens outside client calls, so it does not resolve a cyclic wait.
- Request and query numbers are unbounded; the wrap-around of libp2p's 64-bit counters is not modelled.
- Printed messages, usage texts, chat display, logging and argument parsing: output only.
- Unicode: case mapping is an arbitrary function, white space is the Unicode table written out.
