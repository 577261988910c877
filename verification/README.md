# GossipProtocol: friendship protocol, wire texts and lax DER signatures

A Dafny model of three parts of the program, with proofs about them.

**The friendship protocol of `GraphNode`.** A node keeps four containers: `friend_list`, `client_endpoints` (connection
key to the friend's listening endpoint), `connections` and `pending_endpoints`. A handshake
`Be friends?` / `Yes` or `No` / `Added to friends` / `Confirmed` or `Not confirmed` changes them, and `Removed`,
`Send friends` and friend lists are interleaved with it. The model has two levels.

- `GraphNode.dfy` is the class, with the containers as fields, one method per handler and one per round of each loop
  (messages, connecting, disconnecting, reaping, asking). Each method is proved against a function on the values of the
  containers (`Protocol.dfy`, `Rounds.dfy`, `Reaping.dfy`), together with everything it does to its sockets.
- `Network.dfy` is a network of any number of nodes. Every TCP connection is a link with one FIFO channel each way, named
  by the client port its initiator bound. A step is one handler of one node, by the same functions.

The invariants come in three layers, each over all runs. `Wiring.dfy`, `Honesty.dfy` and `Handshake.dfy` assume nothing
(`Free`); `Friendship.dfy` and `Additions.dfy` assume that requests do not cross (`Uncrossed`); `Agreement.dfy` and
`Accounting.dfy` also assume that the reaper is patient (`Patient`). `Outcomes.dfy` reads off what they mean for the nodes.
`Hearing.dfy` proves that nodes which only listen fall silent, and `Resting.dfy` what is left when they have also accepted
and reaped all they can.

What fails without the two assumptions is in `Crossing.dfy` and `Impatience.dfy`, with the exact steps that break the
correspondence of friends and entries, and the exact reaps that break the agreement of quiet nodes. `Repetition.dfy` has
what still holds of friend lists when requests cross. `Scenarios.dfy` shows what an undisturbed handshake, a broken promise
and a refusal end in. `Draining.dfy` and `Looping.dfy` connect the rounds of the loops with the network.

**The wire texts.** `Texts.dfy` and `Wire.dfy`: printing and parsing of ports, addresses, friend lists and messages, and
the dispatcher that tells the texts apart.

**The lax DER parser of `PublicKey.cpp`.** `BigEndian.dfy`, `DerGrammar.dfy`, `DerLax.dfy`, `DerEncoding.dfy`. The format
is Ecdsa-Sig-Value in section 2.2.3 of RFC 3279, encoded by sections 8.1.3 and 8.3 of ITU-T X.690.

## Assumptions

- Each handler, each pass of the dispatcher and each pass of a background loop is one atomic step. Taking an endpoint from
  the pending queue and the call of `make_connection` for it are one step. The tests on the number of friends that the
  loops make before they call a handler are not demanded of a step of the network, since they may be stale by the time
  the handler runs; the rounds of the class make them.
- Channels are reliable and FIFO, one receive yields one message, what was sent before a close is still delivered, and a
  message to a closed end is lost.
- All nodes live on the local host, as the constructor fixes it. A port that is in use, as a listening port or as anybody's
  client port, cannot be bound, and client ports stay below 65536.
- The sender of a queued message is the first component of the queue entry. GraphNode.cpp:297 initialises the variable from
  itself instead.
- `Already friends` (GraphNode.cpp:184) starts with the letter of an `Added` message, and its parser runs past the end of
  the text (`AlreadyFriendsIsMisread`). In the network it is a message without effect. Without crossing it is never sent
  (`AlreadyFriendsIsNeverSaid`); when requests have crossed it can be, and then the round that receives it breaks
  (`CrossedRoundBreaks`).
- `No crossing`: a node dials a peer only when every earlier link between the two is shut at both ends. The code does not
  see to it (GraphNode.cpp:68-72 looks only at outgoing keys and friends, GraphNode.cpp:160 does not look for duplicates).
- `Patient reaper`: an acceptor does not reap a link on which its own `Yes` is still on the way, or the `Added` that answers
  it and whose sender has not hung up since. The code relies on timing for it. It is exactly what the agreement of quiet
  nodes takes (`PatienceIsAgreement`).
- `secp256k1_ecdsa_signature_parse_compact` accepts exactly two numbers below the group order, and
  `secp256k1_ecdsa_signature_normalize` replaces a high `s` by its negation.
- The comment at include/GraphNode.h:168-170 speaks of asking for friends when there are one or two. The code counts the rounds
  that find the number of friends positive and the same as when it was last noted, asks at the fifth such round, and does not
  start again when the number changes, so the five need not follow each other. The model follows the code.
- A text is a sequence of bytes, and `char` is signed. An `int` has 32 bits, and `get_friend_port`, which does not check for
  overflow, wraps around. The endpoint stores 16 bits of it, so the port is the same as without overflow (`PortOfInt`).
- The address in a friend list is the text before the first colon. No text of an IPv6 address is without a colon, so
  `address::from_string` reads exactly the IPv4 ones there.
- Which texts `boost::archive` reads a public key from is a parameter (`archives`); it throws on all others.

## Model

| member | source | states |
|---|---|---|
| Agreement.QuiescentAgreement | GraphNode.cpp:105-269 | in every run without crossing and with a patient reaper, once no message is left for a live end, i counts j as a friend exactly when j counts i |
| Agreement.StepKeepsAgreeing | GraphNode.cpp:294-390 | every step of any node keeps each link undecided, pledged (`Added` is next for the acceptor) or bonded (live ends track it, a hung-up end has left a farewell) |
| Agreement.ReachableIsAgreeing | GraphNode.cpp:273-443 | so that shape holds in every reachable network |
| Agreement.AgreeingNeedsBoth | GraphNode.cpp:536-547 | from any agreeing network, any step leads to an agreeing one if and only if it is neither a dial that crosses nor a reap by an acceptor whose `Yes` is on the way, or to which a live initiator's `Added` is |
| Hearing.HearingLeadsToAgreement | GraphNode.cpp:294-390 | wherever a run has got to, dispatching alone leads, in no more steps than the messages weigh, to a quiet network in which all friendships are mutual |
| Hearing.HearingEnds | GraphNode.cpp:301-387 | in any run of any network, in any order, the steps that only dispatch are bounded by the weight of what is on its way: every reply weighs less than what it answers |
| Hearing.QuietIsNothingToHear | GraphNode.cpp:281-292 | a network is quiet exactly when no node has anything to dispatch |
| Resting.WindingLeadsToFriendships | GraphNode.cpp:496-549 | wherever a run has got to, accepting, dispatching and reaping lead, in no more steps than there is to do, to a quiet network in which friendships are mutual and the connections of every node are exactly those to its friends, one each |
| Resting.RestIsNothingToDo | GraphNode.cpp:496-549 | an agreeing network rests (each link over, or drained and tracked at both ends) exactly when no node can accept, hear or reap patiently |
| Resting.WindingEnds | GraphNode.cpp:281-549 | in any run of any network such steps, in any order, are bounded by the messages on their way and the ends that are not shut |
| Impatience.PatienceIsAgreement | GraphNode.cpp:536-547 | from any agreeing network, a step that does not cross is patient if and only if every quiet network that can follow it, by uncrossed and patient steps, has only mutual friendships |
| Impatience.HastyReapSplits | GraphNode.cpp:536-547 | every reap that goes back on a promise can be followed to a quiet network with a one-sided friendship: by hearing alone, or, when the promised node is full, after it has dropped a friend |
| Impatience.BreakingAnAddition | GraphNode.cpp:536-547 | with `Added` on its way the reap itself divides the two nodes |
| Impatience.BreakingAPromise | GraphNode.cpp:152-170 | with `Yes` on its way they are divided as soon as a node with room reads it |
| Impatience.DividedForGood | GraphNode.cpp:294-390 | no message ever heals a divided link |
| Impatience.DividedDisagree | GraphNode.cpp:152-269 | at a divided link one node counts the other as a friend and not the other way round |
| Impatience.HastyReaperBreaksAgreement | GraphNode.cpp:536-547 | a run of six steps from the start in which that happens |
| Agreement.OneSidedLinksHaveNews | GraphNode.cpp:152-269 | a link tracked at one end only has `Added`, `Not confirmed` or `Removed` on its way to a live end |
| Agreement.QuietLinksAreMutual | GraphNode.cpp:152-269 | in a quiet network a link is tracked at both ends or at none |
| Agreement.FriendsAreTrackedLinks | GraphNode.cpp:152-238 | j is a friend of i exactly when i tracks a live link to j |
| Accounting.FriendshipAccounting | GraphNode.cpp:152-269 | all friend lists together have two entries per link tracked at both ends and one per link tracked at one; each of the latter has news on its way; when quiet the sum is exactly twice the friendships |
| Accounting.FriendsAddUp | GraphNode.cpp:152-269 | the sum holds in every run without crossing, patient or not |
| Accounting.OneEntryPerFriend | include/GraphNode.h:39-40 | distinct friends and distinct entries are equally many and are the same endpoints |
| Friendship.StepKeepsFaithful | GraphNode.cpp:152-269 | without crossing, every step keeps one open link per pair and a one-to-one correspondence of friends and entries |
| Friendship.ReachableIsFaithful | GraphNode.cpp:160-268 | in every reachable network without crossing, friends are distinct and are exactly the distinct values of `client_endpoints` |
| Friendship.ActExchanges | GraphNode.cpp:224-237 | a step befriends a stranger, or drops a friend together with its only entry, or changes neither, although friends are erased by value and entries by key |
| Friendship.YesFindsStrangers | GraphNode.cpp:312-315 | a `Yes` is only ever read on a link that is not tracked yet |
| Additions.AlreadyFriendsIsNeverSaid | GraphNode.cpp:180-188 | without crossing, whatever the reapers do, the text the dispatcher cannot read is never on its way |
| Additions.StepKeepsPlain | GraphNode.cpp:152-214 | without crossing, every step keeps `Added` unique on its link, next for its acceptor, and read by a stranger |
| Crossing.CrossingCountsAFriendTwice | GraphNode.cpp:61-103 | in every network with two nodes that can each make two connections, honest nodes with patient reapers reach a state that no uncrossed run reaches: one counts the other twice, under two keys, and `Already friends` is on its way to it |
| Crossing.CrossingIsReal | GraphNode.cpp:61-103 | there is such a network |
| Crossing.CrossedRequestsRepeat | GraphNode.cpp:105-214 | in any network whatever, two requests that cross between strangers with room lead there in six steps |
| Crossing.DistinctUnlessRepeated | GraphNode.cpp:160-196 | distinct friends stay distinct in a step if and only if it is not a `Yes` read from a friend by a node that is not full |
| Crossing.StepMatchesUnlessCrossed | GraphNode.cpp:152-269 | in any run, the one-to-one correspondence of friends and entries survives a step if and only if it is neither such a `Yes` nor a `Removed` from a friend on a connection that is not tracked |
| Crossing.MismatchesAreCrossed | GraphNode.cpp:152-269 | both take two live links between the same two nodes |
| Crossing.EntriesHaveFriendsUnlessLost | GraphNode.cpp:218-269 | a step leaves an entry without its friend if and only if it takes an endpoint out of the friend list (a drop, `Not confirmed` or `Removed`) that has an entry under another key |
| Crossing.DropOrphans | GraphNode.cpp:218-238 | for a drop: if and only if another key has the same friend |
| Crossing.CrossingOrphansAnEntry | GraphNode.cpp:240-269 | honest nodes whose requests crossed reach a state in which a node that has dropped nobody has an entry without its friend |
| Crossing.CrossingBreaksAgreement | GraphNode.cpp:152-269 | and, with patient reapers, a quiet network in which friendship is not mutual |
| Crossing.DoubledSplits | GraphNode.cpp:218-238 | from any network in that state, three steps make the friendship one-sided: a patient reap, a drop that cannot be announced, and a confirmation |
| Repetition.FriendsAtMostTwice | GraphNode.cpp:152-269 | in any run, crossing or not, a friend is in a list at most as often as it has entries, at most twice, and twice only while its own key is tracked |
| Repetition.StepKeepsCounted | GraphNode.cpp:152-269 | every step of every run keeps those three |
| Handshake.StepKeepsOrderly | GraphNode.cpp:294-390 | in any run, crossing or not: until a `Yes` is acted on, a link carries at most one message and nobody tracks it; afterwards its initiator tracks it as long as its end is live |
| Handshake.ReachableIsOrderly | GraphNode.cpp:273-443 | so it is in every reachable network |
| Handshake.NeverThrows | GraphNode.cpp:334-340 | `map::at` never misses: `Not confirmed` only reaches a node that tracks its sender |
| Honesty.StepKeepsHonest | GraphNode.cpp:152-269 | every step keeps keys naming their own peers, friends tracked, ports in order, messages in their direction with their sender's port, and endpoints real |
| Honesty.ActProgresses | GraphNode.cpp:152-269 | what one step does to friends and entries, for honest messages |
| Wiring.MoveKeepsWired | GraphNode.cpp:203-211 | closing and erasing one key keeps keys and live link ends in correspondence |
| Outcomes.Provenance | GraphNode.cpp:412-437 | pending endpoints, friends and entries are listening endpoints of real nodes, and no node befriends itself |
| Outcomes.ListsUnderwayAreReal | GraphNode.cpp:637-679 | so are the endpoints of friend lists on their way |
| Outcomes.EveryFriendHasAConnection | GraphNode.cpp:562-577 | crossing allowed, each friend has a live connection with an entry of its own, so a manual ask finds one |
| Outcomes.EntriesNameTheirPeers | GraphNode.cpp:162-194 | crossing allowed, each entry is the peer at the other end of its own connection |
| Outcomes.FriendsWithinLimit | GraphNode.cpp:160-196 | at most six friends in every reachable network, although `connect_friend` only tests for `!= 6` |
| Outcomes.NobodyThrows | GraphNode.cpp:683-689 | no step of a reachable network looks up a missing connection or entry |
| Outcomes.ClientPortsInOrder | GraphNode.cpp:79-80 | the client ports of a node are exactly its listening port plus 1, 2, 3, … up to its counter |
| Outcomes.OneOutgoingPerTarget | GraphNode.cpp:68-77 | a node never has two live outgoing connections to one target |
| Outcomes.PortsNameOneLink | GraphNode.cpp:79-80 | over any further run a client port keeps naming the same connection |
| Outcomes.FriendsMatchEntries | GraphNode.cpp:160-268 | without crossing: no duplicate friends, as many entries, the same endpoints |
| Outcomes.DropCostsOne | GraphNode.cpp:218-238 | without crossing, dropping a friend costs exactly one friend, one entry and one connection, and sends `Removed` |
| Outcomes.FullNodeMakesRoom | GraphNode.cpp:463-476 | a full node answers a stranger `No`; after one drop it has five friends and answers `Yes` |
| Outcomes.YesIsForStrangers | GraphNode.cpp:105-124 | without crossing, a request is answered `Yes` exactly when there is room and the asker is not a friend, although the code looks at entries and not at friends |
| Outcomes.DialsAskWhenThereIsRoom | GraphNode.cpp:94-101 | in the network a dial to a new key takes the next port and asks exactly when there is room; the test of the counter against the first node's port never holds a request back |
| Scenarios.HandshakeCompletes | GraphNode.cpp:105-214 | from a request under way between strangers with room, the four messages are a run that makes exactly these two friends of each other and leaves the link open and drained |
| Scenarios.BrokenPromiseIsUndone | GraphNode.cpp:190-269 | when the node that said `Yes` has filled up since, the run through `Not confirmed` leaves friends and entries of both as they were, and both ends of the link shut |
| Scenarios.RefusalTeachesFriends | GraphNode.cpp:316-376 | a node refused by a full one ends with that node's whole friend list appended to its pending endpoints, and both ends of the link shut |
| Scenarios.YesIsIgnored | GraphNode.cpp:160-169 | a node with six friends that hears `Yes` changes nothing and says nothing |
| Scenarios.RemovalIsObeyed | GraphNode.cpp:240-269 | whoever says `Removed` is forgotten, with its entry and connection, without an answer |
| Scenarios.FriendIsSentList | GraphNode.cpp:320-333 | a tracked peer gets the list and stays connected |
| Scenarios.OpenInOrderly | GraphNode.cpp:79-87 | a link with two live ends, in any reachable network, is filed by its two nodes under the peer's port and the client port |
| Protocol.RunKeepsSound | GraphNode.cpp:203-211 | whatever peers say, lying ones included, every run keeps the keys of `client_endpoints` inside those of `connections` and at most six friends |
| Protocol.StepKeepsSound | GraphNode.cpp:324-374 | one step keeps both, over all places that erase a connection, and throws only on an unexpected `Not confirmed` |
| Protocol.Without | GraphNode.cpp:224 | the erase-remove idiom drops every equal endpoint and nothing else |
| Protocol.WithoutKeepsDistinct | GraphNode.cpp:224 | from distinct friends it drops exactly one |
| Draining.RoundIsARun | GraphNode.cpp:281-390 | a round of letters, one from each of some connections, is handled to the end if and only if none is `Already friends`; it is a run of the network, and what draining it does to the containers, and to all links by what it sends and closes, is what that run does |
| Draining.UncrossedRoundsComplete | GraphNode.cpp:281-390 | without crossing every round of every node is handled to the end |
| Draining.CrossedRoundBreaks | GraphNode.cpp:184-188 | when requests have crossed, honest nodes reach a state in which a node does not survive its next round |
| Draining.OthersStayNext | GraphNode.cpp:294-390 | handling a message leaves what is next on every other connection, and its socket |
| Rounds.DrainNeverThrows | GraphNode.cpp:294-390 | readable letters from distinct live senders never find their sender gone |
| Rounds.TextsMeanTheirMessages | GraphNode.cpp:301-387 | handling the text a node sends is handling the message it means |
| Rounds.TextsAreDispatched | GraphNode.cpp:301-387 | every text, by its first letter or as a whole, and the handler it goes to |
| Rounds.DialAllReaches | GraphNode.cpp:419-436 | the inner connection loop stops at six friends, and otherwise reaches all that is pending, each endpoint by at most one dial and the known ones by none |
| Rounds.HangupAllIsARun | GraphNode.cpp:519-549 | closing the old idle connections of a round is reaping them one by one |
| Rounds.DialAllIsARun | GraphNode.cpp:419-436 | the inner connection loop is a run of single dials |
| Looping.DialsLead | GraphNode.cpp:419-436 | when the client ports it may need are free, the inner connection loop is a run of the network, and does to the node and to all links what the fold of its dials says |
| Looping.ConnectionRoundLeads | GraphNode.cpp:412-437 | so is a whole pass of the outer loop, with the first endpoint pushed when needed |
| Looping.ReapsLead | GraphNode.cpp:519-549 | so is the reaping of a round, in every regime; a patient one if no reaped key goes back on a promise |
| Looping.AsksLead | GraphNode.cpp:568-577 | so is asking every connection of a friend |
| Rounds.SaysFit | GraphNode.cpp:285-287 | every text that a node with at most six friends sends has at most 133 characters and fits one receive |
| Reaping.AgesCountIdleRounds | GraphNode.cpp:506-549 | over any history of rounds: a key is reaped exactly in every fourth consecutive round that finds it idle, and in between its age is one more than that count |
| Reaping.ListedAreIdle | GraphNode.cpp:506-549 | after a round the listed keys are exactly the idle connections left open, with ages 2 to 4 |
| Reaping.NotReapedEarly | GraphNode.cpp:536-547 | a key is only reaped if the last four rounds all found it idle; a tracked one never is |
| GraphNodes.GraphNode.constructor | GraphNode.cpp:26-57 | a new node has empty containers and listens on its port of 127.0.0.1 |
| GraphNodes.GraphNode.Send | GraphNode.cpp:683-689 | writes the text of the message to the socket of the key; fails exactly when there is none |
| GraphNodes.GraphNode.MakeConnection | GraphNode.cpp:61-103 | a known endpoint changes nothing; any other gets the next port and a connection, and with fewer than six friends, unless that port is 12345, is written "Be friends?:" and the own port |
| GraphNodes.GraphNode.NewMakeConnection | GraphNode.cpp:105-124 | writes "Yes" exactly with fewer than six friends and no entry for the asker, and "No" otherwise |
| GraphNodes.GraphNode.AskForFriends | GraphNode.cpp:128-137 | writes "Send friends" |
| GraphNodes.GraphNode.NewAskForFriends | GraphNode.cpp:139-148 | writes the packed friend list |
| GraphNodes.GraphNode.ConnectFriend | GraphNode.cpp:152-170 | with six friends does nothing; otherwise adds friend and entry and writes "Added to friends:" and the own port; an entry that is there stays |
| GraphNodes.GraphNode.NewConnectFriend | GraphNode.cpp:172-214 | a friend is written "Already friends"; with fewer than six, friend and entry are added and "Confirmed" written; with six, "Not confirmed(friends limit)" is written and the connection closed and erased |
| GraphNodes.GraphNode.DisconnectFriend | GraphNode.cpp:218-238 | takes every equal friend out, writes "Removed:" and the own port, closes the connection, erases both entries of the key |
| GraphNodes.GraphNode.NewDisconnectFriend | GraphNode.cpp:240-269 | takes every equal friend out, and closes and erases the connection if there is one, writing nothing |
| GraphNodes.GraphNode.AnswerSendFriends | GraphNode.cpp:320-333 | writes the packed list, and closes a connection that is not tracked |
| GraphNodes.GraphNode.TakeFriends | GraphNode.cpp:348-376 | the endpoints become pending, and a connection that is not tracked is closed |
| GraphNodes.GraphNode.PushPending | GraphNode.cpp:674-677 | the endpoints are appended in order |
| GraphNodes.GraphNode.ProcessNewAccept | GraphNode.cpp:445-461 | an accepted connection is kept under its client port on 127.0.0.1, unless that key is taken |
| GraphNodes.GraphNode.Dispatch | GraphNode.cpp:301-387 | every text has the effect of the message it is read as, and fails exactly where a parser, a lookup or the archive of a key does |
| GraphNodes.WrittenTextsMeanTheirMessages | GraphNode.cpp:301-387 | what a node writes for a message other than `Already friends` has, at any peer, the effect of the message |
| GraphNodes.GraphNode.Collect | GraphNode.cpp:281-292 | one letter from each connection that has one |
| GraphNodes.GraphNode.Drain | GraphNode.cpp:294-390 | the loop empties the queue and has the effects of its letters in order |
| GraphNodes.GraphNode.MessageRound | GraphNode.cpp:275-390 | a whole round, whatever the queue held before: each connection adds at most one letter, the queue ends empty, and nothing throws when senders are distinct and every letter can be answered |
| GraphNodes.GraphNode.ConnectionRound | GraphNode.cpp:412-437 | queues 127.0.0.1:12345 when nothing is pending or the first node is a friend; a full node does no more; any other empties its queue, is then connected to, a friend of, or itself each endpoint in it, and has dialled the new ones; a new node with nothing pending calls the first node |
| GraphNodes.GraphNode.DisconnectionRound | GraphNode.cpp:469-476 | a node with six friends drops one of its entries, with what that writes; any other does nothing |
| GraphNodes.GraphNode.NoteIdle | GraphNode.cpp:506-516 | untracked connections that are not listed start at age 1 |
| GraphNodes.GraphNode.AgeKey | GraphNode.cpp:525-548 | one key is kept, closed for its age, or forgotten |
| GraphNodes.GraphNode.CloseOld | GraphNode.cpp:519-549 | the loop ages the idle keys and closes exactly those of age 5 |
| GraphNodes.GraphNode.ReapRound | GraphNode.cpp:505-549 | a round reaps exactly what the ages call for, as a sequence of single reaps |
| GraphNodes.GraphNode.AskFriend | GraphNode.cpp:568-577 | every connection whose entry is the friend is written "Send friends", each once; it fails only at an entry without a connection |
| GraphNodes.GraphNode.AskRound | GraphNode.cpp:553-588 | at every fifth round that finds the positive number of friends unchanged, consecutive or not, some friend is asked; it never fails on a sound node |
| GraphNodes.GraphNode.PackFriends | GraphNode.cpp:623-635 | the loop builds the packed text of the friend list |
| GraphNodes.EraseThrough | GraphNode.cpp:643-657 | erasing character by character cuts the text at the first separator, and runs off a text that has none |
| GraphNodes.ParseEntry | GraphNode.cpp:652-672 | one entry is read as `from_string` and `stoi` read it, or the text is faulty |
| GraphNodes.ParseFriends | GraphNode.cpp:637-673 | the nested loops terminate and read exactly the list that the text stands for |
| GraphNodes.GetFriendPort | GraphNode.cpp:727-744 | the wrapped value of the number after the first colon, always an `int`, and runs off exactly the texts without a colon |
| Wire.FriendListRoundTrip | GraphNode.cpp:623-679 | unpacking a packed list, of any length, gives exactly the list in order |
| Wire.ListsAreWellFormed | GraphNode.cpp:637-673 | a text is read as a list of endpoints if and only if it is, after its first `<`, made of entries for them: an address, a colon, a numeral, a semicolon |
| Wire.PackedOne | GraphNode.cpp:623-635 | the packed text of one more endpoint, digit groups and separators |
| Wire.MessageRoundTrip | GraphNode.cpp:301-387 | every handled message is dispatched as itself with its port; `Confirmed` is dropped; `Already friends` is misread |
| Wire.AlreadyFriendsIsMisread | GraphNode.cpp:342-346 | the dispatcher takes it for an `Added` message without a colon |
| Wire.MessagesFit | GraphNode.cpp:285-287 | messages with at most six endpoints have at most 133 characters |
| Texts.DecimalRoundTrip | GraphNode.cpp:737-741 | the digits of a number are read back as the number |
| Texts.DecimalHasNoLeadingZero | GraphNode.cpp:98 | of the texts of digits, exactly those without leading zeros are decimal texts |
| Texts.AddressRoundTrip | GraphNode.cpp:665 | a text is read as an address exactly when it is the text of that address |
| Texts.PortRoundTrip | GraphNode.cpp:665 | a printed port is read back, and contains no separator |
| Texts.StoiReadsNumerals | GraphNode.cpp:665 | `std::stoi` reads exactly the texts of blanks, a sign or none, digits and anything else whose number is an `int`, each as that number |
| Texts.PortOfInt | GraphNode.cpp:738-742 | the port that an endpoint stores does not depend on whether the `int` has overflowed |
| Texts.AsIntStep | GraphNode.cpp:738-742 | wrapping at each step of the loop is wrapping at its end |
| DerLax.ParseDerLax | PublicKey.cpp:8-150 | returns 1 exactly on the accepted strings, never without a first byte 0x30, and yields (r, s) if both are below the order and (0, 0) otherwise, on 64-bit sizes that never wrap |
| DerLax.ReadHeader | PublicKey.cpp:41-77 | tag, length and content bound of one integer, every read inside the input |
| DerLax.ReadNumber | PublicKey.cpp:57-69 | a long-form length is its big-endian value, accepted exactly below 2^56, in 64-bit arithmetic |
| DerLax.CopyValue | PublicKey.cpp:116-126 | the right-aligned copy stays in its half, has the value of the integer, and overflows exactly from 2^256 on |
| DerLax.Fill | PublicKey.cpp:116-149 | the two halves make the meaning of the two integers |
| DerGrammar.AcceptedIsWellFormed | PublicKey.cpp:22-114 | a string is accepted exactly when it has the parts of the grammar, and its integers are determined |
| DerGrammar.WellFormedIsRead | PublicKey.cpp:22-114 | every well-formed string is read as the integers it was made of, the length of the sequence skipped and trailing bytes ignored |
| DerGrammar.AcceptedBytes | PublicKey.cpp:25-114 | the accepted strings are exactly 0x30, a length field, 0x02, length and content of r, 0x02, length and content of s, and anything |
| DerGrammar.OtherFirstBytesAreRefused | PublicKey.cpp:25-27 | without a first byte 0x30 a string is refused |
| DerGrammar.OtherFirstTagsAreRefused | PublicKey.cpp:31-46 | whatever the length of the sequence says, a string that has no 0x02 after it is refused |
| DerGrammar.OtherSecondTagsAreRefused | PublicKey.cpp:81-84 | and so is one that has no 0x02 after a first integer |
| DerGrammar.LongExample | PublicKey.cpp:22-114 | a string with a wrong sequence length, long lengths, a padded length and a trailing byte is read as (256, 7) big-endian |
| DerEncoding.DerRoundTrip | PublicKey.cpp:8-150 | parsing the DER encoding of (r, s) gives back exactly (r, s), for all r and s below the order |
| DerEncoding.DerSignatureBytes | PublicKey.cpp:41-114 | that encoding, byte by byte |
| DerGrammar.GroupOrder | PublicKey.cpp:140-149 | the order of the group, as its distance from 2^256 |
| DerEncoding.DerIntegerIsUnique | PublicKey.cpp:116-120 | the content of an integer is the one that X.690 section 8.3 allows |
| DerEncoding.PaddingIsIgnored | PublicKey.cpp:116-138 | leading zeros of the integers, with whatever fields state the new lengths, do not change the result |
| DerEncoding.LengthsMayBePadded | PublicKey.cpp:57-69 | leading zeros of a long-form length, up to 127 bytes, state the same length |
| DerEncoding.LaxRoundTrip | PublicKey.cpp:41-145 | every lax encoding of (r, s) gives back exactly (r, s) |
| DerEncoding.VerifySignature | PublicKey.cpp:207-232 | false when the key does not parse or the input is refused; otherwise what the check says of (r, the lower of s and order - s), or of (0, 0) when a number is out of range; for the DER encoding of (r, s), of exactly these |
| DerEncoding.VerdictsIgnoreEncoding | PublicKey.cpp:219-231 | two accepted encodings get the same verdict from every key and check if and only if they hold the same r and s, or s and order - s, or both are read as (0, 0) |

## Left out

- Sockets, coroutines, threads, sleeps, console output and random choice: channels, atomic steps and free choice stand for them.
- Containers read without the mutex, and other threads acting between the receive and the dispatch of a message.
- TCP coalescing, splitting, reset and loss of data.
- A connection attempt that fails, and a port that is bound by somebody else: such a step does not happen in the network.
- IPv6 endpoints of sockets: the nodes live on the IPv4 local host.
- `pack_public_key`, and what `unpack_public_key` does with the key it has read: no container changes.
- Elliptic-curve arithmetic: whether a signature is valid for a key is a parameter.
- Real time, fairness, and whether the graph of friends is connected.
- Wallets, private keys, the mempool and transactions: wrappers and declarations.
- GraphNodes.GraphNode.DisconnectionRound: the choice of the friend is free, because the source takes it at random.
