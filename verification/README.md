# A verified model of rtc_stack

This project models the parts of rtc_stack, a WebRTC server stack with a vendored libevent, whose behaviour is
hardest to see from any one function, and proves what they promise over all inputs, all runs or all reachable
states. `dafny verify dfyconfig.toml` (Dafny 4.11) checks the whole of it.

Basics holds the few definitions that all parts share. Each part has a specification on values (functions and step
relations), theorems about that specification, and, where the source works by changing things in place, classes and
loops proved to compute it.

| part | files | main results |
|---|---|---|
| DNS names, sections 4.1.2 and 4.1.4 of RFC 1035 | DnsNames, DnsCompression, DnsCodec | the parser is exact; compressed names round trip |
| DNS lookups | DnsServers, DnsRequests, DnsLookups, DnsSearch, DnsProbes, RequestRing, DnsResolver | exactly one completion per lookup; two linked rings, ids and counters stay sound; round-robin; search order over whole runs; when the count of good servers is exact |
| What events mean to lookups and servers | DnsHealth, DnsReplies, DnsVerdicts, DnsOutcomes, DnsAttention, DnsQueues, DnsSending | what every answer and every timeout does to its lookup and to every server, for all headers; every lookup can be made to fail; no request is forgotten; queues are served in order |
| ICE, DTLS and the connection | RtcSession, RtcInvariants, RtcRuns, RtcOutcomes, RtcObjects | progress in every interleaving; what brings a transport into a state and a connection to a verdict, exactly; when reports stay in order and when ready, gathered and failed can be reached, all exactly |
| Event loop | Timeval, MinHeap, EventBook, EventEffects, EventLoop | books that balance in every run; what each call does to its event and to nothing else; exact timers over the real heap; when the heap survives the clock |
| Buffers and records | EvBuffer, Tagging, BufferEvent | refinement of byte sequences; when records round trip, exactly; no lost wakeup |
| Backends | Backends | each kernel watches what its table asks for; when epoll and /dev/poll agree, exactly |
| SDP | SdpText, SdpPayload, SdpNegotiation | candidates round trip; the negotiated list is exact; when payload types are found again, negotiated or not |
| Bracket matching | Brackets, BracketTheory, BracketLines | the places found are exactly the partners, angle brackets included; when forward and backward matching invert each other |

What the outside world decides is a parameter or part of a step: the ids the id function draws, the results of
`sendto`, the lookups that callbacks of the resolver start before they return, what libnice calls back with, what
OpenSSL and libsrtp answer, the clock, the result of reads, and whether a backend accepts an event. Memory is always
available. Tasks of a worker and callbacks are atomic steps.

## Properties that hold under a condition

Some properties one would expect are false of the code as it is. The code is kept, and the exact condition is
proved.

- A lookup that fails is asked under all names of its search order only if every one of them is accepted: the first
  name that is too long, or has a label that is, ends the lookup, and the names behind it are never asked.
- The count of good servers is exact as long as servers are never cleared while a probe of one that is down is
  queued. The probe keeps its pointer to the freed server, and a good answer then counts a server that is gone. The
  model lets a freed record keep its contents.
- The encoder of names may store one byte behind the room it is given: its closing zero is not checked. It does so
  exactly for a name that is written out, does not end in a dot and just fills the room; a query never does.
- The reports of a connection stay in order only for orderly configurations. A bundled connection with two
  transports and no trickle can report ready and then gathered, because the second transport may gather late. The
  code gets there when `createOffer` without bundle has made two transports and the answer is bundled. Without bundle
  it takes a remote description that is content with one medium which the local one does not name; as
  `processRemoteSdp` copies the media of the remote description to the local one (SdpInfo.cpp:509-510), that leaves
  a remote description without any medium.
- A connection without RTCP multiplexing can never become ready. The transport constructor assigns 2 to the flag
  `rtcp_mux` where the component count is meant, so the second component is never set up.
- The difference between the high mark and the length of a buffer is stored in an `int`. A mark 2^31 or more above
  the length reads as negative and stops reading for good.
- A correction of the clock keeps the timer heap in order, whatever its amount, if and only if every event in it and
  its parent are steady. A caller of `event_add` can give a timeout that is not normalised, so that they need not be steady.
- The tagging decoders store the length of their buffer in an `int`. Numbers, tags and records are read back if and
  only if that int shows them, which it does below 2^31 bytes; from there to 2^32 bytes nothing is decoded.
- `evtag_peek_length` announces what `evtag_consume` takes away only for a record that has arrived in full and is
  below 2^32 bytes.
- epoll and /dev/poll keep the same table if and only if no event is added for a direction in which another one
  waits: epoll puts it in the other's place, and /dev/poll refuses it.
- The payload maps invert only if internal codecs of the same name and clock share a payload type; from outside,
  only the greatest payload type offered for a codec is found again. The lookups give back a number they do not
  find, so that a number that is not negotiated is found again unless the other side uses it for a codec.
- A candidate is parsed back only if it is a UDP candidate and its foundation is not empty and has no colon.
- What forward matching finds from a left angle bracket lies past a right one only if the left one belongs to no
  operator; otherwise the scan goes on and finds the end of whatever comes next. In lines with such operators the two
  matchings need not invert each other from angle brackets; from round, square and curly brackets they always do.
- A compression pointer keeps 14 bits, so a name written at 0x4000 or beyond cannot be pointed to; the theorems on
  names read back speak of messages of at most 0x4000 bytes, and the buffers of the source have 1500.

## Where code and comments disagree

The model follows the code.

- On SERVERFAILED the log of `reply_handle` says that the request is left to time out; the code searches on or
  passes the failure up.
- Suspending puts the requests in flight before the waiting ones one by one, so their order is reversed.
- `transaction_id_pick` loops for ever once all 65535 ids are in flight. The model's draws are a finite list, after
  which the next draw is one that is free; a probe is sent only while there is one.
- The state TRANSPORT_STARTED exists and is handled, but no run reaches it.
- For ICE, failed ranks above finished, so closing a failed connection leaves it failed.
- `evbuffer_readln` with EVBUFFER_EOL_ANY takes all line endings that follow, and so skips empty lines.

## Model

| member | source | states |
|---|---|---|
| `DnsNames.ParseIsExact` | src/3rd/libevent/evdns.c:766-820 | The name parser accepts exactly the bytes from which the labels and pointers lead to an end in finitely many steps and whose text fits; its limit on jumps rejects nothing but loops; text and end index are those of the walk |
| `DnsNames.MeaningIsName` | src/3rd/libevent/evdns.c:1372-1437 | Joining the labels a name means gives the name back if and only if the name is proper: no empty label and no trailing dot |
| `DnsNames.MeaningFits` | src/3rd/libevent/evdns.c:1372-1437 | The joined labels of a name are no longer than the name |
| `DnsCodec.NameParse` | src/3rd/libevent/evdns.c:766-820 | The parser with its cursor, jump counter and output array computes the parse that ParseIsExact describes |
| `DnsCompression.EncodeResolves` | src/3rd/libevent/evdns.c:1372-1437 | What the encoder writes at an index is read back from there as the meaning of the name, in the message so far and in every extension of it |
| `DnsCompression.EncodeKeepsTable` | src/3rd/libevent/evdns.c:1345-1437 | Every entry of the label table keeps resolving to its own suffix, strictly backwards and below 0x4000 |
| `DnsCompression.NamesReadBack` | src/3rd/libevent/evdns.c:1372-1437 | Any names written into one message with a shared table are all read back, each from its own start and up to the index the encoder returned, even after later appends |
| `DnsCompression.WriteSucceeds` | src/3rd/libevent/evdns.c:1372-1437 | A message of names with short labels and at most 255 bytes, and of other fields, is written without an error, and fits, when the room is enough for every name written out, however its names share suffixes |
| `DnsCompression.ProperNamesRoundTrip` | src/3rd/libevent/evdns.c:766-820 | For proper names of labels up to 63 bytes and 255 in all the text read is the text written |
| `DnsCompression.RequestReadsBack` | src/3rd/libevent/evdns.c:1453-1477 | A request is built if and only if its name has at most 255 bytes and no label over 63, and then fits the length computed for it with its closing zero. The id, the flags and the count of questions read back from the header, the name from index 12 if and only if it is proper, the type and the class from the last four bytes; the reader stops at the type if and only if no empty label lies inside the name |
| `DnsCompression.OverrunIff` | src/3rd/libevent/evdns.c:1400-1432 | The encoder stores a byte behind the room it was given, and then exactly one, if and only if the name has short labels and at most 255 bytes, does not end in a dot, shares no suffix with the table, and its text with one more byte just fills the room |
| `DnsCompression.OverrunExample` | src/3rd/libevent/evdns.c:1432 | A name of one letter with two bytes of room ends at the third |
| `DnsCompression.PointerReaches` | src/3rd/libevent/evdns.c:1389-1397 | A two-byte pointer reaches its target if and only if the target is below 0x4000 |
| `DnsCompression.EmptyLabelStopsReader` | src/3rd/libevent/evdns.c:1400-1432 | Every name with an empty label inside is written in full, and read from anywhere only up to that label: the text before it comes back, and the reader stops behind the zero that is its length |
| `DnsCodec.LabelTable.GetPos` | src/3rd/libevent/evdns.c:1333-1342 | The loop over the table finds the first entry for a label, or -1 |
| `DnsCodec.LabelTable.Add` | src/3rd/libevent/evdns.c:1345-1359 | Adding appends one entry, until the table of 128 is full |
| `DnsCodec.DnsNameToLabels` | src/3rd/libevent/evdns.c:1372-1437 | The in-place encoder writes the bytes of the specification, returns its index and extends the table as it does; nothing before the start changes. A buffer of exactly the length passed is enough for every name that does not overrun it |
| `DnsServers.PickIsGood` | src/3rd/libevent/evdns.c:1126-1157 | While the count of good servers is exact and a server is up the pick is one that is up, found within one trip round the ring, so the assertion on a full trip is never reached, and the ring is only rotated |
| `DnsServers.RoundRobin` | src/3rd/libevent/evdns.c:1126-1157 | With an exact count and states unchanged, successive picks go through the servers that are up in cyclic order |
| `DnsServers.NoRepeatInATurn` | src/3rd/libevent/evdns.c:1126-1157 | No server is picked twice before every server that is up has been picked |
| `DnsServers.MarkKeeps` | src/3rd/libevent/evdns.c:497-553 | Marking a server down or up changes the count of good servers as it changes the number that are up, and never takes an exact count below zero |
| `DnsServers.AddServerKeeps` | src/3rd/libevent/evdns.c:2116-2175 | Adding a server keeps the servers distinct and the count as exact as it was; a known address is refused |
| `DnsServers.AddedOnce` | src/3rd/libevent/evdns.c:2116-2133 | No address is configured twice |
| `DnsServers.AddedIsNext` | src/3rd/libevent/evdns.c:2150-2163 | A new server stands behind the head: if the head is up, it is picked next and the new server after it |
| `DnsServers.AllDownInTurn` | src/3rd/libevent/evdns.c:1126-1140 | With no good server successive picks go round all servers, from the one behind the head on |
| `DnsLookups.StepKeeps` | src/3rd/libevent/evdns.c:565-764 | Every event keeps the queue invariant and the ledger of lookups, whatever ids are drawn, whatever sendto answers and whatever lookups callbacks start before they return. To a lookup that is there it does nothing, or trades its question for the next name of its search, or ends it with one callback, for a failure that is no timeout only when no name follows |
| `DnsLookups.QueuesStaySound` | src/3rd/libevent/evdns.c:565-654 | In every run the counters are the lengths of the queues, ids in flight are distinct and never 0xffff, requests in flight have a configured server and waiting ones have none; and the count of good servers is exact unless servers were cleared under a queued probe of one that was down |
| `DnsLookups.FreeIdExists` | src/3rd/libevent/evdns.c:1111-1120 | Of the ids that may be drawn one is free if and only if fewer than 65535 requests are in flight, so that drawing ends |
| `DnsLookups.ExactlyOneCompletion` | src/3rd/libevent/evdns.c:657-764 | In every run a lookup that was taken on has had its callback exactly once and is carried by no request, or never and is carried by exactly one request of one queue |
| `DnsLookups.ResolveKeeps` | src/3rd/libevent/evdns.c:2295-2391 | A lookup is taken on if and only if its first name is accepted; it is then carried by one request and asked under that name once, and no lookup that is there is touched |
| `DnsLookups.AnswerKeeps` | src/3rd/libevent/evdns.c:657-690 | A callback counts once for its own lookup and for no other, whatever lookups it starts before it returns, and the request it was made for stays in flight until it is finished |
| `DnsLookups.PumpKeeps` | src/3rd/libevent/evdns.c:627-654 | After the pump either nothing waits or the number in flight has reached its limit |
| `DnsLookups.SuspendKeeps` | src/3rd/libevent/evdns.c:2057-2104 | Suspension keeps the invariant and every question; nothing is left in flight, no server is left, and all requests wait, those that were in flight first |
| `DnsLookups.SuspendedOrder` | src/3rd/libevent/evdns.c:2079-2099 | The requests that were in flight come before all that wait, in reverse order |
| `DnsLookups.FailKeeps` | src/3rd/libevent/evdns.c:741-764 | A failed attempt trades its question for the next name of the search; when there is none, or it is refused, the callback is made and the question is gone |
| `DnsLookups.TimeoutKeeps` | src/3rd/libevent/evdns.c:1886-1908 | A timeout keeps the invariant: the request is sent again or its lookup is concluded |
| `DnsSearch.TriesFollowOrder` | src/3rd/libevent/evdns.c:2497-2600 | The first name of a lookup and those that follow it failure by failure are: the name and then each suffix if it has enough dots, otherwise each suffix and then the name; without a search only the name |
| `DnsSearch.SearchAdvances` | src/3rd/libevent/evdns.c:2563-2600 | What one event does to a lookup advances it by at most one name of its order: a failure moves it to the next name, and ends it after the last one or when the next one is refused |
| `DnsSearch.NamesAskedInOrder` | src/3rd/libevent/evdns.c:2523-2600 | In every run in which no search is changed, the names asked for a lookup are a beginning of its order without gap or repetition; they end before the first name that is refused, and reach it if the lookup fails other than by a timeout, which ends the search; the lookup is taken on if and only if the first name is accepted |
| `DnsSearch.WholeOrderIff` | src/3rd/libevent/evdns.c:2563-2600 | A lookup that fails other than by a timeout was asked under every name of its order if and only if every name of the order is accepted |
| `DnsSearch.LongNameIsNeverAsked` | src/3rd/libevent/evdns.c:2523-2560 | A name of 255 bytes with too few dots is refused under its first suffix and in no run asked at all, although it could be asked as it is |
| `DnsSearch.AddedSuffixFirst` | src/3rd/libevent/evdns.c:2435-2475 | A domain that is added stands before those that are there: from then on lookups are asked under it first, or right after the name itself if that has enough dots, and then as before |
| `DnsSearch.StripIs` | src/3rd/libevent/evdns.c:2437-2439 | Of a domain that is added all dots at its beginning are dropped and nothing else |
| `DnsSearch.SearchIsSet` | src/3rd/libevent/evdns.c:2422-2482 | The number of dots decides whether a name is asked before its suffixes or after them; after clearing it is asked alone, and searches on their way keep their domains |
| `DnsOutcomes.CanFail` | src/3rd/libevent/evdns.c:693-764 | From every reachable state with a server, every lookup that was taken on and not yet answered has a continuation, of answers alone, in which it fails other than by a timeout |
| `DnsOutcomes.WholeOrderIsAsked` | src/3rd/libevent/evdns.c:2563-2600 | Every lookup whose first name is accepted has a run in which it is asked under all names of its order before the first one that is refused, and fails: WholeOrderIff speaks of something |
| `DnsReplies.BadAnswer` | src/3rd/libevent/evdns.c:693-757 | An answer that is truncated, has an RCODE or no record, from any configured server and whatever the world decides: if it is NOTIMPL or REFUSED, the request may be reissued and another server is picked, the request goes there and its lookup does not notice. In every other case the lookup is asked under the next name of its search, and if there is none its callback is told the failure that the RCODE names in section 4.1.1 of RFC 1035, or that the answer is truncated |
| `DnsReplies.GoodAnswer` | src/3rd/libevent/evdns.c:758-763 | An answer with a record ends the lookup it is for with success |
| `DnsReplies.NoAnswer` | src/3rd/libevent/evdns.c:1172-1193 | What does not say that it is an answer, and what answers no request in flight, touches no request and no lookup |
| `DnsReplies.GoesElsewhereIff` | src/3rd/libevent/evdns.c:604-622 | For a request that has been sent, with an exact count: another server is picked if and only if another one is up, or none is and the one behind the head is another |
| `DnsReplies.BadAnswerJudges` | src/3rd/libevent/evdns.c:711-738 | Unless a send fails, such an answer does to the servers just this: the one it came from has no timeouts; the one that was asked is down if it is blamed and the request may be reissued, as it was after SERVERFAILED and when it may not, and up in all other cases; the others are as they were |
| `DnsVerdicts.GoodAnswerJudges` | src/3rd/libevent/evdns.c:758-763 | The same for a good answer: the server that was asked is up, whatever its callback starts |
| `DnsReplies.TimerFires` | src/3rd/libevent/evdns.c:1886-1908 | A request whose timer fires is given up with a timeout if it has been sent as often as allowed; before that it is sent once more and its timer runs, or it is held back if its socket is choked |
| `DnsReplies.TimerJudges` | src/3rd/libevent/evdns.c:1893-1897 | Unless a send fails, a timeout counts against the server that was asked, which is down and has none counted when there are too many; the others are as they were |
| `DnsVerdicts.ProbeJudges` | src/3rd/libevent/evdns.c:1988-2000 | Unless a send fails, for every answer to a probe: the server that was asked is judged as above, and if the answer blames it and another is to be tried the probe goes on. In all other cases the server that is probed is up if there is an answer or the name does not exist, and also if it has answered itself and neither failed nor refused; otherwise it stays as it is and one more failure is counted. The others are as they were |
| `DnsVerdicts.ProbeTimerJudges` | src/3rd/libevent/evdns.c:474-492 | The timeout of a probe counts against the server that was asked; when the probe is given up one more failure counts against the server that is probed |
| `DnsVerdicts.ErrorMovesRequests` | src/3rd/libevent/evdns.c:497-540 | With an exact count, an error on a socket takes its server for down. Its requests that have not been sent go to servers that are up if there are any; every other request stays as it is, and so do the other servers |
| `DnsAttention.StepMinds` | src/3rd/libevent/evdns.c:627-654 | Every event leaves each request in flight with its timer running or marked to be sent, and takes no more in flight than the limit or than there were, but for a probe |
| `DnsAttention.NoneForgotten` | src/3rd/libevent/evdns.c:1946-1985 | In every run each request in flight has its timer running or is marked to be sent |
| `DnsAttention.LimitIsKept` | src/3rd/libevent/evdns.c:2238-2278 | In every run without probes and options at most 64 requests are in flight |
| `DnsQueues.ResumeIsFair` | src/3rd/libevent/evdns.c:627-654 | Resuming leaves what is asked in the same order, requests in flight first: those that wait go in flight first come first served, until none waits or the limit is reached, and not beyond it |
| `DnsQueues.RoomIsUsed` | src/3rd/libevent/evdns.c:565-601 | After an answer, whatever it says and whatever the world decides, none waits while the limit leaves room, unless the request stays in flight |
| `DnsQueues.AnsweredLeavesLine` | src/3rd/libevent/evdns.c:565-601 | A good answer whose callback starts no lookup takes its request out and leaves all others in their order |
| `DnsQueues.CallbackStarts` | src/3rd/libevent/evdns.c:657-690 | The lookups that a callback starts get the next numbers, and each is taken on if and only if its first name is accepted |
| `DnsQueues.SuspendedWait` | src/3rd/libevent/evdns.c:2057-2104 | After suspension the requests that were in flight wait first, the last one first, each as if it had never been sent, and then those that waited |
| `DnsSending.LookupIsSent` | src/3rd/libevent/evdns.c:2214-2292 | A lookup whose first name is accepted is the last in flight, for the next server in turn, if the limit leaves room and there is a server, and otherwise the last to wait. Its timer runs if sendto succeeded or failed, it is marked if the socket was or would block, which is then choked, and a server to which sendto failed is down |
| `DnsSending.WritableSends` | src/3rd/libevent/evdns.c:1271-1280 | When a socket can be written and sendto succeeds, each request that waits for that socket or an open one is sent, and nothing else changes |
| `DnsSending.ResumeSendsAll` | src/3rd/libevent/evdns.c:627-654 | Resuming with sendto succeeding leaves nothing to be sent but what a choked socket holds back |
| `DnsSending.ProbeIsSent` | src/3rd/libevent/evdns.c:2002-2015 | The timer of a server that is down puts one probe of it in flight, to that server, with an id that is free, sent or held back by its choked socket |
| `DnsProbes.CleanRunsStayExact` | src/3rd/libevent/evdns.c:497-553 | In every run that never clears the servers while a probe of one that is down is queued the count of good servers is the number that are up |
| `DnsProbes.ClearIsSafeIff` | src/3rd/libevent/evdns.c:2057-2104 | After such a run, clearing the servers leaves the count exact in all continuations up to the next clear if and only if no probe of a server that is down is queued; answers come from configured servers only |
| `DnsProbes.GoodReply` | src/3rd/libevent/evdns.c:1988-2000 | For every request in flight, every configured server the answer may come from and every header that means success: the count becomes wrong by one more if and only if the request is the probe of a server that was freed while it was down; otherwise it is as exact as it was; and the request is gone, if no callback starts a lookup |
| `DnsProbes.ProbeOutlivesServer` | src/3rd/libevent/evdns.c:2065-2099 | A server is added and goes down, its probe is sent, the servers are cleared, another is added, the probe is sent again and answered: the count is two and one server is up |
| `RequestRing.InsertRing` | src/3rd/libevent/evdns.c:2214-2225 | Linking a node before the head of a well-formed circular list appends it to the list |
| `RequestRing.RemoveRing` | src/3rd/libevent/evdns.c:565-601 | Unlinking a node leaves a well-formed circular list without it, with the head moved on if it was the head |
| `RequestRing.SurgeryIsLocal` | src/3rd/libevent/evdns.c:2214-2225 | Work on one ring leaves a disjoint ring as it was |
| `RequestRing.Queues.Allocate` | src/3rd/libevent/evdns.c:2238-2278 | A request is allocated under a number no other has, and is on neither ring |
| `RequestRing.Queues.InsertInflight` | src/3rd/libevent/evdns.c:2214-2225 | The request becomes the last of the ring in flight, whose counter is its length; the other ring is untouched, and the requests allocated are those on the two rings |
| `RequestRing.Queues.InsertWaiting` | src/3rd/libevent/evdns.c:2281-2292 | The same for the waiting ring |
| `RequestRing.Queues.Unlink` | src/3rd/libevent/evdns.c:565-601 | The ring in flight without the request, which is counted off and freed; both rings stay well formed, whatever place it had |
| `RequestRing.Queues.TakeFirst` | src/3rd/libevent/evdns.c:634-645 | The first waiting request leaves its ring and is counted off |
| `RequestRing.Queues.Requeue` | src/3rd/libevent/evdns.c:2079-2099 | One request in flight is reset and becomes the first of the waiting ring; the pointers of those still to be moved are untouched |
| `RequestRing.Queues.Suspend` | src/3rd/libevent/evdns.c:2073-2102 | The walk along the ring in flight moves every request before the waiting ones, in reverse, and stops after the last; both counters are the lengths of the rings |
| `DnsResolver.Resolver.constructor` | src/3rd/libevent/evdns.c:300-330 | No servers, two empty rings, and the initial state of the state machine |
| `DnsResolver.Resolver.NameserverPick` | src/3rd/libevent/evdns.c:1126-1157 | The head moves as the specified pick says |
| `DnsResolver.Resolver.NextGood` | src/3rd/libevent/evdns.c:1141-1156 | The search along the ring ends where the specified pick ends |
| `DnsResolver.Resolver.FindFromTransId` | src/3rd/libevent/evdns.c:444-455 | The walk along the ring in flight finds the first request with the id, or none |
| `DnsResolver.Resolver.TransactionIdPick` | src/3rd/libevent/evdns.c:1111-1120 | The drawing loop returns an id that is not 0xffff and not in flight, if one is free |
| `DnsResolver.Resolver.ReassignRequests` | src/3rd/libevent/evdns.c:519-540 | The walk along the ring gives every request that was not yet sent to the failed server to another, as specified |
| `DnsResolver.Resolver.TransmitEach` | src/3rd/libevent/evdns.c:2021-2039 | The walk along the ring sends all requests marked for sending, in order |
| `DnsResolver.Resolver.PumpWaiting` | src/3rd/libevent/evdns.c:627-654 | The loop moves requests from ring to ring as the specified pump does; the rings stay well formed and their counters exact |
| `DnsResolver.Resolver.StartLookups` | src/3rd/libevent/evdns.c:657-690 | The lookups a callback starts are started one after the other, and no request that was in flight moves |
| `DnsResolver.Resolver.ResolveName` | src/3rd/libevent/evdns.c:2295-2391 | Starting a lookup is the step of the state machine, and keeps the rings well formed, their counters exact and the invariant of the resolver |
| `DnsResolver.Resolver.ReadReply` | src/3rd/libevent/evdns.c:1172-1193 | The same for a reply, which reaches the request of its id and no other; BadAnswer, GoodAnswer, BadAnswerJudges, GoodAnswerJudges and ProbeJudges say what that step does to lookups and servers |
| `DnsResolver.Resolver.RequestTimedOut` | src/3rd/libevent/evdns.c:1886-1908 | The same for the timer of a request; TimerFires, TimerJudges and ProbeTimerJudges say what that step does |
| `DnsResolver.Resolver.ProbeServer` | src/3rd/libevent/evdns.c:2002-2015 | The same for a probe, which goes in flight whatever the limit; ProbeIsSent says how |
| `DnsResolver.Resolver.ServerWritable` | src/3rd/libevent/evdns.c:1271-1280 | The same for a socket that can be written again; WritableSends says what is sent |
| `DnsResolver.Resolver.ServerUnreachable` | src/3rd/libevent/evdns.c:1180-1185 | The same for an error on a socket; ErrorMovesRequests says what becomes of its requests |
| `DnsResolver.Resolver.NameserverAdd` | src/3rd/libevent/evdns.c:2116-2181 | The same for a new server |
| `DnsResolver.Resolver.ClearAndSuspend` | src/3rd/libevent/evdns.c:2057-2104 | The same for suspension: the servers are freed and every request waits |
| `DnsResolver.Resolver.ResumeSending` | src/3rd/libevent/evdns.c:2109-2113 | The same for resuming; ResumeIsFair says in which order |
| `DnsResolver.Resolver.SearchAddDomain` | src/3rd/libevent/evdns.c:2435-2475 | The same for a new suffix |
| `DnsResolver.Resolver.SearchSetNdots` | src/3rd/libevent/evdns.c:2478-2482 | The same for the number of dots |
| `DnsResolver.Resolver.SearchStartOver` | src/3rd/libevent/evdns.c:2422-2432 | The same for a new search; requests keep the old one |
| `DnsResolver.Resolver.SetOption` | src/3rd/libevent/evdns.c:2657-2710 | The same for an option; the limit on requests in flight is clipped to 65000 |
| `RtcInvariants.StepKeeps` | src/erizo/DtlsTransport.cpp:175-436 | Every callback, task, timer and call keeps the session invariant, among it: a waiting report of gathered candidates is the first task of its transport, and a ready transport has its keys |
| `RtcRuns.TransportsNeverGoBack` | src/erizo/DtlsTransport.cpp:253-436 | In every interleaving the ICE states come in the order of the enumeration, the transport moves only forward along initial, gathered, ready, failed, finished, and is never TRANSPORT_STARTED |
| `RtcRuns.ComponentsDecide` | src/erizo/LibNiceConnection.cpp:438-466 | In every run an ICE connection has become ready only when all its components were ready, and has failed only when all had failed and the last candidate had come or it had been ready |
| `RtcRuns.ReadyIsEarned` | src/erizo/WebRtcConnection.cpp:673-692 | The connection becomes ready only when every transport the remote description asks for, or the bundled one, is ready, with ICE having become ready when all its components were, the handshake done and an active SRTP channel |
| `RtcRuns.ReportsInOrder` | src/erizo/WebRtcConnection.cpp:619-726 | In all runs the reports gathered, ready, failed come in this order and each at most once, if and only if the configuration is orderly |
| `RtcRuns.GoesBack` | src/erizo/WebRtcConnection.cpp:645-672 | Every configuration that is not orderly has a run that reports ready and then gathered |
| `RtcRuns.ReadyIffPossible` | src/erizo/DtlsTransport.cpp:123-158 | Some run becomes ready if and only if RTCP is multiplexed and every medium asked for has a transport: without multiplexing the component count stays one |
| `RtcRuns.FailureIsFinal` | src/erizo/WebRtcConnection.cpp:627-630 | A failed connection stays failed and silent until it is closed, and does not send; FailureIsReported says when it fails |
| `RtcRuns.ClosedIsFinal` | src/erizo/WebRtcConnection.cpp:55-75 | After close nothing changes and nothing is reported, and the transports stay finished |
| `RtcOutcomes.EntersIff` | src/erizo/DtlsTransport.cpp:337-436 | In every reachable state and for every event: a transport enters another state if and only if the event causes it. Those are: gathered, for a running transport that hears of candidates; ready, with good keys on its first completed handshake; failed, with bad keys, a failed handshake, failed ICE or the last check; finished, by closing |
| `RtcOutcomes.IceFollows` | src/erizo/LibNiceConnection.cpp:438-466 | An event brings an ICE connection into another state if and only if it causes that and the state comes later; its listener is told just then, unless it is being closed. Ready and failed need all components, and failed the last candidate or a connection that was ready |
| `RtcOutcomes.HandshakeStarts` | src/erizo/DtlsTransport.cpp:424-432 | A running client that has not started its handshake starts it when its ICE connection is ready, and has it checked unless it is ready already; a server and one that has started do nothing |
| `RtcOutcomes.ChecksRunOut` | src/erizo/DtlsTransport.cpp:74-93 | A handshake that makes no progress survives as many checks as it has left and fails with the next one |
| `RtcOutcomes.StopsIff` | src/erizo/Transport.h:106-118 | A transport runs after an event if and only if it ran before and the event does not stop it. Stopped it is by failed ICE, a failed handshake, the last check, the end of its data and closing; bad keys do not stop it |
| `RtcOutcomes.ClosedIsSilent` | src/erizo/LibNiceConnection.cpp:106-125 | After a connection is closed nothing is posted to its worker any more in any run: what waits is an end of what waited, no timer runs, no agent calls back, and no transport runs |
| `RtcOutcomes.ConnectionFollows` | src/erizo/WebRtcConnection.cpp:619-726 | In every run, an event that does not close brings a connection that is neither failed nor closed to failed if a transport enters that; else to ready if one does and all that the remote description asks for are, or they are bundled; else to gathered likewise without trickle; and leaves it as it is otherwise. A change is reported, once, and sending stops just when a transport fails |
| `RtcOutcomes.FailureIsReported` | src/erizo/WebRtcConnection.cpp:694-726 | An open connection fails in an event if and only if a transport fails in it; it then stops sending, and the last report is the failure |
| `RtcOutcomes.FailedIffPossible` | src/erizo/WebRtcConnection.cpp:694-699 | Some run makes a connection fail, and report it, if and only if it has a transport |
| `RtcOutcomes.GatheredIffPossible` | src/erizo/WebRtcConnection.cpp:645-672 | Some run makes a connection report that it has gathered if and only if candidates are not trickled, it has a transport, and so has every local medium unless the media are bundled |
| `RtcObjects.IceConnection.constructor` | src/erizo/IceConnection.cpp:16-23 | The loop sets every component to the initial state |
| `RtcObjects.IceConnection.AllInState` | src/erizo/LibNiceConnection.cpp:446-459 | The loop over the components says whether all are in a state |
| `RtcObjects.IceConnection.UpdateComponentState` | src/erizo/LibNiceConnection.cpp:438-466 | The two loops decide as specified; the connection enters READY and FAILED only as its components allow, and its states stay in order |
| `RtcObjects.Session.constructor` | src/erizo/WebRtcConnection.cpp:77-160 | The objects of a connection, which share nothing, are the initial state and keep the session invariant |
| `RtcObjects.Session.StartTransport` | src/erizo/LibNiceConnection.cpp:158-166 | Starting a transport is the step of the session, and keeps its invariant |
| `RtcObjects.Session.ComponentChanged` | src/erizo/LibNiceConnection.cpp:438-466 | The same for a component: the ICE connection decides, and its listener posts the new state |
| `RtcObjects.Session.CandidatesGathered` | src/erizo/LibNiceConnection.cpp:349-356 | The same when candidates have been gathered |
| `RtcObjects.Session.DataArrived` | src/erizo/LibNiceConnection.cpp:127-145 | The same for a packet, which is posted only while ICE is ready |
| `RtcObjects.Session.SetLastCandidate` | src/erizo/LibNiceConnection.cpp:499-502 | The same for the last candidate |
| `RtcObjects.Session.SetRemoteCandidates` | src/erizo/LibNiceConnection.cpp:278-285 | The same for remote candidates without an agent, which close the ICE connection |
| `RtcObjects.Session.RunNext` | src/erizo/DtlsTransport.cpp:253-436 | The same for the oldest task of the worker, with everything it makes the transport and the connection do; EntersIff, StopsIff and ConnectionFollows say what that is |
| `RtcObjects.Session.TimerFired` | src/erizo/DtlsTransport.cpp:74-93 | The same for the handshake check; ChecksRunOut says when it fails |
| `RtcObjects.Session.Close` | src/erizo/WebRtcConnection.cpp:55-75 | The same for closing: both transports and their ICE connections are closed, the listener is gone |
| `Timeval.TimesAreMicros` | src/3rd/libevent/evutil.h:126-155 | On normalised times comparison, sum and difference are those of microseconds |
| `Timeval.SubKeepsOrder` | src/3rd/libevent/event.c:879-890 | Subtracting the same normalised amount keeps the order of two deadlines, for all amounts, if and only if they are steady: the earlier one has not so many microseconds that the later one overtakes it from the next second |
| `EventBook.BooksBalance` | src/3rd/libevent/event.c:919-979 | In every run of add, del, activate, timers, clock corrections and active processing each flag is membership of its queue exactly once, event_count is the memberships of non-internal events and event_count_active the summed active queues |
| `EventBook.TimersExact` | src/3rd/libevent/event.c:895-917 | After timer processing every deadline left is later than now, exactly the due events are active, once, with EV_TIMEOUT only, at the end of their priority in deadline order, and nothing else changed |
| `EventBook.CorrectionKeeps` | src/3rd/libevent/event.c:860-893 | A clock correction changes no queue, leaves each timer the microseconds it had, keeps steady deadlines in order and normalised ones normalised |
| `EventBook.DelKeeps` | src/3rd/libevent/event.c:773-807 | Deleting takes the event off all its queues and keeps the books |
| `EventBook.AddKeeps` | src/3rd/libevent/event.c:695-771 | Adding keeps the books, also when the backend refuses; no queue is entered twice; AddIs says what it does |
| `EventBook.ActivateKeeps` | src/3rd/libevent/event.c:809-822 | Activating keeps the books |
| `EventBook.TakeKeeps` | src/3rd/libevent/event.c:369-373 | Taking the next active event keeps the books |
| `EventEffects.AddIs` | src/3rd/libevent/event.c:695-771 | An event that waits for I/O and is neither inserted nor active is offered to the backend. Refused, the result is -1 and nothing changes. Otherwise the result is 0, the event is the last of the queue, with its flag; with a timeout it is in the heap, due at now plus that, and no longer active because of an older timeout; in every case all other events, all other queues and the order of the rest are as they were |
| `EventEffects.ScheduleIs` | src/3rd/libevent/event.c:734-768 | A timeout takes the place of an older one and of what that one has made active; nothing else changes |
| `EventEffects.DelIs` | src/3rd/libevent/event.c:773-807 | The event is off all queues, and all else is as it was |
| `EventEffects.ActivateIs` | src/3rd/libevent/event.c:809-822 | The event joins the end of the active queue of its priority, or stays where it is with the new results added; all else is as it was |
| `EventEffects.TakeIs` | src/3rd/libevent/event.c:369-373 | The first event of the active queue leaves it; one that persists stays inserted and timed, another is off all queues; all else is as it was |
| `EventEffects.PriorityIs` | src/3rd/libevent/event.c:651-662 | The event gets the priority if it is not active and there is such a queue; otherwise -1 and no change |
| `EventLoop.EventBase.QueueRemove` | src/3rd/libevent/event.c:919-945 | One queue, its flag and its counters, as specified |
| `EventLoop.EventBase.QueueInsert` | src/3rd/libevent/event.c:947-979 | One queue, its flag and its counters, as specified |
| `EventLoop.EventBase.EventAdd` | src/3rd/libevent/event.c:695-771 | The specified addition, which AddIs describes; it never ends the program |
| `EventLoop.EventBase.Schedule` | src/3rd/libevent/event.c:734-768 | A deadline replaces the old one and withdraws a timeout that was not delivered |
| `EventLoop.EventBase.EventDel` | src/3rd/libevent/event.c:773-807 | The specified deletion, which DelIs describes; the result is that of the backend's del if the event was inserted, and 0 otherwise |
| `EventLoop.EventBase.EventActive` | src/3rd/libevent/event.c:809-822 | The specified activation, which ActivateIs describes |
| `EventLoop.EventBase.PrioritySet` | src/3rd/libevent/event.c:651-662 | An active event keeps its priority |
| `EventLoop.EventBase.BusyQueue` | src/3rd/libevent/event.c:360-367 | The least priority with an active event; the assertion holds |
| `EventLoop.EventBase.TakeNext` | src/3rd/libevent/event.c:369-373 | The first event of that queue |
| `EventLoop.EventBase.TimeoutProcess` | src/3rd/libevent/event.c:895-917 | The loop takes the due events in an order that TimersExact allows |
| `EventLoop.EventBase.TimeoutNext` | src/3rd/libevent/event.c:824-852 | It waits for I/O without timers, not at all when one is due, and otherwise the microseconds the first event of the heap asks for; the assertion on the seconds always holds, the one on the microseconds if and only if those of the deadline plus a second are not below those of the clock; on a normalised deadline the wait ends exactly then |
| `EventLoop.EventBase.TimeoutCorrect` | src/3rd/libevent/event.c:860-893 | The loop over the heap array shifts exactly the timed events and keeps the books; the heap stays a heap if every event in it and its parent are steady |
| `MinHeap.Heap.ShiftUp` | src/3rd/libevent/min_heap.h:122-132 | The hole rises until heap order holds, and every event knows its place |
| `MinHeap.Heap.ShiftDown` | src/3rd/libevent/min_heap.h:134-147 | The hole sinks to the lesser child until heap order holds |
| `MinHeap.Heap.Push` | src/3rd/libevent/min_heap.h:65-71 | A heap with exactly one more event |
| `MinHeap.Heap.Erase` | src/3rd/libevent/min_heap.h:85-104 | A heap without the event, also when it was the last; -1 for an event that is not in it |
| `MinHeap.Heap.Top` | src/3rd/libevent/min_heap.h:63 | An event that is due no later than any other |
| `MinHeap.Heap.Reserve` | src/3rd/libevent/min_heap.h:106-120 | Room by doubling, contents kept |
| `MinHeap.TopIsFirst` | src/3rd/libevent/min_heap.h:53-63 | In heap order the first event is due no later than any other |
| `MinHeap.OrderKept` | src/3rd/libevent/event.c:881-890 | A heap stays a heap when each event and its parent keep their order |
| `MinHeap.CorrectionKeepsHeapIff` | src/3rd/libevent/event.c:876-890 | Every normalised correction of the clock keeps heap order if and only if every event and its parent are steady |
| `EventLoop.HeapOrderIsLost` | src/3rd/libevent/event.c:734-768 | Two events are added, the first with a timeout of 3000000 microseconds. Every heap of the two is in order with the first on top; after a correction by one microsecond it is no heap, and at a time the clock gives the second is due and the first is not |
| `EventLoop.LoseOrder` | src/3rd/libevent/event.c:854-882 | On an event base: two calls of EventAdd and one of TimeoutCorrect end with a heap that is out of order and has the event that is due later on top |
| `EvBuffer.Buffer.Align` | src/3rd/libevent/buffer.c:341-347 | The move to the front keeps the bytes |
| `EvBuffer.Buffer.Expand` | src/3rd/libevent/buffer.c:355-401 | Room for the bytes asked for without changing the contents; it fails exactly when the length would overflow, and the doubling ends without overflow |
| `EvBuffer.Buffer.Add` | src/3rd/libevent/buffer.c:403-421 | Append, or no change |
| `EvBuffer.Buffer.Drain` | src/3rd/libevent/buffer.c:423-445 | Drop from the front; the callback is told just when the length changes |
| `EvBuffer.Buffer.Remove` | src/3rd/libevent/buffer.c:194-205 | The bytes taken from the front, their number as the int that is returned, and the callback, which is told just when there are some |
| `EvBuffer.Buffer.AddBuffer` | src/3rd/libevent/buffer.c:100-135 | All bytes move over in order, by swap or by copy; both callbacks are told just when there are some and they have moved |
| `EvBuffer.Buffer.ReadLine` | src/3rd/libevent/buffer.c:212-251 | The line before the first CR or LF, which goes with an unlike partner |
| `EvBuffer.Buffer.ReadLn` | src/3rd/libevent/buffer.c:254-337 | The bytes before the first line ending of the style, which is taken too; nothing happens when there is none |
| `EvBuffer.Buffer.EndStrict` | src/3rd/libevent/buffer.c:295-310 | The scan for CR LF finds the first pair |
| `EvBuffer.Buffer.Find` | src/3rd/libevent/buffer.c:530-546 | The least index where the bytes occur |
| `EvBuffer.LineReadsBack` | src/3rd/libevent/buffer.c:254-337 | A line without CR and LF written with the ending of a style is read back by that style |
| `EvBuffer.LineEndsWithPair` | src/3rd/libevent/buffer.c:212-251 | A line with CR, LF or both in either order is followed by what follows its ending, unless that makes a pair with a single one |
| `Tagging.IntReadsBack` | src/3rd/libevent/event_tagging.c:90-114 | Every 32-bit number is decoded as encoded, whatever follows, if and only if the length of the buffer, stored in an int, shows all of it; otherwise nothing is decoded |
| `Tagging.TagReadsBack` | src/3rd/libevent/event_tagging.c:121-173 | The same for every 32-bit tag |
| `Tagging.LongIsNotDecoded` | src/3rd/libevent/event_tagging.c:144-257 | A buffer of 2^31 to 2^32 bytes is not decoded, whatever it holds |
| `Tagging.ShortIsSeen` | src/3rd/libevent/event_tagging.c:144-257 | Below 2^31 bytes every header is seen |
| `Tagging.RecordReadsBack` | src/3rd/libevent/event_tagging.c:187-194 | Unmarshalling a marshalled record gives tag and payload and leaves what follows if and only if the lengths before the tag and after it, stored in an int, show the header; otherwise it is refused |
| `Tagging.IntRecordReadsBack` | src/3rd/libevent/event_tagging.c:197-206 | The same for integer records: read back exactly when the header is seen, refused exactly when it is not |
| `Tagging.PairReadsBack` | src/3rd/libevent/event_tagging.c:214-224 | The same for the two numbers of a time, which are then read one after the other |
| `Tagging.StreamReadsBack` | src/3rd/libevent/event_tagging.c:330-351 | A sequence of records is read back record by record if and only if each header is seen when its record comes first; otherwise the reading fails |
| `Tagging.ShortStreamSeen` | src/3rd/libevent/event_tagging.c:330-351 | Every stream below 2^31 bytes is read back |
| `Tagging.PeekIsConsumed` | src/3rd/libevent/event_tagging.c:271-326 | For every buffer: the announced length is what consuming takes away if and only if the header and as many bytes after it as it says have arrived and the record is below 2^32 bytes; it can be unmarshalled if and only if it has arrived; announcing and consuming fail together |
| `Tagging.CutRecord` | src/3rd/libevent/event_tagging.c:271-326 | Every record cut short inside its payload is announced in full and consumed as far as it goes if its header is seen, and neither if it is not |
| `Tagging.WriteInt` | src/3rd/libevent/event_tagging.c:90-114 | The nibble loop writes the encoding |
| `Tagging.WriteTag` | src/3rd/libevent/event_tagging.c:121-142 | The loop writes the encoding |
| `Tagging.ReadInt` | src/3rd/libevent/event_tagging.c:226-257 | The loop decodes, and drains if asked to |
| `Tagging.ReadTag` | src/3rd/libevent/event_tagging.c:144-173 | The loop decodes, and drains if asked to |
| `Tagging.WriteRecord` | src/3rd/libevent/event_tagging.c:187-194 | Tag, length and payload are appended |
| `Tagging.WriteIntRecord` | src/3rd/libevent/event_tagging.c:197-206 | The record is built through the scratch buffer, which ends empty |
| `Tagging.ReadRecord` | src/3rd/libevent/event_tagging.c:330-351 | The payload is appended to the destination and its length returned as an int |
| `Tagging.ConsumeRecord` | src/3rd/libevent/event_tagging.c:315-326 | The record is drained |
| `BufferEvent.ReadCbKeeps` | src/3rd/libevent/evbuffer.c:92-161 | For all results of the read the callback leaves reading scheduled or held back by a full buffer, and never passes the mark, if and only if the difference to the mark keeps its sign as an int |
| `BufferEvent.NoLostWakeup` | src/3rd/libevent/evbuffer.c:76-161 | In every run whose callbacks find the buffer within 2^31 bytes of the mark no wakeup is lost |
| `BufferEvent.SmallIsHonest` | src/3rd/libevent/evbuffer.c:110-113 | Marks below 2^31 are safe |
| `BufferEvent.HugeMarkStalls` | src/3rd/libevent/evbuffer.c:110-119 | With a mark that is negative as an int, such as 2^31, the first callback stops reading into an empty buffer, and in every run of read callbacks and of taking bytes out it stays stopped |
| `BufferEvent.ToldIff` | src/3rd/libevent/evbuffer.c:92-161 | The user is told of data just when some has come and the low mark is reached, and of trouble just when reading has come to its end; after data reading is scheduled again just when the high mark is not reached or the user not told |
| `BufferEvent.EndIsFinal` | src/3rd/libevent/evbuffer.c:100-161 | After a timeout, an error or the end of the file, in every run nothing is read until reading is enabled or marked anew |
| `BufferEvent.DisabledIsQuiet` | src/3rd/libevent/evbuffer.c:371-401 | In every run reading is scheduled only while it is enabled |
| `BufferEvent.PressureEndsIff` | src/3rd/libevent/evbuffer.c:76-90 | The pressure on a reader ends just when the buffer is below its mark or has none, and reading is scheduled then if it is enabled |
| `BufferEvent.Bufferevent.constructor` | src/3rd/libevent/evbuffer.c:179-220 | An empty buffer, nothing scheduled, and no wakeup lost |
| `BufferEvent.Bufferevent.ReadCallback` | src/3rd/libevent/evbuffer.c:92-161 | The bytes of a read are appended to the input buffer unless reading stops there; the user is told as ToldIff says, all else is as specified, and if the difference to the mark keeps its sign no wakeup is lost and the mark is not passed |
| `BufferEvent.Bufferevent.EnableReading` | src/3rd/libevent/evbuffer.c:371-385 | Reading is scheduled; no wakeup is lost |
| `BufferEvent.Bufferevent.DisableReading` | src/3rd/libevent/evbuffer.c:387-401 | Reading is not scheduled; no wakeup is lost |
| `BufferEvent.Bufferevent.SetWatermark` | src/3rd/libevent/evbuffer.c:423-440 | New marks are applied at once, so that no wakeup is lost |
| `BufferEvent.Bufferevent.Read` | src/3rd/libevent/evbuffer.c:354-369 | The first bytes of the buffer are returned and the rest stays; a reader held back by a full buffer is scheduled again as soon as it is no longer full |
| `Backends.Replay` | src/3rd/libevent/devpoll.c:289-398 | After any operations each backend has the table that is specified for it, and each kernel watches exactly the directions in which an event of that table waits |
| `Backends.AgreeIffOrderly` | src/3rd/libevent/devpoll.c:310-341 | The two backends have the same table after every operation of a list if and only if no event is added for a direction in which another one waits |
| `Backends.SecondReader` | src/3rd/libevent/devpoll.c:310-341 | Two readers of one descriptor: epoll keeps the second, /dev/poll the first |
| `Backends.LastAddedWaits` | src/3rd/libevent/epoll.c:263-360 | With epoll the event that was added last for a direction of a descriptor is the one in the table, until it is deleted |
| `Backends.DelUndoesAdd` | src/3rd/libevent/epoll.c:263-360 | An added event is asked for in its directions, a deleted one in none of them and nothing else changes; where no other waits, deleting undoes adding |
| `Backends.Recalc` | src/3rd/libevent/epoll.c:154-179 | The table is doubled until the descriptor fits, old slots kept, new ones free |
| `Backends.Epoll.AddEvent` | src/3rd/libevent/epoll.c:263-309 | The kernel watches what the table asks for |
| `Backends.Epoll.EpollCtl` | src/3rd/libevent/epoll.c:299-300 | Called only as the kernel accepts it: added when unknown, changed and removed when known |
| `Backends.Epoll.DelEvent` | src/3rd/libevent/epoll.c:311-360 | The same for deletion; it fails exactly when nothing was watched |
| `Backends.Devpoll.Queue` | src/3rd/libevent/devpoll.c:105-124 | A change takes effect after those that wait, and the log never outgrows its array |
| `Backends.Devpoll.AddEvent` | src/3rd/libevent/devpoll.c:289-341 | Table and pending changes agree; a second event for a direction is refused |
| `Backends.Devpoll.DelEvent` | src/3rd/libevent/devpoll.c:343-398 | Removing and adding again leaves exactly the other direction |
| `Backends.Devpoll.Flush` | src/3rd/libevent/devpoll.c:212-222 | After the commit the driver watches what the table asks for |
| `SdpText.Split` | src/erizo/StringUtil.cpp:8-26 | The loop computes the specified split |
| `SdpText.SplitJoined` | src/erizo/StringUtil.cpp:8-26 | Splitting takes joined pieces apart again |
| `SdpText.JoinSplit` | src/erizo/StringUtil.cpp:8-26 | Joining puts a split text together again, but for a delimiter at its end |
| `SdpText.NumberReadsBack` | src/erizo/SdpInfo.cpp:1074-1088 | A printed number is parsed back |
| `SdpText.CandidateReadsBack` | src/erizo/SdpInfo.cpp:77-113 | A printed candidate of any protocol is parsed back, but for its generation, if and only if it is a UDP candidate and its foundation is not empty and has no colon |
| `SdpPayload.ReadMLine` | src/erizo/SdpInfo.cpp:672-681 | The loop computes the order map |
| `SdpPayload.OrderIsFirstAppearance` | src/erizo/SdpInfo.cpp:672-681 | The order map ranks exactly the payload types of the m-lines, by first appearance |
| `SdpPayload.MapsInvert` | src/erizo/SdpInfo.cpp:903-973 | For every offer an internal payload type is found again from its outer one, if and only if internal codecs of the same name and clock have the same payload type |
| `SdpPayload.OutsideReadsBack` | src/erizo/SdpInfo.cpp:903-973 | A negotiated outer payload type is found again if and only if it is the greatest one offered for its codec |
| `SdpPayload.InsideFoundAgain` | src/erizo/SdpInfo.cpp:1035-1067 | With lookups that give back what they do not find: every number, negotiated or not, is found again from its outer one if and only if it is a negotiated internal payload type or is not one that the peer uses for a codec |
| `SdpPayload.OutsideFoundAgain` | src/erizo/SdpInfo.cpp:1035-1067 | The other way round, for every number: the greatest payload type offered for its codec, or a number offered for none that is no negotiated internal one |
| `SdpPayload.NothingMissed` | src/erizo/SdpInfo.cpp:906-920 | Every offered codec with an internal counterpart is negotiated |
| `SdpNegotiation.NegotiatedList` | src/erizo/SdpInfo.cpp:963-979 | Put in any order that the sort may choose, the negotiated list follows first appearance on the m-lines. It has as many entries as there are pairs that agree and fit; every entry is of such a pair and on an m-line, and every such pair has an entry |
| `SdpNegotiation.ListIsExact` | src/erizo/SdpInfo.cpp:903-973 | The negotiated list has exactly one entry for each pair of an internal and an offered codec that agree and fit, in the order of the loops: the offered codec with the channels of the internal one and each feedback line as often as both name it. The two counters are the numbers of agreeing pairs of each kind |
| `SdpNegotiation.FitsIs` | src/erizo/SdpInfo.cpp:943-970 | The comparison of sizes in the source means: one side has no parameters, or both have the same; and the entry then has those of the offer |
| `SdpPayload.SdpInfo.Negotiate` | src/erizo/SdpInfo.cpp:903-973 | The two loops compute the negotiation that ListIsExact describes |
| `SdpPayload.SdpInfo.Feedback` | src/erizo/SdpInfo.cpp:930-942 | The two loops give the common feedback lines |
| `BracketLines.MatchersInvert` | utils/cpplint.py:1570-1726 | For all text: from a round, square or curly bracket forward matching ends past another if and only if backward matching from that one ends at the first |
| `BracketTheory.RunIsPartner` | utils/cpplint.py:1492-1567 | Over tokens: the forward scan from a bracket or an angle bracket finds a place if and only if what stands before it is its partner: what lies between is balanced, for an angle bracket as template arguments, for a bracket with stray angle brackets passed over |
| `BracketTheory.BackIsPartner` | utils/cpplint.py:1614-1688 | The same for the backward scan |
| `BracketLines.CloseIsJoined` | utils/cpplint.py:1593-1611 | Scanning forwards line by line is scanning the tokens of the joined text |
| `BracketLines.ReverseIsJoined` | utils/cpplint.py:1708-1726 | Scanning backwards line by line is scanning the tokens of the joined text |
| `BracketLines.CloseFinds` | utils/cpplint.py:1570-1611 | For all lines: forward matching from a bracket, or from an angle bracket that is no operator, finds a place if and only if what stands before it is the partner |
| `BracketLines.ReverseFinds` | utils/cpplint.py:1691-1726 | The same for backward matching |
| `BracketLines.PlaceIsPastPartner` | utils/cpplint.py:1492-1611 | For all lines: just before a place that forward matching finds stands the partner character of the one it started at |
| `BracketLines.PlaceIsPartner` | utils/cpplint.py:1614-1726 | For all lines: at a place that backward matching finds stands the partner character of the one it started at |
| `BracketLines.FindsAngleIff` | utils/cpplint.py:1507-1556 | From a left angle bracket, whatever follows it, only right angle brackets are found, if and only if it belongs to no operator |
| `BracketLines.OperatorIsPassed` | utils/cpplint.py:1507-1524 | From a left angle bracket of an operator the scan goes on with nothing to look for |
| `BracketLines.OperatorIsPassedBack` | utils/cpplint.py:1638-1660 | The same backwards |
| `BracketLines.ArrowFindsRound` | utils/cpplint.py:1638-1660 | From the right angle bracket of an arrow the round bracket before it is found |
| `BracketLines.CleanMatchersInvert` | utils/cpplint.py:1570-1726 | In lines whose angle brackets belong to no operator the two matchings invert each other from every character |
| `BracketLines.GreaterOrEqual` | utils/cpplint.py:1638-1660 | With an operator they do not: the sign in "a<b >= c" ends template arguments forwards and is passed over backwards |
| `Brackets.FindEndOfExpressionInLine` | utils/cpplint.py:1492-1567 | The loop with its stack, angle brackets included, computes the specified scan, which RunIsPartner and CloseFinds describe |
| `Brackets.FindStartOfExpressionInLine` | utils/cpplint.py:1614-1688 | The loop with its stack, angle brackets included, computes the specified scan, which BackIsPartner and ReverseFinds describe |
| `Brackets.Close` | utils/cpplint.py:1570-1611 | The loop over lines computes the specified match, which CloseFinds and PlaceIsPastPartner describe |
| `Brackets.ReverseClose` | utils/cpplint.py:1691-1726 | The loop over lines computes the specified match, which ReverseFinds and PlaceIsPartner describe |

## Left out

- Sockets, signals, files and processes: their results are inputs of the model.
- Allocation failure: every allocation succeeds.
- evdns_shutdown, resolv.conf and Windows configuration: teardown and input that add no property.
- reply_parse beyond its names, and the DNS server port: only the name encoder and parser and the header flags are modelled.
- User callbacks of evdns that call anything but a lookup before they return, such as clearing the servers.
- The timer that the failed probe of a freed server starts again in freed memory, and what becomes of the memory of a freed server when it is used for something else.
- DnsSearch.NamesAskedInOrder: speaks of runs without evdns_search_add and evdns_search_ndots_set, which change the order under lookups that are on their way.
- DnsReplies.BadAnswerJudges: speaks of events in which no send fails, as TimerJudges, GoodAnswerJudges, ProbeJudges and ProbeTimerJudges do; a server to which a send fails is down after it, as LookupIsSent says, and what the event says of lookups does not depend on it.
- DnsSending.WritableSends: speaks of events in which every send succeeds, as ResumeSendsAll and ProbeIsSent do; AgainChokes and LookupIsSent say what becomes of the others.
- search_make_new on an empty name, where the source reads the byte before the name.
- nameserver_write_waiting and the `prev` pointers of the server ring, which the source does not maintain and does not use.
- The renegotiation of a connection: its flags and descriptions are fixed for a run.
- The reports that are not states (initial, SDP processed, candidate) and the candidates passed on when a transport has gathered; the latter can happen at any time as an event of their own.
- The retransmission of DTLS flights and media packets: they change no state of the model. A client without RTCP multiplexing would use a timer that the constructor does not create.
- event_base_loop, event_once and the number of calls of an activated event: callbacks are further operations of a run.
- min_heap_pop, which event.c does not call.
- Tagging.ReadTag: a tag of more than five bytes shifts by 32 bits or more, which C leaves undefined; the model adds nothing for it.
- evbuffer_add_printf and the reading and writing of descriptors, but for what a read adds.
- The writing side of a bufferevent, bufferevent_setfd and timeouts, which add easy cases.
- The dispatch loops of the backends, and descriptors of 2^30 and above, for which the doubling of the table overflows an int.
- SdpText.CandidateReadsBack: speaks of tokens without spaces; numbers with a sign or white space are not parsed as strtoul does. The generation is left out because the parser takes it from the wrong piece.
- SdpNegotiation.NegotiatedList: takes any result of std::sort that is sorted; the order of equal keys is not modelled.
- The rest of processSdp and of cpplint.py: they add only string cases.
- BracketLines.MatchersInvert: starts at round, square and curly brackets; from angle brackets it holds in lines without operators of them, as CleanMatchersInvert says, and fails beyond, as GreaterOrEqual shows.
