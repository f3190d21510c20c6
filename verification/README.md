# AdMQ: a verified model of the broker core

AdMQ is a concurrent publish/subscribe broker written in C. Agents connect over TLS, prove a hostname with
a certificate, and then subscribe, publish and store state by sending lines of text. This project models
the broker's core in Dafny and proves what its parts promise, alone and together, over whole runs.

| file | what it holds |
|---|---|
| `TaskQueue.dfy` | the bounded task queue: the ring buffer as a class, and every interleaving of its writers, readers and shutdown, statement by statement |
| `QueueAccounts.dfy` | over the queue's runs: what becomes of every call of write, read and shutdown |
| `Removal.dfy` | the locking protocol of lookup, sweep and removal, one lock operation at a time |
| `RemovalRuns.dfy` | over that protocol's runs: where a hostname leads, and what becomes of every lookup, sweep and removal |
| `HashTable.dfy` | the chained hash table with its linked entries, refining a finite map |
| `Registry.dfy`, `ClientManager.dfy` | the client registry with its two indexes in one table: as a specification with its call history, and as objects over the hash table, with the inactivity sweep |
| `LineBuffer.dfy` | the per-client line buffer: reads to lines |
| `Tokenizer.dfy` | the console's command tokenizer |
| `PubSub.dfy` | the subscription tables: as a specification with its call history, and as fixed arrays |
| `Rbac.dfy` | the access rules: parser, printer and decisions |
| `Commands.dfy`, `Dispatch.dfy`, `CommandMeaning.dfy`, `Worker.dfy` | a worker's command line, what each command does and means, and the worker's loop |
| `Broker.dfy` | the whole broker as a step machine: accept, readiness, worker task, sweep, console; who is subscribed and served, and the one-shot token |
| `BrokerTasks.dfy`, `ConsoleMeaning.dfy` | over its runs: the order in which tasks are taken; and what each console command does |
| `Audit.dfy` | over its runs, whatever the console is told: what every agent had the right to, and what a publication writes |
| `Presence.dfy`, `Sweep.dfy`, `Conversation.dfy`, `RegistryRuns.dfy`, `BrokerLimits.dfy` | over its runs: when every subscriber is authenticated and entitled, whom a sweep removes, what a client's stream does, where the registry's keys lead, and runs that break a promise |
| `Strings.dfy`, `Wrappers.dfy` | shared vocabulary |

## How to read it

Code that updates memory is modelled by classes, arrays and loops whose contracts equate the result with a
function on values; the theorems are about those functions. Concurrency is modelled by machines: `Enabled`
says when a move is possible, `Next` what it does, and a theorem about "every run" quantifies over every
schedule of enabled moves from the initial state. The queue and the lookup and removal protocol are
interleaved finely. In the broker machine a worker's task, one removal of the sweep and a console command are
single steps.

What the code relies on is stated, not hidden:

- Topic names passed to subscribe are at most 63 bytes; the workers' scan (`src/worker.c:126`) and the
  console (`src/cli.c:246-248`) see to it. `PubSub.LongNames` says exactly what a longer one does.
- Hostnames are not empty, are shorter than 127 bytes and do not begin with `fd:`. Appendix A.1 of RFC 5280
  bounds a common name at 64.
- `accept` returns positive descriptors that are not open.
- A sweep finds at most 100 expired clients.
- The clock does not run backwards; the results about the sweep say so where they need it.
- A console SUBSCRIBE is harmless if its name leads to nobody, to an authenticated client or to a topic
  without room. A hostname always does (`Presence.NamesAreHarmless`); a descriptor key need not. Results
  that need harmless commands (`AllHarmless`) say so; those of `Audit.dfy` need nothing of the console.

Three promises do not hold of every run, and the project says exactly of which runs they hold.

- A connection is armed, queued or handled exactly once throughout a run if and only if the sweep never
  removes a connection with a task in flight (`BrokerTokens.OneShotToken`); `BrokerLimits.SharedConnection`
  is a run that breaks it.
- Every subscribed descriptor has an authenticated owner, and every subscriber is entitled to its
  subscription, throughout a run if and only if each console SUBSCRIBE is harmless
  (`Presence.SubscriptionsExact`, `Presence.EntitlementExact`). In `BrokerLimits.InheritedSubscription` a
  descriptor key in place of the hostname breaks it, and in `BrokerLimits.UndeservedMessage` the next
  publication is written to a connection that nobody has verified.
- The sweep removes only clients it found expired, silent since, if and only if no removal meets a
  descriptor that was accepted or read since it was collected (`Sweep.SweepRemovesExpired`); in
  `BrokerLimits.FreshConnectionSwept` it removes a connection accepted that second.

## Model

| member | source | states |
|---|---|---|
| TaskQueue.TaskQueue.constructor | src/ts_queue.c:4-12 | the new queue is empty and open |
| TaskQueue.TaskQueue.Write | src/ts_queue.c:14-27 | appends at the end of the ring unless 100 items are queued, in which case nothing changes and the writer must wait |
| TaskQueue.TaskQueue.Read | src/ts_queue.c:29-48 | takes the oldest item; waits only on an empty open queue, reports the end only on an empty closed one |
| TaskQueue.TaskQueue.Shutdown | src/ts_queue.c:50-56 | closes the queue and keeps what is queued |
| QueueProtocol.StatementFifo | src/ts_queue.c:14-48 | each single statement inside a critical section keeps written = read + queued, with the ring caught between statements |
| QueueProtocol.QueueIsFifo | src/ts_queue.c:4-48 | in every interleaving the items written are the items read followed by the ring from `head`, and `tail == (head + count) % 100` whenever the mutex is free |
| QueueProtocol.ReadResults | src/ts_queue.c:29-48 | in every interleaving a reader returns the item next in order, and returns 0 only after shutdown with every written item read |
| QueueProtocol.NextReadersServed | src/ts_queue.c:14-48 | every statement keeps: if a reader sleeps, queued items are covered by readers already woken |
| QueueProtocol.NextWritersServed | src/ts_queue.c:14-48 | every statement keeps: if a writer sleeps, free slots are covered by writers already woken |
| QueueProtocol.NoLostWakeup | src/ts_queue.c:14-56 | in every interleaving, with spurious wakeups and with the mutex free: if a reader sleeps then queued items are at most the readers woken, if a writer sleeps then free slots are at most the writers woken, and after shutdown no reader sleeps |
| QueueAccounts.EveryWriteLands | src/ts_queue.c:14-27 | in every run the items of all calls of `queue_write` in the schedule are, as a multiset, the items written plus those still in the hands of a writer that has not stored its item: no call returns without having written |
| QueueAccounts.EveryReadReturns | src/ts_queue.c:29-48 | in every run the items read are those that calls of `queue_read` have returned with plus those still in the hands of a reader |
| QueueAccounts.EveryCallEnds | src/ts_queue.c:29-56 | in every run each call of `queue_read` has returned an item, returned 0 or is under way, and the queue is shut down if and only if some call of `queue_shutdown` has got past setting the flag |
| QueueAccounts.EveryStopWakes | src/ts_queue.c:50-56 | in every run each call of `queue_shutdown` has made its broadcast to the readers and its broadcast to the writers, or is still on its way to them |
| QueueAccounts.BroadcastWakes | src/ts_queue.c:53-54 | after a broadcast nobody sleeps on its condition |
| Removal.FreeIsAlone | src/client_manager.c:58-79 | a thread that has had the mutex of an unlinked client is the only one that still refers to it |
| Removal.AddIsNew | src/client_manager.c:20-38 | `client_add` finds its descriptor key unused, so it overwrites no live entry |
| Removal.RemovalIsSafe | src/client_manager.c:40-102 | in every interleaving of accepts, lookups, sweeps and removals, when a client is about to be freed nobody holds or waits for its mutex, no other thread refers to it, no key leads to it, and it was not freed before |
| Removal.FreedIsUnreachable | src/client_manager.c:40-102 | at every later point of the run no thread, key or mutex leads to a freed client, and no client is freed twice |
| Removal.OneFate | src/client_manager.c:20-79 | in every interleaving each client is in exactly one place: being added, listed under its descriptor, being removed by one thread, or freed |
| Removal.IndexesAgree | src/client_manager.c:20-126 | in every interleaving both indexes lead only to live clients, a descriptor key to the client of that open descriptor, a hostname to a listed client that bears it |
| RemovalRuns.HostnameFollowsSchedule | src/client_manager.c:40-126 | in every interleaving a hostname leads to a client if and only if, in the schedule, that client was the last given the name and no removal has unlinked it since |
| RemovalRuns.LookupLocks | src/client_manager.c:81-108 | a lookup goes on to lock the client its key leads to, keeps that lock through its use, and comes back with nothing only if the key leads nowhere |
| RemovalRuns.EveryTaskEnds | src/client_manager.c:20-38 | in every interleaving each client to add, lookup and sweep asked of a thread has ended or is under way |
| RemovalRuns.CondemnedAreRemoved | src/client_manager.c:162-191 | in every interleaving each thread takes out exactly the descriptors it was asked to remove or found expired, in that order; the others are still on its list |
| RemovalRuns.ExecutesRemoves | src/client_manager.c:40-56 | a removal leaves the key of its descriptor out of the table |
| RemovalRuns.OpenExactly | src/client_manager.c:58-79 | in every interleaving a descriptor is open if and only if it is that of a client not yet closed |
| HashTable.WrappingIsModular | src/hash.c:8-17 | wrapping 64-bit arithmetic at every step gives the base-37 polynomial over signed characters, modulo 2^64 |
| HashTable.Hash | src/hash.c:8-17 | the loop computes that polynomial modulo 2^64, then modulo 100 |
| HashTable.Table.constructor | src/hash.c:19-26 | the new table is the empty map |
| HashTable.Table.Get | src/hash.c:65-76 | finds the key's value in the map, or nothing |
| HashTable.Table.Set | src/hash.c:45-63 | the chains become those of the map with the key set, each key once and only in its own bucket: the same chains if the key was there, else a new entry at the head of its bucket's chain |
| HashTable.Table.Del | src/hash.c:78-101 | the chains become those of the map without the key; reports whether it was there |
| HashTable.SpliceAfter | src/hash.c:86-96 | unlinking one entry makes its predecessor lead to its successor and changes no other link |
| HashTable.SpliceShape | src/hash.c:78-101 | after the splice every other key is still there, once and in its own bucket |
| HashTable.Table.Walk | src/hash.c:45-101 | walking a bucket meets only entries of that slot, no key twice, each link leading to the next entry |
| HashTable.Table.Met | src/hash.c:45-101 | walking all buckets meets every key of the map |
| Registry.FdKeyInjective | src/client_manager.c:20-26 | different descriptors have different keys |
| Registry.FdKeyFits | src/client_manager.c:41-42 | the key of any 32-bit descriptor fits its 32-byte buffer |
| Registry.RemoveIsRestrict | src/client_manager.c:40-79 | removal takes away exactly the entries that lead to that client: a hostname taken over by a newer connection stays |
| Registry.SweepIsExact | src/client_manager.c:162-191 | removing the collected descriptors, in any order, leaves precisely the clients with now - last_activity <= timeout, and their entries |
| RegistryHistory.AfterConsistent | src/client_manager.c:20-126 | after any sequence of calls each key leads to a registered client that it names, and each registered client is found under its descriptor |
| RegistryHistory.DescriptorIndex | src/client_manager.c:20-79 | after any sequence of calls `fd:N` leads to a client if and only if it was accepted on N and N has not been removed since |
| RegistryHistory.HostnameIndex | src/client_manager.c:110-126 | after any sequence of calls a hostname leads to a client if and only if it was the last one given that name and has not been removed since |
| ClientManager.Clients.constructor | src/client_manager.c:15-18 | the registry starts empty |
| ClientManager.Clients.GetByFd | src/client_manager.c:81-92 | finds the registered client of that descriptor, or nothing |
| ClientManager.Clients.GetByHostname | src/client_manager.c:94-102 | finds the client that bears the name, or nothing |
| ClientManager.Clients.AddClient | src/client_manager.c:20-38 | the objects in memory become those of the registry with the client added |
| ClientManager.Clients.NameClient | src/client_manager.c:110-126 | the objects in memory become those of the registry with the client named |
| ClientManager.Clients.RemoveClient | src/client_manager.c:40-79 | the objects in memory become those of the registry without the client, which is closed and disconnected |
| ClientManager.Clients.CollectExpired | src/client_manager.c:162-183 | the walk over buckets and links fills the array, in bounds, with the descriptors of exactly the expired clients |
| ClientManager.Clients.SweepInactive | src/client_manager.c:162-191 | exactly the expired clients leave the registry, and every topic loses their descriptors and no others |
| LineBuffer.DrainIsLines | src/worker.c:119-119 | draining bytes whose lines have at most 1023 bytes and no NUL yields exactly the lines, in order, and the unfinished rest |
| LineBuffer.FeedIsLines | src/client_manager.c:128-160 | from any unfinished line, reads drained one by one yield the lines of the whole stream, nothing dropped |
| LineBuffer.Reassembly | src/client_manager.c:128-160 | for reads of at most 1023 bytes the lines extracted are the stream's lines and the buffer holds its rest if and only if every line is at most 1023 bytes with no NUL and the rest at most 2047; then the overflow branch is never taken |
| LineBuffer.ChunkingIsInvisible | src/worker.c:87-119 | two ways to cut one stream into reads give the same lines and the same rest |
| LineBuffer.DrainIs | src/client_manager.c:139-160 | draining any bytes yields the lines before the first NUL, each cropped to 1023 bytes, and keeps the unfinished rest and all that stands behind the NUL |
| LineBuffer.FeedIs | src/client_manager.c:128-160 | any reads, none of which overflows the buffer, yield the cropped lines of the whole stream before its first NUL, however the stream is cut, and nothing is lost |
| LineBuffer.Overflow | src/client_manager.c:128-133 | a read that overflows the buffer is lost with all the buffer held, and later reads start from an empty buffer |
| LineBuffer.Buffer.constructor | src/client_manager.c:20-38 | a new client's buffer is empty |
| LineBuffer.Buffer.AppendBytes | src/client_manager.c:128-137 | the bytes are appended and terminated in bounds; on overflow everything is dropped |
| LineBuffer.Buffer.ExtractLine | src/client_manager.c:139-160 | takes the first line, cut to the message size, and moves the rest to the front |
| LineBuffer.Buffer.DrainLines | src/worker.c:119-119 | the extraction loop ends and yields all lines the buffer holds |
| Tokenizer.TokenizeCommand | src/tokenizer.c:14-113 | the character loop over the fixed buffer writes in bounds and computes the scanner's tokens or its error |
| Tokenizer.ScanSound | src/tokenizer.c:28-105 | throughout, the buffer holds at most 1023 characters and is not empty inside a subshell |
| Tokenizer.RoundTrip | src/tokenizer.c:14-113 | words written in any mixture of bare, escaped, single-quoted, double-quoted and nested subshell pieces and joined by spaces tokenize back to themselves if every word is within its limit, and otherwise to an error |
| Tokenizer.OperatorStandsAlone | src/tokenizer.c:40-81 | an operator outside quotes, escape and subshell is an argument of its own between those of the two sides: two ampersands, bars or greater-than signs make one, and no other operator is doubled |
| Tokenizer.UnclosedQuote | src/tokenizer.c:93-98 | a quote that is never closed, of either kind, takes the rest of the input as if each character were escaped |
| Tokenizer.Composition | src/tokenizer.c:28-112 | if `a` ends outside quotes, escape and subshell, the tokens of `a`, a space or newline and `b` are those of `a` followed by those of `b`, except when `a` ends in a word that fills the buffer |
| Tokenizer.NormalForm | src/tokenizer.c:28-112 | without quotes and backslashes, joining the tokens with spaces and tokenizing again gives the same tokens |
| PubSub.AfterWellFormed | src/pubsub.c:25-95 | after any sequence of calls there are at most 50 topics with distinct names, each with at most 100 subscribers and none twice |
| PubSub.TopicSlots | src/pubsub.c:25-58 | after any sequence of calls the slots are the first 50 distinct names ever subscribed to, in that order |
| PubSub.SubscribedIff | src/pubsub.c:25-95 | after any sequence of calls a descriptor is subscribed if and only if some call subscribed it when there was room and no later call cancelled it |
| PubSub.SubscriptionOrder | src/pubsub.c:25-95 | each list stands in the order in which the current subscriptions were made |
| PubSub.LongNames | src/pubsub.c:47-52 | slots stay distinct if and only if the name fits in 63 bytes, takes no slot, or has a new 63-byte prefix |
| PubSub.UnsubscribeEachEffect | src/client_manager.c:185-190 | unsubscribing several descriptors from everything removes exactly those from each topic |
| PubSub.DeliverExact | src/pubsub.c:97-124 | the k-th write goes to the k-th registered subscriber of the list, and there are no further writes |
| PubSub.FanOut | src/pubsub.c:97-124 | after any sequence of calls a publication is written once to each registered descriptor with a live subscription and to nobody else; the message is the frame, or its first 1023 bytes if it is longer; a worker's message is framed whole in at most 866 bytes |
| PubSubTables.Tables.constructor | src/pubsub.c:20-23 | the tables start with no topic |
| PubSubTables.Tables.SubscribeTo | src/pubsub.c:25-58 | the arrays become those of the specification's subscribe |
| PubSubTables.Tables.LeaveTopic | src/pubsub.c:66-74 | the shift loop takes the descriptor out of one row and keeps the order of the others |
| PubSubTables.Tables.UnsubscribeFrom | src/pubsub.c:60-78 | the arrays become those of the specification's unsubscribe |
| PubSubTables.Tables.UnsubscribeFromAll | src/pubsub.c:80-95 | the arrays become those with the descriptor taken out of every topic |
| PubSubTables.Tables.PublishTo | src/pubsub.c:97-124 | the loop writes the specification's deliveries, in order |
| Strings.TrimPadded | src/rbac.c:30-38 | trimming takes away exactly the white space put around a text that has none at its ends |
| Rbac.ListRead | src/rbac.c:41-55 | a list of any entries, empty and starred ones anywhere, is read as its first 20 names, each cut to 63 characters, with the wildcard if and only if a star stands before the twentieth name |
| Rbac.ListParsed | src/rbac.c:41-55 | a printed permission list parses back to its first 20 names, wildcard and order included |
| Rbac.ParseUndoesPrint | src/rbac.c:57-111 | parsing the printed text of any configuration gives what the fixed tables keep of it, and the same roles and mappings back if and only if they fit the tables |
| Rbac.TooManyRoles | src/rbac.c:73-84 | of more than 20 printed roles the first 20 names come back, and the twentieth has the lists of the very last role |
| Rbac.SilenceChangesNothing | src/rbac.c:68-94 | a blank line, a comment, a line that sets nothing or an unknown section put anywhere in a file changes nothing of what is read |
| Rbac.SilenceAmongPrinted | src/rbac.c:68-94 | the printed lines of a configuration with any such lines among them parse as without |
| Rbac.Store.Init | src/rbac.c:57-111 | reading the file line by line fills the tables as the parser on values does; a missing file changes nothing |
| Rbac.MatchPattern | src/rbac.c:114-120 | matches exactly the same text, or a text that starts with what stands before a final star; an empty pattern matches nothing |
| Rbac.GetRole | src/rbac.c:123-135 | finds the first role that bears the name given by the earliest matching mapping, or DEFAULT if none matches; finds none exactly when there is none |
| Rbac.CanSubscribe | src/rbac.c:137-143 | grants exactly when the acting role has the wildcard or lists the topic for subscribing |
| Rbac.CanPublish | src/rbac.c:153-159 | grants exactly when the acting role has the wildcard or lists the topic for publishing |
| Rbac.CanSet | src/rbac.c:161-167 | grants exactly when the acting role has the wildcard or lists the key |
| Rbac.LaterMappingsIrrelevant | src/rbac.c:123-135 | appending mappings changes no decision for a host that is already mapped |
| Commands.ScanThree | src/worker.c:123-126 | a line of a name, a topic and a payload within 31, 63 and 799 bytes is scanned back into the three |
| Commands.ScanTwo | src/worker.c:123-126 | a line of a name and a topic is scanned back into the two |
| Commands.Scan | src/worker.c:123-126 | whatever the line, the stored strings fit their buffers of 32, 64 and 800 bytes |
| Commands.ScanWords | src/worker.c:123-126 | any line with a word in it: white space is skipped before each word, a word longer than 31 or 63 bytes goes on in the next, the payload ends at a newline or 799 bytes, and the count tells how many were found |
| Commands.ScanBlank | src/worker.c:123-126 | a line of white space gives no word |
| Dispatch.PlayKeeps | src/pubsub.c:25-95 | one rightful event keeps the desk in order: the tables follow from the record, every record entry is rightful, every subscribed descriptor belongs to a registered authenticated client that was granted it |
| Dispatch.ObeyKeeps | src/worker.c:120-194 | any line an authenticated client sends keeps the desk in order |
| Dispatch.BroadcastExact | src/pubsub.c:97-124 | a publication is written once to every subscriber in list order, none of them unregistered |
| Dispatch.SubscribersLive | src/pubsub.c:25-95 | in the broker a descriptor is subscribed if and only if its subscription is live in the recorded calls |
| CommandMeaning.SubscribeLine | src/worker.c:154-163 | the line SUBSCRIBE t, with or without further words, appends the sender to t if it may, is not on it and there is room, and changes no other list; if it may, its audit entry and then the subscription go on record, else nothing changes |
| CommandMeaning.UnsubscribeLine | src/worker.c:165-172 | the line UNSUBSCRIBE t, with or without further words, takes the sender, and only the sender, off t if it may, keeps the order of the others, changes no other list, and puts only that on record; otherwise it changes nothing |
| CommandMeaning.PublishLine | src/worker.c:174-189 | the line PUBLISH t p, if permitted, puts its audit entry on record and then one message for each subscriber in list order; otherwise it changes nothing |
| CommandMeaning.SetLine | src/worker.c:129-136 | the line SET k v stores v under the sender's own hostname if it may; otherwise it changes nothing |
| CommandMeaning.GetLine | src/worker.c:138-146 | the line GET k leaves every list alone and adds exactly its audit entry to the record |
| CommandMeaning.OtherLine | src/worker.c:120-194 | an empty line, PING, PONG, an unknown command and a command with too few or too many words change nothing |
| CommandMeaning.CarriageReturnEnds | src/worker.c:120-120 | what follows a carriage return in a line makes no difference |
| Worker.Execute | src/worker.c:129-194 | the dispatch chain checks permissions and changes the tables and the record as specified, command by command |
| Worker.ServeInput | src/worker.c:112-195 | the loop over the buffer and the tables ends with the rest of the stream buffered and every complete line obeyed in order |
| Broker.DiscardDesk | src/worker.c:57-63 | removing a client that never authenticated, without unsubscribing it, leaves the desk in order |
| Broker.DropDesk | src/worker.c:101-109 | unsubscribing and removing any client leaves the desk in order |
| Broker.AddresseePresent | src/cli.c:244-258 | a hostname on the console leads only to an authenticated client, registered under its own descriptor |
| Broker.NextOrderly | src/worker.c:21-226 | every step of the broker, the console's SET included, keeps the desk in order unless it is a console SUBSCRIBE that leads to an unauthenticated client and a topic with room |
| Broker.SubscribersAuthenticated | src/worker.c:42-109 | in every run whose console commands are harmless, each subscribed descriptor is that of a registered, authenticated client |
| Broker.ReuseStartsClean | src/main.c:136-156 | in every run whose console commands are harmless, a connection accepted on a reused descriptor starts unauthenticated and with no subscription |
| Broker.PublishReaches | src/pubsub.c:97-124 | in every run whose console commands are harmless, a publication is written once to each subscriber, in order, and each is a registered, authenticated connection |
| Broker.DeliveryProvenance | src/worker.c:154-189 | in every run whose console commands are harmless, each message goes to a connection verified under its hostname whose latest event on the topic is a subscription of that very connection, permitted to its hostname or made by the console; an agent's message came from a verified hostname, was permitted to it and was on the audit log before |
| Audit.AgentsPermitted | src/worker.c:129-189 | in every run, whatever the console does, a message, stored value or subscription that does not come from the console comes from a verified agent with permission: the message was on the audit log before, the value is for the agent's own hostname, the subscription for its own verified connection and logged |
| Audit.NextKept | src/worker.c:21-226 | every step keeps the record permitted and the tables what the recorded calls make of them; it also keeps each subscription that of a verified connection, unless the console leads to an unauthenticated client |
| Audit.PublishOnce | src/pubsub.c:97-124 | in every run, whatever the console does, the tables are what the recorded calls make of them and a publication is written once to each registered subscriber, in list order, and to nobody else; the subscribers are those whose subscription is live |
| Audit.SubscriptionsVerified | src/cli.c:244-258 | each subscription of a run was made for a connection verified before it if and only if each console SUBSCRIBE led to nobody or to an authenticated client |
| BrokerTasks.NextTasks | src/main.c:177-189 | a task enters at the back of the queue, leaves at its front, and is handled until it is finished |
| BrokerTasks.TasksInOrder | src/main.c:177-189 | in every run the workers take the tasks in the order epoll reported them: those not taken are the queue, and those taken are, as a multiset, being handled or finished |
| ConsoleMeaning.ConsoleSubscribes | src/cli.c:244-258 | a console SUBSCRIBE whose name leads to a client appends that client's descriptor to the topic, records it, and changes nothing else |
| ConsoleMeaning.ConsoleUnsubscribes | src/cli.c:260-273 | a console UNSUBSCRIBE whose name leads to a client takes that client's descriptor, and no other, off the topic, records it, and changes nothing else |
| ConsoleMeaning.ConsoleFindsNobody | src/cli.c:244-273 | a console SUBSCRIBE or UNSUBSCRIBE whose name leads to nobody changes nothing |
| ConsoleMeaning.ConsolePublishes | src/cli.c:204-216 | from any state a console PUBLISH leaves every list alone and records one message for each registered subscriber, in list order |
| ConsoleMeaning.ConsoleSets | src/cli.c:218-230 | a console SET leaves every list alone and records the value for that host and key |
| BrokerTokens.HandleNet | src/worker.c:42-207 | a worker's task ends with the connection armed again or gone |
| BrokerTokens.SweepTokens | src/client_manager.c:185-190 | removing a connection keeps the token count right if and only if it has no task in flight |
| BrokerTokens.NextExclusive | src/main.c:136-189 | a step keeps exactly one token for each connection and none for others if and only if it is not a sweep that removes a connection with a task in flight |
| BrokerTokens.NeverDeaf | src/worker.c:201-207 | in every run every connection is armed, queued or being handled |
| BrokerTokens.OneShotToken | src/main.c:177-189 | a run keeps exactly one of armed, queued and handled for every connection throughout if and only if its sweeps never remove a connection with a task in flight |
| Presence.ConsoleSubscribeExact | src/cli.c:244-258 | from any state whose tables follow from its recorded calls and whose subscribers all have authenticated owners, a console SUBSCRIBE leaves every subscribed descriptor with an authenticated owner if and only if the name leads to nobody, to an authenticated client, or to a topic without room |
| Presence.NextPresent | src/worker.c:21-226 | from any such state, a step leaves every subscribed descriptor with an authenticated owner if and only if it is not a console SUBSCRIBE that leads to an unauthenticated client and a topic with room |
| Presence.NameIsHarmless | src/cli.c:244-258 | a console SUBSCRIBE that names a hostname leads to nobody or to an authenticated client, so it meets that condition |
| Presence.SubscriptionsExact | src/worker.c:42-109 | every subscribed descriptor has a registered, authenticated owner in every state of a run if and only if each console SUBSCRIBE in it leads to nobody, to an authenticated client, or to a topic without room |
| Presence.EntitlementExact | src/worker.c:154-163 | every subscriber is entitled in every state of a run, its latest event on the topic a rightful subscription of that very connection, if and only if each console SUBSCRIBE is harmless |
| Presence.NamesAreHarmless | src/cli.c:244-258 | a run whose console names hostnames has only harmless console commands |
| RegistryRuns.NextMakes | src/worker.c:42-109 | each step makes at most one registry call, a legal one where the registry stands, and changes the registry as that call does |
| RegistryRuns.RunIsHistory | src/main.c:136-189 | the registry calls of every run are a legal history, and the registry is what they make of it |
| RegistryRuns.IndexesFollowRun | src/client_manager.c:20-126 | in every run, reconnects included, a descriptor key leads to a client if and only if it was accepted there and not removed since, and a hostname if and only if the client was the last given it and has not been removed since |
| Sweep.NextSilent | src/client_manager.c:20-79 | a descriptor's time of last activity changes only when the descriptor is accepted or read, and then to the time of that step |
| Sweep.ActiveNotCollected | src/client_manager.c:162-183 | in every run, with any steps in between, a sweep does not collect a descriptor accepted or read within the last 60 seconds, as long as the clock does not run backwards |
| Sweep.RemovalExact | src/client_manager.c:185-190 | a removal takes away, if anybody, the very client found expired, silent since, if and only if it finds nobody or a descriptor neither accepted nor read since it was collected |
| Sweep.SweepRemovesExpired | src/client_manager.c:162-191 | in a run whose clock does not run backwards, every removal takes away only the very client its collection found expired, silent since, if and only if no removal meets a descriptor accepted or read since it was collected |
| BrokerLimits.SharedConnection | src/client_manager.c:185-190 | a run in which the sweep removes a connection with a queued task and two workers end up holding tasks for the next connection on that descriptor |
| BrokerLimits.InheritedSubscription | src/worker.c:57-63 | a run in which a console SUBSCRIBE by descriptor key is inherited by an unauthenticated connection |
| BrokerLimits.UndeservedMessage | src/pubsub.c:97-124 | that run with a publication after it: the message is written to a connection that nobody has verified and whose own subscription is not on record |
| BrokerLimits.FreshConnectionSwept | src/client_manager.c:162-191 | a run with a running clock in which a collected connection fails its handshake, its descriptor is reused, and the sweep, meeting no task in flight, removes a connection accepted that second |
| Conversation.ServeJoin | src/worker.c:119-195 | obeying two lists of lines one after the other is obeying them joined |
| Conversation.UninterruptedReads | src/worker.c:87-195 | with no other step between them, a connection's reads do to tables and record what the stream's complete lines do in order |
| Conversation.ReadObeys | src/worker.c:112-195 | a worker's read obeys, in order, the lines that the bytes complete, for the client that sent them |
| Conversation.RunFeeds | src/worker.c:87-195 | whatever other steps come between, the reads of a client feed its buffer one after the other |
| Conversation.CommandsFollowStream | src/worker.c:87-195 | in every run and for every client, whatever other steps come between its reads: if its stream fits, the lines obeyed are the stream's complete lines in order; for a client still registered, that and the buffer holding the unfinished rest hold if and only if the stream fits |

## Left out

- Deadlock freedom: a worker takes the pub/sub lock while it holds a client's lock, and publish takes them in the opposite order, so the code does not promise it.
- Worker.ServeInput: a PUBLISH gives the client's lock back while it publishes; the worker's task is taken as one step, so the branch for a client that vanished meanwhile is not reached.
- Interleaving inside one removal of the sweep: unsubscribing and removing one descriptor are one step of the broker machine.
- Removal.IndexesAgree: `client_set_hostname` is one atomic step in the lock protocol, because between its two locked parts it keeps a pointer that nothing protects.
- QueueProtocol.NoLostWakeup: the counts are stated at the moments when the queue's mutex is free; inside a critical section they are part of the invariant that the lemmas about single statements carry.
- rbac_can_unsubscribe: the code compares the keys for SET with the topic by inequality and never reads the list of topics to unsubscribe, unlike its documentation; the broker machine takes its answer as any function of hostname and topic.
- Behaviour past fixed limits: more than 100 expired clients in one sweep, configuration lines of more than 510 bytes, console payloads longer than their buffer, a console PUBLISH to a topic of 63 bytes or more, and a console hostname of 127 bytes or more or SET key of 63 bytes or more: the code does not initialise those buffers, so the copy is not terminated where the model cuts it.
- ClientManager.Clients: the fields for TLS, connection type and locks are not in the objects; the line buffer is its own object.
- Replies to the sender of a command, and the values that GET reads back: only the audit entries, stored values, subscriptions and published messages are recorded.
- TLS, certificates, host checks and enrollment: their outcome is a parameter of the worker's step.
- The database: an append-only record of audit entries and stored values.
- The console's GET, line editor and history, status printing, the heartbeat's timer, socket setup, signals, the agent program and the configuration loaders: they keep no state that the properties above depend on.
