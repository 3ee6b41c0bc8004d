# OpenDJ LDAP request handler and response writer, modelled in Dafny

This project models two small state machines from the OpenDJ LDAP server.

- **`LDAPRequestHandler`** is the thread that serves a group of LDAP client connections. It runs a loop until shutdown is requested. Each pass:
  1. drains the ready-connection queue, giving each polled connection one turn that dispatches at most one LDAP message;
  2. takes the whole pending-registration list and registers each taken connection with the selector, or disconnects it with `SERVER_ERROR`;
  3. publishes a snapshot of the selector's keys for `getClientConnections`;
  4. blocks in `select`, and then handles every selected key according to the result of reading from its connection.

  After the loop it closes every key, disconnects every registered connection and every still-pending connection with `SERVER_SHUTDOWN`. `registerClient` and `processServerShutdown` are called from other threads.
- **`LdapResponseMessageWriter`** is a reactive-streams subscriber that writes LDAP responses to a Grizzly connection. It holds at most one upstream subscription. It asks for one response at a time, whenever the connection can take a write or a write completes. It forwards the terminal signal downstream after cancelling the upstream.

## Layout

- `connection.dfy` (module `LdapConnection`) holds the read side of a client connection.
  - The ASN.1 reader becomes the sequence of elements it has buffered.
  - The socket becomes a finite script of `processDataRead` outcomes: a count plus the elements the bytes complete, or an exception.
  - `processLDAPMessage` becomes the `accepted` flag of each request.
  - `Turn` is the reference definition of one connection's turn in the drain. `RunTurn` is that turn's loop, with the `ldapMessageProcessed` flag, proved equal to it.
- `handler_spec.dfy` (module `RequestHandlerSpec`) holds the handler's fields as a value `State`. It defines one function per step of the loop and the lemmas about those steps.
  - Connections are ids indexing a connection table, so one connection can sit in several lists and key attachments at once, as the Java objects do.
  - Selection keys are ids indexing the selector's key table. The published snapshot is a list of key ids, so an `attach(null)` through the selector is visible through the snapshot.
  - The calls the handler makes into connections are recorded as logs: `processLDAPMessage` calls as (connection, message) and `disconnect` calls as (connection, reason).
  - What happens during `select` is a `Poll`: the connections `registerClient` hands over from the accepting thread, whether `processServerShutdown` is called, and the keys `select` reports.
- `request_handler.dfy` (module `RequestHandler`) holds the class `RequestHandler`.
  - Its fields are updated in place, loop by loop, as the handler thread does it.
  - Every method ensures that the object ends in the state the matching `RequestHandlerSpec` function computes from the state before it.
- `writer_spec.dfy` (module `ResponseWriterSpec`) models the writer's callbacks as functions on `WriterState`.
  - `WriterState` holds `upstream` plus logs of `notifyCanWrite` registrations, `request(1)` calls, `write` calls, `cancel` calls and downstream terminal signals.
  - `Replay` runs a sequence of callbacks.
  - The lemmas cover one callback or a whole sequence.
- `response_writer.dfy` (module `ResponseWriter`) holds the class `ResponseWriter`, with one method per callback. Each method is proved to compute the `ResponseWriterSpec` function for that callback.
- `wrappers.dfy` holds `Option`.

## Behaviour of the code that the model keeps

- Both `catch` arms of the drain disconnect with `PROTOCOL_ERROR`: the one for `DecodeException`/`LDAPException` and the one for any other exception. The model uses `ProtocolError` for a malformed element and for a failing read during a turn alike.
- The shutdown drain does not republish the `keys` snapshot and does not clear the keys' attachments. So `getClientConnections` after shutdown still returns the connections of the last snapshot; it does not return an empty list. `ShutdownKeepsSnapshot` states this.
- A key without an attachment that reports readable throws a NullPointerException when its connection is read. The inner `catch` cancels the key and disconnects nobody, because `clientConnection` is still null. The model does the same (`HandleOtherKey`).

## Model

| member | source | states |
|---|---|---|
| LdapConnection.ReadData | opendj-server-legacy/src/main/java/org/opends/server/protocols/ldap/LDAPRequestHandler.java:182 | a read with an exhausted script returns 0 and changes nothing; otherwise exactly one scripted read is consumed and the registrability of the channel is kept |
| LdapConnection.ReadDataKeepsStream | opendj-server-legacy/src/main/java/org/opends/server/protocols/ldap/LDAPRequestHandler.java:182 | a read moves elements from the socket into the reader without losing, adding or reordering any |
| LdapConnection.TurnFrom | opendj-server-legacy/src/main/java/org/opends/server/protocols/ldap/LDAPRequestHandler.java:158-187 | reference definition of the `while (true)` loop of a turn, from a point where a message has or has not been dispatched yet: elementAvailable, readMessage, processLDAPMessage, processDataRead and the requeue, with TurnShape, TurnKeepsOrder and TurnAfterDispatch stating its properties |
| LdapConnection.Turn | opendj-server-legacy/src/main/java/org/opends/server/protocols/ldap/LDAPRequestHandler.java:156-187 | one whole turn of a polled connection, starting with no message dispatched |
| LdapConnection.TurnAfterDispatch | opendj-server-legacy/src/main/java/org/opends/server/protocols/ldap/LDAPRequestHandler.java:158-187 | once a message has been dispatched in a turn, nothing more is dispatched and nothing is consumed from the stream; the turn ends with a requeue exactly when a further element is available, and otherwise leaves nothing buffered |
| LdapConnection.TurnShape | opendj-server-legacy/src/main/java/org/opends/server/protocols/ldap/LDAPRequestHandler.java:157-187 | in one turn at most one message reaches processLDAPMessage, and never an undecodable one; after an accepted message the connection is requeued if and only if a further element is buffered; a rejected message ends the turn with no requeue and no exception; an exception ends it with no requeue; a turn with no requeue, no exception and no rejection leaves nothing buffered |
| LdapConnection.TurnKeepsOrder | opendj-server-legacy/src/main/java/org/opends/server/protocols/ldap/LDAPRequestHandler.java:156-187 | a turn dispatches the head of the connection's stream and leaves the rest; when decoding fails, only the undecodable element is lost |
| LdapConnection.TurnConsumes | opendj-server-legacy/src/main/java/org/opends/server/protocols/ldap/LDAPRequestHandler.java:158-187 | a turn never produces elements, and a turn that requeues shrinks the connection's stream |
| LdapConnection.TurnEndsOnEmptyRead | opendj-server-legacy/src/main/java/org/opends/server/protocols/ldap/LDAPRequestHandler.java:180-186 | with nothing buffered and a read of 0 or end of stream, the turn ends at once: no dispatch, no requeue, no disconnect |
| LdapConnection.RunTurn | opendj-server-legacy/src/main/java/org/opends/server/protocols/ldap/LDAPRequestHandler.java:156-200 | the loop with the ldapMessageProcessed flag computes exactly the reference turn Turn |
| RequestHandlerSpec.RegisterClientAfterShutdown | opendj-server-legacy/src/main/java/org/opends/server/protocols/ldap/LDAPRequestHandler.java:412-417 | after shutdown was requested, registerClient returns false, adds exactly one SERVER_SHUTDOWN disconnect of that connection, leaves the pending list as it was and changes nothing else |
| RequestHandlerSpec.RegisterClientBeforeShutdown | opendj-server-legacy/src/main/java/org/opends/server/protocols/ldap/LDAPRequestHandler.java:422-428 | before shutdown, registerClient returns true, appends the connection at the end of the pending list, disconnects nobody and changes nothing else |
| RequestHandlerSpec.RegisterClientKeepsDistinct | opendj-server-legacy/src/main/java/org/opends/server/protocols/ldap/LDAPRequestHandler.java:405-429 | registering a connection the handler does not know yet keeps every known connection (attached or pending) known at most once |
| RequestHandlerSpec.ProcessServerShutdown | opendj-server-legacy/src/main/java/org/opends/server/protocols/ldap/LDAPRequestHandler.java:463-468 | afterwards shutdown is requested |
| RequestHandlerSpec.RegisterClient | opendj-server-legacy/src/main/java/org/opends/server/protocols/ldap/LDAPRequestHandler.java:405-429 | reference definition of registerClient: a SERVER_SHUTDOWN disconnect and false after shutdown, otherwise the connection appended to the pending list and true; RegisterClientAfterShutdown and RegisterClientBeforeShutdown state both cases |
| RequestHandlerSpec.DrainStep | opendj-server-legacy/src/main/java/org/opends/server/protocols/ldap/LDAPRequestHandler.java:152-200 | one poll of the ready queue: the head's turn, its dispatched messages logged in order, its requeue at the end, its PROTOCOL_ERROR disconnect on an exception; every reference stays valid |
| RequestHandlerSpec.DrainStepFair | opendj-server-legacy/src/main/java/org/opends/server/protocols/ldap/LDAPRequestHandler.java:152-200 | one poll serves the head of the ready queue; the others keep their order ahead of it; at most one message is dispatched; after an accepted dispatch the head goes back to the end if and only if it has a further element buffered, and otherwise it is not requeued; an exception disconnects it with PROTOCOL_ERROR and does not requeue it |
| RequestHandlerSpec.DrainStepDecreases | opendj-server-legacy/src/main/java/org/opends/server/protocols/ldap/LDAPRequestHandler.java:152-200 | each poll lowers the length of the ready queue plus what the connections' finite read scripts can still deliver; the drain of the model ends because those scripts are finite, which the source does not guarantee (see "## Left out") |
| RequestHandlerSpec.DrainStepLogs | opendj-server-legacy/src/main/java/org/opends/server/protocols/ldap/LDAPRequestHandler.java:189-200 | a poll only appends to the dispatch and disconnect logs; a failing turn appends a PROTOCOL_ERROR disconnect of the polled connection |
| RequestHandlerSpec.DrainReady | opendj-server-legacy/src/main/java/org/opends/server/protocols/ldap/LDAPRequestHandler.java:152-201 | the drain pass ends with an empty ready queue |
| RequestHandlerSpec.DrainReadyLogs | opendj-server-legacy/src/main/java/org/opends/server/protocols/ldap/LDAPRequestHandler.java:152-201 | the drain pass only appends to the two logs; every disconnect it adds is PROTOCOL_ERROR; it changes nothing but the ready queue, the connections and the logs |
| RequestHandlerSpec.DrainStepEmptiesBuffer | opendj-server-legacy/src/main/java/org/opends/server/protocols/ldap/LDAPRequestHandler.java:152-187 | a turn of a queued connection that neither fails nor has a message rejected either requeues it or leaves nothing buffered for it |
| RequestHandlerSpec.DrainStepWitness | opendj-server-legacy/src/main/java/org/opends/server/protocols/ldap/LDAPRequestHandler.java:189-200 | when the logs of the whole pass show no disconnect and no rejected message for the polled connection, its turn did not fail and dispatched only accepted messages |
| RequestHandlerSpec.DrainEmptiesBuffer | opendj-server-legacy/src/main/java/org/opends/server/protocols/ldap/LDAPRequestHandler.java:149-201 | a connection queued at the start of the drain pass that is neither disconnected nor has a message rejected during the pass ends it with nothing buffered: a pipelined burst already available is dispatched entirely in the same pass, one message per turn |
| RequestHandlerSpec.DrainStepKeepsOrder | opendj-server-legacy/src/main/java/org/opends/server/protocols/ldap/LDAPRequestHandler.java:152-187 | a poll that does not fail keeps every connection's dispatched messages followed by its remaining stream equal to its stream before |
| RequestHandlerSpec.DrainKeepsOrder | opendj-server-legacy/src/main/java/org/opends/server/protocols/ldap/LDAPRequestHandler.java:149-201 | over the whole drain pass, a connection that was not disconnected has its messages dispatched in arrival order with none skipped: what was dispatched for it, followed by what it still holds, is what it held before |
| RequestHandlerSpec.RegisterSnoc | opendj-server-legacy/src/main/java/org/opends/server/protocols/ldap/LDAPRequestHandler.java:217-233 | registering one more taken connection appends its new valid key to the selector when registration succeeds, and otherwise appends one SERVER_ERROR disconnect of it |
| RequestHandlerSpec.FilterPartition | opendj-server-legacy/src/main/java/org/opends/server/protocols/ldap/LDAPRequestHandler.java:217-233 | every taken connection is either registered or refused, exactly once |
| RequestHandlerSpec.RegisterPending | opendj-server-legacy/src/main/java/org/opends/server/protocols/ldap/LDAPRequestHandler.java:205-233 | reference definition of the pending swap and registration: pending emptied, a new valid key for each registrable taken connection in order, a SERVER_ERROR disconnect for each other one in order; RegisterPendingPartition states its properties |
| RequestHandlerSpec.RegisterPendingPartition | opendj-server-legacy/src/main/java/org/opends/server/protocols/ldap/LDAPRequestHandler.java:205-233 | the swap leaves the pending list empty; the connections it took are attached to new keys (the registrable ones, in order) or disconnected with SERVER_ERROR (the others, in order), each exactly once; nothing else changes |
| RequestHandlerSpec.RegisterPendingWellFormed | opendj-server-legacy/src/main/java/org/opends/server/protocols/ldap/LDAPRequestHandler.java:205-233 | after the swap every key still names an existing connection |
| RequestHandlerSpec.RegisterPendingShrinks | opendj-server-legacy/src/main/java/org/opends/server/protocols/ldap/LDAPRequestHandler.java:205-233 | the swap makes no connection known that was not known before |
| RequestHandlerSpec.RegisterPendingKeepsDistinct | opendj-server-legacy/src/main/java/org/opends/server/protocols/ldap/LDAPRequestHandler.java:205-233 | the swap keeps every known connection known at most once |
| RequestHandlerSpec.Publish | opendj-server-legacy/src/main/java/org/opends/server/protocols/ldap/LDAPRequestHandler.java:239 | the snapshot lists every key of the selector, in order, and nothing else changes |
| RequestHandlerSpec.KeyBody | opendj-server-legacy/src/main/java/org/opends/server/protocols/ldap/LDAPRequestHandler.java:267-323 | handling a selected key keeps every key and connection reference valid |
| RequestHandlerSpec.KeyBodyKeys | opendj-server-legacy/src/main/java/org/opends/server/protocols/ldap/LDAPRequestHandler.java:267-323 | the body of a selected key leaves the pending list alone and changes at most the valid bit of that key |
| RequestHandlerSpec.HandleKey | opendj-server-legacy/src/main/java/org/opends/server/protocols/ldap/LDAPRequestHandler.java:265-333 | handling a selected key keeps every reference valid and the number of keys and connections |
| RequestHandlerSpec.HandleReadableKey | opendj-server-legacy/src/main/java/org/opends/server/protocols/ldap/LDAPRequestHandler.java:269-300 | for a valid, readable, attached key: an exception cancels and releases the key and disconnects the connection with SERVER_ERROR; a negative count cancels and releases the key; a positive count queues the connection at the end of the ready queue; 0 does neither |
| RequestHandlerSpec.HandleOtherKey | opendj-server-legacy/src/main/java/org/opends/server/protocols/ldap/LDAPRequestHandler.java:269-315 | a cancelled key makes isReadable throw CancelledKeyException, so nothing is done except releasing its attachment; a valid key that is not readable stays as it is; a readable key without an attachment is cancelled and released, and nobody is disconnected; other keys, queues and logs are untouched |
| RequestHandlerSpec.HandleKeyReleases | opendj-server-legacy/src/main/java/org/opends/server/protocols/ldap/LDAPRequestHandler.java:326-330 | no key is left invalid and still attached |
| RequestHandlerSpec.HandleKeyShrinks | opendj-server-legacy/src/main/java/org/opends/server/protocols/ldap/LDAPRequestHandler.java:265-333 | handling a key attaches no connection anew and leaves the pending list alone |
| RequestHandlerSpec.HandleSelected | opendj-server-legacy/src/main/java/org/opends/server/protocols/ldap/LDAPRequestHandler.java:260-335 | handling the selected keys in iterator order, each with its finally block, keeps every reference valid |
| RequestHandlerSpec.HandleSelectedShrinks | opendj-server-legacy/src/main/java/org/opends/server/protocols/ldap/LDAPRequestHandler.java:260-335 | handling all selected keys attaches no connection anew and leaves the pending list alone |
| RequestHandlerSpec.HandleSelectedKeepsDistinct | opendj-server-legacy/src/main/java/org/opends/server/protocols/ldap/LDAPRequestHandler.java:260-335 | handling the selected keys keeps every known connection known at most once |
| RequestHandlerSpec.ClientConnections | opendj-server-legacy/src/main/java/org/opends/server/protocols/ldap/LDAPRequestHandler.java:440-455 | reference definition of getClientConnections: the non-null attachments of the snapshot's keys, in snapshot order; ClientConnectionsFilter states its properties |
| RequestHandlerSpec.ClientConnectionsFilter | opendj-server-legacy/src/main/java/org/opends/server/protocols/ldap/LDAPRequestHandler.java:440-455 | getClientConnections returns no more connections than the snapshot has keys, and a connection is returned exactly when a snapshot key carries it |
| RequestHandlerSpec.Notices | opendj-server-legacy/src/main/java/org/opends/server/protocols/ldap/LDAPRequestHandler.java:376-387 | one SERVER_SHUTDOWN disconnect per connection, in order, as many as there are connections |
| RequestHandlerSpec.CloseKey | opendj-server-legacy/src/main/java/org/opends/server/protocols/ldap/LDAPRequestHandler.java:342-370 | closing one key at shutdown: it is cancelled, and its connection, when it has one, is disconnected with SERVER_SHUTDOWN |
| RequestHandlerSpec.CloseKeys | opendj-server-legacy/src/main/java/org/opends/server/protocols/ldap/LDAPRequestHandler.java:339-371 | closing the first n keys in key order keeps the number of keys and only appends to the disconnect log |
| RequestHandlerSpec.NoticesCount | opendj-server-legacy/src/main/java/org/opends/server/protocols/ldap/LDAPRequestHandler.java:376-387 | the pending-list drain gives each pending connection as many SERVER_SHUTDOWN disconnects as it occurs, and only SERVER_SHUTDOWN |
| RequestHandlerSpec.CloseKeysFrame | opendj-server-legacy/src/main/java/org/opends/server/protocols/ldap/LDAPRequestHandler.java:339-371 | closing keys changes nothing but the selector and the disconnect log |
| RequestHandlerSpec.CloseKeysSelector | opendj-server-legacy/src/main/java/org/opends/server/protocols/ldap/LDAPRequestHandler.java:339-371 | closing the first n keys cancels exactly those keys and keeps every attachment |
| RequestHandlerSpec.CloseKeysDisconnects | opendj-server-legacy/src/main/java/org/opends/server/protocols/ldap/LDAPRequestHandler.java:339-371 | closing the first n keys disconnects the connection of each attached key among them with SERVER_SHUTDOWN, in key order, and nobody else; keys without an attachment are skipped |
| RequestHandlerSpec.ShutdownDrain | opendj-server-legacy/src/main/java/org/opends/server/protocols/ldap/LDAPRequestHandler.java:338-388 | the shutdown drain only appends to the disconnect log |
| RequestHandlerSpec.ShutdownDrainEffect | opendj-server-legacy/src/main/java/org/opends/server/protocols/ldap/LDAPRequestHandler.java:338-388 | the shutdown drain cancels every key and disconnects with SERVER_SHUTDOWN every registered connection in key order, then every pending connection in order; it changes nothing else |
| RequestHandlerSpec.ShutdownDisconnectsOnce | opendj-server-legacy/src/main/java/org/opends/server/protocols/ldap/LDAPRequestHandler.java:338-388 | when no connection is known twice, the shutdown drain disconnects each known connection exactly once, with SERVER_SHUTDOWN, and nobody else |
| RequestHandlerSpec.ShutdownKeepsSnapshot | opendj-server-legacy/src/main/java/org/opends/server/protocols/ldap/LDAPRequestHandler.java:338-388 | the shutdown drain leaves the snapshot and its attachments as they were, so getClientConnections returns what it returned before |
| RequestHandlerSpec.RegisterArrivals | opendj-server-legacy/src/main/java/org/opends/server/protocols/ldap/LDAPRequestHandler.java:405-429 | registerClient calls during the select touch neither the connections, the selector, the snapshot, the ready queue nor the shutdown flag |
| RequestHandlerSpec.RegisterArrivalsPending | opendj-server-legacy/src/main/java/org/opends/server/protocols/ldap/LDAPRequestHandler.java:405-429 | the registerClient calls during a select append every connection they hand over to the pending list, in order, while shutdown is not requested, and none after |
| RequestHandlerSpec.RegisterArrivalsKnown | opendj-server-legacy/src/main/java/org/opends/server/protocols/ldap/LDAPRequestHandler.java:405-429 | after those calls the known connections are the ones known before followed by the handed-over ones, or unchanged once shutdown was requested |
| RequestHandlerSpec.RegisterArrivalsKeepsDistinct | opendj-server-legacy/src/main/java/org/opends/server/protocols/ldap/LDAPRequestHandler.java:405-429 | handed-over connections that are pairwise distinct and new to the handler keep every known connection known at most once |
| RequestHandlerSpec.BeforeSelection | opendj-server-legacy/src/main/java/org/opends/server/protocols/ldap/LDAPRequestHandler.java:149-258 | a pass up to the select keeps every reference valid, and a shutdown requested during the select is seen |
| RequestHandlerSpec.Iteration | opendj-server-legacy/src/main/java/org/opends/server/protocols/ldap/LDAPRequestHandler.java:254-258 | when shutdown is requested during the select, the pass ends before any selected key is handled |
| RequestHandlerSpec.IterationShrinks | opendj-server-legacy/src/main/java/org/opends/server/protocols/ldap/LDAPRequestHandler.java:149-335 | a pass of the loop knows no connection that was neither known before it nor handed over during its select |
| RequestHandlerSpec.RunLoop | opendj-server-legacy/src/main/java/org/opends/server/protocols/ldap/LDAPRequestHandler.java:149-336 | the loop ends, when some poll of the script requests shutdown, with shutdown requested and every reference valid |
| RequestHandlerSpec.RunLoopStep | opendj-server-legacy/src/main/java/org/opends/server/protocols/ldap/LDAPRequestHandler.java:149-336 | a pass of the loop before shutdown consumes one poll, and the rest of the script still ends the loop |
| RequestHandlerSpec.RunLoopKeepsDistinct | opendj-server-legacy/src/main/java/org/opends/server/protocols/ldap/LDAPRequestHandler.java:149-336 | when the connections known at the start and all connections handed over during the loop are pairwise distinct, no connection is known twice when the loop ends |
| RequestHandlerSpec.Run | opendj-server-legacy/src/main/java/org/opends/server/protocols/ldap/LDAPRequestHandler.java:145-389 | reference definition of run: the loop until shutdown, then the shutdown drain |
| RequestHandlerSpec.RunShutsDownOnce | opendj-server-legacy/src/main/java/org/opends/server/protocols/ldap/LDAPRequestHandler.java:145-389 | under that condition, the shutdown drain that ends run disconnects each connection still registered or pending exactly once with SERVER_SHUTDOWN, and nobody else |
| RequestHandler.RequestHandler.RegisterClient | opendj-server-legacy/src/main/java/org/opends/server/protocols/ldap/LDAPRequestHandler.java:405-429 | updates the fields and returns the result as RequestHandlerSpec.RegisterClient says |
| RequestHandler.RequestHandler.ProcessServerShutdown | opendj-server-legacy/src/main/java/org/opends/server/protocols/ldap/LDAPRequestHandler.java:463-468 | sets the shutdown flag and nothing else |
| RequestHandler.RequestHandler.DrainReadyConnections | opendj-server-legacy/src/main/java/org/opends/server/protocols/ldap/LDAPRequestHandler.java:151-201 | the in-place drain loop ends in the state RequestHandlerSpec.DrainReady computes |
| RequestHandler.RequestHandler.ServeNext | opendj-server-legacy/src/main/java/org/opends/server/protocols/ldap/LDAPRequestHandler.java:152-200 | one poll of the queue in place equals RequestHandlerSpec.DrainStep |
| RequestHandler.RequestHandler.RegisterPendingConnections | opendj-server-legacy/src/main/java/org/opends/server/protocols/ldap/LDAPRequestHandler.java:205-234 | the in-place swap and registration equal RequestHandlerSpec.RegisterPending |
| RequestHandler.RequestHandler.RegisterEach | opendj-server-legacy/src/main/java/org/opends/server/protocols/ldap/LDAPRequestHandler.java:215-234 | registering the taken connections one by one appends the keys of the registrable ones and the SERVER_ERROR disconnects of the others, in order |
| RequestHandler.RequestHandler.RegisterOne | opendj-server-legacy/src/main/java/org/opends/server/protocols/ldap/LDAPRequestHandler.java:219-232 | one taken connection gets its key or its SERVER_ERROR disconnect appended |
| RequestHandler.RequestHandler.PublishKeys | opendj-server-legacy/src/main/java/org/opends/server/protocols/ldap/LDAPRequestHandler.java:239 | equals RequestHandlerSpec.Publish |
| RequestHandler.RequestHandler.HandleKey | opendj-server-legacy/src/main/java/org/opends/server/protocols/ldap/LDAPRequestHandler.java:265-333 | one selected key, with its finally block, in place, equals RequestHandlerSpec.HandleKey |
| RequestHandler.RequestHandler.ReadKey | opendj-server-legacy/src/main/java/org/opends/server/protocols/ldap/LDAPRequestHandler.java:267-323 | the try part for one key, in place, equals RequestHandlerSpec.KeyBody |
| RequestHandler.RequestHandler.HandleSelectedKeys | opendj-server-legacy/src/main/java/org/opends/server/protocols/ldap/LDAPRequestHandler.java:260-335 | the iteration over the selected keys equals RequestHandlerSpec.HandleSelected |
| RequestHandler.RequestHandler.GetClientConnections | opendj-server-legacy/src/main/java/org/opends/server/protocols/ldap/LDAPRequestHandler.java:440-455 | returns, in snapshot order, exactly the connections attached to snapshot keys, no more than the snapshot length, and changes nothing |
| RequestHandler.RequestHandler.ShutdownDrain | opendj-server-legacy/src/main/java/org/opends/server/protocols/ldap/LDAPRequestHandler.java:338-388 | the in-place shutdown drain equals RequestHandlerSpec.ShutdownDrain |
| RequestHandler.RequestHandler.DisconnectPending | opendj-server-legacy/src/main/java/org/opends/server/protocols/ldap/LDAPRequestHandler.java:373-388 | appends one SERVER_SHUTDOWN disconnect per pending connection, in order, and changes nothing else |
| RequestHandler.RequestHandler.Run | opendj-server-legacy/src/main/java/org/opends/server/protocols/ldap/LDAPRequestHandler.java:145-389 | run, for a script of polls that eventually requests shutdown, ends in the state RequestHandlerSpec.Run computes: the loop, then the shutdown drain |
| RequestHandler.RequestHandler.UpToSelect | opendj-server-legacy/src/main/java/org/opends/server/protocols/ldap/LDAPRequestHandler.java:149-258 | one pass up to the shutdown check equals RequestHandlerSpec.BeforeSelection |
| RequestHandler.RequestHandler.AcceptArrivals | opendj-server-legacy/src/main/java/org/opends/server/protocols/ldap/LDAPRequestHandler.java:405-429 | the registerClient calls during the select equal RequestHandlerSpec.RegisterArrivals |
| ResponseWriterSpec.SubscribeWhileSubscribed | opendj-grizzly/src/main/java/org/forgerock/opendj/grizzly/LdapResponseMessageWriter.java:42-45 | a subscription arriving while one is held is cancelled; upstream and everything else are unchanged |
| ResponseWriterSpec.SubscribeFirst | opendj-grizzly/src/main/java/org/forgerock/opendj/grizzly/LdapResponseMessageWriter.java:46-60 | the first subscription is stored and one write handler is registered for it; nothing is requested, cancelled, written or signalled |
| ResponseWriterSpec.DemandOneAtATime | opendj-grizzly/src/main/java/org/forgerock/opendj/grizzly/LdapResponseMessageWriter.java:68-74 | completed, and likewise the write handler's onWritePossible (lines 50-53), requests exactly one unit from the held subscription, or nothing without one, and changes nothing else |
| ResponseWriterSpec.NextWritesOnce | opendj-grizzly/src/main/java/org/forgerock/opendj/grizzly/LdapResponseMessageWriter.java:64-66 | onNext writes exactly that message, requests nothing and changes nothing else |
| ResponseWriterSpec.ErrorRoutes | opendj-grizzly/src/main/java/org/forgerock/opendj/grizzly/LdapResponseMessageWriter.java:56-89 | cancelled is failed with a cancellation; failed and the write handler's onError are onError; updated changes nothing |
| ResponseWriterSpec.TerminalWhileSubscribed | opendj-grizzly/src/main/java/org/forgerock/opendj/grizzly/LdapResponseMessageWriter.java:91-103 | onError and onComplete with a subscription held cancel it, clear upstream and give downstream exactly the matching signal; demand, writes and registrations are untouched |
| ResponseWriterSpec.TerminalWithoutSubscription | opendj-grizzly/src/main/java/org/forgerock/opendj/grizzly/LdapResponseMessageWriter.java:91-103 | without a subscription, onError, failed, cancelled, the write handler's onError and onComplete throw a NullPointerException before doing anything |
| ResponseWriterSpec.NothingAfterTerminal | opendj-grizzly/src/main/java/org/forgerock/opendj/grizzly/LdapResponseMessageWriter.java:68-103 | after a terminal signal upstream is empty, so demand callbacks request nothing and a second terminal signal never reaches downstream |
| ResponseWriterSpec.InitialInv | opendj-grizzly/src/main/java/org/forgerock/opendj/grizzly/LdapResponseMessageWriter.java:35-38 | a new writer holds no subscription and has registered nothing, so the invariant holds |
| ResponseWriterSpec.StepKeepsInv | opendj-grizzly/src/main/java/org/forgerock/opendj/grizzly/LdapResponseMessageWriter.java:40-103 | every callback keeps the invariant: each registered write handler's subscription is either the one held (the last registered) or has been terminated once downstream, and all demand goes to accepted subscriptions |
| ResponseWriterSpec.ReplayKeepsInv | opendj-grizzly/src/main/java/org/forgerock/opendj/grizzly/LdapResponseMessageWriter.java:40-103 | any sequence of callbacks keeps that invariant |
| ResponseWriterSpec.ReplayRegistrations | opendj-grizzly/src/main/java/org/forgerock/opendj/grizzly/LdapResponseMessageWriter.java:46-47 | only onSubscribe registers a write handler, at most one per call |
| ResponseWriterSpec.ReplayDemand | opendj-grizzly/src/main/java/org/forgerock/opendj/grizzly/LdapResponseMessageWriter.java:47-74 | only write-possible and completed request demand, at most one unit per call; the request log only grows |
| ResponseWriterSpec.TerminalsPerSubscription | opendj-grizzly/src/main/java/org/forgerock/opendj/grizzly/LdapResponseMessageWriter.java:40-103 | from a new writer, downstream receives no more terminal signals than onSubscribe calls, so at most one for a single subscription |
| ResponseWriterSpec.SingleInFlight | opendj-grizzly/src/main/java/org/forgerock/opendj/grizzly/LdapResponseMessageWriter.java:40-84 | for callbacks from an environment that fires each write handler once, delivers onNext only against requested demand and ends each write once: unfired write handlers, undelivered demand and writes in flight together never exceed the subscriptions the writer accepted, so with one onSubscribe at most one write is in flight at any time; the next message is requested only when the previous write completed |
| ResponseWriterSpec.ResubscribeAllowsTwoWrites | opendj-grizzly/src/main/java/org/forgerock/opendj/grizzly/LdapResponseMessageWriter.java:40-103 | onSubscribe after onComplete is accepted again, because upstream was reset to null, and leads to two writes in flight under the same environment: the single-subscription hypothesis of SingleInFlight is needed |
| ResponseWriterSpec.QuietWhenUnsubscribed | opendj-grizzly/src/main/java/org/forgerock/opendj/grizzly/LdapResponseMessageWriter.java:50-103 | with no subscription held and none arriving, no callback requests demand, cancels anything or reaches downstream |
| ResponseWriterSpec.OnSubscribe | opendj-grizzly/src/main/java/org/forgerock/opendj/grizzly/LdapResponseMessageWriter.java:41-61 | reference definition of onSubscribe: cancel a second subscription, or keep the first and register one write handler; SubscribeWhileSubscribed and SubscribeFirst state both cases |
| ResponseWriterSpec.RequestOne | opendj-grizzly/src/main/java/org/forgerock/opendj/grizzly/LdapResponseMessageWriter.java:68-74 | reference definition of completed and of the write handler's onWritePossible (lines 49-54): one request(1) to the subscription held at call time, or nothing; DemandOneAtATime states it |
| ResponseWriterSpec.OnNext | opendj-grizzly/src/main/java/org/forgerock/opendj/grizzly/LdapResponseMessageWriter.java:63-66 | reference definition of onNext: one write of the message; NextWritesOnce states it |
| ResponseWriterSpec.OnError | opendj-grizzly/src/main/java/org/forgerock/opendj/grizzly/LdapResponseMessageWriter.java:91-96 | reference definition of onError: cancel the upstream, clear it and pass the error downstream, or end with a NullPointerException and no change when there is no upstream; TerminalWhileSubscribed and TerminalWithoutSubscription state both cases |
| ResponseWriterSpec.OnComplete | opendj-grizzly/src/main/java/org/forgerock/opendj/grizzly/LdapResponseMessageWriter.java:98-103 | reference definition of onComplete: cancel the upstream, clear it and complete downstream, or end with a NullPointerException and no change when there is no upstream |
| ResponseWriterSpec.Step | opendj-grizzly/src/main/java/org/forgerock/opendj/grizzly/LdapResponseMessageWriter.java:40-103 | one callback of the writer, routed as the class routes it (cancelled to failed, failed and the write handler's onError to onError, updated to nothing); ErrorRoutes states the routing |
| ResponseWriterSpec.Replay | opendj-grizzly/src/main/java/org/forgerock/opendj/grizzly/LdapResponseMessageWriter.java:40-103 | a sequence of callbacks applied one after another; ReplayKeepsInv, TerminalsPerSubscription and QuietWhenUnsubscribed state its properties |
| ResponseWriter.ResponseWriter.constructor | opendj-grizzly/src/main/java/org/forgerock/opendj/grizzly/LdapResponseMessageWriter.java:35-38 | a new writer holds no subscription and has made no call |
| ResponseWriter.ResponseWriter.OnSubscribe | opendj-grizzly/src/main/java/org/forgerock/opendj/grizzly/LdapResponseMessageWriter.java:41-61 | updates the fields as ResponseWriterSpec.OnSubscribe says |
| ResponseWriter.ResponseWriter.OnWritePossible | opendj-grizzly/src/main/java/org/forgerock/opendj/grizzly/LdapResponseMessageWriter.java:49-54 | updates the fields as ResponseWriterSpec.RequestOne says |
| ResponseWriter.ResponseWriter.OnWriteHandlerError | opendj-grizzly/src/main/java/org/forgerock/opendj/grizzly/LdapResponseMessageWriter.java:56-59 | behaves as onError |
| ResponseWriter.ResponseWriter.OnNext | opendj-grizzly/src/main/java/org/forgerock/opendj/grizzly/LdapResponseMessageWriter.java:63-66 | updates the fields as ResponseWriterSpec.OnNext says |
| ResponseWriter.ResponseWriter.Completed | opendj-grizzly/src/main/java/org/forgerock/opendj/grizzly/LdapResponseMessageWriter.java:68-74 | updates the fields as ResponseWriterSpec.RequestOne says |
| ResponseWriter.ResponseWriter.Cancelled | opendj-grizzly/src/main/java/org/forgerock/opendj/grizzly/LdapResponseMessageWriter.java:76-79 | behaves as failed with a cancellation |
| ResponseWriter.ResponseWriter.Failed | opendj-grizzly/src/main/java/org/forgerock/opendj/grizzly/LdapResponseMessageWriter.java:81-84 | behaves as onError |
| ResponseWriter.ResponseWriter.Updated | opendj-grizzly/src/main/java/org/forgerock/opendj/grizzly/LdapResponseMessageWriter.java:86-89 | changes nothing |
| ResponseWriter.ResponseWriter.OnError | opendj-grizzly/src/main/java/org/forgerock/opendj/grizzly/LdapResponseMessageWriter.java:91-96 | ends and updates the fields as ResponseWriterSpec.OnError says, including the NullPointerException without a subscription |
| ResponseWriter.ResponseWriter.OnComplete | opendj-grizzly/src/main/java/org/forgerock/opendj/grizzly/LdapResponseMessageWriter.java:98-103 | ends and updates the fields as ResponseWriterSpec.OnComplete says, including the NullPointerException without a subscription |

## Left out

- Concurrency is not modelled: `synchronized (pendingConnectionsLock)`, the `volatile` fields and visibility across threads. Each call is atomic and sequential. The `registerClient` and `processServerShutdown` calls from other threads are placed during the select, where the loop blocks.
- The NIO selector is not modelled: `configureBlocking`, `register`, `select(1000)` with its timeout and exception, and `wakeup`. Registration success is a flag of each connection, and the keys `select` reports come from the `Poll` script.
- Deregistration of cancelled keys at the next `select` is not modelled. A cancelled key stays in the key table, marked invalid. The `finally` block has already released its attachment, so `getClientConnections` skips it; the shutdown drain cancels it again and disconnects nobody for it.
- The order of `selector.keys()` is not specified by Java. The model uses registration order.
- ASN.1 decoding, `LDAPReader.readMessage` and `processLDAPMessage` are abstracted: buffered elements, malformed elements and an accept flag per request.
- Logging and localized message texts are left out: `logger.traceException`, `logConnect`, `logger.error`, and the message passed to `disconnect`.
- The handler's constructor and its JVM bug probing are not part of this model. The class constructor only builds an empty handler over a table of connections.
- The catch-all arm around a selected key (lines 316-323) is not reachable in the model, because every failure inside that `try` is modelled by the arms before it.
- The Grizzly `Connection` and the reactive-streams `Subscription` and `Completable.Subscriber` are recorded as logs of the calls the writer makes. Their own behaviour is not modelled, including the fact that a write completes after it was issued. ResponseWriterSpec.SingleInFlight therefore takes the protocols of these collaborators as a hypothesis on the sequence of callbacks (each write handler fires once, onNext only against demand, each write ends once) rather than deriving them.
- RequestHandlerSpec.DrainStep: the PROTOCOL_ERROR disconnect of a failing turn is only logged. `LDAPClientConnection.disconnect` is not part of this model, so the connection's key is neither cancelled nor released by it. In the model that connection can therefore be read again at a later select, have its remaining messages dispatched after the disconnect, still be returned by getClientConnections, and be disconnected a second time, with SERVER_SHUTDOWN, by the shutdown drain.
- RequestHandlerSpec.ShutdownDisconnectsOnce: "exactly once" counts only the SERVER_SHUTDOWN disconnects of the shutdown drain, and RequestHandlerSpec.RunShutsDownOnce inherits this. A connection disconnected earlier with PROTOCOL_ERROR keeps its key attached and so gets one more disconnect (see the line above). A SERVER_ERROR disconnect either releases the key or happens before any key exists, so it leads to no second one.
- RequestHandlerSpec.DrainStepDecreases: the drain pass ends in the model only because each connection's script of reads is finite. In the source, a turn that has dispatched a message and finds no full element reads the socket again (LDAPRequestHandler.java:180-182), and a read that completes an element puts the connection back on the ready queue. A client that keeps sending therefore keeps the `while (poll() != null)` pass of lines 152-201 running without bound, and meanwhile no pending connection is registered, no select happens and shutdown is not checked. The bound "by buffered bytes" holds only for bytes already read.
- RequestHandlerSpec.RegisterPending: every registrable connection taken from the pending list gets a new key. NIO's `register` on a channel that is already registered with the selector returns the existing key instead, and throws `CancelledKeyException` (a SERVER_ERROR disconnect, lines 226-231) when that key is cancelled but not yet deregistered. Registering the same connection twice would, in the model, list it twice in getClientConnections and disconnect it twice at shutdown; the distinctness lemmas (RegisterClientKeepsDistinct through RunLoopKeepsDistinct) assume each connection is registered once.
- RequestHandlerSpec.RunLoop: the loop is modelled for a finite script of polls that eventually requests shutdown. A handler that is never shut down is not modelled.
- ResponseWriterSpec.OnError, ResponseWriterSpec.OnComplete: calling them with no upstream is modelled as a `NullPointer` outcome that leaves the state unchanged and reaches nobody, rather than as a precondition, because the Java code does run into that call and throws.
