# jcasbin-postgres-watcher, modelled in Dafny

jcasbin-postgres-watcher keeps several jCasbin enforcers in step through
PostgreSQL `LISTEN`/`NOTIFY`. Each policy change builds a `{method, params}`
message map. The watcher serialises the map to JSON, tags it with the
instance's `localId` and a `"::"` separator, and sends it with `NOTIFY` on a
channel. Every instance listens on that channel, drops the messages it sent
itself, and hands the other messages to the registered update callbacks.

The model has seven modules, one file each:

- `Wrappers` (`wrappers.dfy`): `Option`, `Result` and `Outcome`.
- `Codec` (`codec.dfy`): the `localId::json` frame and Java's `split("::", 2)`. Also the receiving decision: suppress the message, or deliver what.
- `SqlNotify` (`sql_notify.dfy`): the quote doubling that `notify` applies and the `NOTIFY` command text. Also a reference reading of an SQL character string literal (ISO/IEC 9075-2, section 5.3), as the server reads the command.
- `Uuid` (`uuid.dfy`): `UUID.randomUUID().toString()` as a function of the sixteen random bytes. It produces a version 4, variant 10 UUID, written as lower-case hex in groups of 8-4-4-4-12 (RFC 4122, section 3). A parser shows that the string determines the bytes.
- `Config` (`watcher_config.dfy`): the class `WatcherConfig`, with its defaults, getters and setters.
- `Messages` (`messages.dfy`): the message maps the seven `update*` operations send, and a receiver's reading of such a map back into a policy change.
- `Pg` (`postgres_watcher.dfy`): the class `PostgresWatcher`. It covers the connection state, the `running` flag and the thread, `notify`, `close`, and the listener loop run over a schedule of flag reads and poll results.
- `Watcher` (`jcasbin_watcher.dfy`): the class `JCasbinPostgresWatcher`. It covers the callbacks, `onMessageReceived`, `sendMessage`, the seven `update*` operations, `close`, `createDefaultConfig` and the two constructors.

Calls that leave the process take their outcome as a parameter:

- the driver connecting: `connectOk`;
- the server running `LISTEN` or `NOTIFY`: `subscribeOk`, `accepted`;
- a poll: one `Tick` of the schedule;
- a join being interrupted or a close failing: `joinInterrupted`, `closeFails`;
- the sixteen random bytes of the UUID: `random`.

Jackson's `writeValueAsString` is the function-valued field `toJson`, which may
fail. A callback is known by an identity. What the callbacks are called
with, and the log lines, are appended to `trace`. The statements the server
ran, the joins, the successful closes and the printed stack traces are
appended to `effects`. A statement the server refuses leaves no entry of its
own, and a close that fails shows up as a printed stack trace.

The tagging relies on one precondition, `Codec.SafeId`: the id contains no
`"::"` and does not end in `':'`. `Codec.SplitFrameIff` proves that a frame
splits back into its id and its JSON exactly when the id is safe. The
default id is a UUID string, which contains no `':'` at all, so it is always
safe (`Config.DefaultLocalIdIsSafe`). `setLocalId` accepts any string.
`Codec.SelfSuppressionIff` proves that an instance ignores its own frames
exactly when its id is safe. Two lemmas show concrete ids for which the
round trip fails:

- `Codec.TrailingColonIdHearsItself`: the id `"a:"` receives its own message, as `":{}"`.
- `Codec.SeparatorInIdSuppressesOther`: a frame from the id `"a::b"` is silently dropped by the instance with id `"a"`, and `"a::b"` hears itself, as `"b::{}"`.

## Model

| member | source | states |
|---|---|---|
| Codec.FirstSeparator | src/main/java/org/casbin/watcher/JCasbinPostgresWatcher.java:57 | the result is the least position holding `"::"`, or none when the text has no separator |
| Codec.SplitFirst | src/main/java/org/casbin/watcher/JCasbinPostgresWatcher.java:57 | `split("::", 2)` gives one or two parts. It gives one part, the whole text, exactly when there is no separator. With two parts, the text is part 0, `"::"`, part 1, and part 0 contains no separator even if part 1 does |
| Codec.Receive | src/main/java/org/casbin/watcher/JCasbinPostgresWatcher.java:55-64 | the message is suppressed exactly when the text before the first separator equals the local id. Otherwise the delivered message is everything after the first separator, or the raw text when there is no separator |
| Codec.SplitFrameIff | src/main/java/org/casbin/watcher/JCasbinPostgresWatcher.java:57 | splitting `id + "::" + json` gives back `[id, json]` for every json if and only if the id is safe (no `"::"`, no trailing `':'`) |
| Codec.CrossInstanceDelivery | src/main/java/org/casbin/watcher/JCasbinPostgresWatcher.java:156 | an instance whose id differs from a safe sender's id receives exactly the sender's JSON from its frame |
| Codec.SelfSuppression | src/main/java/org/casbin/watcher/JCasbinPostgresWatcher.java:58-63 | an instance receiving a frame it tagged itself suppresses it |
| Codec.SelfSuppressionIff | src/main/java/org/casbin/watcher/JCasbinPostgresWatcher.java:57-63 | an instance suppresses a frame it tagged itself, for any JSON, if and only if its id is safe |
| Codec.TrailingColonIdHearsItself | src/main/java/org/casbin/watcher/JCasbinPostgresWatcher.java:57-58 | with id `"a:"` an instance is handed its own message, as `":{}"` |
| Codec.SeparatorInIdSuppressesOther | src/main/java/org/casbin/watcher/JCasbinPostgresWatcher.java:57-58 | a frame from id `"a::b"` is suppressed by instance `"a"` and misread by its own sender |
| SqlNotify.Escape | src/main/java/org/casbin/watcher/PostgresWatcher.java:76 | the escaped text is longer than the message by exactly its number of `'` characters |
| SqlNotify.EscapeDoublesQuotes | src/main/java/org/casbin/watcher/PostgresWatcher.java:76 | escaping doubles the number of quotes, keeps every other character in order, and leaves every quote in a doubled pair |
| SqlNotify.EscapeCountsQuotesTwice | src/main/java/org/casbin/watcher/PostgresWatcher.java:76 | the escaped text holds exactly twice as many quotes as the message |
| SqlNotify.EscapeKeepsOthers | src/main/java/org/casbin/watcher/PostgresWatcher.java:76 | the characters other than quotes are the message's own, in the same order |
| SqlNotify.EscapeIsPaired | src/main/java/org/casbin/watcher/PostgresWatcher.java:76-77 | every quote of the escaped text belongs to a doubled pair, so it cannot close the literal |
| SqlNotify.ReadLiteral | src/main/java/org/casbin/watcher/PostgresWatcher.java:77 | the reading of a literal body, up to its closing quote, consumes at least that quote |
| SqlNotify.ReadEscaped | src/main/java/org/casbin/watcher/PostgresWatcher.java:76-77 | reading the escaped message followed by the closing quote gives back the message, and ends at that quote, not earlier |
| SqlNotify.PairedIsEscaped | src/main/java/org/casbin/watcher/PostgresWatcher.java:76 | conversely, every text whose quotes come in pairs is the escape of exactly what the server reads from it |
| SqlNotify.NotifyCommand | src/main/java/org/casbin/watcher/PostgresWatcher.java:77 | the command's length is the prefix length plus the escaped length plus the closing quote |
| SqlNotify.NotifyCommandCarriesMessage | src/main/java/org/casbin/watcher/PostgresWatcher.java:76-77 | the command starts with `NOTIFY <channel>, '`, channel unmodified. The server reads the rest as exactly the message, with nothing after the literal |
| Uuid.Hex | src/main/java/org/casbin/config/WatcherConfig.java:23 | two lower-case hex digits per byte |
| Uuid.MarkVersion4 | src/main/java/org/casbin/config/WatcherConfig.java:23 | the version nibble is 4 and the variant bits are 10; every other bit is the random one |
| Uuid.ToString | src/main/java/org/casbin/config/WatcherConfig.java:23 | 36 characters: hyphens exactly at 8, 13, 18 and 23, hex digits elsewhere |
| Uuid.ParseToString | src/main/java/org/casbin/config/WatcherConfig.java:23 | the UUID string determines its sixteen bytes: parsing gives them back |
| Uuid.RandomUuidString | src/main/java/org/casbin/config/WatcherConfig.java:23 | the default id is 36 characters of hex digits and hyphens, with `'4'` at 14 and one of `8 9 a b` at 19 |
| Config.WatcherConfig.constructor | src/main/java/org/casbin/config/WatcherConfig.java:21-23 | a fresh config has channel `casbin_postgres_watcher`, verbose false and the random UUID string as id |
| Config.WatcherConfig.SetChannel | src/main/java/org/casbin/config/WatcherConfig.java:25-26 | `getChannel` then returns the value set; verbose and id are unchanged |
| Config.WatcherConfig.SetVerbose | src/main/java/org/casbin/config/WatcherConfig.java:28-29 | `isVerbose` then returns the value set; channel and id are unchanged |
| Config.WatcherConfig.SetLocalId | src/main/java/org/casbin/config/WatcherConfig.java:31-32 | `getLocalId` then returns the value set; channel and verbose are unchanged |
| Config.DefaultLocalIdIsSafe | src/main/java/org/casbin/config/WatcherConfig.java:23 | the default id satisfies the precondition of the frame round trip |
| Messages.Envelope | src/main/java/org/casbin/watcher/JCasbinPostgresWatcher.java:150-152 | the message map has exactly the keys `method` and `params`, holding the method name and the params map |
| Messages.MessageKeys | src/main/java/org/casbin/watcher/JCasbinPostgresWatcher.java:90-147 | the params keys of each operation are fixed: `update` and `updateForSavePolicy` have none; the single-rule operations have `sec`, `ptype`, `params`; the filtered removal has `sec`, `ptype`, `fieldIndex`, `fieldValues`; the multi-rule operations have `sec`, `ptype`, `rules` |
| Messages.ChangeOfMessageOf | src/test/java/org/casbin/watcher/JCasbinPostgresWatcherTest.java:78-117 | a receiver reading a message map recovers the operation and every argument, sequences in caller order |
| Messages.MessageOfInjective | src/main/java/org/casbin/watcher/JCasbinPostgresWatcher.java:90-147 | different policy changes send different message maps |
| Pg.Parameters | src/main/java/org/casbin/watcher/PostgresWatcher.java:58-60 | the payloads of a batch, one per notification, in batch order |
| Pg.ListenerMeaning | src/main/java/org/casbin/watcher/PostgresWatcher.java:54-66 | each poll follows a read of `running` as true, and only the last poll may fail. The callback receives exactly the payloads of the polls issued, in order, none for a null batch. The task stops on a false read, dies on an exception, or is still running when the schedule ends |
| Pg.ListenerFromPolls | src/main/java/org/casbin/watcher/PostgresWatcher.java:54-66 | from any check of `running` on, the polls issued, the normal returns of all but the last, and the three ways the task ends |
| Pg.ListenerFromDelivered | src/main/java/org/casbin/watcher/PostgresWatcher.java:54-61 | from any check of `running` on, the callback receives the payloads of exactly the polls issued, in order |
| Pg.DeliverBatch | src/main/java/org/casbin/watcher/PostgresWatcher.java:57-61 | the `for` over a non-null batch hands on every payload of the batch, in batch order, after those already delivered |
| Pg.PollLoop | src/main/java/org/casbin/watcher/PostgresWatcher.java:54-63 | the `while (running)` loop with its nested `for` computes exactly the listener's run |
| Pg.PostgresWatcher.constructor | src/main/java/org/casbin/watcher/PostgresWatcher.java:31-36 | keeps url, user and password; no connection, no thread, flag down |
| Pg.PostgresWatcher.Connect | src/main/java/org/casbin/watcher/PostgresWatcher.java:41-43 | succeeds exactly when the driver connects, and only then opens the connection |
| Pg.PostgresWatcher.Listen | src/main/java/org/casbin/watcher/PostgresWatcher.java:48-50 | raises `running` and creates the thread for the channel; nothing is sent yet |
| Pg.PostgresWatcher.ListenTask | src/main/java/org/casbin/watcher/PostgresWatcher.java:50-67 | sends `LISTEN <channel>` and runs the loop when the connection is open and the server subscribes. Otherwise it dies at once. Any death prints one stack trace |
| Pg.PostgresWatcher.Notify | src/main/java/org/casbin/watcher/PostgresWatcher.java:74-81 | succeeds exactly when the connection is open and the server accepts. In that case, and only then, it sends exactly the escaped `NOTIFY` command |
| Pg.PostgresWatcher.Close | src/main/java/org/casbin/watcher/PostgresWatcher.java:86-94 | always lowers `running` and never fails. It joins only an existing thread, and closes only an existing connection unless the join was interrupted. Each exception becomes one stack trace |
| Watcher.DispatchCallsEachOnce | src/main/java/org/casbin/watcher/JCasbinPostgresWatcher.java:58-71 | a suppressed message calls no callback. A delivered message calls each registered callback exactly once, the string callback first with the message, and skips an unregistered one |
| Watcher.SendIssuesOneNotifyOrLogs | src/main/java/org/casbin/watcher/JCasbinPostgresWatcher.java:154-162 | a send issues one `NOTIFY`, whose literal the server reads as exactly `localId + "::" + json`. Otherwise it issues nothing and logs exactly one failure, and nothing on serialisation failure |
| Watcher.CrossInstanceEndToEnd | src/test/java/org/casbin/watcher/JCasbinPostgresWatcherTest.java:33-41 | two instances on one channel: the other instance calls its callbacks with exactly the sender's JSON, the sender calls none, and the change is recovered from the JSON |
| Watcher.JCasbinPostgresWatcher.constructor | src/main/java/org/casbin/watcher/JCasbinPostgresWatcher.java:46-51 | copies channel, id and verbose from the config; no callbacks |
| Watcher.JCasbinPostgresWatcher.OnMessageReceived | src/main/java/org/casbin/watcher/JCasbinPostgresWatcher.java:55-72 | the split, filter and dispatch steps append exactly what `Dispatch` describes |
| Watcher.JCasbinPostgresWatcher.DispatchEach | src/main/java/org/casbin/watcher/PostgresWatcher.java:58-60 | each delivered payload goes through `onMessageReceived`, in order |
| Watcher.JCasbinPostgresWatcher.RunListener | src/main/java/org/casbin/watcher/JCasbinPostgresWatcher.java:52 | the listener started with `onMessageReceived` filters every payload it delivers, in delivery order. The loop's run is the schedule's run when the connection is open and `LISTEN` succeeds, and an immediate death otherwise. The connection's record gains the `LISTEN` statement when it ran and a stack trace when the thread died |
| Watcher.JCasbinPostgresWatcher.SetRunnableCallback | src/main/java/org/casbin/watcher/JCasbinPostgresWatcher.java:80-83 | replaces the runnable callback and leaves the string callback unchanged |
| Watcher.JCasbinPostgresWatcher.SetConsumerCallback | src/main/java/org/casbin/watcher/JCasbinPostgresWatcher.java:85-88 | replaces the string callback and leaves the runnable callback unchanged |
| Watcher.JCasbinPostgresWatcher.SendMessage | src/main/java/org/casbin/watcher/JCasbinPostgresWatcher.java:149-163 | builds the envelope and sends it as `Send` describes. Failures are logged and never reach the caller |
| Watcher.JCasbinPostgresWatcher.Update | src/main/java/org/casbin/watcher/JCasbinPostgresWatcher.java:90-93 | sends the message of a reload |
| Watcher.JCasbinPostgresWatcher.UpdateForAddPolicy | src/main/java/org/casbin/watcher/JCasbinPostgresWatcher.java:95-102 | sends `updateForAddPolicy` with `sec`, `ptype` and `params` in caller order |
| Watcher.JCasbinPostgresWatcher.UpdateForRemovePolicy | src/main/java/org/casbin/watcher/JCasbinPostgresWatcher.java:104-111 | sends `updateForRemovePolicy` with `sec`, `ptype` and `params` |
| Watcher.JCasbinPostgresWatcher.UpdateForRemoveFilteredPolicy | src/main/java/org/casbin/watcher/JCasbinPostgresWatcher.java:113-121 | sends `updateForRemoveFilteredPolicy` with `sec`, `ptype`, `fieldIndex` and `fieldValues` |
| Watcher.JCasbinPostgresWatcher.UpdateForSavePolicy | src/main/java/org/casbin/watcher/JCasbinPostgresWatcher.java:123-129 | sends `updateForSavePolicy` with empty params, whatever the model |
| Watcher.JCasbinPostgresWatcher.UpdateForAddPolicies | src/main/java/org/casbin/watcher/JCasbinPostgresWatcher.java:131-138 | sends `updateForAddPolicies` with `sec`, `ptype` and `rules` |
| Watcher.JCasbinPostgresWatcher.UpdateForRemovePolicies | src/main/java/org/casbin/watcher/JCasbinPostgresWatcher.java:140-147 | sends `updateForRemovePolicies` with `sec`, `ptype` and `rules` |
| Watcher.JCasbinPostgresWatcher.Close | src/main/java/org/casbin/watcher/JCasbinPostgresWatcher.java:165-168 | lowers the listener's flag and never fails; the connection ends closed or as it was |
| Watcher.CreateDefaultConfig | src/main/java/org/casbin/watcher/JCasbinPostgresWatcher.java:74-78 | a fresh config with the given channel and the default verbose and id |
| Watcher.Open | src/main/java/org/casbin/watcher/JCasbinPostgresWatcher.java:46-53 | a watcher exists exactly when the driver connects. It then holds the config's settings, an open connection and a running listener thread on its channel, and has sent nothing |
| Watcher.OpenOnChannel | src/main/java/org/casbin/watcher/JCasbinPostgresWatcher.java:42-44 | a watcher exists exactly when the driver connects. A watcher built from a channel name holds that channel, verbose off and a fresh UUID id, which is safe for the frame round trip. It also holds the given server settings, an open connection and a running listener thread on that channel, has no callbacks and has sent nothing |

## Left out

- JDBC: the driver, `Statement.execute`, `unwrap` and `getNotifications(1000)` are calls into code that is not part of this model. Their outcomes are parameters, and their effect is what `effects` records.
- Threads and timing: thread start, `Thread.sleep(100)`, `join`, and the `volatile` visibility of `running`. The listener is its loop alone, run on a schedule of the values each check of `running` reads.
- Interleaving of the listener and the callbacks: `RunListener` runs the loop first and then the callbacks, in delivery order. The callbacks do not influence the loop, so the order of the calls is the same.
- Exceptions thrown by a callback, or by `Thread.sleep`, also end the listener thread. The model does not represent such runs: callbacks and the sleep are taken to return. In the source, the payloads handled before the exception stay handled, and the callback that threw may have been only partly run. No schedule of the model produces that outcome, and `PollError` stands only for a failing poll.
- Jackson: serialisation is the abstract, possibly failing `toJson`. JSON text, and parsing it, are not modelled. The receiving side's parse is a parameter of `Watcher.CrossInstanceEndToEnd`.
- Log and stack-trace text: only the fact that a line is written is recorded.
- Java `null` arguments: null strings, arrays and lists are not modelled. A null callback is an absent one.
- The `Model` argument of `updateForSavePolicy` is ignored by the code and has no counterpart.
- The payload limit PostgreSQL puts on `NOTIFY`, and any other server-side refusal, are the `accepted` parameter.
- The channel name is inserted into `LISTEN` and `NOTIFY` unquoted and unchecked. What the server makes of an unusual channel name is not modelled.
- SqlNotify.ReadLiteral assumes `standard_conforming_strings`: the backslash is an ordinary character.
- SqlNotify.ReadEscaped, SqlNotify.PairedIsEscaped: both require that what follows the closing quote does not start with a quote. A following quote would make the reader continue the literal; in the command, nothing follows it.
- Watcher.JCasbinPostgresWatcher.Close: states only that `running` ends false and the connection ends closed or unchanged. The full effect is stated by `Pg.PostgresWatcher.Close`, which it calls.
- Pg.PostgresWatcher.Notify: requires a connection. Calling it without one is a `NullPointerException` in the source, and no caller can reach that case, since a watcher exists only after `connect` succeeded.
- Uuid.RandomUuidString: the random source itself is a parameter, the sixteen bytes drawn by `UUID.randomUUID()`.
