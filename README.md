# SightRemote pump-command safety layer, in Dafny

This project models the part of SightRemote's `sightparser` library that
decides whether a command may reach an insulin pump, and how pump status is
read back:

- **Sliding-window quota** (`sliding_window.dfy`, module `SlidingWindow`).
  This is the `SlidingWindowConstraint` object: a list of `(timestamp, value)`
  records, updated in place, answering "does adding `v` keep the trailing
  `period` within `max`?". It offers an atomic check-then-add, prunes expired
  records and persists the list.
- **Firewall** (`firewall.dfy`, module `Firewall`). This is
  `FirewallConstraint`:
  - the allow and authorization tables and the fail-open defaults;
  - the `isAllowed` cascade (deny, then quota bypass, then escalation);
  - the bolus quota value and the reason text;
  - parsing of `USER_AUTHORIZATION^uuid^true|false` messages;
  - the single-slot authorization wait.
- **Java text helpers** (`text.dfy`, module `Text`). These are the string
  behaviour the firewall relies on: `startsWith`, `StringTokenizer`, and the
  decimal text `Float.toString` writes for an amount.
- **Status messages** (`status_messages.dfy`, module `StatusMessages`).
  - The read cursor `ByteBuf`, as a class whose offset advances.
  - `CurrentBasalMessage` and `PumpStatusMessage`: their service, command code
    and checksum flag, and their byte layouts, as pure decoders.
  - Parse methods proved equal to the decoders.
- **Status task runner** (`status_task_runner.dfy`, module `StatusTasks`).
  `StatusTaskRunner.run` is the six-step conversation that fills a
  `StatusResult`.

`wrappers.dfy` holds the `Option` and `Result` types.

Conventions:

- Amounts handled by the firewall and the window are integer milli-units. The
  firewall rounds every amount to three decimal places before the window sees
  it.
- The basal amount is in integer hundredths: the raw signed 16-bit field,
  which the source divides by 100.
- The wall clock is an explicit `now` argument.
- The authorization wait receives a trace of polls. Each poll holds a clock
  reading and the authorization messages, in order, that the user interface
  delivered during the sleep before it (any number, possibly none).

Behaviour of the code worth noting, all of it modelled as written:

- A decision for a token nobody is waiting for is still stored in the
  authorization table (`FirewallConstraint.java:220-244`). Only the wait of
  that token removes it, so it is not a no-op.
- `StringTokenizer` never yields an empty token. The `uuid.length() > 0`
  check at `FirewallConstraint.java:229` therefore never fails.
- The first token is not compared with `USER_AUTHORIZATION`. Only the
  `startsWith` test guards the prefix, so `USER_AUTHORIZATIONX^id^true` is
  accepted.
- `isAllowed` sends an authorization-gated bolus to the window only when its
  rounded amount is positive.
- With the default limit of 0, no positive amount fits the window, so every
  gated bolus asks for authorization.
- A bolus the user authorizes is not recorded in the window.
- `parsePreference` rebuilds the window but does not re-apply the fail-open
  defaults. It replaces the preferences before building the window, so quota
  settings the window rejects (a period under 1000 ms, a negative limit)
  leave the new preferences beside the old window when the window's
  constructor throws.
- The authorization slot is taken by one wait at a time. In this sequential
  model a busy slot (`SlotBusy`) is only seen when the firewall's state
  already records another pending token: the state another thread's wait
  would leave.

## Model

| member | source | states |
|---|---|---|
| SlidingWindow.CheckConfig | sightparser/src/main/java/sugar/free/sightparser/handling/SlidingWindowConstraint.java:51-60 | construction fails exactly when period < 1000 ms, then max < 0, then a null identifier, checked in that order |
| SlidingWindow.SlidingWindowConstraint.constructor | sightparser/src/main/java/sugar/free/sightparser/handling/SlidingWindowConstraint.java:51-79 | keeps the settings and the key `SLIDING_PERSIST_`+identifier; with persistence, loads the stored records when the store holds some, otherwise starts empty |
| SlidingWindow.FirstExpired | sightparser/src/main/java/sugar/free/sightparser/handling/SlidingWindowConstraint.java:144-152 | the index of the first record with timestamp < expire: none before it is expired |
| SlidingWindow.PrunedAppend | sightparser/src/main/java/sugar/free/sightparser/handling/SlidingWindowConstraint.java:135-152 | pruning filters each part of a concatenation separately, so survivors keep their order |
| SlidingWindow.PrunedExactly | sightparser/src/main/java/sugar/free/sightparser/handling/SlidingWindowConstraint.java:135-152 | after pruning no record is older than now - period, and every record that is not older survives |
| SlidingWindow.PrunedNoneExpired | sightparser/src/main/java/sugar/free/sightparser/handling/SlidingWindowConstraint.java:144-152 | a list with no expired record is left as it is |
| SlidingWindow.PrunedIdempotent | sightparser/src/main/java/sugar/free/sightparser/handling/SlidingWindowConstraint.java:135-152 | pruning twice at the same time gives the same list as pruning once |
| SlidingWindow.RemovingExpiredKeepsPruned | sightparser/src/main/java/sugar/free/sightparser/handling/SlidingWindowConstraint.java:144-152 | removing one expired record does not change what pruning leaves |
| SlidingWindow.WindowTotalAppend | sightparser/src/main/java/sugar/free/sightparser/handling/SlidingWindowConstraint.java:120-131 | the windowed total is additive over concatenation |
| SlidingWindow.WindowTotalSingle | sightparser/src/main/java/sugar/free/sightparser/handling/SlidingWindowConstraint.java:124-127 | a single record adds its value only when its timestamp is strictly after the expiry time |
| SlidingWindow.PrunedKeepsTotal | sightparser/src/main/java/sugar/free/sightparser/handling/SlidingWindowConstraint.java:120-152 | pruning never changes the total at the same expiry time |
| SlidingWindow.BoundaryRecord | sightparser/src/main/java/sugar/free/sightparser/handling/SlidingWindowConstraint.java:125-146 | a record exactly at now - period survives pruning (`<`) but is not counted (`>`) |
| SlidingWindow.WindowTotalAntitone | sightparser/src/main/java/sugar/free/sightparser/handling/SlidingWindowConstraint.java:120-131 | with non-negative values, a later expiry time never raises the total |
| SlidingWindow.AcceptedStaysWithinMax | sightparser/src/main/java/sugar/free/sightparser/handling/SlidingWindowConstraint.java:82-110 | an accepted value, appended at now and pruned, leaves the total at now within max |
| SlidingWindow.SlidingWindowConstraint.CheckAndAddIfAcceptable | sightparser/src/main/java/sugar/free/sightparser/handling/SlidingWindowConstraint.java:82-89 | returns whether total + value <= max; if so, appends (now, value), prunes, saves and keeps the total within max; if not, changes nothing |
| SlidingWindow.SlidingWindowConstraint.Acceptable | sightparser/src/main/java/sugar/free/sightparser/handling/SlidingWindowConstraint.java:92-96 | true exactly when the counted total plus the value is at most max; the records are untouched |
| SlidingWindow.SlidingWindowConstraint.Add | sightparser/src/main/java/sugar/free/sightparser/handling/SlidingWindowConstraint.java:99-101 | adds the value stamped now, then prunes and saves |
| SlidingWindow.SlidingWindowConstraint.AddAt | sightparser/src/main/java/sugar/free/sightparser/handling/SlidingWindowConstraint.java:104-110 | the records become the old ones plus (when, value), pruned at now; the store is updated when persisting |
| SlidingWindow.SlidingWindowConstraint.SaveRecords | sightparser/src/main/java/sugar/free/sightparser/handling/SlidingWindowConstraint.java:113-117 | with persistence the store holds exactly the current records; otherwise it is untouched |
| SlidingWindow.SlidingWindowConstraint.TotalRecords | sightparser/src/main/java/sugar/free/sightparser/handling/SlidingWindowConstraint.java:120-131 | the loop's sum equals the total of the records with timestamp > now - period |
| SlidingWindow.SlidingWindowConstraint.PruneRecords | sightparser/src/main/java/sugar/free/sightparser/handling/SlidingWindowConstraint.java:135-141 | repeating the one-record removal until it fails leaves exactly the pruned list |
| SlidingWindow.SlidingWindowConstraint.PruneRecord | sightparser/src/main/java/sugar/free/sightparser/handling/SlidingWindowConstraint.java:144-152 | removes the first record older than the expiry time and reports whether there was one |
| SlidingWindow.SlidingWindowConstraint.FromJson | sightparser/src/main/java/sugar/free/sightparser/handling/SlidingWindowConstraint.java:167-172 | the records are replaced by the decoded list, with nothing of the old list left |
| Text.TokensOfJoin | sightparser/src/main/java/sugar/free/sightparser/handling/FirewallConstraint.java:223-227 | tokenizing on `^` a join of non-empty, `^`-free tokens gives those tokens back |
| Text.AmountTextRoundTrip | sightparser/src/main/java/sugar/free/sightparser/handling/FirewallConstraint.java:127 | the decimal text of an amount reads back to the amount |
| Text.AmountTextInjective | sightparser/src/main/java/sugar/free/sightparser/handling/FirewallConstraint.java:127 | different amounts never get the same text |
| Firewall.WithDefaults | sightparser/src/main/java/sugar/free/sightparser/handling/FirewallConstraint.java:110-117 | every allow preference the block table names and the store leaves unset becomes true; set preferences keep their values |
| Firewall.DefaultsFailOpen | sightparser/src/main/java/sugar/free/sightparser/handling/FirewallConstraint.java:110-117 | after the defaults, a listed kind is allowed unless its preference was explicitly false |
| Firewall.QuotaValueCoversGatedKinds | sightparser/src/main/java/sugar/free/sightparser/handling/FirewallConstraint.java:136-147 | the three bolus kinds are exactly those that can need authorization; a multiwave bolus counts amount + delayed amount; any other kind counts 0 |
| Firewall.DescriptionShowsAmount | sightparser/src/main/java/sugar/free/sightparser/handling/FirewallConstraint.java:125-133 | a standard bolus reads "Standard Bolus <amount>U" with its amount recoverable from the text; anything else gets "" |
| Firewall.Classify | sightparser/src/main/java/sugar/free/sightparser/handling/FirewallConstraint.java:149-174 | a null or unlisted message passes; a listed kind with a false or unset allow preference is blocked; authorization is needed exactly when both preferences are set |
| Firewall.BlockedIgnoresAuthorization | sightparser/src/main/java/sugar/free/sightparser/handling/FirewallConstraint.java:156-162 | a blocked kind stays blocked whatever the authorization preference |
| Firewall.AfterMessage | sightparser/src/main/java/sugar/free/sightparser/handling/FirewallConstraint.java:220-244 | a well-formed message writes only its token's decision; any other message leaves the table unchanged |
| Firewall.AuthorizationMessageRoundTrip | sightparser/src/main/java/sugar/free/sightparser/handling/FirewallConstraint.java:220-244 | the message `USER_AUTHORIZATION^uuid^true/false` is read back as (uuid, decision) |
| Firewall.MalformedAuthorizationIgnored | sightparser/src/main/java/sugar/free/sightparser/handling/FirewallConstraint.java:222-243 | a message without the prefix, without exactly three tokens, or with another value changes nothing |
| Firewall.AwaitApprovesOnlyWhenApproved | sightparser/src/main/java/sugar/free/sightparser/handling/FirewallConstraint.java:201-213 | the wait returns true only if an approval for the token was already there or arrived before the 20 s timeout |
| Firewall.DeliveredEntryHasASource | sightparser/src/main/java/sugar/free/sightparser/handling/FirewallConstraint.java:220-244 | after a turn's deliveries the token's entry is its earlier entry or the decision of one of the messages |
| Firewall.UndecidedStaysAbsent | sightparser/src/main/java/sugar/free/sightparser/handling/FirewallConstraint.java:220-244 | messages none of which decides for a token do not create its entry |
| Firewall.LastDecisionWins | sightparser/src/main/java/sugar/free/sightparser/handling/FirewallConstraint.java:220-244 | of several decisions for a token delivered in one turn, the last one is the entry left |
| Firewall.ApprovalInTimeIsReturned | sightparser/src/main/java/sugar/free/sightparser/handling/FirewallConstraint.java:199-214 | a decision for the token delivered at any poll within the timeout, after the loop has seen the token pending at every earlier poll, is the decision returned; with several in one turn, the last one |
| Firewall.Open | sightparser/src/main/java/sugar/free/sightparser/handling/FirewallConstraint.java:76-117 | construction fails, with the window's configuration error, exactly when the limit is negative or the window is under 1000 ms; otherwise it yields the firewall the constructor builds |
| Firewall.FirewallConstraint.constructor | sightparser/src/main/java/sugar/free/sightparser/handling/FirewallConstraint.java:76-117 | builds the persisted "generic-bolus-restriction" window from the limit (default 0) and window length (default one day), then applies the fail-open defaults |
| Firewall.FirewallConstraint.ParsePreference | sightparser/src/main/java/sugar/free/sightparser/handling/FirewallConstraint.java:119-123 | takes the re-read preferences without defaults; rebuilds the window, which keeps the persisted records, when the quota settings are accepted, and otherwise reports the window's error and keeps the old window beside the new preferences |
| Firewall.FirewallConstraint.InitializeDefaults | sightparser/src/main/java/sugar/free/sightparser/handling/FirewallConstraint.java:110-117 | the loop over the block table leaves exactly the defaulted preferences |
| Firewall.FirewallConstraint.ParseAuthorization | sightparser/src/main/java/sugar/free/sightparser/handling/FirewallConstraint.java:220-244 | the table after the message is the one the parsing rules give |
| Firewall.FirewallConstraint.IsAllowed | sightparser/src/main/java/sugar/free/sightparser/handling/FirewallConstraint.java:149-174 | the deny, then quota bypass, then escalate cascade: the window and the authorization state change only on the paths that use them |
| Firewall.FirewallConstraint.BusyWaitForAuthorization | sightparser/src/main/java/sugar/free/sightparser/handling/FirewallConstraint.java:191-218 | refuses at once, changing nothing, while the slot is busy; otherwise returns the wait's decision, removes the token's entry and frees the slot |
| Firewall.FirewallConstraint.ClaimSlot | sightparser/src/main/java/sugar/free/sightparser/handling/FirewallConstraint.java:192-199 | the slot is taken, and the request dispatched, exactly when no token has been pending for under 40 s |
| Firewall.FirewallConstraint.ReceiveAll | sightparser/src/main/java/sugar/free/sightparser/handling/FirewallConstraint.java:220-244 | handling a turn's messages in order leaves the table `Deliver` gives |
| Firewall.FirewallConstraint.AwaitDecision | sightparser/src/main/java/sugar/free/sightparser/handling/FirewallConstraint.java:201-217 | the poll loop returns the specified wait decision, then removes the token's entry and clears the pending token |
| StatusMessages.ShortLERoundTrip | sightparser/src/main/java/sugar/free/sightparser/applayer/status/CurrentBasalMessage.java:37 | a signed 16-bit value written low byte first reads back unchanged |
| StatusMessages.ShortBERoundTrip | sightparser/src/main/java/sugar/free/sightparser/applayer/status/PumpStatusMessage.java:32 | a signed 16-bit value written high byte first reads back unchanged |
| StatusMessages.SignedShort | sightparser/src/main/java/sugar/free/sightparser/applayer/status/CurrentBasalMessage.java:25 | a `(short)` cast keeps the low 16 bits and lands in the signed 16-bit range |
| StatusMessages.ByteBuf.Shift | sightparser/src/main/java/sugar/free/sightparser/applayer/status/CurrentBasalMessage.java:35 | skips n bytes when they are there, and fails without moving otherwise |
| StatusMessages.ByteBuf.ReadUTF8 | sightparser/src/main/java/sugar/free/sightparser/applayer/status/CurrentBasalMessage.java:36 | yields the next n bytes and advances by n, or fails without moving |
| StatusMessages.ByteBuf.ReadShortLE | sightparser/src/main/java/sugar/free/sightparser/applayer/status/CurrentBasalMessage.java:37 | yields the little-endian signed value of the next two bytes and advances by 2, or fails without moving |
| StatusMessages.ByteBuf.ReadShort | sightparser/src/main/java/sugar/free/sightparser/applayer/status/PumpStatusMessage.java:32 | yields the signed value of the next two bytes and advances by 2, or fails without moving |
| StatusMessages.DecodeCurrentBasal | sightparser/src/main/java/sugar/free/sightparser/applayer/status/CurrentBasalMessage.java:34-38 | succeeds exactly on at least 66 bytes, with a 62-byte name and a signed 16-bit amount |
| StatusMessages.CurrentBasalRoundTrip | sightparser/src/main/java/sugar/free/sightparser/applayer/status/CurrentBasalMessage.java:34-38 | decoding an encoded name and amount, whatever follows, gives them back |
| StatusMessages.CurrentBasalUsesExactLayout | sightparser/src/main/java/sugar/free/sightparser/applayer/status/CurrentBasalMessage.java:34-38 | only bytes 2..65 matter, and re-encoding the result rebuilds them |
| StatusMessages.CurrentBasalAmountExample | sightparser/src/main/java/sugar/free/sightparser/applayer/status/CurrentBasalMessage.java:37 | the amount bytes 2C 01 read as 300 hundredths, that is 3.00 U |
| StatusMessages.ParseCurrentBasal | sightparser/src/main/java/sugar/free/sightparser/applayer/status/CurrentBasalMessage.java:34-38 | the skip, name and amount reads yield the decoder's result and consume exactly 66 bytes |
| StatusMessages.DecodePumpStatus | sightparser/src/main/java/sugar/free/sightparser/applayer/status/PumpStatusMessage.java:31-33 | succeeds exactly on at least 2 bytes |
| StatusMessages.PumpStatusDependsOnFirstShort | sightparser/src/main/java/sugar/free/sightparser/applayer/status/PumpStatusMessage.java:32 | the status is a function of the first 16-bit value alone |
| StatusMessages.PumpStatusRoundTrip | sightparser/src/main/java/sugar/free/sightparser/applayer/status/PumpStatusMessage.java:32 | a payload carrying a code decodes to the status the lookup gives that code |
| StatusMessages.ParsePumpStatus | sightparser/src/main/java/sugar/free/sightparser/applayer/status/PumpStatusMessage.java:31-33 | one 16-bit read yields the decoder's result and consumes exactly 2 bytes |
| StatusMessages.CurrentBasalIdentity | sightparser/src/main/java/sugar/free/sightparser/applayer/status/CurrentBasalMessage.java:14-31 | STATUS service, command 0xA905 (-22267 as a short), checksummed, amount 0 and no name before parsing |
| StatusMessages.PumpStatusIdentity | sightparser/src/main/java/sugar/free/sightparser/applayer/status/PumpStatusMessage.java:16-28 | STATUS service, command 0xFC00 (-1024 as a short), checksummed, distinct from the current-basal command, no status before parsing |
| StatusTasks.StoredFillsOnlyItsSlot | sightparser/src/main/java/sugar/free/sightparser/handling/taskrunners/StatusTaskRunner.java:30-50 | a recognised reply fills exactly its own slot and leaves the other five; any other message changes nothing |
| StatusTasks.RequestOrder | sightparser/src/main/java/sugar/free/sightparser/handling/taskrunners/StatusTaskRunner.java:28-51 | the first call, with no reply, asks for the pump status; only the cartridge amount or an unknown message ends the sequence; a pump status leads to the battery request exactly when the pump is STOPPED; the pump status is never requested again |
| StatusTasks.StatusTaskRunner.constructor | sightparser/src/main/java/sugar/free/sightparser/handling/taskrunners/StatusTaskRunner.java:21-25 | starts with an empty result and nothing delivered |
| StatusTasks.StatusTaskRunner.Finish | sightparser/src/main/java/sugar/free/sightparser/handling/taskrunners/StatusTaskRunner.java:49 | the result is handed on |
| StatusTasks.StatusTaskRunner.Run | sightparser/src/main/java/sugar/free/sightparser/handling/taskrunners/StatusTaskRunner.java:28-52 | each call returns the next request of the order, keeps the reply in its slot, and calls finish exactly on the cartridge amount |
| StatusTasks.StatusTaskRunner.Feed | sightparser/src/main/java/sugar/free/sightparser/handling/taskrunners/StatusTaskRunner.java:28-52 | calling `run` with each reply in turn returns the requests, leaves the result and hands on the results of the conversation `Converse` describes |
| StatusTasks.RunningPumpKinds | sightparser/src/main/java/sugar/free/sightparser/handling/taskrunners/StatusTaskRunner.java:30-47 | a running pump's conforming replies come in the order status, boluses, TBR, basal, battery, cartridge, and number at most six |
| StatusTasks.FullConversation | sightparser/src/main/java/sugar/free/sightparser/handling/taskrunners/StatusTaskRunner.java:29-51 | the six replies of a running pump produce the five requests then null, fill every slot, and finish once |
| StatusTasks.RunningPumpConversation | sightparser/src/main/java/sugar/free/sightparser/handling/taskrunners/StatusTaskRunner.java:29-51 | a conforming conversation with a running pump is at most six replies; at six it fills all six fields and finishes once |
| StatusTasks.StoppedPumpKinds | sightparser/src/main/java/sugar/free/sightparser/handling/taskrunners/StatusTaskRunner.java:30-47 | a stopped pump's conforming replies are status, battery, cartridge, and number at most three |
| StatusTasks.ShortConversation | sightparser/src/main/java/sugar/free/sightparser/handling/taskrunners/StatusTaskRunner.java:29-51 | the three replies of a stopped pump produce battery, cartridge, null; fill three slots; leave boluses, TBR and basal empty |
| StatusTasks.StoppedPumpConversation | sightparser/src/main/java/sugar/free/sightparser/handling/taskrunners/StatusTaskRunner.java:29-51 | a conforming conversation with a stopped pump is at most three replies; at three it fills only status, battery and cartridge and finishes once |

## Left out

- Logging (`android.util.Log`), the Android `Context` and the `synchronized` blocks are left out. The model is sequential: one thread, one call at a time.
- The `volatile` static slot (`pending_uuid`, `waiting_auth`) is shared by all firewall instances in the source. It is modelled as fields of the one firewall object.
- The clock is an explicit `now`. The source reads `System.currentTimeMillis()` several times within one operation, but each modelled operation uses a single reading.
- `Thread.sleep(500)` is left out. The wait loop's clock readings and deliveries come from the `polls` trace instead.
- The source's wait always ends once the clock passes 20 s. A trace that stops short of that describes only part of a run, so `IsAllowed`, `BusyWaitForAuthorization` and `AwaitDecision` require that the trace reaches the deadline.
- `UUID.randomUUID` becomes the `token` argument.
- `requestAuth`'s `Intent` dispatch is recorded as an `AuthRequest` appended to `requested`.
- The preference store (`Pref`) is a `map<string, bool>` for the boolean preferences.
- The string settings `sliding-window-limit` and `sliding-window-ms` arrive already parsed, as `Option<int>`. None stands for unset or unreadable, and the source's defaults (0 and 86400000) apply. `Double.parseDouble` and `Long.parseLong` are not part of this model.
- `Pref.parsePrefs` is not part of this model. `ParsePreference` receives the preferences it produced.
- Gson JSON is abstracted to the record list it encodes. `toJson` and `saveRecords` store the list itself. `fromJson` receives the decoded list.
- Floating point is left out:
  - `roundDouble` (`BigDecimal` HALF_UP) is modelled by taking amounts as integer milli-units that are already rounded;
  - the float `/ 100F` of the basal amount is kept as integer hundredths;
  - float addition in `bolusValue` and `totalRecords` is exact in the model.
- Text.AmountText: matches `Float.toString` only for zero and for magnitudes from 0.001 up to below 16384 units. From 16384 on, consecutive floats are about 0.002 apart or more, so the float of an amount in thousandths can print with a different last digit (16384.001 prints as "16384.002"); this rounding is not modelled. Below 0.001 and from 10^7 on, Java also switches to scientific notation, which is not modelled.
- FirewallConstraint.constructor: requires quota settings the window accepts, because a Dafny constructor cannot fail. The throwing construction is `Open`, which returns the window's configuration error instead of an object.
- `ByteBuf` is not part of this model. Its reads are modelled as bounds-checked operations that fail without moving. `readShort` is taken as high byte first, which only `PumpStatusRoundTrip` depends on.
- `readUTF8` decoding is left out. The name is kept as its 62 raw bytes.
- `PumpStatus.getPumpStatus` is not part of this model. It is the `statusOf` argument.
- The `PumpStatus` enum is not part of this model. It is taken to have STARTED, PAUSED and STOPPED, and only STOPPED is told apart.
- `ActiveBolusesMessage`, `CurrentTBRMessage`, `BatteryAmountMessage` and `CartridgeAmountMessage` are not part of this model. The runner holds them as opaque payloads.
- The `TaskRunner` base class (`finish`, transport, errors) is not part of this model. `Finish` records each result handed on, in order.
- In the source, `finish` receives a reference to the mutable `StatusResult`. The model hands on a value, so later aliasing is not modelled.
- The Android activities and view helpers (fingerprint dialog, firewall settings screen, bolus screen, sliding-window and preference view helpers) are user-interface code and are left out.
