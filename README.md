# Report.ixi core — a Dafny model

Report.ixi is a reporting module for an Ict node. It exchanges UDP datagrams with the node's configured neighbours and with one collector, RCS. This project models three parts of it and proves properties about them:

- **The Receiver** (module `Api`). It attributes each received datagram to a neighbour or to RCS and drops datagrams from anyone else. It decodes the datagram and dispatches on the payload kind:
  - metadata updates what is known about the neighbour;
  - a uuid payload sets and persists the local uuid and wakes the waiter;
  - a ping is relayed to RCS.

  The class `Api.Receiver` holds real `Neighbor` objects. Each of its methods is specified against a pure function over an abstract `State`: `View() == ProcessPacketSpec(env, old(View()), packet)`, and the same for `RunSpec`, `ProcessPayloadSpec` and the others. The lemmas prove the properties on those functions.
- **The settings object and its two loaders** (module `Utils`, class `Properties`). This covers the defaults, the getters and setters, the append of neighbours from the host node's configuration, and the validator for `report.ixi.cfg`. The validator is specified by the function `LoadReport`. It checks the naming convention `.+\s\(ict-\d+\)`, the report port, and up to three neighbour report ports, writing each value as soon as it is validated.
- **The per-address statistics record** (module `Model`, class `AddressAndStats`).

Supporting modules:
- `JavaLang` models the parts of the Java platform the validator relies on: the 32-bit `int`, `String.trim()`, `Integer.parseInt` and `Integer.toString` in radix 10, and the regex classes `.`, `\s` and `\d`.
- `Exchange` holds the payload kinds.
- `Wrappers` holds `Option` (Java `null`) and `Result` (a thrown exception).

Collaborators outside this model are uninterpreted fields of the datatype `Api.Env`:
- `Address.parse`;
- `Neighbor.isNeighborReportAddress(address, strict)`;
- `Payload.deserialize`, where `None` means it threw;
- the RCS constants, and the resolved RCS IP, where `None` means the host did not resolve.

The Receiver's visible effects are appended to an `events` log (`Api.Event`):
- persisting the uuid (`store`);
- `waitingForUuid.notify()`;
- `Sender.send` to RCS;
- every warning and info log line: the unknown sender, the invalid payload, a learned version or uuid, a new or a validated uuid; and the stack trace of a failed receive.

Four behaviours of the code that the model follows:
- A uuid payload overwrites and persists the local uuid only when it differs from the current one (Receiver.java:84-90).
- `processMetadataPacket` reads only the payload's version and uuid (Receiver.java:96-115). It writes only those two fields of the neighbour.
- A metadata field is written whenever the stored value is null or differs (Receiver.java:101-110). A null value in the payload is therefore written too, so a learned field can become null again.
- `shutDown` only clears the flag (Receiver.java:56-58). It does not close the socket.

## Model

| member | source | states |
|---|---|---|
| `Api.FirstMatch` | src/main/java/com/ictreport/ixi/api/Receiver.java:139-145 | one search pass yields an index inside the neighbour list, or none |
| `Api.FirstMatchIsFirst` | src/main/java/com/ictreport/ixi/api/Receiver.java:139-145 | a search pass returns the first matching neighbour in list order; it returns none iff no neighbour matches |
| `Api.Attribute` | src/main/java/com/ictreport/ixi/api/Receiver.java:137-156 | attribution yields an index inside the neighbour list, or none |
| `Api.Attribution` | src/main/java/com/ictreport/ixi/api/Receiver.java:137-156 | the sender's parsed address is attributed within the Receiver's neighbour list |
| `Api.AttributionPrefersStrict` | src/main/java/com/ictreport/ixi/api/Receiver.java:137-156 | if any neighbour matches strictly, the first strict match is chosen; a host-only match is never chosen over it, wherever it stands in the list |
| `Api.AttributionFallsBackToHost` | src/main/java/com/ictreport/ixi/api/Receiver.java:146-155 | with no strict match, the first host-only match is chosen; the result is none iff no neighbour matches by host either |
| `Api.Receiver.DetermineNeighborWhoSent` | src/main/java/com/ictreport/ixi/api/Receiver.java:137-156 | the two loops return the list entry that attribution selects, and null exactly when it selects none |
| `Api.UnknownSenderDropped` | src/main/java/com/ictreport/ixi/api/Receiver.java:62-66 | a packet from neither a neighbour nor the RCS IP and port is dropped; nothing changes except the warning |
| `Api.InvalidPayloadSwallowed` | src/main/java/com/ictreport/ixi/api/Receiver.java:70-80 | a decode or dispatch exception is caught; the state is unchanged except one log line naming the attributed neighbour, or RCS |
| `Api.MetadataLearned` | src/main/java/com/ictreport/ixi/api/Receiver.java:96-115 | after metadata from neighbour i, its version and uuid are the payload's; each is logged as learned exactly when it was null or different; other neighbours and the local uuid are untouched |
| `Api.UnlearnedFieldKept` | src/main/java/com/ictreport/ixi/api/Receiver.java:101-114 | after a metadata packet, a field that is not learned was non-null and already equal to the payload's value, keeps that value, and no learned line is logged for it |
| `Api.MetadataGoesToStrictMatch` | src/main/java/com/ictreport/ixi/api/Receiver.java:96-115 | when some neighbour matches the sender strictly, metadata is written into a strict match no later in the list, and every neighbour that matches only by host, or not at all, keeps its state |
| `Api.MetadataFromRcsInvalid` | src/main/java/com/ictreport/ixi/api/Receiver.java:96-99 | metadata with no attributed neighbour fails at the dereference before any write and is logged as an invalid payload from RCS |
| `Api.UuidAdopted` | src/main/java/com/ictreport/ixi/api/Receiver.java:83-94 | a uuid payload leaves the local uuid equal to the payload's; iff it differed it is persisted once and logged as new, otherwise it is logged as validated; the waiter is notified exactly once either way |
| `Api.NullUuidInvalid` | src/main/java/com/ictreport/ixi/api/Receiver.java:84 | a uuid payload with a null uuid fails before the comparison: no store, no notify, one invalid-payload log line |
| `Api.PingRelayed` | src/main/java/com/ictreport/ixi/api/Receiver.java:117-124 | a ping from any sender is relayed to the RCS host and port as exactly one ReceivedPingPayload(local uuid, ping) if the local uuid is known; otherwise nothing happens |
| `Api.OtherPayloadIgnored` | src/main/java/com/ictreport/ixi/api/Receiver.java:46-54 | every payload kind the `instanceof` chain lets through (a received-ping report, or any other class, `Exchange.Payload.Other`) changes nothing |
| `Api.DroppedIffUnknownSender` | src/main/java/com/ictreport/ixi/api/Receiver.java:60-66 | the unknown-sender warning is logged for a packet iff it is attributed to no neighbour and not sent from RCS |
| `Api.IsSentFromRcs` | src/main/java/com/ictreport/ixi/api/Receiver.java:126-135 | a packet counts as sent from RCS only if it has RCS's resolved IP and RCS's port; when RCS's host does not resolve (`UnknownHostException`), no packet does |
| `Api.ProcessPacketKeepsIdentities` | src/main/java/com/ictreport/ixi/api/Receiver.java:60-81 | processing a packet never changes a neighbour's identity or the receiving flag, and only appends events |
| `Api.RunKeepsIdentities` | src/main/java/com/ictreport/ixi/api/Receiver.java:29-44 | the receive loop never changes a neighbour's identity and never loses an event |
| `Api.StoppedLoopIsIdle` | src/main/java/com/ictreport/ixi/api/Receiver.java:32 | once the flag is cleared, the loop processes nothing further |
| `Api.IoErrorAfterShutDownSilent` | src/main/java/com/ictreport/ixi/api/Receiver.java:39-41 | an IOException raised after shutDown is not reported, and the loop exits at the next check |
| `Api.IoErrorWhileReceivingReported` | src/main/java/com/ictreport/ixi/api/Receiver.java:36-42 | an IOException while receiving is reported and the loop goes on |
| `Api.Receiver.constructor` | src/main/java/com/ictreport/ixi/api/Receiver.java:19-26 | given a neighbour list of distinct objects, the Receiver starts valid and not receiving, with the given neighbours and local uuid and no events |
| `Api.PacketAfterShutDownProcessedThenStops` | src/main/java/com/ictreport/ixi/api/Receiver.java:32-44 | a shutDown while receive blocks does not stop the arriving packet: it is processed in full, and the loop exits at the next check |
| `Api.Receiver.Run` | src/main/java/com/ictreport/ixi/api/Receiver.java:28-44 | the loop sets the flag, then processes receive outcomes until it finds the flag cleared; the new state is `RunSpec` of the old one |
| `Api.Receiver.ShutDown` | src/main/java/com/ictreport/ixi/api/Receiver.java:56-58 | clears the receiving flag and changes nothing else |
| `Api.Receiver.ProcessPacket` | src/main/java/com/ictreport/ixi/api/Receiver.java:60-81 | the new state is `ProcessPacketSpec` of the old one |
| `Api.Receiver.ProcessPayload` | src/main/java/com/ictreport/ixi/api/Receiver.java:46-54 | dispatches by kind; it reports the exception the spec raises, and then nothing has changed |
| `Api.Receiver.ProcessUuidPayload` | src/main/java/com/ictreport/ixi/api/Receiver.java:83-94 | the local uuid, the store and the notify follow `ProcessUuid` |
| `Api.Receiver.ProcessMetadataPacket` | src/main/java/com/ictreport/ixi/api/Receiver.java:96-115 | updates exactly the attributed neighbour's object as `ProcessMetadata` says, or throws before touching it |
| `Api.Receiver.ProcessPingPayload` | src/main/java/com/ictreport/ixi/api/Receiver.java:117-124 | records the send to RCS exactly as `ProcessPing` says |
| `JavaLang.Trim` | src/main/java/com/ictreport/ixi/utils/Properties.java:107 | `trim()` returns an infix with only chars at most U+0020 around it, whose first and last chars are above U+0020 |
| `JavaLang.ParseInt` | src/main/java/com/ictreport/ixi/utils/Properties.java:115 | `parseInt` accepts only an optional sign followed by at least one digit; without a minus sign the value is non-negative |
| `JavaLang.DigitsValueLeadingZero` | src/main/java/com/ictreport/ixi/utils/Properties.java:115 | a leading zero does not change the value of a digit string |
| `JavaLang.ParseIntSignedDigits` | src/main/java/com/ictreport/ixi/utils/Properties.java:115 | every optional sign followed by one or more digits, `+` and leading zeros included, parses to the signed value of the digits when it fits in an `int`, and is rejected otherwise |
| `JavaLang.ParseIntToString` | src/main/java/com/ictreport/ixi/utils/Properties.java:115 | every `int` written in decimal parses back to itself |
| `Utils.InvalidFormatMessage` | src/main/java/com/ictreport/ixi/utils/Properties.java:137-144 | the message is the property name, then "-property in report.ixi.cfg incorrectly formatted.", then the extra message or nothing |
| `Utils.GetProperty` | src/main/java/com/ictreport/ixi/utils/Properties.java:107 | a property lookup returns the stored text when the key is present and the given default otherwise |
| `Utils.NameMatches` | src/main/java/com/ictreport/ixi/utils/Properties.java:108 | an accepted name has at least 9 characters (`x (ict-1)` is the shortest match), ends in `)` and does not start with a line terminator; that it holds iff the whole name matches the pattern is `Utils.NameMatchesPattern` |
| `Utils.PatternImpliesNameMatches` | src/main/java/com/ictreport/ixi/utils/Properties.java:108 | any split of the name that fits the pattern is found by the right-to-left decision |
| `Utils.NameMatchesPattern` | src/main/java/com/ictreport/ixi/utils/Properties.java:108 | the decision holds iff the whole string is: at least one non-line-terminator, one whitespace char, "(ict-", at least one digit, ")" |
| `Utils.PositivePort` | src/main/java/com/ictreport/ixi/utils/Properties.java:115-121 | a port that passes validation is positive |
| `Utils.NeighborPort` | src/main/java/com/ictreport/ixi/utils/Properties.java:124-134 | the lookup for index i fails with an index-out-of-bounds exception from i = 3 on; a success is a positive port that `PositivePort` accepts for that neighbour's key; any other failure is the format exception naming that key |
| `Utils.ApplyNeighborPorts` | src/main/java/com/ictreport/ixi/utils/Properties.java:124-134 | the loop from index i keeps the list length and leaves the ports before i alone; its full effect is `Utils.ApplyNeighborPortsSpec` |
| `Utils.FirstFailingNeighbor` | src/main/java/com/ictreport/ixi/utils/Properties.java:124-134 | every neighbour lookup before the returned index succeeds, and the lookup at that index fails |
| `Utils.ApplyNeighborPortsSpec` | src/main/java/com/ictreport/ixi/utils/Properties.java:124-134 | the loop writes exactly the ports before the first failing neighbour, leaves the rest unchanged, and throws that neighbour's exception |
| `Utils.LoadReport` | src/main/java/com/ictreport/ixi/utils/Properties.java:105-135 | a load that completes has set the name and a positive report port; the whole outcome is characterised by `Utils.LoadNameRule`, `Utils.LoadReportPortRule`, `Utils.LoadNeighborPortsRule`, `Utils.LoadCompletesRule` and `Utils.LoadWritesOnlyItsFields` |
| `Utils.LoadWritesOnlyItsFields` | src/main/java/com/ictreport/ixi/utils/Properties.java:105-135 | the loader leaves uuid, host and Ict port alone and keeps the neighbour count; a load that completes has set the name |
| `Utils.LoadNameRule` | src/main/java/com/ictreport/ixi/utils/Properties.java:107-111 | the trimmed name is stored iff it matches the convention; otherwise the loader throws the naming-convention message and nothing changes |
| `Utils.LoadReportPortRule` | src/main/java/com/ictreport/ixi/utils/Properties.java:113-122 | once the name is accepted, the report port becomes the parsed positive value; otherwise the loader throws for reportPort, with the name already set and the port and neighbours unchanged |
| `Utils.PositivePortSignedDigits` | src/main/java/com/ictreport/ixi/utils/Properties.java:115-122 | a sign-and-digits port text is accepted iff its signed value is positive and fits in an `int`, and then as that value |
| `Utils.PlusSignAccepted` | src/main/java/com/ictreport/ixi/utils/Properties.java:115-122 | `+1338` is accepted as 1338 |
| `Utils.LeadingZerosAccepted` | src/main/java/com/ictreport/ixi/utils/Properties.java:115-122 | `01338` is accepted as 1338 |
| `Utils.NegativePortRejected` | src/main/java/com/ictreport/ixi/utils/Properties.java:115-122 | `-1338` is rejected |
| `Utils.PositivePortAccepts` | src/main/java/com/ictreport/ixi/utils/Properties.java:119-122 | every positive `int` is accepted as a port: there is no upper bound |
| `Utils.DefaultPortAccepted` | src/main/java/com/ictreport/ixi/utils/Properties.java:115 | an absent port property reads as "1338", which is accepted as 1338 |
| `Utils.LoadNeighborPortsRule` | src/main/java/com/ictreport/ixi/utils/Properties.java:124-134 | neighbours 0..f-1 carry their new ports and neighbours f.. keep theirs, where f is the first failing one; the loader throws f's exception, or nothing |
| `Utils.LoadCompletesRule` | src/main/java/com/ictreport/ixi/utils/Properties.java:105-135 | the loader completes normally iff the name, the report port and every neighbour port are valid and there are at most three neighbours |
| `Utils.Properties.constructor` | src/main/java/com/ictreport/ixi/utils/Properties.java:16-24 | a fresh object has no name or uuid, host "localhost", report port 1338 and Ict port 1337 |
| `Utils.Properties.SetIctPort` | src/main/java/com/ictreport/ixi/utils/Properties.java:29-38 | the getter returns the value set; nothing else changes |
| `Utils.Properties.SetReportPort` | src/main/java/com/ictreport/ixi/utils/Properties.java:43-52 | the getter returns the value set; nothing else changes |
| `Utils.Properties.SetHost` | src/main/java/com/ictreport/ixi/utils/Properties.java:57-66 | the getter returns the value set; nothing else changes |
| `Utils.Properties.SetUuid` | src/main/java/com/ictreport/ixi/utils/Properties.java:71-80 | the getter returns the value set; nothing else changes |
| `Utils.Properties.SetName` | src/main/java/com/ictreport/ixi/utils/Properties.java:85-94 | the getter returns the value set; nothing else changes |
| `Utils.Properties.LoadFromIctProperties` | src/main/java/com/ictreport/ixi/utils/Properties.java:96-103 | copies host and port; appends one fresh neighbour per host-node neighbour, in order, after the untouched existing entries; keeps the list free of duplicates |
| `Utils.Properties.LoadFromReportProperties` | src/main/java/com/ictreport/ixi/utils/Properties.java:105-135 | the settings, the neighbour report ports and the exception thrown are those of `LoadReport`; the neighbours' learned fields are untouched |
| `Utils.Properties.LoadNeighborReportPorts` | src/main/java/com/ictreport/ixi/utils/Properties.java:124-134 | the loop leaves the ports and the exception that `ApplyNeighborPorts` gives |
| `Model.AddressAndStats.constructor` | src/main/java/com/ictreport/ixi/model/AddressAndStats.java:11-18 | stores the address; all five counters are null |
| `Model.AddressAndStats.WithCounters` | src/main/java/com/ictreport/ixi/model/AddressAndStats.java:20-27 | stores each argument in its own field |
| `Model.AddressAndStats.SetAddress` | src/main/java/com/ictreport/ixi/model/AddressAndStats.java:29-35 | the getter returns the value set; every other field keeps its value |
| `Model.AddressAndStats.SetAllTx` | src/main/java/com/ictreport/ixi/model/AddressAndStats.java:37-43 | the getter returns the value set; every other field keeps its value |
| `Model.AddressAndStats.SetNewTx` | src/main/java/com/ictreport/ixi/model/AddressAndStats.java:45-51 | the getter returns the value set; every other field keeps its value |
| `Model.AddressAndStats.SetIgnoredTx` | src/main/java/com/ictreport/ixi/model/AddressAndStats.java:53-59 | the getter returns the value set; every other field keeps its value |
| `Model.AddressAndStats.SetInvalidTx` | src/main/java/com/ictreport/ixi/model/AddressAndStats.java:61-67 | the getter returns the value set; every other field keeps its value |
| `Model.AddressAndStats.SetRequestedTx` | src/main/java/com/ictreport/ixi/model/AddressAndStats.java:69-75 | the getter returns the value set; every other field keeps its value |

## Left out

- Address.java, Neighbor.java, the `exchange` package, Constants.java, Sender.java and the metadata class are not part of this model.
  - `Address.parse`, `Neighbor.isNeighborReportAddress` and `Payload.deserialize` are uninterpreted fields of `Api.Env`. `Address.parse` is taken to be total; an exception from it would escape `determineNeighborWhoSent` and is not modelled.
  - `Model.Neighbor` keeps only the fields the Receiver and the loaders use. Its report port is `None` until configured, because Neighbor.java is outside this model.
  - `Sender.send` and the metadata `store` become events. Both are assumed not to throw.
- The socket, the 1024-byte buffer and the decoding of bytes into text are out of scope. A datagram arrives as a (source IP, source port, text) triple.
- DNS resolution of the RCS host is out of scope. `Env.rcsIp` is the resolved address, and `None` stands for `UnknownHostException`.
- Threads are out of scope:
  - the `Thread` base class;
  - the visibility of the non-volatile flag;
  - the `synchronized`/`notify` handshake, which is only counted as one `WaiterNotified` event.

  A `shutDown` from another thread is modelled only while `receive` blocks: it is a flag on each receive outcome, both on a received packet (`Received(packet, true)`) and on a failed receive (`ReceiveFailed(true)`). `Api.Receiver.Run` consumes a finite sequence of receive outcomes; the real loop blocks forever waiting for the next one.
- The debug log lines (Receiver.java:61 and :98) are not recorded. Every warning and info line of the Receiver is an `Api.Event`.
- `Api.Receiver.DetermineNeighborWhoSent` returns the list entry at the index attribution selects. The loops re-parse the sender's address on every iteration, as the source does. The model takes `Address.parse` to be pure, so each parse yields the same address.
- `Api.Receiver.Valid`, `Api.Receiver.constructor`, `Utils.Properties.LoadFromReportProperties`, `Utils.Properties.LoadNeighborReportPorts`: all assume the neighbour list holds distinct objects. This is not checked by the source, but the list is only ever built by `loadFromIctProperties` from freshly created neighbours, and `Utils.Properties.LoadFromIctProperties` proves it keeps the list distinct.
- `JavaLang.ParseInt`: accepts only ASCII digits, whereas `Integer.parseInt` also accepts the other Unicode decimal digits.
- `Model.AddressAndStats`: a null address is not modelled, because `Address` is a value here.
- ReportIxi.java (file I/O, `System.exit`, the shutdown hook, random uuids, the module life cycle) is out of scope, and so are the parsers of `java.util.Properties` and of the host node's properties. Their output arrives as a key-to-text map and a `Utils.IctProperties` record.
