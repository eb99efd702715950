# chiadog event pipeline — a Dafny model

chiadog watches the logs of a Chia farming node, turns notable activity into
typed events, and decides for each notification channel whether an event
reaches the user. This project models the parts of that pipeline that make
the decisions, and proves what they promise:

- the notifier's filtering policy (`src/notifier/__init__.py`): the closed
  enumerations, the `Event` record, the subscription lists seeded from
  feature flags, the notification title, and the `should_ignore_event` /
  `should_allow_event` predicates with their 30-minute restart grace period,
  flat field matches, compound rule and fault handling (module `Notifiers`,
  enumerations in `Events`);
- the `NonDecreasingPlots` condition checker, a one-field state machine over
  the last seen plot count (module `PlotCheckers`);
- `PartialHandler.handle`: parse once, feed the stats collaborator, then run
  every record through every checker (module `PartialHandlers`);
- `WalletAddedCoinParser.parse`: one coin record per match, amounts scaled
  per fork (module `WalletParsers`);
- the HTTP endpoint's `do_POST`, `do_GET` and `do_HEAD` decisions (module
  `Api`).

`Text` holds ASCII case mapping and decimal numerals; `Maybe` holds `Option`
and `Result`.

Collaborators that are not part of this model are represented as follows.
The clock is a parameter (`now`, and the launch time given to the
notifier's constructor). Python's `re.search` and the JSON-logic evaluator
(with the `json.loads` of the compound rule) are functions passed in that
answer `Holds`, `DoesNotHold` or `Raises`. The partial parser and each partial
condition checker are small classes that carry their behaviour as a
function (a checker's is a transition from its state and a record to its
next state and an optional event); the stats manager and the notify manager
record the batches they were given. The parser, the checkers and the stats
manager also append each call they serve to a ghost call log, so the order
of the calls `handle` makes is part of what is proved. The wallet parser's regular expression is replaced by its `findall`
result, and `dateutil` by a timestamp-parsing function that may fail.

The model follows the code as written; points worth noting:

- flat `type`/`priority`/`service` rules compare the configured string with
  the upper-case member name exactly, so they are case-sensitive;
- the grace rule checks the service only for the offline-harvester warning;
  the other two restart messages are "Experiencing networking issues?" and
  "Cha-ching!", for any service;
- the Staicoin prefix is `staicoin`, and only `chives` (×10000) and
  `staicoin` (×1000) are scaled;
- a POST whose enum string names no member, or whose fields are not strings,
  makes `do_POST` raise: the client gets no response at all (outcome
  `Crashed`), not a 400. Nothing is dispatched in either case;
- the `message` value of a POST is passed on as submitted, string or not.

## Model

| member | source | states |
|---|---|---|
| `Events.PriorityNamed` | src/notifier/__init__.py:20-27 | `EventPriority[name]` finds exactly the member whose name is `name`, and fails for every other string |
| `Events.TypeNamed` | src/notifier/__init__.py:30-41 | `EventType[name]` finds exactly the member whose name is `name`, and fails for every other string |
| `Events.ServiceNamed` | src/notifier/__init__.py:44-53 | `EventService[name]` finds exactly the member whose name is `name`, and fails for every other string |
| `Events.NamesSurviveCaseFolding` | src/chia_log/api_handler.py:54-68 | a member name lower-cased and then upper-cased, as the endpoint does, looks up the same member |
| `Notifiers.SubscribedTypes` | src/notifier/__init__.py:76-91 | types always start with USER; DAILY_STATS, PLOTDECREASE, PLOTINCREASE are present exactly when their flag is set; KEEPALIVE never; no duplicates |
| `Notifiers.SubscribedServices` | src/notifier/__init__.py:77-91 | services start with HARVESTER, FARMER, FULL_NODE; DAILY is present exactly with `daily_stats`, WALLET exactly with `wallet_events`; no duplicates |
| `Notifiers.Notifier.constructor` | src/notifier/__init__.py:71-91 | the notifier keeps launch time, prefix and configuration, a 10-second timeout, and the seeded type and service lists |
| `Notifiers.Notifier.TitleForEvent` | src/notifier/__init__.py:93-102 | the title is the priority's icon, then the channel's prefix between single spaces, then the service's member name |
| `Notifiers.Notifier.TitleIdentifiesPriorityAndService` | src/notifier/__init__.py:93-102 | two events get the same title from one channel exactly when they have the same priority and service (icon first, service name last) |
| `Notifiers.Flatten` | src/notifier/__init__.py:129-134 | the compound rule sees each enum as a string with no upper-case letter that upper-cases back to its member name, and the message unchanged |
| `Notifiers.RuleMatches` | src/notifier/__init__.py:116-143 | a clause hits when a type/priority/service field equals the member name; it hits only when some part positively matched; a raising pattern search hides the compound rule; with no raising search it hits exactly when some part matched |
| `Notifiers.Notifier.ShouldIgnoreEvent` | src/notifier/__init__.py:104-143 | restart noise within 30 minutes of launch (bound inclusive) is ignored; without an ignore clause nothing else is; otherwise the event is ignored exactly when the clause matches it (a keyed field, the message pattern or the compound rule); an ignore always has a grace or positive-match reason |
| `Notifiers.Notifier.ShouldAllowEvent` | src/notifier/__init__.py:145-177 | without an allow clause every event is allowed; with one, the event is allowed exactly when the clause matches it (a keyed field, the message pattern or the compound rule); the clock is not an input |
| `Notifiers.Notifier.FaultyClauseAsymmetry` | src/notifier/__init__.py:104-177 | outside the grace period, clauses whose evaluation raises (the message pattern search, or the compound rule once the earlier parts miss) resolve to false in both predicates: the event is not ignored and not allowed |
| `Notifiers.Notifier.OfflineWarningGraceWindow` | src/notifier/__init__.py:104-114 | with no ignore clause, the offline-harvester warning is ignored 100 s after launch and not 1900 s after launch |
| `Notifiers.Notifier.ServiceMattersOnlyForOfflineWarning` | src/notifier/__init__.py:107-111 | in the grace period the offline warning from a farmer is not ignored, while a coin receipt from a farmer is |
| `PlotCheckers.NonDecreasingPlots.constructor` | src/chia_log/handlers/condition_checkers/non_decreasing_plots.py:17-23 | a new checker has last count 0 and both thresholds 2 |
| `PlotCheckers.NonDecreasingPlots.Check` | src/chia_log/handlers/condition_checkers/non_decreasing_plots.py:25-68 | afterwards the field holds the new count whatever branch ran, and the event is `PlotChange` of the previous and new count under the checker's thresholds |
| `PlotCheckers.PlotChange` | src/chia_log/handlers/condition_checkers/non_decreasing_plots.py:25-68 | an increase event exactly when the count rises by more than the increase threshold from a non-zero count, a decrease event exactly when it falls by at least the decrease threshold; increases are LOW, decreases HIGH, both from HARVESTER; nothing for an unchanged count |
| `PlotCheckers.StepAlerts` | src/chia_log/handlers/condition_checkers/non_decreasing_plots.py:27-63 | an increase alert (LOW, HARVESTER) exactly when the count rises by 3 or more from a non-zero count; a decrease alert (HIGH, HARVESTER) exactly when it falls by 2 or more; never from 0 upward; nothing for an unchanged count |
| `PlotCheckers.ObserveBound` | src/chia_log/handlers/condition_checkers/non_decreasing_plots.py:25-68 | a series of observations yields at most one event per observation |
| `PlotCheckers.NonDecreasingNeverAlarms` | src/chia_log/handlers/condition_checkers/non_decreasing_plots.py:46-63 | a plot count that never falls never produces a decrease alert |
| `PlotCheckers.SmallChangesAreSilent` | src/chia_log/handlers/condition_checkers/non_decreasing_plots.py:20-23 | counts that move by at most one down or two up between observations produce no events |
| `PlotCheckers.SteadyCountIsSilent` | src/chia_log/handlers/condition_checkers/non_decreasing_plots.py:65-66 | once a count is reached, repeating it any number of times produces no event |
| `PartialHandlers.PartialHandler.constructor` | src/chia_log/handlers/partial_handler.py:22-25 | a fresh handler has its parser and an empty checker list |
| `PartialHandlers.PartialHandler.Handle` | src/chia_log/handlers/partial_handler.py:27-44 | the call log grows by exactly `HandleSteps`: one parse, then the hand-over of the whole parsed list when a stats manager is given, then the checks of every record by every checker, each from the checker's current state; the result is the events those checks answered, in order; each checker ends where its transition, run over the parsed records from its old state, leads; the stats manager's log grows by that one batch |
| `PartialHandlers.HandleBatch` | src/chia_log/handlers/partial_handler.py:32-44 | the body of `handle`, with the same promises stated for the checker list and the states it starts from |
| `PartialHandlers.ParseAndFeed` | src/chia_log/handlers/partial_handler.py:33-35 | the logs are parsed once and the parsed list goes to the stats manager when there is one; the call log grows by exactly those one or two calls |
| `PartialHandlers.CheckRecords` | src/chia_log/handlers/partial_handler.py:38-42 | the outer loop leaves each checker at the state its transition reaches over all records, and makes exactly the checks `Checks` describes |
| `PartialHandlers.CheckRecord` | src/chia_log/handlers/partial_handler.py:39-42 | the inner loop moves each checker one transition further on the record and makes one check per checker in registration order, each from the checker's state before it; the events are those checks' answers |
| `PartialHandlers.HandleTrace` | src/chia_log/handlers/partial_handler.py:27-44 | the steps of a call begin with the parse (and the stats hand-over when a stats manager is given); every later step is a check that applies its checker's transition to its record from the state the earlier records left; the checks follow the record-major schedule; the events are those of the checks, at most records × checkers of them |
| `PartialHandlers.ChecksApplied` | src/chia_log/handlers/partial_handler.py:38-42 | every check in the nested loops applies its checker to its record, starting from the state the checker reached over the earlier records |
| `PartialHandlers.ChecksScheduled` | src/chia_log/handlers/partial_handler.py:38-39 | the checks pair records with checkers records-outer, checkers-inner |
| `PartialHandlers.RunConcat` | src/chia_log/handlers/partial_handler.py:38-40 | since a checker keeps its state between calls, two batches checked one after the other leave it where the two checked as one batch would |
| `PartialHandlers.Emitted` | src/chia_log/handlers/partial_handler.py:38-42 | no more events are collected than checks were made |
| `PartialHandlers.ScheduleLength` | src/chia_log/handlers/partial_handler.py:38-39 | the nested loops make records × checkers checks |
| `PartialHandlers.ScheduleAt` | src/chia_log/handlers/partial_handler.py:38-40 | check number `i * n + j` gives record `i` to checker `j` |
| `PartialHandlers.EmittedComesFromACheck` | src/chia_log/handlers/partial_handler.py:40-42 | every collected event is the answer of some check |
| `WalletParsers.WalletAddedCoinParser.constructor` | src/chia_log/parsers/wallet_added_coin_parser.py:25-31 | the parser keeps its fork prefix |
| `WalletParsers.WalletAddedCoinParser.Parse` | src/chia_log/parsers/wallet_added_coin_parser.py:33-56 | one record per match in match order, amount = digits value × fork multiplier, timestamp parsed; fails exactly when some match is unreadable, naming the first one and whether its amount or its timestamp failed; changes nothing |
| `WalletParsers.Multiplier` | src/chia_log/parsers/wallet_added_coin_parser.py:43-48 | the scale is 1, 1000 or 10000, and differs from 1 exactly for the `chives` and `staicoin` prefixes |
| `WalletParsers.ScaledAmount` | src/chia_log/parsers/wallet_added_coin_parser.py:43-48 | an amount written as `x` becomes `x` × 10000 for `chives`, × 1000 for `staicoin`, and `x` otherwise |
| `Text.Upper` | src/chia_log/api_handler.py:54-68 | `str.upper` leaves no lower-case ASCII letter |
| `Text.Lower` | src/notifier/__init__.py:130-132 | `str.lower` leaves no upper-case ASCII letter |
| `Text.DigitsValue` | src/chia_log/parsers/wallet_added_coin_parser.py:44 | `int` of a digit string is zero exactly when every digit is `0`, and at least one when the string starts with a non-zero digit |
| `Text.DecimalOfDigitsValue` | src/chia_log/parsers/wallet_added_coin_parser.py:44 | a digit string without a leading zero is the decimal rendering of its own value |
| `Text.DigitsValueOfDecimal` | src/chia_log/parsers/wallet_added_coin_parser.py:44 | `int` of a number written in decimal gives the number back |
| `Text.NatToDecimal` | src/chia_log/handlers/condition_checkers/non_decreasing_plots.py:30-33 | a rendered count is a non-empty digit string without a leading zero |
| `Api.Contains` | src/chia_log/api_handler.py:53-74 | `key in body` is key membership for an object, element equality for a list, and for a string true exactly when the key is a slice of it (so true for a prefix, false for a longer key); it raises for any other JSON value |
| `Api.Index` | src/chia_log/api_handler.py:53-79 | `body[key]` succeeds exactly for an object holding the key, and then gives the stored value |
| `Api.EnumField` | src/chia_log/api_handler.py:53-72 | a field is absent exactly when `key in body` is false; a found member is named by the upper-cased string stored under the key, and a string that upper-cases to a member's name is found as that member |
| `Api.DecidePost` | src/chia_log/api_handler.py:40-84 | a foreign content type gives 400; a missing content type or body crashes, and so does an enum field that raises (type; priority after a valid type; service after valid type and priority), whatever later keys hold; an object whose first absent key (in the order type, priority, service, message) follows valid earlier fields gives 400; an object with three valid enum strings is accepted exactly when it holds `message`, carrying the raw value; an accepted POST had JSON content type and all four keys; a 400 means a foreign content type or an absent key |
| `Api.RequestHandler.DoPost` | src/chia_log/api_handler.py:40-84 | 400 with no body for a rejection, no response for a crash, 200 with the confirmation text for an acceptance; the notify manager receives exactly one one-element batch when accepted and nothing otherwise |
| `Api.RequestHandler.DoGet` | src/chia_log/api_handler.py:35-37 | always 200, JSON content type, body `{"hello": "world", "received": "ok"}` |
| `Api.RequestHandler.DoHead` | src/chia_log/api_handler.py:31-32 | always 200 with JSON content type and no body |
| `Api.EncodedEventAccepted` | src/chia_log/api_handler.py:53-80 | any event sent with lower-case names is accepted and decoded to the same event |
| `Api.EnumCaseInsensitive` | src/chia_log/api_handler.py:54-68 | two strings with the same upper-case form decode an enum field identically |
| `Api.UnknownTypeCrashes` | src/chia_log/api_handler.py:53-54 | a `type` string naming no member ends the request without a response and without dispatch |
| `Api.FirstMissingKeyRejected` | src/chia_log/api_handler.py:53-77 | with the earlier keys valid, removing `type`, `priority`, `service` or `message` gives 400 |
| `Api.HelloSubmission` | src/chia_log/api_handler.py:53-84 | `{"type":"user","priority":"high","service":"farmer","message":"hello"}` is accepted as USER, HIGH, FARMER, "hello" |

## Left out

- Python's `str.upper`/`str.lower` are modelled on ASCII letters only; Python also maps some non-ASCII letters to ASCII ones (U+0131 to `I`, U+017F to `S`), so a few exotic spellings that Python would accept are crashes in the model.
- The JSON-logic evaluator and `json.loads` of the compound rule are one function parameter answering holds, does not hold or raises; the Python truthiness of its raw result is folded into that answer.
- JSON numbers are integers only: floating-point values in a POST body are not representable, which matters only in that they are neither strings nor containers (a `type` given as a number raises either way).
- `PartialHandlers.PartialHandler.Handle`: specified for a checker list without repetitions; a checker object registered twice, whose state would then advance twice per record, is not covered.
- `re.search` is a function parameter; the regular-expression language is not modelled. The same holds for the wallet parser's `findall`, whose captures are the input.
- `dateutil` timestamp parsing is a function parameter; the timestamp type is left abstract.
- Clock readings are exact reals; the floating-point rounding of `time.time()` plus 1800 is not modelled.
- Configuration values are taken to be well-formed: `ignore` and `allow` are dictionaries of strings and flags are booleans (truthiness of other YAML values is not modelled).
- Logging, `traceback` output and `send_events_to_user` (abstract, channel-specific) are not modelled.
- Header parsing (`cgi.parse_header`), `content-length` and the request and response streams are not modelled: the request arrives as a media type and a decoded JSON value, either of which may be missing. Response headers other than the content type are left out.
- The socket server, its thread, `serve_forever`, `shutdown` and `join` (`ApiHandler`) are not modelled: they are I/O and concurrency.
- `NotifyManager.process_events`, the partial parser, the partial condition checkers and the stats manager are not part of this model beyond the recording classes described above; the channel-level precedence of ignore over allow lives in the notify manager and is not claimed here.
- `PlotCheckers.IncreaseMessage` and `PlotCheckers.DecreaseMessage` (with `Text.IntToDecimal`): the event message text of non_decreasing_plots.py:30-33 and 53-56 is built as the source formats it and carried in the event, but no contract states its wording.
- `HarvesterActivityMessage` is reduced to its total plot count, the only field the checker reads.
