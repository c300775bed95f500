# pgfault: one proxied connection, modelled and proved

pgfault is a proxy that speaks enough of the PostgreSQL wire protocol to fire faults at semantic moments: a scenario
may say "when a commit is confirmed, drop the confirmation". This project models everything one connection does
between the two sockets, and proves what its users rely on.

| layer | files | form |
|---|---|---|
| framing | `Wire.dfy` | `Decode` and friends as functions; `FrameReader` as a class over a `Socket` that hands out arbitrary chunks |
| SQL classifier | `Sql.dfy`, `SqlTokens.dfy`, `SqlLaws.dfy`, `SqlCase.dfy` | a functional lexer and keyword match; `Scan` is the byte loop, proved equal to them |
| observer | `Observer.dfy`, `ConnectionState.dfy`, `Runs.dfy` | functions on a `State` value; class `ConnectionState` with the original's fields, each method proved against them; runs in any interleaving |
| what a message means | `Reading.dfy`, `Effects.dfy`, `Outcomes.dfy` | lemmas that say, in bytes and field by field, what each message does to the observer and what each frame does to the connection |
| scenarios, trace | `Events.dfy`, `Scenario.dfy`, `Trace.dfy` | data, class `Matcher`, method `Replay` |
| relay | `Relay.dfy`, `RelayLoop.dfy`, `RelayRuns.dfy` | functions on a `RelayState`; class `Connection` with the loop, proved against them |
| server | `Server.dfy` | a conforming server after sections 55.2.2 to 55.2.4 and 55.7 of the PostgreSQL 16 documentation |
| main results | `Completion.dfy`, `Coordinates.dfy`, `Reliability.dfy`, `Occurrences.dfy`, `Epochs.dfy`, `Speculation.dfy`, `Faults.dfy`, `Transparency.dfy`, `ClientLog.dfy`, `GateSafety.dfy`, `Truncation.dfy`, `ReplayFidelity.dfy`, `Pairing.dfy` | lemmas over every run |
| limits | `Leaks.dfy`, `Limits.dfy` | runs in which a guarantee ends, and the exact conditions |

The relay is a state machine: at each step the next input is a client frame, a server frame, an end of file or a bad
read, in any order. Every log entry of the relay carries the moment its frame arrived, so that "this frame was never
written" can be said. `Connection.Run` is the loop; all the relay theorems speak about `Relayed`, to which it is
proved equal. `RelayContainsObserverRun` shows that every run of the relay contains a run of the observer whose events
are exactly those in the trace, so the observer theorems hold behind the proxy.

Assumptions that the code needs and does not enforce are hypotheses, each visible in a `requires`:

* `GateSafety.SuspensionOrderly`: PortalSuspended never answers a commit or rollback. `GateSafety.GateIsExact` does
  without it, and `Leaks.SuspensionLeaks` is the run that needs it.
* `Servers.MayAsk`, `MayReply`, `Answers`: the client sends Sync before its next simple query, nothing but
  authentication before the first ReadyForQuery, no FunctionCall or COPY data; the server answers in order and skips to
  the Sync after an error. No client frame is suppressed (`Limits.SuppressedRequestBreaksPairing` says what that costs).
* `Pairing.Informed`: a Bind names a statement the observer knows when it is sent.
* `Speculation.AcknowledgedInTime`: acknowledgements precede their ReadyForQuery. A conforming server does this
  (`Pairing.ReadyAfterAcknowledgements`).
* `Transparency.AllInert`: nothing but delays has fired. Even then an unfired scenario can end the connection: what is
  held behind a gate may not exceed 1 MiB (`Transparency.RelayIsTransparent` has the condition,
  `Leaks.UnfiredScenarioOverflows` a run).

About the server model itself, `Servers.TakeIsInOrder` and `Servers.GiveIsInOrder` show that it is in order: it
queues requests last, answers only the head of its queue, and drops more only after an error.

Where the code and its documentation differ the model follows the code:

* `README.md:108` speaks of the digest of the normalized SQL text; the text is hashed as it is
  (crates/pgfault-events/src/lib.rs:33).
* The comment at crates/pgfault-proxy/src/lib.rs:167 promises a cut before row N+1; the cut comes right after row N, and
  before the first row when N is 0. Rows held behind a gate count but are lost at the cut.
* `README.md:32` lists COPY among what is parsed; COPY frames are opaque to the observer.
* The class of a text that has one is independent of letter case exactly when no dollar quote outside comments and
  literals has a letter in its tag: tags are compared byte by byte.

## Model

| member | source | states |
|---|---|---|
| Wire.DecodeEncode | crates/pgfault-wire/src/lib.rs:46-82 | a framed tag and body followed by anything decodes to that tag, body and remainder |
| Wire.DecodeIsLossless | crates/pgfault-wire/src/lib.rs:46-58 | an accepted frame is 5 to MAX_FRAME+1 bytes long, and writing it back with the remainder gives the buffer |
| Wire.DecodeIsStable | crates/pgfault-wire/src/lib.rs:46-58 | once decided, an answer does not change when more bytes arrive |
| Wire.DecodeDecides | crates/pgfault-wire/src/lib.rs:46-58 | refused exactly when the big-endian length is out of range, incomplete exactly when the header or the frame is, else the frame of that tag and body |
| Wire.CleanEofIffWholeFrames | crates/pgfault-wire/src/lib.rs:31-45 | nothing is left over exactly for concatenations of whole valid frames |
| Wire.FrameReader.Next | crates/pgfault-wire/src/lib.rs:31-44 | the answer is a function of the bytes outstanding, whatever the chunks |
| Wire.FrameReader.NextUnlessCancelled | crates/pgfault-wire/src/lib.rs:25-44 | dropped after any number of reads, it has lost nothing: buffer and outstanding bytes are those before, or the answer is that of `next` |
| Wire.FrameReader.ReadToEnd | crates/pgfault-wire/src/lib.rs:31-58 | for any chunking: the frames and the ending of decoding the whole stream, and no byte lost |
| Sql.Scan | crates/pgfault-events/src/lib.rs:39-154 | the byte scanner terminates, stays in bounds and equals tokenizing followed by the keyword match; for each class the texts that have it, by their first word, letter by letter, and the words that rule it out |
| Sql.TokenEnd | crates/pgfault-events/src/lib.rs:74-132 | the next token other than blank space and where it ends, or that it is not terminated |
| Sql.CommentEnd | crates/pgfault-events/src/lib.rs:55-73 | nested comments end where the depth returns to zero |
| SqlTokens.SpaceIsBlank | crates/pgfault-events/src/lib.rs:45-48 | ASCII whitespace is blank |
| SqlTokens.LineCommentIsBlank | crates/pgfault-events/src/lib.rs:49-54 | two dashes hide the rest of the line |
| SqlTokens.BlockCommentIsBlank | crates/pgfault-events/src/lib.rs:55-73 | a block comment is blank, comments nested in it included |
| SqlTokens.OpenCommentIsUnterminated | crates/pgfault-events/src/lib.rs:55-73 | unclosed, it is an error |
| SqlTokens.SemicolonSeparates | crates/pgfault-events/src/lib.rs:77-81 | a semicolon separates statements |
| SqlTokens.QuotedIsLiteral | crates/pgfault-events/src/lib.rs:82-107 | quoted text ends at the first quote neither doubled nor after a backslash, and without one is an error |
| SqlTokens.DollarQuotedIsLiteral | crates/pgfault-events/src/lib.rs:108-123 | dollar-quoted text ends at the first repetition of its delimiter |
| SqlTokens.OpenDollarIsUnterminated | crates/pgfault-events/src/lib.rs:108-123 | without one it is an error |
| SqlTokens.DollarStandsAlone | crates/pgfault-events/src/lib.rs:108-132 | a dollar sign that starts no delimiter is passed over |
| SqlTokens.WordIsToken | crates/pgfault-events/src/lib.rs:124-129 | a word starts with a letter, takes letters, digits and underscores, and is read in capitals |
| SqlTokens.OtherByteStandsAlone | crates/pgfault-events/src/lib.rs:124-132 | every other byte is passed over |
| SqlLaws.TextAfterSeparatorIsOther | crates/pgfault-events/src/lib.rs:74-81 | a class other than Other means that only blanks and closed comments follow the first separator |
| SqlLaws.LeadingBlankIsIgnored | crates/pgfault-events/src/lib.rs:43-73 | leading whitespace, line comments and balanced nested comments never change the class |
| SqlCase.CaseIsIgnored | crates/pgfault-events/src/lib.rs:108-153 | texts that differ only in letter case have one class as long as no dollar quote has a letter in its tag |
| SqlCase.CaseMattersExactly | crates/pgfault-events/src/lib.rs:108-153 | the class of a text that has one is independent of letter case if and only if no dollar quote has a letter in its tag |
| SqlCase.CaseMattersInDelimiters | crates/pgfault-events/src/lib.rs:108-122 | a text of class Other may gain a class by a change of case, by example |
| ConnectionStates.ConnectionState.Frontend | crates/pgfault-state/src/lib.rs:120-215 | a client frame leaves the state and makes the events that the specification says |
| ConnectionStates.ConnectionState.ForwardedEvent | crates/pgfault-state/src/lib.rs:216-218 | likewise for a forwarded query |
| ConnectionStates.ConnectionState.CompletionBoundary | crates/pgfault-state/src/lib.rs:220-239 | likewise for the completion boundary, which changes nothing |
| ConnectionStates.ConnectionState.Backend | crates/pgfault-state/src/lib.rs:240-363 | likewise for a server frame |
| Reading.ReadsParse | crates/pgfault-state/src/lib.rs:123-134 | which bytes make a Parse and what it names and prepares |
| Reading.ReadsBind | crates/pgfault-state/src/lib.rs:135-150 | likewise for a Bind |
| Reading.ReadsClose | crates/pgfault-state/src/lib.rs:151-163 | likewise for a Close |
| Reading.ReadsExecute | crates/pgfault-state/src/lib.rs:164-176 | likewise for an Execute |
| Reading.ReadsQuery | crates/pgfault-state/src/lib.rs:164-176 | likewise for a Query; unterminated text is a statement of class Other without a digest |
| Reading.ReadsClientTag | crates/pgfault-state/src/lib.rs:120-204 | which tag bytes are a Sync, Query, Execute or Terminate, and that only six tags take part in a cycle |
| Reading.ReadsParameter | crates/pgfault-state/src/lib.rs:243-250 | only a ParameterStatus for application_name changes the session's name |
| Effects.ServerFrameEvents | crates/pgfault-state/src/lib.rs:275-313 | the events of each server frame by its tag byte: names, order, and every field, from the oldest cycle's identity and statement to the row number |
| Effects.ReadyFrameEvents | crates/pgfault-state/src/lib.rs:314-349 | the events of each ReadyForQuery body: transaction.failed exactly on entering the failed state, a completion exactly as class, tag, error and reliability say; nothing for any other body |
| Effects.BoundaryOfFrame | crates/pgfault-state/src/lib.rs:220-239 | exactly which CommandComplete, by class and tag bytes, may confirm what |
| Effects.QueryEvents | crates/pgfault-state/src/lib.rs:164-198 | a Query's events, about a cycle of its own, with the request its class makes and the epoch it works in |
| Effects.ExecuteEvents | crates/pgfault-state/src/lib.rs:164-198 | an Execute's events, about the next statement of the open cycle or the first of a new one |
| Effects.SyncEvents | crates/pgfault-state/src/lib.rs:199-202 | a Sync's event, about the last statement asked for |
| Effects.OtherClientEvents | crates/pgfault-state/src/lib.rs:120-215 | no other client message makes an event |
| Effects.ForwardedEventIs | crates/pgfault-state/src/lib.rs:216-218 | one event, about the statement just asked for |
| Effects.ExtendedEffects | crates/pgfault-state/src/lib.rs:120-163 | what Parse, Close and Sync do to names and to their cycle, the open one or a new one |
| Effects.BindEffect | crates/pgfault-state/src/lib.rs:135-150 | a Bind to a known statement waits for its acknowledgement; to an unknown one it removes the portal |
| Effects.ExecuteEffect | crates/pgfault-state/src/lib.rs:164-213 | the portal's statement joins the cycle, which gets a new epoch exactly from idle, alone and without one |
| Effects.QueryEffect | crates/pgfault-state/src/lib.rs:164-213 | the unnamed statement and portal go from all four maps, and a sealed cycle with that one statement is opened |
| Effects.NoEffect | crates/pgfault-state/src/lib.rs:203-204 | any other client message leaves the observer as it was |
| Effects.AcknowledgementEffect | crates/pgfault-state/src/lib.rs:251-274 | the oldest pending mutation is confirmed when its kind fits, else the observer is unreliable |
| Effects.StrayAcknowledgementEffect | crates/pgfault-state/src/lib.rs:251-274 | an acknowledgement of nothing makes it unreliable |
| Effects.CompletionEffect | crates/pgfault-state/src/lib.rs:282-304 | a completion answers the next statement, records its tag and counts; a suspension answers only |
| Effects.RowEffect | crates/pgfault-state/src/lib.rs:276-281 | a row is counted in the oldest cycle |
| Effects.ErrorEffect | crates/pgfault-state/src/lib.rs:305-313 | an error marks the oldest cycle, drops its mutations and restores the confirmed names |
| Effects.ReadyEffect | crates/pgfault-state/src/lib.rs:314-359 | a ReadyForQuery ends the oldest cycle; idle ends all portals; with the last cycle the flag and the names are restored |
| Effects.ParameterEffect | crates/pgfault-state/src/lib.rs:243-250 | a new application_name replaces that of the session |
| Effects.SilentEffects | crates/pgfault-state/src/lib.rs:240-362 | RowDescription, a malformed ReadyForQuery and every opaque message leave the observer as it was |
| Occurrences.OccurrencesCount | crates/pgfault-state/src/lib.rs:91-110 | on every run an event's occurrence is its number among the events of its name |
| Runs.StepShape | crates/pgfault-state/src/lib.rs:76-119 | every event of a step describes one and the same state; the counters influence nothing else |
| Runs.NumberedStep | crates/pgfault-state/src/lib.rs:64-75 | cycles in flight stay numbered consecutively, and closed cycles only increase |
| Completion.CompletionSoundness | crates/pgfault-state/src/lib.rs:164-198 | on every run, whatever the server does: one completion per cycle at most, and a completed commit or rollback was requested earlier in the same cycle |
| Completion.CompletedNeverOutnumberRequested | crates/pgfault-state/src/lib.rs:325-349 | completed commits (rollbacks) never outnumber requested ones |
| Coordinates.PointsAreUnique | crates/pgfault-state/src/lib.rs:76-119 | requests, Syncs and verdicts of a cycle have coordinates unique in the whole run |
| Reliability.ReliableMeansClean | crates/pgfault-state/src/lib.rs:251-274 | the flag is set exactly when no acknowledgement mismatched since the queue last drained |
| Reliability.FailsClosed | crates/pgfault-state/src/lib.rs:354-358 | after a mismatch every event is unreliable, up to and including the draining ReadyForQuery |
| Faults.NoFaultAfterMismatch | crates/pgfault-scenario/src/lib.rs:182-197 | over that segment no matcher counts and nothing fires |
| Epochs.EpochStep | crates/pgfault-state/src/lib.rs:205-213 | a step raises the epoch by one exactly when it starts one, from idle and with nothing else in flight |
| Epochs.EpochsCountStarts | crates/pgfault-state/src/lib.rs:205-213 | on every run the epochs of two events differ by the number of steps after the first, the second's included, that start one |
| Epochs.EpochMeaning | crates/pgfault-state/src/lib.rs:314-349 | with one cycle in flight, two executions share an epoch exactly when no idle ReadyForQuery separates them, since exactly then nothing in between starts one |
| Epochs.PipelinedQueriesShareAnEpoch | crates/pgfault-state/src/lib.rs:205-213 | a pipelined run in which an idle ReadyForQuery separates no epochs |
| Epochs.TransactionWithoutWorkKeepsTheEpoch | crates/pgfault-state/src/lib.rs:205-213 | nor does it when a cycle that only synced leaves a transaction open |
| Speculation.SpeculationRefinesConfirmation | crates/pgfault-state/src/lib.rs:123-162 | for named statements the assumed map is the confirmed one with every pending mutation applied, oldest cycle first |
| Speculation.DrainedNamesCoincide | crates/pgfault-state/src/lib.rs:349-358 | with nothing in flight assumed and confirmed names are the same |
| Pairing.CyclesAreGroups | crates/pgfault-state/src/lib.rs:64-75 | beside a conforming server the cycles are the unanswered request groups in order, errors included: a simple group's cycle holds its query, an extended one's the statements of the Executes to be answered behind one for each empty Execute |
| Pairing.RepliesMeetTheirRequest | crates/pgfault-state/src/lib.rs:282-304 | the front cycle is the group being answered, only the newest is open, a completed query is the cycle's statement, and a completion or suspension retires the very Execute it answers unless an Execute of the group was empty; the events name what is retired |
| Pairing.EmptyExecutesShift | crates/pgfault-state/src/lib.rs:282-304 | the cycle holds exactly the statements still to be answered if and only if no Execute of its group was empty |
| Pairing.NoFalseAlarm | crates/pgfault-state/src/lib.rs:251-274 | the observer stays reliable however deeply requests are pipelined and whatever errors occur |
| Pairing.ConformingServerConfirms | crates/pgfault-state/src/lib.rs:123-162 | with a conforming server and no error since the last drain the name refinement holds |
| Scenarios.Matcher.Observe | crates/pgfault-scenario/src/lib.rs:182-197 | fires and counts as specified, and changes nothing otherwise |
| Scenarios.CountsExactly | crates/pgfault-scenario/src/lib.rs:145-197 | an event counts exactly when the matcher has not fired, it is reliable, has the name, and passes each filter: one left out passes everything, one that is set only its own value |
| Scenarios.UnfilteredFires | crates/pgfault-scenario/src/lib.rs:145-197 | without filters the first reliable event of the name fires, whatever else it carries |
| Scenarios.LooserFires | crates/pgfault-scenario/src/lib.rs:145-166 | leaving filters out never loses a firing |
| Scenarios.LooserFiresNoLater | crates/pgfault-scenario/src/lib.rs:145-197 | over any sequence the looser scenario fires no later |
| Scenarios.LoadsExactly | crates/pgfault-scenario/src/lib.rs:96-144 | exactly which scenarios load |
| Scenarios.FiresAtTheWantedHit | crates/pgfault-scenario/src/lib.rs:182-197 | fires exactly at the k-th reliable event that passes every filter |
| Scenarios.FiresOnce | crates/pgfault-scenario/src/lib.rs:182-197 | never fires twice |
| Scenarios.UnreliableIsIgnored | crates/pgfault-scenario/src/lib.rs:183-189 | over unreliable events a matcher neither counts nor fires |
| Scenarios.FiresOnSomeEvents | crates/pgfault-scenario/src/lib.rs:96-108 | a scenario can fire at all exactly when its occurrence is not zero, as validation demands |
| Traces.Replay | crates/pgfault-trace/src/lib.rs:60-91 | each scenario replays a fault of the trace, with its name, action, kinds and connection and with the coordinate as filters, and each fault is replayed; or the first that does not load; or that there are no faults |
| Traces.ReplayGrows | crates/pgfault-trace/src/lib.rs:60-91 | scenarios come in the order of their faults: what a longer trace adds comes after |
| Traces.DeduplicateKeepsEach | crates/pgfault-trace/src/lib.rs:82-84 | every rebuilt scenario is kept, none twice |
| Traces.DeduplicateKeepsOrder | crates/pgfault-trace/src/lib.rs:82-84 | later faults only add scenarios at the end |
| Traces.RebuildHitsOnly | crates/pgfault-trace/src/lib.rs:71-80 | a rebuilt scenario hits only reliable events with the recorded coordinate, text and known session names, and only of the kinds and connection the recorded one asked for |
| Traces.RebuildIsValidIffRowIsNotZero | crates/pgfault-trace/src/lib.rs:71-81 | a rebuilt scenario loads exactly when its row is not zero |
| RelayLoop.Connection.Apply | crates/pgfault-proxy/src/lib.rs:189-238 | every event is recorded and offered to every matcher in turn; faults, row limit, suppression and disconnection follow |
| RelayLoop.Connection.FromClient | crates/pgfault-proxy/src/lib.rs:148-160 | a client frame is observed, applied, forwarded or dropped, and announced |
| RelayLoop.Connection.FromServer | crates/pgfault-proxy/src/lib.rs:161-180 | a server frame is judged for the gate, observed, applied, then held, written, released, dropped or cut off |
| RelayLoop.Connection.Run | crates/pgfault-proxy/src/lib.rs:146-183 | the loop is the state machine of all relay theorems |
| Outcomes.ServerFrameOutcome | crates/pgfault-proxy/src/lib.rs:161-180 | what a server frame does to the client, to what is held and to the connection, decided by the faults it adds, the scenario waiting for it, what is held and the rows left |
| Outcomes.ClientFrameOutcome | crates/pgfault-proxy/src/lib.rs:148-160 | a client frame is sent unless a fault on its own events drops or disconnects; any fault it adds, on its forwarding too, may disconnect; then only Terminate ends |
| Outcomes.ServerFrameTrace | crates/pgfault-proxy/src/lib.rs:167-169 | a cut, and nothing else, leaves its mark in the trace after the events of the frame |
| Outcomes.EndOfFileEnds | crates/pgfault-proxy/src/lib.rs:148-163 | an end of file on either side, or a bad read, ends the connection, and what was held is never written |
| Outcomes.FaultsDisconnect | crates/pgfault-proxy/src/lib.rs:146-183 | on every run an input that finds the connection up disconnects it exactly when a fault it adds to the trace says so, and then nothing more is written anywhere |
| Outcomes.FiredInOrder | crates/pgfault-proxy/src/lib.rs:198-211 | on one event every scenario that fires adds its fault, in the order of the matchers |
| Outcomes.TraceIsInOrder | crates/pgfault-proxy/src/lib.rs:198-211 | on every run a fault stands right behind its event or another fault on it |
| RelayRuns.RelayContainsObserverRun | crates/pgfault-proxy/src/lib.rs:146-183 | every run of the relay contains an observer run whose events are those traced and those the matchers saw |
| Faults.FaultsNeverExceedScenarios | crates/pgfault-proxy/src/lib.rs:198-236 | a connection has at most as many faults as scenarios |
| RelayRuns.HeldIsCounted | crates/pgfault-proxy/src/lib.rs:170-177 | on every run the running size is that of the frames held, and within the limit unless it ended the connection |
| Transparency.RelayIsTransparent | crates/pgfault-proxy/src/lib.rs:146-183 | while only delays have fired, in every state: the server got what the client sent, delivered then held frames are those received, nothing is held past a ReadyForQuery; with one exception, an overflow behind the gate, which loses one frame and comes exactly when that frame exceeds the limit |
| Transparency.ConnectionIsTransparent | crates/pgfault-proxy/src/lib.rs:138-183 | the same for every run of a new connection |
| Transparency.BytesAreRelayed | crates/pgfault-proxy/src/lib.rs:146-183 | the same, byte for byte, in both directions |
| GateSafety.GateIsExact | crates/pgfault-proxy/src/lib.rs:161-180 | with no assumption about the server, on every run in which a suppressing scenario fires on a completed commit, rollback or implicit transaction: the last CommandComplete was judged to lead there exactly when the class of the statement it answers fits, then it was gated, and it stays unwritten exactly when it was dropped at once, or was gated or came behind something held and no malformed ReadyForQuery followed |
| GateSafety.SuppressedCompletionNeverLeaks | crates/pgfault-proxy/src/lib.rs:161-180 | for commits and rollbacks, PortalSuspended never answering one: that CommandComplete answered one and was gated, and it is never written, at any time, exactly when another scenario dropped it or no malformed ReadyForQuery came in between; nothing else was written meanwhile either |
| GateSafety.OrderlyServerNeverLeaks | crates/pgfault-proxy/src/lib.rs:161-180 | with well-formed ReadyForQuery bodies it is never written |
| GateSafety.SingleScenarioLeaksExactly | crates/pgfault-proxy/src/lib.rs:161-180 | with a single scenario, implicit completions included: never written exactly when the class fits or something was held already, and no malformed ReadyForQuery followed |
| GateSafety.VerdictWasJudged | crates/pgfault-state/src/lib.rs:220-239 | what is announced at ReadyForQuery was judged so at the recalled CommandComplete exactly when the class of the statement answered there is one the gate is for |
| GateSafety.FindLastCompletion | crates/pgfault-state/src/lib.rs:282-304 | on every run the front cycle's tag goes back to a last CommandComplete for that cycle |
| GateSafety.MalformedReadyReleases | crates/pgfault-state/src/lib.rs:315-320 | a ReadyForQuery with another body announces nothing and releases everything held |
| GateSafety.GateHolds | crates/pgfault-proxy/src/lib.rs:173-178 | from a gated frame to the next ReadyForQuery nothing is written, whatever fires |
| Truncation.ExactTruncation | crates/pgfault-proxy/src/lib.rs:167-179 | exactly min(N, rows sent) rows and everything between them are delivered; the cut comes exactly when max(N, 1) rows have arrived |
| Truncation.TruncationBehindTheGate | crates/pgfault-proxy/src/lib.rs:167-179 | with a gate closed on the way: the rows behind it count, the cut comes at the same row, and the client has exactly the rows before the gate |
| Truncation.NothingAfterCut | crates/pgfault-proxy/src/lib.rs:168-169 | after the cut nothing is ever delivered |
| Truncation.LimitsStartAtRowDescription | crates/pgfault-scenario/src/lib.rs:140-142 | with validated scenarios only a RowDescription sets a row limit |
| ReplayFidelity.TraceAgrees | crates/pgfault-proxy/src/lib.rs:198-211 | the faults in a trace are exactly the firings of the scenarios over the traced events |
| ReplayFidelity.ReplayFiresAtTheSamePoint | crates/pgfault-trace/src/lib.rs:60-91 | a rebuilt scenario fires over the same events at the recorded one or earlier, never later; exactly there if and only if nothing earlier hits it, and always when the coordinate pins the event down; it then suppresses, disconnects, delays and limits as the recorded one did |
| ReplayFidelity.ReplayAlwaysLoads | crates/pgfault-trace/src/lib.rs:66-81 | every fault recorded from valid scenarios on any run rebuilds to a valid one |
| Leaks.CompletionIsDropped | crates/pgfault-proxy/src/lib.rs:161-180 | a commit or rollback, its completion and an idle ReadyForQuery meet the assumptions of gate safety, the scenario fires and the completion is never written |
| Leaks.MalformedReadyLeaks | crates/pgfault-proxy/src/lib.rs:170-172 | a malformed ReadyForQuery between them, and it has been written |
| Leaks.SuspensionLeaks | crates/pgfault-state/src/lib.rs:297-304 | from a new connection, in order: a completion the gate is not for, then a suspended statement; the scenario fires on a completion that has been written, for commits, rollbacks and implicit ones |
| Leaks.UnfiredScenarioOverflows | crates/pgfault-proxy/src/lib.rs:173-177 | from a new connection: no scenario has fired, the connection is over, and the client has seen nothing |
| Leaks.ResultIsCut | crates/pgfault-proxy/src/lib.rs:166-179 | from a new connection with a truncating scenario: a query, its RowDescription, rows; the client has the description and the first N rows, and the connection is cut exactly when max(N, 1) have arrived |
| Limits.ReadyReleases | crates/pgfault-proxy/src/lib.rs:166-172 | a ReadyForQuery releases what is held exactly when nothing it fires suppresses or disconnects |
| Limits.SuspensionIsJudgedByAnEarlierTag | crates/pgfault-state/src/lib.rs:297-304 | what is announced after a PortalSuspended: exactly when the suspended statement and an earlier tag fit |
| Limits.QueryBeforeSyncOpensASecondCycle | crates/pgfault-state/src/lib.rs:64-75 | only the newest cycle stays open, except exactly after a simple query before a Sync |
| Limits.EmptyExecuteShiftsTheQueue | crates/pgfault-state/src/lib.rs:282-304 | after an empty Execute the next completion is taken for it |
| Limits.SuppressedRequestIsCounted | crates/pgfault-proxy/src/lib.rs:150-153 | a suppressed client frame is not sent, yet the observer counts it |
| Limits.SuppressedRequestBreaksPairing | crates/pgfault-proxy/src/lib.rs:150-153 | then cycles and groups no longer pair, except exactly when the request opens, executes and ends nothing the server would answer |
| Limits.ErrorKeepsRefinement | crates/pgfault-state/src/lib.rs:305-313 | after an error the name refinement holds exactly when no later pending mutation makes a difference |
| Limits.QueryForgetsTheUnnamed | crates/pgfault-state/src/lib.rs:176-181 | for the empty name it holds after a simple query exactly when the pending mutations do not end by defining it |
| Limits.IdleForgetsPortals | crates/pgfault-state/src/lib.rs:350-353 | after an idle ReadyForQuery with cycles in flight the portals refine exactly when those leave no portal bound |
| Limits.LaterCompletionReplaysEarlier | crates/pgfault-trace/src/lib.rs:71-81 | a fault at a later completion of one simple query is replayed at an earlier one |

## Left out

- TLS, socket set-up, SSL and GSS negotiation, cancel requests, the startup packet and its parameters, `serve` and the command line: plumbing. A reset or shutdown is an `Ending` after which nothing is read or written; one that fails, like a failing write or trace, is not modelled.
- Delays: sleeping changes no byte, so a fired delay only appears in the trace. A duration is a number of nanoseconds, or nothing where its text would not parse.
- SHA-256: a fingerprint is the text it stands for, so distinct texts never collide.
- YAML and JSON: scenarios and trace records are values, and repeated scenarios are equal values instead of equal texts.
- Integer widths: counters, cycle numbers and epochs are unbounded; wrap-around after 2^64 events is not modelled.
- Invalid UTF-8: names and tags are compared as bytes, where the code first replaces invalid sequences in the command tag and the application name.
- COPY, FunctionCall and replication: opaque frames for the relay, and not part of what the server model answers.
- The server model leaves out what makes it choose its replies: row counts, transaction status and which statements fail are free.
- Portals: their refinement is shown only where it breaks (`Limits.IdleForgetsPortals`).
- Several connections: each has its own state; only its ordinal appears, as the connection number of its events.
- Speculation.SpeculationRefinesConfirmation: speaks of names other than the empty one and of stretches without ErrorResponse, because the code forgets both differently (`Limits.QueryForgetsTheUnnamed`, `Limits.ErrorKeepsRefinement`).
- GateSafety.SuppressedCompletionNeverLeaks: speaks of commit and rollback; implicit completions have no such promise (`Leaks.SuspensionLeaks`), and `GateSafety.GateIsExact` and `GateSafety.SingleScenarioLeaksExactly` say exactly when they are kept.
- Epochs.EpochMeaning: speaks of runs with one cycle in flight in which a transaction opens only in a cycle that executed something; `Epochs.EpochsCountStarts` speaks of all runs.
- SqlCase.CaseMattersExactly: speaks of texts whose class is not Other; a text of class Other with a lettered tag may gain a class by a change of case.
