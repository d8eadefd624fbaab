# Bluetooth reconnect daemon: a verified model

The daemon keeps one pair of Bluetooth earbuds connected on Windows. Its
decisions are hand-written state machines over a clock, a few marker files and
an operating system that answers whatever it likes. This project models those
decisions in Dafny and proves what they keep, for every answer of the system.

| file | source | what it holds |
|---|---|---|
| `Config.dfy`, `Numeric.dfy`, `Wrappers.dfy` | `src/config.rs` | constants, `u32` saturation, capped doubling, the optional value |
| `Backoff.dfy` | `ladder.rs`, `connect_fsm.rs`, `endpoint.rs` | the five delay loops |
| `Breaker.dfy` | `ladder.rs` | the tumbling-window circuit breaker and its exact rate condition |
| `Text.dfy`, `Autostart.dfy` | `text.rs`, `autostart_cmd.rs` | the quoting printer and the command-line parser that undo each other |
| `Mac.dfy`, `LogonAddress.dfy`, `Redact.dfy`, `RedactLines.dfy` | `mac.rs`, `redact.rs` | address parser, printers, the address on the logon command line, masking, and both spellings of an address in a line |
| `Dedup.dfy` | `dedup.rs` | the fixed slot table against an unbounded map |
| `ConnectFsm.dfy`, `Answers.dfy`, `Debt.dfy` | `connect_fsm.rs`, `connect.rs`, `worker.rs` | the profile-driver toggle, what each verdict means in raw return codes, and its crash-safe debt marker |
| `Journal.dfy`, `Devnode.dfy`, `UsbCycle.dfy`, `PortCycle.dfy`, `Recovery.dfy`, `JournalRuns.dfy` | `pnp/devnode.rs`, `pnp/cycle.rs`, `pnp/hub.rs`, `pnp/recovery.rs` | the devnode journal: the usb-cycle, the port cycle and the repair pass with all their scripts, and runs of the three |
| `Page.dfy` | `page.rs`, `page_fsm.rs` | who owns the socket of a page |
| `Gates.dfy`, `Ladder.dfy` | `ladder.rs`, `wake.rs`, `page_fsm.rs`, `worker.rs`, `state.rs` | the recovery ladder as a transition function |
| `Worker.dfy` | `worker.rs`, `state.rs` | the same ladder as methods that update `SharedState` in place, each proved to follow that function |
| `Runs.dfy` | `worker.rs` | which turns of the loop are possible |
| `Replay.dfy`, `Protocol.dfy` | `worker.rs`, `ladder.rs`, `state.rs` | a second description of the daemon, over its own event history only: what each event leaves behind, and which event may and must come next |
| `Conformance.dfy`, `Turns.dfy`, `Courses.dfy` | `worker.rs` | every run of the ladder obeys the protocol, every turn logs its own readings and answers, and the protocol leaves a pass no other course |
| `Episodes.dfy`, `Distances.dfy`, `Cadences.dfy`, `Verdicts.dfy`, `Pacing.dfy`, `Absence.dfy`, `Holds.dfy`, `Rates.dfy` | `worker.rs`, `wake.rs`, `ladder.rs`, `page_fsm.rs` | what every run keeps: order, distances, waiting, counting, ownership and rates |
| `Guards.dfy` | `worker.rs` | what has to be true before a single pass or poll may act, in every state |

## How the ladder is proved

The ladder is described twice. `Ladder` is the code's own shape: one function per
rung, each refined by a method that updates the fields in place. `Protocol` does not
follow the code at all: from the history it computes the state (`Replay.StateOf`) and
the first open gate (`Protocol.Now`), and says which event is legal there, in bare
comparisons of clock readings and counters. A gate that is open *owes* its event, so
the protocol forbids an action too early and an action left out alike.
`Conformance.RunObeys` proves that every possible run of the ladder is legal and owes
nothing at the end of a turn, and that its fields are the replayed ones;
`Turns.TurnsAreTold` that a turn logs exactly its own wake, poll and pass, with its own
readings and answers. Conversely the protocol leaves no choice: `Courses.PassIsDetermined`
says that a legal course with the answers of a pass is the one `recover_link` takes. The
theorems about runs are inductions over legal histories.

## How the outside world is modelled

* A call into Windows is an arbitrary answer. `ServiceIo` and `PnpIo` are objects
  whose methods return anything their documented contract allows and record the
  step in a ghost trace; the ladder and a page read their answers from a record
  (`Ladder.Pass`, `Page.Answers`).
* Crash safety quantifies over cut-off points: a pass is a list of IO steps, a
  crash keeps any prefix of it, and the next pass starts from the file that is
  then on disk.
* A run of the ladder is any list of turns (timer, resume or device event, each
  with or without a poll that found the device). `Runs.Possible` says what is
  assumed of a turn: clock readings do not go back and start at 1, a connect pass
  returns what `Debt.ConnectReceipts` proves about it, and a page keeps a socket
  only as `Page.PageHold` proves. No lower bound on the clock beyond that is
  needed for the flap-storm assignment: at exactly `now == R1_ARM_MS` it can write
  the "not armed" value 0, but never over an episode in which a rung was recorded
  (`Episodes.AllTracked`).
* `i64` timestamps are unbounded integers; `u32` counters saturate as in the code.

## What the proofs found

* **A debt marker that cannot be read loses the debt.** `debt_profile` turns an
  unreadable or unknown marker into "nothing owed", the pass then toggles another
  profile, and its own arming overwrites the file. `Debt.SafeIffMarkerRead` gives
  the exact condition under which a pass is crash safe.
* **A repair pass forgets an unplugged radio.** The journal is removed when every
  *present* CSR radio is healthy or unreadable, so a radio that we took down and
  that is unplugged (or does not answer) is no longer ours to enable.
  `Recovery.UnpluggedRadioIsForgotten` exhibits the script.
* **A journal file that cannot be examined counts as absent.** The automatic repair
  pass then takes our own disable for the user's, leaves the plugged-in radio alone,
  and removes the journal (`Recovery.UnseenJournalForgets`). `Recovery.AllPassesSafeIff`
  gives the exact condition for both, which holds or fails before the pass: no CSR
  radio is listed at all, or every radio at risk is listed, its status can be read,
  and the journal is seen or the pass was asked for.
* **One journal stands for every cycled radio.** A usb-cycle of one radio that
  removes the journal uncovers any other radio still at risk
  (`UsbCycle.CycleUncoversAnother`); the cycled one itself is always covered
  (`UsbCycle.TargetIsCovered`). A cycle is crash safe for all answers exactly when
  there is nothing to cycle or no other radio is at risk (`UsbCycle.AllCyclesSafeIff`).
* **A port cycle that touches nothing removes the journal.** A dongle that is on no
  scanned hub port makes it remove a journal it did not write
  (`PortCycle.IdlePortForgets`), so it is crash safe exactly when nothing is at risk
  (`PortCycle.AllPortsSafeIff`). In the ladder it follows a verified usb-cycle
  (`Episodes.HubCycleAfterVerifiedCycle`), which leaves its target out of danger
  (`UsbCycle.SuccessIsObserved`).
* **One journal is enough for one dongle, and for no more.** With readable files and
  statuses, every run of the three with crashes anywhere is safe exactly when at most
  one CSR radio is ever plugged in (`JournalRuns.OneJournalIsEnoughIff`).
* **More than 32 distinct log lines lose counts.** When a full table forgets a line
  with suppressed copies, its next print does not report them. 33 lines are enough
  (`Dedup.OneKeyTooMany`). `Dedup.EveryLineIsAccounted` is the conservation law with
  that loss as a term of its own, `Dedup.DropsWhatIsForgotten` says exactly which call
  causes it.
* **`quote_arg` and `redact_addresses` push bytes as characters.** Text outside
  ASCII is encoded a second time. The round trip of a list of arguments and the
  idempotence of redaction hold exactly for ASCII
  (`Autostart.QuotedListRoundTrip`, `Redact.IdempotentIffAscii`).
* **`argv_of` does not see an argument made of backslashes only**, because a run of
  backslashes that no quote follows does not set `started`. So the verbatim address
  of the logon command survives exactly when it has no blank and no quote and some
  character that is not a backslash (`Autostart.TaskActionParsesIffRaw`). Every
  address the daemon accepts qualifies (`LogonAddress.AcceptedAddressIsRaw`).
* **The breaker's rate bound needs the cooldown**: it holds for every schedule of
  calls exactly when the cooldown is at least the window
  (`Breaker.RateBoundIffCooldown`); all five breakers of `state.rs` satisfy this.

## Model

| member | source | states |
|---|---|---|
| Backoff.BackoffMs | src/ladder.rs:10-24 | the connect backoff is 0, then the base doubled per further failure, capped; the doubled value never wraps |
| Backoff.RecoveryRetryDelayMs | src/ladder.rs:253-264 | the loop that stops at half the cap still computes the capped doubling from 5 s |
| Backoff.ToggleIntervalMs | src/connect_fsm.rs:162-174 | 15 s for the first two counts, then doubled up to 5 min |
| Backoff.ReenableWaitMs | src/connect_fsm.rs:143-157 | the settle time first, then capped doubling |
| Backoff.ProbeWaitMs | src/endpoint.rs:135-147 | capped doubling from 1 s to 5 s |
| Backoff.ToggleIntervalShape | src/connect_fsm.rs:159-174 | the interval never shrinks as failures grow and is exactly 5 min from the sixth on |
| Backoff.Schedules | src/connect_fsm.rs:143-174 | the four schedules in milliseconds, for every count |
| Numeric.CappedMonotone | src/ladder.rs:10-24 | every capped doubling is monotone in its counter and below its cap |
| Breaker.CircuitBreaker.TryAcquire | src/ladder.rs:53-70 | the in-place update is one step of the breaker function |
| Breaker.OneCall | src/ladder.rs:53-70 | with cooldown at least one window, every call spends its unit of what may still be allowed before any later time |
| Breaker.RateBound | src/ladder.rs:27-70 | k windows from any starting point see at most (k+1) times the limit, although windows tumble |
| Breaker.RateBoundIffCooldown | src/ladder.rs:27-70 | that bound holds for all schedules if and only if the cooldown is at least the window |
| Breaker.QuietCallersPass | src/ladder.rs:53-70 | a caller that makes no more than the limit of calls in any window is never refused |
| Text.QuoteArg | src/text.rs:21-54 | the loop over bytes prints the quoted form of the argument |
| Text.BytesIdentityIffAscii | src/text.rs:21-54 | bytes pushed as characters give the text back exactly for ASCII, and longer text otherwise |
| Text.CharBytesDecode | src/text.rs:21-22 | the byte view of a character is its UTF-8 form: lead byte, continuation bytes, and the code point back |
| Text.QuotingIsLocal | src/text.rs:18-54 | quoting adds two quotes, and one backslash exactly in front of each quote and of each backslash that a quote or the end follows |
| Autostart.ArgvOf | src/autostart_cmd.rs:66-123 | the index loop computes the character-by-character parser |
| Autostart.QuotedAppends | src/autostart_cmd.rs:66-123 | a quoted argument cannot break out: before any rest of the line, in any argument, it only appends its own bytes |
| Autostart.RenderParsesBack | src/autostart_cmd.rs:66-123 | parsing any printable command line returns exactly its words |
| Autostart.QuotedListRoundTrip | src/text.rs:18-54 | any list of quoted arguments comes back exactly when all are ASCII |
| Autostart.CreateCmdlineParses | src/autostart_cmd.rs:43-50 | the create command is eleven arguments, the whole action being one |
| Autostart.DeleteAndQueryParse | src/autostart_cmd.rs:52-58 | the delete and query commands parse and name the same task |
| Autostart.TaskActionParsesIffRaw | src/autostart_cmd.rs:27-41 | the action parses into exe, address and non-empty audio name exactly when the verbatim address is raw |
| Autostart.ActionArguments | src/autostart_cmd.rs:27-41 | for a raw address the audio name is the third argument, unless it is missing or empty |
| Autostart.NestedActionSurvives | src/autostart_cmd.rs:27-50 | both levels of quoting together give exe, address and audio back, for ASCII and a raw address |
| Mac.ParseMac | src/mac.rs:39-76 | accepts exactly plain or separated twelve-digit addresses, and the value fits 48 bits |
| Mac.ParseVerdict | src/mac.rs:39-76 | which text is an address, character by character, and which of the three errors any other text gets |
| Mac.FormatMac | src/mac.rs:84-96 | the buffer loop prints the digits with colons |
| Mac.MacHex12 | src/mac.rs:99-107 | the buffer holds the twelve lower-case digits |
| Mac.PrintedShape | src/mac.rs:84-107 | upper-case digits with colons between the pairs, and twelve lower-case digits |
| Mac.PrintedAddressParsesBack | src/mac.rs:39-107 | both printed forms of every 48-bit address parse back to it, zero being refused |
| Mac.AcceptedAddressNormalises | src/mac.rs:39-96 | printing what was parsed is the upper-case colon-separated form of the accepted text |
| LogonAddress.AcceptedAddressIsRaw | src/autostart_cmd.rs:27-41 | every accepted address may be pushed verbatim into the logon command |
| Redact.RedactAddresses | src/redact.rs:75-106 | the scanning loop computes the scan |
| Redact.RedactedIsClean | src/redact.rs:72-106 | no isolated dotted address and no run of twelve hex digits outside a GUID group is left, and no tag forms one with its neighbours |
| Redact.IdempotentIffAscii | src/redact.rs:75-106 | a second pass changes nothing exactly when the line was ASCII |
| Redact.OneDeviceOneTag | src/redact.rs:20-38 | the dotted and the plain spelling of an address get the same tag |
| Redact.TagSpells | src/redact.rs:20-27 | a tag is the low 16 bits of the digest in four lower-case digits |
| RedactLines.InALine | src/redact.rs:72-106 | masking is local: between text without hexadecimal digits or dots of its own, a middle part is masked as it is alone |
| RedactLines.SameLineEitherWay | src/redact.rs:20-106 | an address in a line leaves the same text, with the same tag, whether it is spelled with colons or as twelve digits |
| Dedup.Dedup.Decide | src/dedup.rs:73-112 | state changes pass untouched; otherwise exactly one slot changes and the answer follows from it |
| Dedup.Dedup.Find | src/dedup.rs:79-92 | finds the slot of a tracked key, or says that none tracks it |
| Dedup.Dedup.Oldest | src/dedup.rs:94-110 | the first of the least recently printed slots |
| Dedup.TrackedAnswer | src/dedup.rs:73-112 | a tracked key gets the unbounded map's answer |
| Dedup.AnswerAllowed | src/dedup.rs:73-112 | any answer is the map's, or a plain print of a key that a full table forgot |
| Dedup.UpdateKeepsMirror | src/dedup.rs:73-112 | every call keeps nonzero keys distinct and each slot equal to the history of its key |
| Dedup.FewKeysAgree | src/dedup.rs:73-112 | with at most 32 distinct keys every answer is the unbounded map's |
| Dedup.SuppressedWasJustPrinted | src/dedup.rs:73-112 | however many keys: a suppressed line was printed less than one window before |
| Dedup.ReportedCountIsExact | src/dedup.rs:73-112 | a reported count is the number of copies suppressed since that key's last print, saturated |
| Dedup.EveryLineIsAccounted | src/dedup.rs:73-112 | for any number of keys: each suppressed line was reported, is still pending, or was passed over by a plain print of its key |
| Dedup.NoLineIsLost | src/dedup.rs:73-112 | while at most 32 distinct keys are seen nothing is passed over: suppressed lines are the reported plus the pending ones |
| Dedup.OneKeyTooMany | src/dedup.rs:94-110 | the bound is sharp: from an empty table a run of 33 keys passes a suppressed line over |
| Dedup.DropsWhatIsForgotten | src/dedup.rs:73-112 | a call passes copies over exactly when no slot tracks its key any more, and then all of them |
| Dedup.OldestIsForgotten | src/dedup.rs:94-110 | a key drops out only when the table is full and a new one comes, and no key in the table was printed earlier |
| ConnectFsm.ReenableProfile | src/connect_fsm.rs:316-343 | the retry loop performs one of the allowed re-enable scripts and says whether the driver is back |
| ConnectFsm.ToggleProfile | src/connect_fsm.rs:247-308 | promise on disk first, then remove, then put back, on every answer |
| ConnectFsm.DriveConnect | src/connect_fsm.rs:192-243 | the pass over the profiles performs one of the allowed scripts and returns its result; `Answers` says what those results mean in return codes |
| ConnectFsm.ServiceIo.DebtArm | src/connect.rs:85-100 | a successful arming leaves the marker naming the profile |
| Answers.ConnectCourse | src/connect_fsm.rs:192-308 | the course of a pass in return codes: the profiles in order, each asked only behind codes that mean "already" or "not offered" or an error, and with toggling allowed the first 87 or 0x80070057 is followed by the arming of that profile |
| Answers.ConnectedIff | src/connect_fsm.rs:200-243 | Connected exactly if the last step is an enable that answered 0 and no toggle began |
| Answers.RefusedIff | src/connect_fsm.rs:200-243 | Refused exactly if toggling is not allowed, every code is 87, 0x80070057 or 1060, and one is not 1060 |
| Answers.NotFoundIff | src/connect_fsm.rs:200-243 | NotFound exactly if every code is 1060 |
| Answers.FailedIff | src/connect_fsm.rs:192-308 | Failed exactly if an enable answered any other code and nothing was toggled, or the arming or the removal failed |
| Answers.ToggledIff | src/connect_fsm.rs:247-308 | Inert, Reconnecting and ServiceDebt exactly by the code of the removal and the last code of the re-enable |
| Answers.PutBackIff | src/connect_fsm.rs:316-343 | a re-enable ends well exactly if its last code is 0, 87 or 0x80070057 |
| Debt.ConnectReceipts | src/connect_fsm.rs:192-343 | at most 12 calls and 19.9 s of waiting; toggled exactly on a removal, service_left_disabled exactly for ServiceDebt, no disable when toggling is not allowed |
| Debt.NotFoundMeansAbsent | src/connect_fsm.rs:192-243 | the verdict that feeds the peer-absent freeze comes exactly when all three profiles answered "not offered" |
| Debt.RunPass | src/worker.rs:496-513 | a pass reads the marker, repays, and connects only if nothing is owed any more |
| Debt.PassSafe | src/connect_fsm.rs:247-343 | a pass that reads the marker as it is, cut at any step, leaves each removed driver named on disk |
| Debt.CrashSafety | src/connect_fsm.rs:247-343 | the same over every run of passes with crashes and restarts anywhere |
| Debt.NeverOverwritten | src/worker.rs:496-513 | the marker is armed only while no profile is owed |
| Debt.SafeIffMarkerRead | src/connect.rs:110-117 | a pass is crash safe for all answers exactly when the marker was read faithfully, nothing is owed, or it may not toggle |
| Journal.PnpIo.JournalArm | src/pnp/recovery.rs:33-50 | a successful arming is on disk |
| Devnode.WaitDevnodeStarted | src/pnp/devnode.rs:135-147 | performs exactly one of the polls that end at the first STARTED or when the time is up |
| Devnode.WaitDevnodeDisabled | src/pnp/devnode.rs:150-162 | the same for the first disabled status |
| Devnode.EnableDevnodeVerified | src/pnp/devnode.rs:194-245 | performs exactly one script of rounds, both mechanisms in turn, ending in a STARTED observation or after five rounds |
| Devnode.RoundsLeads | src/pnp/devnode.rs:194-245 | a verified enable takes nothing down, leaves the journal alone, and its radio stops being at risk exactly if it succeeded |
| Devnode.Patience | src/pnp/devnode.rs:135-162 | a wait of k quarters of a second makes at most k + 1 queries, and all of them if it fails |
| Devnode.StopsAtOnce | src/pnp/devnode.rs:135-162 | a wait stops at the first query that shows what it waits for |
| Devnode.RoundTold | src/pnp/devnode.rs:194-245 | a round asks the first mechanism, and the second exactly if the wait behind the first did not end STARTED; each accepted call is waited for |
| Devnode.RoundsTold | src/pnp/devnode.rs:194-245 | up to five rounds, fewer only when the last one saw the radio STARTED |
| Journal.AuditMeans | src/pnp/cycle.rs:80-231 | the flag the methods maintain is crash safety of the whole trace |
| Journal.CrashSafeMeans | src/pnp/cycle.rs:80-231 | crash safety is safety after every prefix of the trace |
| UsbCycle.RestartPath | src/pnp/cycle.rs:88-130 | every verdict on the pnputil restart performs its script: the journal is removed exactly after a STARTED observation, and a dongle that refused is marked; `UsbCycle.OffIff` says which exit codes mean that |
| UsbCycle.DisableVerified | src/pnp/cycle.rs:132-167 | the two ways to disable with their waits; every early return removes the journal exactly if the last look found the target STARTED |
| UsbCycle.CycleArmed | src/pnp/cycle.rs:88-231 | from the armed journal on: restart, else disable and enable, in this order and with these exits |
| UsbCycle.CycleCsrRadioOnce | src/pnp/cycle.rs:38-231 | performs exactly one script of the first enumerated CSR radio, reports what it means, and touches nothing if the arming failed |
| UsbCycle.OffIff | src/pnp/cycle.rs:104-127 | a dongle is marked "never cycle again" exactly if pnputil ended with 3010, or with 0 in under a second; then nothing disables it and the cycle fails |
| UsbCycle.RoughIff | src/pnp/cycle.rs:88-227 | the dongle is disabled exactly if pnputil did not run or ended with neither 0 nor 3010 |
| UsbCycle.DisableTold | src/pnp/cycle.rs:132-167 | how often `CM_Disable_DevNode` is called, which calls are waited for, and when there is a last look, by acceptance and status bits |
| UsbCycle.OkIff | src/pnp/cycle.rs:88-231 | success in raw codes and status bits: a real restart seen STARTED, or a disable seen to take effect and an enable seen STARTED |
| UsbCycle.DisarmIff | src/pnp/cycle.rs:88-231 | the journal goes exactly if the last look found the dongle STARTED and that look was not behind exit code 3010 |
| UsbCycle.TargetIsCovered | src/pnp/cycle.rs:80-231 | wherever the process dies, the journal is on disk unless the target was seen STARTED since it was last taken down, whatever else is at risk |
| UsbCycle.SuccessIsObserved | src/pnp/cycle.rs:9-11 | a reported success means that the target was observed STARTED after all that was done to it |
| UsbCycle.NotUpKeepsJournal | src/pnp/cycle.rs:143-227 | an armed cycle whose last look does not find the target STARTED leaves the journal on disk, whatever was seen on the way |
| UsbCycle.CycleSafe | src/pnp/cycle.rs:80-231 | a script is crash safe up to its decision about the journal, and there exactly if it keeps it or no other radio was at risk |
| UsbCycle.AllCyclesSafeIff | src/pnp/cycle.rs:38-231 | all scripts from a world are crash safe if and only if no CSR radio is enumerated or no other than the first one is at risk |
| UsbCycle.CycleUncoversAnother | src/pnp/cycle.rs:103-114 | for any other radio at risk the code has a script that is safe until it removes the journal and leaves that radio uncovered |
| PortCycle.CycleCsrHubPortOnce | src/pnp/hub.rs:118-162 | performs exactly one script; success means that a port was cycled and a CSR radio found again |
| PortCycle.LooksTold | src/pnp/hub.rs:144-161 | the wait for the dongle ends at the first look that finds it, and gives up after 41 |
| PortCycle.PortSafe | src/pnp/hub.rs:118-162 | a script is crash safe up to its decision about the journal, and there exactly if it keeps it or nothing was at risk |
| PortCycle.AbsentDongleIsCovered | src/pnp/hub.rs:124-161 | a dongle that does not come back leaves the journal on disk |
| PortCycle.AllPortsSafeIff | src/pnp/hub.rs:118-162 | all scripts are crash safe if and only if no CSR radio is found or nothing is at risk |
| PortCycle.IdlePortForgets | src/pnp/hub.rs:133-141 | with anything at risk, the script that cycles no port is safe until it removes the journal and unsafe then |
| Recovery.RepairRadio | src/pnp/recovery.rs:128-157 | performs exactly one repair script of a radio; which radios are touched is `Recovery.TriedIff` |
| Recovery.RepairAll | src/pnp/recovery.rs:109-157 | every listed CSR radio gets its script in order; the counters say whether all are settled and whether any was needed |
| Recovery.TriedIff | src/pnp/recovery.rs:118-157 | an enable is attempted exactly if the first status is readable, not STARTED, and not problem 22 in a pass that does not own the disable |
| Recovery.VerbsTold | src/pnp/recovery.rs:128-157 | the pnputil verbs are tried exactly behind a verified enable that never saw the radio STARTED, the second exactly if the first did not help |
| Recovery.RecoverDisabledRadio | src/pnp/recovery.rs:87-188 | every pass performs exactly one of the scripts, reports its outcome, and removes the journal only if that script clears it |
| Recovery.ClearedMeansSettled | src/pnp/recovery.rs:109-188 | the journal is cleared exactly if a CSR radio is listed and each had an unreadable first status, was seen STARTED, or was disabled by somebody else -- in status bits, whether or not the journal was ours |
| Recovery.PassSafe | src/pnp/recovery.rs:87-188 | a script is crash safe up to its last step, and there exactly if it keeps the journal or saw every radio at risk STARTED |
| Recovery.AllPassesSafeIff | src/pnp/recovery.rs:87-188 | all scripts from a world are crash safe if and only if no CSR radio is listed, or every radio at risk is listed and readable and the journal was seen or not needed |
| Recovery.ReadablePassesSafeIff | src/pnp/recovery.rs:87-188 | with journal and statuses readable: if and only if no CSR radio is listed or every radio at risk is |
| Recovery.AnyPassesSafeIff | src/pnp/devnode.rs:125-132 | without any promise about statuses: if and only if no CSR radio is listed or nothing is at risk |
| Recovery.UnseenJournalSafeIff | src/pnp/recovery.rs:26-28 | an automatic pass that cannot see the journal: if and only if no CSR radio is listed or nothing is at risk |
| Recovery.SeenIsSafe | src/pnp/recovery.rs:109-157 | up to its decision a pass takes nothing down, and exactly the radios it saw STARTED stop being at risk |
| Recovery.PlainSightIsEnough | src/pnp/recovery.rs:87-188 | a script that lists and reads every radio at risk, and knows whose disable it is, is crash safe |
| Recovery.UnpluggedRadioIsForgotten | src/pnp/recovery.rs:159-188 | for any radio at risk that is not listed while another is, the code has a script that is safe until it removes the journal and unsafe then |
| Recovery.UnseenJournalForgets | src/pnp/recovery.rs:87-92 | the same for a radio that is listed and seen disabled while the journal file cannot be examined |
| JournalRuns.RunsAreSafe | src/pnp/cycle.rs:80-231 | over every run of cycles, port cycles and repair passes that meets the exact conditions, with crashes anywhere, each radio that may be down is covered |
| JournalRuns.OneJournalIsEnoughIff | src/pnp/recovery.rs:1-8 | on a machine with readable files and statuses every run from a clean start is safe if and only if at most one CSR radio is ever plugged in |
| JournalRuns.TwoAreTooMany | src/pnp/recovery.rs:159-188 | for any two radios, the run of two attempts that leaves the first one uncovered |
| Page.EnsureWsa | src/page.rs:40-52 | over the life of the process Winsock is started at most once, and is up exactly when it was |
| Page.ConnectOne | src/page.rs:123-171 | contact, silence or failure exactly as the Winsock answers say; the opened socket is handed out exactly when it is kept and really connected, and closed on every other path |
| Page.PageHold | src/page.rs:58-95 | the same for the page of the daemon, behind a Winsock that is up; a held socket is new and nothing else stays open |
| Page.OnlySuccessHolds | src/page_fsm.rs:52-69 | a refusal counts as contact but only code 0 leaves a socket to hold |
| Worker.MayToggle | src/connect_fsm.rs:176-184 | the toggle gate, with its interval computed by the loop |
| Worker.SharedState.constructor | src/state.rs:124-205 | the initial state |
| Worker.SharedState.BeginPass | src/worker.rs:482-494 | the down clock and the elevation comeback |
| Worker.SharedState.RepayDebt | src/worker.rs:496-513 | an unpaid driver debt ends the pass |
| Worker.SharedState.RepairRadio | src/worker.rs:515-575 | rung 0: retry delay, replug detector, repair flag and what a repair resets, as the transition function has it and `Guards.EntersIff` and `Conformance.RunObeys` pin it down |
| Worker.SharedState.RequestAudio | src/worker.rs:577-615 | the native audio request and the gates that leave a settling link alone |
| Worker.SharedState.PageFirst | src/worker.rs:616-643 | page cadence, and the new socket replacing the old hold |
| Worker.SharedState.PageScanRung | src/worker.rs:650-683 | R1 with arming, flap storm, mute and breaker |
| Worker.SharedState.EscalationFrozen | src/worker.rs:214-229 | the cached kill switch |
| Worker.SharedState.EarbudRung | src/worker.rs:685-710 | R3 with its forced, delayed refresh |
| Worker.SharedState.UsbRung | src/worker.rs:712-752 | R2 with its six gates, the breaker and the per-dongle off switch |
| Worker.SharedState.HubRung | src/worker.rs:754-788 | R4 |
| Worker.SharedState.MayConnect | src/worker.rs:791-800 | backoff window and storm breaker |
| Worker.SharedState.ConnectPass | src/worker.rs:802-899 | the toggle stamp, the inert stamp and the effect of every outcome |
| Worker.SharedState.RecoverLink | src/worker.rs:481-899 | the whole ladder takes the state exactly where the transition function takes it |
| Worker.SharedState.OnConnected | src/worker.rs:385-441 | readiness, flap hysteresis and closing the episode |
| Worker.SharedState.CloseHold | src/worker.rs:443-453 | the held socket is closed once and forgotten |
| Worker.SharedState.OnDisconnected | src/worker.rs:455-477 | a down link resets the streak and enters the ladder unless the watchdog tripped |
| Worker.SharedState.HandleFound | src/worker.rs:328-383 | the poll action, including the audio-dead detour through the ladder, as the transition function has it and `Guards.ConnectedPollIsSoft` and `Turns.TurnsAreTold` pin it down |
| Worker.SharedState.ResumeReset | src/worker.rs:43-65 | a resume clears the clocks and drops the hold |
| Worker.SharedState.DeviceEvent | src/worker.rs:66-108 | debounce, self-echo guard and unpark |
| Worker.SharedState.Loop | src/worker.rs:31-131 | any list of turns runs as the transition function says |
| Runs.EveryConnectPassIsPlausible | src/connect_fsm.rs:192-343 | what runs assume of a connect result holds of every connect pass |
| Protocol.AskedAtGate | src/worker.rs:649-800 | in a legal history a breaker is asked only behind its rung's open gate -- bare comparisons with the arming, the timers, the mutes and the freezes -- with the reading of the pass, and its answer is obeyed |
| Protocol.ActsAtGate | src/worker.rs:649-826 | a rung acts only right behind its granted question, its gate still open |
| Protocol.FreshStart | src/state.rs:124-205 | a fresh daemon waits for nothing: every gate without an arming is open, and every rung is closed until an episode is armed |
| Conformance.RunObeys | src/worker.rs:31-899 | every possible run obeys the protocol: each event was legal when it happened, each event an open gate owed has happened by the end of its turn, and the fields are the ones replayed from the history |
| Conformance.StepObeys | src/worker.rs:31-131 | every turn keeps this, whatever the outside world answers |
| Conformance.LaterIsLater | src/worker.rs:31-131 | whatever later turns log is stamped no earlier than their beginning |
| Turns.TurnsAreTold | src/worker.rs:31-477 | a turn logs only events with its own readings and answers, and exactly one resume or uncoalesced device event, one poll and one pass if it calls for them |
| Turns.HardwareOnlyWhenDown | src/worker.rs:328-383 | in every run a turn that escalates, runs a hardware rung or pages has a poll that found the transport not connected, and one whose watchdog tripped runs no pass |
| Courses.PassIsDetermined | src/worker.rs:481-899 | from any state a run may be in, whatever legal course shows the answers of a pass and owes nothing any more is the one `recover_link` takes |
| Episodes.AllTracked | src/worker.rs:649-790 | after every legal history the rung flags describe the current episode, and a rung in the episode keeps it armed |
| Episodes.OneCyclePerEpisode | src/worker.rs:712-752 | between any two usb-cycle attempts of a run an episode was closed, flap storms or not |
| Episodes.CycleAfterPageScan | src/worker.rs:659-752 | every usb-cycle comes after a page-scan attempt or mute of its episode |
| Episodes.HubCycleAfterVerifiedCycle | src/worker.rs:754-788 | every hub port cycle comes after the one verified usb-cycle of its episode, never after a failed one |
| Episodes.EpisodeFlagsAreArmed | src/worker.rs:649-790 | in every reachable state an episode flag implies that the episode is armed |
| Distances.AttemptsKeepTheirInterval | src/ladder.rs:97-152 | any two page-scan toggles of a run are 60 s apart, usb-cycles 2 min, hub port cycles 5 min |
| Distances.RungsWaitTheirTurn | src/worker.rs:649-790 | each of them comes 20 s, 45 s or 90 s after its episode first reached the rungs, sooner by at most 20 s and only after three ready polls |
| Distances.RestartsKeepTheirInterval | src/ladder.rs:154-180 | two earbud restarts are 90 s apart unless an episode was closed, a cycle worked or an inert stack asked for one in between |
| Distances.NoThirdRestart | src/ladder.rs:154-180 | ... and without one of these there is no third |
| Distances.RestartsHaveAReason | src/worker.rs:685-899 | an earbud restart comes at the time an inert stack or a cycle asked for, or 30 s after its episode first reached the rungs |
| Distances.CyclesWaitForRestarts | src/ladder.rs:182-190 | a usb-cycle comes at least 30 s after every restart of its episode that worked |
| Cadences.RepairFlagIsRemembered | src/worker.rs:541 | in every reachable state the repair flag is what the last repair pass saw of the journal |
| Cadences.NothingBeforeRepair | src/worker.rs:515-575 | whatever a run does behind rung 0 -- audio requests, pages, escalation, connects -- it does while the last repair pass left no journal |
| Cadences.RepairsKeepTheirInterval | src/worker.rs:515-521 | two repair passes are at least 5 s apart, whatever resets their backoff |
| Cadences.AcceptedAudioIsAwaited | src/worker.rs:583-595 | behind an accepted audio request nothing pages, escalates or connects until it is made again, the machine resumes or the episode closes |
| Cadences.PagesSettle | src/worker.rs:609-645 | for 3 s after an answered page nothing pages, escalates or connects |
| Cadences.PagesKeepTheirCadence | src/page_fsm.rs:30-44 | with no resume, unpark or closed episode in between two pages are 10 s apart |
| Cadences.RequestsKeepTheirCadence | src/worker.rs:583-590 | the same for audio requests |
| Verdicts.CountersAreVerdicts | src/worker.rs:834-899 | in every reachable state the absent streak and the failure count are the numbers of verdicts since what resets each |
| Verdicts.AbsentPeerFreezes | src/worker.rs:712-788 | no run cycles the dongle or its port behind five absent verdicts in a row |
| Verdicts.ConnectsKeepTheirBackoff | src/worker.rs:791-899 | no connect pass begins before the time last set by a debt, a repair, a page, a rung that worked or the last verdict, in milliseconds |
| Pacing.AllOnTime | src/worker.rs:66-108 | after every legal history the unpark, churn and toggle clocks are those of the history |
| Pacing.UnparksKeepTheirDistance | src/worker.rs:66-108 | any two unparks are 60 s apart, and none comes within 15 s after the end of a rewriting of the device tree |
| Pacing.TogglesKeepTheirInterval | src/worker.rs:802-826 | without a resume or unpark in between, a toggle starts at least the current interval after any earlier one finished |
| Absence.AbsenceIsBounded | src/worker.rs:802-826 | any stretch of a run without resume or ready poll re-installs drivers at most 8 times plus once per 50 s of that stretch, whatever device events arrive |
| Holds.RunOwned | src/worker.rs:443-453 | in every reachable state the open sockets are the held one and the stable counter is the ready streak |
| Holds.SocketsAreOwned | src/worker.rs:614-643 | at every moment no socket is closed twice or left open unheld; after every turn the open one is the held one |
| Holds.HoldsAreGivenUpInOrder | src/worker.rs:614-643 | over every run a socket is closed only right after a resume, a closed episode or the opening of its successor |
| Holds.PageReplacesHold | src/worker.rs:616-643 | a page is sent exactly on a link that is down and was not paged for 10 s; a refused or unanswered one stores nothing; a kept socket replaces the hold, closed only after the new one exists |
| Holds.EpisodesCloseOnThreeReadyPolls | src/worker.rs:385-441 | an episode is closed exactly after a poll that makes three ready ones in a row |
| Holds.NoClosingIsPending | src/worker.rs:385-441 | no turn ends between that poll and the closing |
| Rates.RunMetered | src/state.rs:124-205 | in every reachable state each breaker is the one that answered all questions so far, and every action was granted |
| Rates.RungsAreRateLimited | src/worker.rs:649-800 | k breaker windows of any run see at most (k+1) times the limit of page-scans, restarts, usb-cycles, port cycles or connect passes |
| Rates.EveryActionIsLicensed | src/worker.rs:649-832 | every rung's action and every driver toggle directly follows the granted question of its own pass |
| Guards.StoppedPassOnlyRepairs | src/worker.rs:496-575 | in every state: while a driver is owed, a radio was just repaired, or a journal was seen -- by this pass if a repair is due, by the last one otherwise -- the pass does nothing but that repair |
| Guards.BlockedPassActsNot | src/worker.rs:481-645 | in every state: a pass that rung 0 stops, or whose audio plays, was just accepted or has its grace, or whose page was answered or is settling, runs no rung and no toggle |
| Guards.EntersIff | src/worker.rs:481-646 | ... and nothing else stops it: a pass comes to the rungs exactly if none of these holds |
| Guards.ConnectedPassIsSoft | src/worker.rs:646-790 | no hardware rung and no page in a pass on a connected transport |
| Guards.ConnectedPollIsSoft | src/worker.rs:328-383 | ... nor in any poll that found the transport connected, the audio-dead detour included |
| Guards.TrippedPollOnlyCounts | src/worker.rs:359-381 | a poll whose watchdog tripped counts the link and does nothing else |
| Guards.FreezesHold | src/worker.rs:685-790 | the kill switch stops every devnode and dongle rung, five absent verdicts stop the dongle rungs |

## Left out

- `src/sys/*`, `src/bluetooth.rs`, `src/window.rs`, the COM code of `src/audio_connect.rs`: foreign calls, replaced by arbitrary answers.
- `src/audio.rs`: threads and driver polling; the ladder sees only the readings of `target_streaming` and the audio-dead sensor.
- `walk_hub_ports` of `src/pnp/hub.rs`, `src/pnp/restart.rs`: port walking and process spawning; each rung of the ladder is an arbitrary success or failure.
- Journal.CrashSafeMeans: a STARTED observation ends a radio's risk, which is the code's own criterion; a disable that was requested before it and takes effect after it is not tracked.
- PortCycle.AllPortsSafeIff: a radio whose port was cycled does not count as taken down, because nothing disables it; that it is found again, by a search that accepts any CSR radio, is all the code asks.
- JournalRuns.OneJournalIsEnoughIff: port cycles start without a journal; the ladder's own gate is a flag that rung 0 refreshes.
- `src/log.rs`, `src/output.rs`, `src/health.rs`, `src/modes/*`, `src/app.rs`, `src/autostart.rs`, `src/main.rs`: plumbing and reports; so are `stall_report`, the "logged once" flags and the wake counters.
- The paged-pool watchdog (`sample_watchdog`): its verdict is an input of every poll.
- Name and path redaction (`redact_names`, `redact_paths`): heuristics without a crisp specification.
- `hash` of `dedup.rs` and `tag` of `redact.rs`: any nonzero key and any 16-bit digest; two lines with the same hash are one key.
- `select_audio_device`, `ranked_formats`, the instance-ID matchers and the text search helpers: easy members.
- `SharedState`: fields are grouped into one record per layer and breakers are embedded by value; the object form of a breaker is `Breaker.CircuitBreaker`.
- Runs.Possible: a clock that goes back between two readings is outside the whole-run theorems, although the gates that handle it are modelled as written.
- Cadences.NothingBeforeRepair: speaks of the journal as the last repair pass saw it, since the flag is refreshed only then, not of the file at every instant.
- Debt.CrashSafety: one target device; the marker names a profile, not a device, as in the code.
- Breaker.CircuitBreaker.TryAcquire: the trip counter is unbounded instead of a `u32`; nothing reads it.
