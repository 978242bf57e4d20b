# A model of the Mubby firmware

Mubby is a voice client on an ESP32: press a button, speak, and hear the answer that a server sends back. This project
models the parts of its firmware that do not depend on the hardware, and proves what they promise.

| file | of the firmware |
|---|---|
| `CText`, `JsonString`, `JsonPrint` | C strings; the two-pass JSON string escaper of `main/json.c` and a reader for what it prints (section 7 of RFC 8259) |
| `JsonDocument` | printing JSON values, and a reader that undoes it (RFC 8259, whole numbers only) |
| `ScanList`, `ScanListLaws` | the in-place filter for scan lists, and what its result means |
| `ApListJson`, `ApListRoom`, `StatusJson` | the texts served at `/ap.json` and `/status.json`, the code that builds them, and which of them fit their buffers |
| `TcpStream` | opening and closing the connection to the server |
| `Session` | the four tasks of a voice session as a transition system; one step is one access to something shared |
| `SessionTokens`, `SessionOrder`, `SessionSafety` | what every run of it conserves; when there is one session at a time, and what follows |
| `SessionEnds`, `SessionCover`, `SessionRest`, `SessionHome`, `SessionStops` | every run ends, and where |
| `SessionOverlap`, `SessionJam` | what happens when sessions overlap |
| `SessionTrace` | what the buttons, the server and failures bring about |
| `SessionTasks` | the tasks as imperative code over the shared application context |
| `WifiLoop` | the Wi-Fi request loop, the HTTP task and the driver as a transition system |
| `WifiMutex`, `WifiRequests`, `WifiServed`, `WifiHonesty`, `WifiRegime`, `WifiRace`, `WifiStore`, `WifiStatus` | what holds on its runs |
| `WifiScans`, `WifiForget` | what comes of reading the access-point list, and of asking to forget the network |
| `WifiManager` | the functions of `main/wifi_manager.c` as imperative code, down to the octets of the two JSON buffers |
| `DnsMessage`, `DnsServer` | reading a DNS message (sections 4.1.1 to 4.1.4 of RFC 1035); the captive-portal answer |

How the pieces are tied together: code that changes arrays or fields is a method whose contract names a function of
its inputs or of the old state; what the firmware promises is proved about those functions. The tasks run concurrently,
so they are transition systems first; `SessionTasks` and `WifiManager` give the same code in its imperative form, and
lemmas there show that a stretch of it that nothing interrupts is a run of the transition system.

## Assumptions

- FreeRTOS queues, event groups and the mutex do what their documentation says; a blocking call waits, and goes on in
  one step. Memory never runs out, tasks can be created, and no call that the firmware would abort on fails.
- Events of one source are delivered in order; events of different sources in any order.
- The Wi-Fi event handler runs as one step. `esp_wifi_disconnect` posts one disconnect event whatever the link is;
  `esp_wifi_connect` replaces whatever link there was without an event of its own; the driver joins only when asked,
  and posts its events in order. Flash operations succeed, and each of save and remove is one step.
- The HTTP task serves one client at a time and starts after the buffers exist. A lock with a time limit may fail even
  when the mutex is free.
- Writing the configuration for a POST is one step, and so is reading it.
- The two JSON buffers are given with the memory behind them, because the code does not check that a text ends where its
  buffer does. The model says which octets are written; what else lived there it does not know.

## What turned out not to hold

- *One session at a time.* `cur_state` changes only when a mode is taken from the queue, so two presses in STANDBY start
  two sessions, and so does a failed `rec` write. `SessionSafety.RegimeIsExact` gives the exact condition,
  `SessionOverlap.OverlapHappens` a run with two recorders and a live socket that the stream no longer has;
  `SessionOverlap.SocketLostForGood` says that nothing ever closes it.
- *Every run ends in STANDBY.* A recorder waits for its stop request. With one session at a time the next request reaches
  it (`SessionHome.OrderlyRunsEnd`); otherwise it can be left behind at rest (`SessionOverlap.RecorderLeftBehind`), out
  of reach of every stop request until another press counts (`SessionOverlap.StrandedUntilPressed`).
  `SessionStops.StoppedRunsEndAtHome` gives the condition to look at beforehand: every run that is left alone ends at
  home or stuck exactly if there are stop requests for all recordings under way or sure to begin. While fewer than six
  sessions overlap it is necessary; it is always sufficient.
- *The queue always has room.* core_task can wait for itself (`SessionJam.JamHappens`), but only when presses and failed
  greetings are at least five more than the STANDBYs received (`SessionHome.JamNeedsSixSessions`); five are enough.
- *A published success belongs to its own attempt.* Not if a link is lost just before the loop disconnects by itself:
  `WifiRace.StaleSuccessHappens`. `WifiRegime.SuccessIffNoLossYet` gives the exact condition for either call of
  `esp_wifi_disconnect`; for failures too it is `WifiRegime.HonestIffNoLossYet`.
- *Every connect request is served.* Not if it comes when the handler is past its attempt:
  `WifiServed.LateConnectRequestIsLost`. The status and flash can then claim a network that was never tried:
  `WifiServed.UnservedHappens`.
- *A scan request stays until a scan completes.* Not if it comes between the scan and the end of its iteration:
  `WifiRequests.LateScanRequestIsLost`. `WifiScans.ListReadBringsScan` gives the exact condition for a read of the list.
- *Every DELETE is reported.* Not if it comes between the report of an earlier one and the end of its handler:
  `WifiForget.DeleteIsReported`. And the report is not the last word if an attempt is still to be made:
  `WifiForget.DeleteForgets`.
- *Flash holds the network that was connected with.* Not if a POST asks for another between `esp_wifi_set_config` and
  the flash write, or between wiping the configuration and saving it: `WifiStore.OverlapStoresThePost`,
  `WifiStore.BlankingStoresThePost`.
- *The access-point text is JSON.* Not for an empty list, whose text is a lone `[`: `ApListJson.ListReadsBack`.
- *99 octets hold any access point* (main/wifi_manager.h:137-145), *and the list its buffer.* Names that need many
  escapes make both too long: `ApListRoom.EstimateTooSmall`, `ApListRoom.ListOverruns`. `ApListRoom.OneApFits` and
  `ApListRoom.ListFits` give the exact conditions.
- *150 octets hold any status* (main/wifi_manager.h:147-152). Not if the name fills its field and runs on into the
  password, with nothing to escape in either: `StatusJson.FullCredentialsOverrun`. `StatusJson.StatusFits` gives the
  exact condition.
- *The status shows the name that was asked for.* Not if it fills its 32 octets and there is a password:
  `StatusJson.ShownNameExact`.
- *A DNS answer names the question.* Only if nothing follows the question in the query: `DnsServer.ResponseReadsBack`.
- *The DNS guard keeps every copy in its buffer* (main/dns_server.c:114-116). Not below 12 octets, nor at 80:
  `DnsServer.AnswerableIsExact`.

## Model

| member | source | states |
|---|---|---|
| JsonPrint.CountEscapes | main/json.c:62-76 | the counting pass gets the exact length of the escaped text, and zero extra exactly when there is nothing to escape |
| JsonPrint.WriteEscaped | main/json.c:94-137 | the writing pass leaves the escape of the whole C string and clobbers at most the one octet behind it that `sprintf` terminates into |
| JsonPrint.JsonPrintString | main/json.c:35-142 | either path leaves quote, escaped text, quote and terminator and touches nothing else; a null argument writes nothing |
| JsonString.ReadBack | main/json.c:93-139 | a reader of section 7 of RFC 8259 gets the original octets and stops exactly at the closing quote, whatever follows |
| JsonString.EscapeInjective | main/json.c:93-139 | two printed strings with anything behind them are equal only if the strings and what is behind them are |
| JsonString.EscapeIsPrintable | main/json.c:98-135 | no octet below 32 is printed; the text grows at most sixfold and never shrinks |
| JsonString.QuotedIsShortest | main/json.c:93-139 | no text that a reader takes for the same string is shorter than the one printed |
| JsonDocument.DocumentBack | main/wifi_manager.c:320-349 | every printed JSON value, nested to any depth, is read back as that value, with or without a final newline |
| ScanList.MergeDuplicates | main/wifi_manager.c:469-486 | the first pass leaves in every slot the first record of its network with the strongest signal, or a zeroed one |
| ScanList.LowestFree | main/wifi_manager.c:500-506 | the inner search finds the lowest unnamed slot |
| ScanList.MoveDown | main/wifi_manager.c:497-507 | one move keeps the shape: named records in order, free slots, the unvisited rest; the free slot moves up by one |
| ScanList.Compact | main/wifi_manager.c:487-510 | the second pass leaves exactly the named records in order, an unnamed tail, and their count |
| ScanList.FilterUnique | main/wifi_manager.c:461-511 | the two passes together leave the unique list in place, an unnamed tail, and nothing behind the count changed |
| ScanListLaws.UniqueCharacterised | main/wifi_manager.c:466-486 | the unique list is, in order, the first record of every named network, its own fields kept except for the strongest signal |
| ScanListLaws.MaxRssiIsMaximum | main/wifi_manager.c:480-481 | the signal shown is that of some record of the network and no record of it is stronger |
| ScanListLaws.UniqueKeysDiffer | main/wifi_manager.c:475-485 | no two records left have the same name and authentication mode, and all have a name |
| ScanListLaws.UniqueNetworks | main/wifi_manager.c:466-511 | no named network is lost or invented |
| ScanListLaws.UniqueShowsAll | main/wifi_manager.c:475-485 | every record with a name is shown by exactly one entry with its name and its authentication mode, whose signal is no weaker |
| ScanListLaws.UniqueShowsOnly | main/wifi_manager.c:475-486 | each entry has a name and is the first record with its name and mode, field by field, but for a signal that some record with both was received with |
| ScanListLaws.UniqueKeepsOrder | main/wifi_manager.c:487-510 | the entries are in the order of those first records |
| ScanListLaws.UniqueCount | main/wifi_manager.c:509-510 | the new count is the number of different named networks |
| ScanListLaws.UniqueIdempotent | main/wifi_manager.c:461-511 | filtering a filtered list changes nothing |
| ScanListLaws.UniqueOrderFree | main/wifi_manager.c:461-511 | scan lists that are permutations of each other show the same networks with the same signals |
| ApListJson.OneApIsObject | main/wifi_manager.c:334-346 | each entry is one JSON object with name, channel, signal and authentication, followed by its separator |
| ApListJson.ListReadsBack | main/wifi_manager.c:320-349 | a JSON reader gets exactly the listed names, channels, signals and modes in order, and gets nothing just for an empty list |
| ApListJson.EntriesRead | main/wifi_manager.c:334-346 | entry by entry, `ssid`, `chan`, `rssi` and `auth` are the record's own name, channel, signal and mode |
| ApListJson.ClearAccessPointsJson | main/wifi_manager.c:315-318 | before the first scan the text reads as an empty array |
| ApListRoom.OneApFits | main/wifi_manager.h:136-145 | 99 octets hold an entry if and only if the escaped name and the three numbers take at most 62 |
| ApListRoom.ListFits | main/wifi_manager.c:520 | the list and its terminator stay within the buffer if and only if 37 octets an entry and what its name and numbers take are at most 1487 |
| ApListRoom.OrdinaryListFits | main/wifi_manager.h:65 | which is so for 15 entries with a two-digit channel, a one-digit mode and at most 23 octets of escapes |
| ApListRoom.ListOverruns | main/wifi_manager.c:330-347 | fifteen different networks, none of which the filter merges, have a list that does not fit |
| ApListRoom.EstimateTooSmall | main/wifi_manager.h:139-145 | an entry with a name of 32 quotes is longer than 99 octets |
| ApListJson.GenerateAccessPointsJson | main/wifi_manager.c:320-349 | the loop of `strcat`, escaper and `snprintf` leaves that text as a C string and writes nothing behind it, wherever it ends |
| ApListJson.RefreshAccessPoints | main/wifi_manager.c:751-755 | after a scan, readers get one entry for each network with its strongest signal, and nothing behind the text is written |
| StatusJson.StatusReadsBack | main/wifi_manager.c:277-308 | a JSON reader gets the name, the three addresses and the reason code |
| StatusJson.ReportReadsBack | main/wifi_manager.c:281-308 | the served report reads as the configured name, the interface's addresses under their own keys exactly after a success, and the reason code |
| StatusJson.CredentialsExact | main/http_server.c:242-244 | both fields of the configuration hold what was posted and zeros behind it, so that they end where the texts do |
| StatusJson.ClearIpInfoJson | main/wifi_manager.c:266-269 | a cleared status reads as an empty object |
| StatusJson.ShownNameExact | main/wifi_manager.c:283 | the name shown is the one configured exactly when it leaves room for a terminator or no password is behind it |
| StatusJson.StatusFits | main/wifi_manager.h:147-152 | the buffer holds a status and its terminator if and only if the escaped name and the addresses take at most 100 octets |
| StatusJson.OrdinaryStatusFits | main/wifi_manager.h:147-152 | which is so for a name that ends in its field, with any addresses, if escaping adds at most 23 octets |
| StatusJson.FullCredentialsOverrun | main/http_server.c:240-244 | an accepted POST of 32 plain octets and 64 makes every success text longer than the buffer whose addresses take five octets or more |
| StatusJson.GenerateIpInfoJson | main/wifi_manager.c:272-312 | what the generator leaves is read as the name, under `ip`, `netmask` and `gw` the interface's own addresses after a success and "0" otherwise, and the reason code; it writes nothing but the buffer and the text |
| TcpStream.StreamContext.Open | main/tcp_stream.c:58-130 | the new state for each of the four outcomes, and the sockets balanced if and only if the stream was closed |
| TcpStream.StreamContext.Close | main/tcp_stream.c:132-150 | balanced sockets stay balanced, and none is live afterwards |
| TcpStream.OpenKeepsBalance | main/tcp_stream.c:107-129 | exactly its own socket stays live, for every outcome, if and only if the stream was closed before |
| SessionTokens.StepTokens | main/mubby_main.c:259-403 | no step of any task creates or loses a session except an accepted press, a failed greeting and a STANDBY received |
| SessionTokens.SessionsConserved | main/mubby_main.c:259-476 | on every interleaving sessions under way plus STANDBYs received are 1 plus accepted presses plus failed `rec` writes |
| SessionOrder.OrderlyStaysSingle | main/mubby_main.c:288-397 | every step of the regime keeps the invariant that fixes what may lie ahead, where core_task is and whether the stream is open |
| SessionSafety.RegimeIsExact | main/mubby_main.c:279-373 | a run never has two sessions if and only if every press that counts finds the queue empty and no `rec` write fails |
| SessionSafety.SessionsAreSafe | main/mubby_main.c:259-403 | in the regime: at most one recorder or player task, stream open whenever a task uses it and closed before connecting, sockets balanced, at most two modes queued, modes received in the order of whole sessions |
| SessionSafety.StopRequestsArrive | main/recorder.c:183-195 | in the regime a listening recorder or player always gets a stop request that is made, and goes on |
| SessionEnds.InternalDecreases | main/mubby_main.c:303-403 | every step of the firmware itself lowers a rank, on every interleaving, once no chat is to continue |
| SessionEnds.RunsEnd | main/mubby_main.c:259-403 | unless the server asks to go on, no run makes more steps of its own than the rank it starts from, 44 for each press that counts and 2 for each home press |
| SessionRest.RestIsExact | main/mubby_main.c:345-402 | the firmware can go no further exactly when all is done or core_task waits on a full queue |
| SessionCover.StepCovered | main/mubby_main.c:303-323 | every step keeps that from anywhere in what is still to be received there are no more starts than ends and tasks to report one |
| SessionHome.QueueBound | main/mubby_main.c:459 | the queue is never longer than twice the sessions that core_task has not in hand, however they overlap |
| SessionHome.JamNeedsSixSessions | main/mubby_main.c:51-54 | core_task waits on a queue only it could empty at no fewer than five presses and failures more than STANDBYs received |
| SessionHome.RunsEndInStandby | main/mubby_main.c:340-403 | a run can go no further if and only if it is in STANDBY with nothing alive and the stream closed, or recorders wait for stop requests, or it is stuck with six sessions |
| SessionHome.OrderlyRunsEnd | main/mubby_main.c:288-403 | in the regime it ends in STANDBY with nothing alive and the stream closed, or with one recorder that the next stop request reaches |
| SessionStops.StoppedRunsEndAtHome | main/recorder.c:92-119 | from any reachable state with no chat and fewer than six sessions overlapping, all runs left alone end there or stuck if and only if the stop requests made, or sure to be, are as many as the recordings under way or sure to begin; with more sessions they are enough |
| SessionRest.RestIsReached | main/mubby_main.c:259-403 | from every state without a chat some run of the firmware's own steps leads to rest, within the rank |
| SessionOverlap.OverlapHappens | main/mubby_main.c:282-286 | two presses in STANDBY lead to two recorders with a live socket that the stream no longer has; and a stop request can miss one recorder while the other is stopping |
| SessionOverlap.SocketLostForGood | main/tcp_stream.c:107-150 | whatever is done afterwards, such a socket is never closed and the stream never has it again |
| SessionOverlap.RecorderLeftBehind | main/recorder.c:183-195 | a run at rest with a recorder that waits and `is_running` clear |
| SessionOverlap.StrandedUntilPressed | main/recorder.c:183-195 | no stop request, however often it is made, reaches that recorder until a press counts or a chat goes on |
| SessionJam.JamHappens | main/mubby_main.c:357-361 | six presses in STANDBY lead to a run stuck on a full queue |
| SessionTrace.RecordingNeedsContact | main/mubby_main.c:355-374 | on every run `rec` is written only to a server that the same CONNECTING has connected and authenticated, and a recorder is started only after that write |
| SessionTrace.ResetsAnswerFailures | main/mubby_main.c:357-373 | on every run the RESETs received and to come are as many as failed connections, authentications and `rec` writes |
| SessionTrace.ReleaseCounts | main/mubby_main.c:280-287 | on every run a release leads to a CONNECTING if and only if the button's last event was a press and the last mode received STANDBY; the end of a playback does if and only if the server's last word was to go on |
| SessionTrace.HomeReachesRecorder | main/mubby_main.c:294-297 | after the home button in RECORDING a listening recorder finds a stop request, whatever else happens meanwhile |
| SessionTrace.HomeReachesPlayer | main/mubby_main.c:291-293 | so does a listening player in PLAYING, before its data ends |
| SessionTrace.StopEndsTheSession | main/mubby_main.c:288-402 | in the regime a run left alone after the home button in RECORDING, or after the server's stop, ends in STANDBY with nothing alive and the stream closed |
| SessionTrace.WholeSessionHappens | main/mubby_main.c:345-402 | a run through all modes of a session, after which CONNECTING is received if the server said to go on and STANDBY if not |
| SessionTasks.CoreRoundIsRun | main/mubby_main.c:344-402 | a round of core_task, for every mode and every network outcome, is a run of its atomic steps |
| SessionTasks.AppContext.CoreTaskRound | main/mubby_main.c:344-402 | the imperative round leads where that run does; it keeps the invariant of all runs, and a single session single unless the greeting fails |
| SessionTasks.AppContext.HandleConnecting | main/mubby_main.c:357-374 | which of reset and recorder start a connection leads to: both after a failed greeting |
| SessionTasks.AppContext.RecorderTaskStep | main/recorder.c:76-119 | each step of a recorder task keeps the invariant of all runs, and a single session single |
| SessionTasks.AppContext.PlayerTaskStep | main/player.c:86-150 | so does each step of a player task, stopped or at the end of its data |
| SessionTasks.AppContext.FinishStartUp | main/mubby_main.c:476 | so does the start-up push |
| SessionTasks.MonitorRoundIsRun | main/mubby_main.c:268-337 | a round of event_monitor_task, for every event, is a run of its atomic steps |
| SessionTasks.AppContext.EventMonitorRound | main/mubby_main.c:268-337 | so does this round, and a single session stays single unless a press counts with something queued |
| WifiMutex.ReadersSeeWholeTexts | main/http_server.c:191-224 | on every interleaving a client reads a buffer only under the mutex and never one that is half written |
| WifiMutex.ClientsAreServed | main/http_server.c:189-246 | between requests a DELETE, and a POST with a name of at most 32 octets and a password of at most 64, is always taken up, and a read gets the text as it stands if and only if the manager is not writing one |
| WifiMutex.OnlyTheHolderWrites | main/wifi_manager.c:657-759 | a buffer changes only by a step of the task that holds the mutex |
| WifiMutex.MutexComesFree | main/wifi_manager.c:657-730 | whoever holds the mutex is never blocked and gives it back after at most five steps of its own |
| WifiRequests.RequestsDrain | main/wifi_manager.c:631-763 | without new requests the iterations begun and those still needed add up, and two are enough for any combination |
| WifiRequests.ScanRequestStays | main/wifi_manager.c:744-762 | a scan request raised outside the scan branch stays until a scan is begun after it |
| WifiRequests.LateScanRequestIsLost | main/wifi_manager.c:748-761 | one raised between the scan and the end of its iteration is lost: on no continuation without another request is a scan made, and the end of the iteration clears the bit |
| WifiScans.ListReadBringsScan | main/http_server.c:189-203 | a read of the list, answered or refused, leads to a scan on every run that can go no further, if and only if its request was not made between a scan and the end of its iteration; such runs are bounded |
| WifiScans.ReadersSeeTheLastScan | main/wifi_manager.c:747-759 | whoever reads the list gets an empty array before the first scan, and from then on the networks of the last scan that obtained the mutex |
| WifiRequests.NeverStuck | main/wifi_manager.c:634-693 | whatever the loop waits for has come or is on its way; some step needing no client is always possible until all is done |
| WifiRequests.EverythingGetsDone | main/wifi_manager.c:631-763 | on every run from start-up, once clients are quiet, all request bits are clear and the loop waits after a bounded number of steps |
| WifiServed.ConnectRequestStays | main/wifi_manager.c:671-743 | a connect request stays until an attempt begins after it, unless the handler was past its attempt when it came |
| WifiServed.LateConnectRequestIsLost | main/wifi_manager.c:693-743 | in that case no attempt is ever made without another POST |
| WifiServed.AttemptIsDestined | main/wifi_manager.c:646-687 | otherwise exactly one attempt comes of it, with a configuration fixed when it is raised: the POST's, unless a disconnect handler has still to wipe it or the driver has been configured |
| WifiServed.UnservedHappens | main/http_server.c:240-246 | a run that ends with everything done, success reported and saved for a network that was never tried |
| WifiHonesty.CalmRunsAreHonest | main/wifi_manager.c:635-729 | on every calm run each verdict, success or failure, rests on an event of its own attempt |
| WifiRegime.HonestIffNoLossYet | main/wifi_manager.c:635-693 | for the call of `esp_wifi_disconnect` in either handler, the next attempt is judged, as a success or a failure, on an event of its own on every calm continuation if and only if the link was not lost between clearing the bit and the call, or the same iteration disconnects again |
| WifiRegime.SuccessIffNoLossYet | main/wifi_manager.c:635-708 | exactly then is every success on every calm continuation the success of its own attempt; otherwise one leads to the success of another attempt |
| WifiRegime.ClearingForgetsLosses | main/wifi_manager.c:640-641 | losses handled before the bit is cleared do not matter: seen from there the call is harmless, if it comes next, exactly when no loss is on its way |
| WifiRegime.SteadyIsHonest | main/wifi_manager.c:671-729 | from wherever a calm run has led, the next attempt is judged honestly on every calm continuation |
| WifiRace.StaleSuccessHappens | main/wifi_manager.c:675-708 | a run from start-up on which the third attempt is published as a success on the event of the second |
| WifiStore.RestartAsksForTheLast | main/wifi_manager.c:197-263 | restarted at any moment it asks for a connection exactly when the last handler to reach flash had connected to a named network, with that name and password, if no POST changed a configuration still to be saved |
| WifiStore.CredentialsKept | main/http_server.c:240-246 | accepted credentials survive flash and restart octet for octet, with zeros behind them |
| WifiStore.OverlapStoresThePost | main/http_server.c:241-244 | a POST between configuring the driver and the flash write makes flash right if and only if it asks for the same network |
| WifiStore.BlankingStoresThePost | main/wifi_manager.c:649-654 | a POST between wiping and saving leaves flash blank if and only if it asks for nothing |
| WifiStore.OverlapStoresAnother | main/wifi_manager.c:703-712 | a run from start-up on which flash is wrong |
| WifiStatus.StatusWaitsForItsOwnVerdict | main/wifi_manager.c:671-743 | after a POST every status read is an empty object until a verdict is published, and the first to be published is on the attempt that this POST brings about, whatever else is posted meanwhile |
| WifiStatus.VerdictNamesTheLastPost | main/wifi_manager.c:700-720 | that verdict is shown with the credentials of the POST if and only if the last POST before it asked for the same |
| WifiStatus.AnswerStays | main/wifi_manager.c:700-743 | it stays as it is, and no other is published, until a client asks for something else; after a failure the configuration is wiped |
| WifiStatus.VerdictComes | main/wifi_manager.c:631-743 | once clients are quiet the run can make only a bounded number of steps, and none that can go no further is without that verdict |
| WifiStatus.FailureNamesTheNetwork | main/wifi_manager.c:716-722 | a failure reads as the attempted name and reason 1, exactly when the name leaves room or the password is empty |
| WifiStatus.SuccessShowsTheInterface | main/wifi_manager.c:286-300 | a success reads as the name, the interface's own address, netmask and gateway under their own keys, and reason 0 |
| WifiStatus.DisconnectionNamesNothing | main/wifi_manager.c:648-659 | a disconnection asked for reads as an empty name and reason 2 if no POST comes between wiping and reporting |
| WifiStatus.DisconnectionNamesThePost | main/wifi_manager.c:650-658 | if one comes anywhere between them, it reads so if and only if the POST's name shows as nothing |
| WifiForget.DeleteIsReported | main/http_server.c:225-229 | on every run that can go no further a disconnection has been reported after a DELETE, if and only if it did not come between the report of another and the end of its handler; such runs are bounded |
| WifiForget.DeleteForgets | main/wifi_manager.c:634-668 | after a DELETE before the configuration is wiped flash asks for no connection; the disconnection is the last verdict if and only if no attempt was still to be made, and the status then reads as no name and reason 2 |
| WifiForget.DeleteCutsTheLink | main/wifi_manager.c:635-645 | and on calm runs the link is then down, with no event outstanding |
| WifiForget.ForgottenHappens | main/wifi_manager.c:634-668 | a run from start-up on which a network is joined and forgotten |
| WifiManager.Station.constructor | main/wifi_manager.c:513-552 | start-up leaves texts that read as an empty object and an empty array, and requests a connection exactly when flash holds a named network |
| WifiManager.Station.DeliverEvent | main/wifi_manager.c:377-409 | handling the next event keeps the link, the events outstanding and the two bits in the agreement that calm runs rest on |
| WifiManager.Station.ForgetNetwork | main/wifi_manager.c:646-668 | the disconnect handler's effect on bits, configuration, flash and the octets of the status buffer, which then reads as no name, no addresses and reason 2; behind it nothing is written |
| WifiManager.Station.StartAttempt | main/wifi_manager.c:684-687 | the driver gets the configuration as it is when the attempt starts |
| WifiManager.Station.PublishVerdict | main/wifi_manager.c:695-743 | the connect handler's effect, for success and failure: the status reads as the name before the configuration is wiped, the interface's addresses or none, and reason 0 or 1, and no octet behind the buffer is written unless the text is too long for it |
| WifiManager.Station.RefreshList | main/wifi_manager.c:744-762 | the scan branch leaves a text that reads as the unique list, or the old one without the mutex, and writes behind the buffer only if the text is too long for it |
| WifiManager.Station.PostConnect | main/http_server.c:240-246 | an accepted POST writes both texts with zeros behind them, leaves a status that reads as an empty object and raises the request |
| WifiManager.ForgetRoundIsRun | main/wifi_manager.c:646-668 | the disconnect handler's stretch is a run of the transition system |
| WifiManager.ConnectRoundIsRun | main/wifi_manager.c:684-687 | so is the stretch that starts an attempt |
| WifiManager.VerdictRoundIsRun | main/wifi_manager.c:693-743 | so is the connect handler's stretch after its wait |
| WifiManager.ScanRoundIsRun | main/wifi_manager.c:744-762 | so is the scan branch, whether or not it gets the mutex |
| WifiManager.PostRoundIsRun | main/http_server.c:240-246 | so is an accepted POST |
| DnsServer.BuildResponse | main/dns_server.c:114-156 | for every query the guard admits: with a whole header, the array code leaves the answer octet for octet and changes the query only where the log line needs it, and the octet behind a query of 80; without one there is no answer |
| DnsServer.AnswerableIsExact | main/dns_server.c:114-135 | of the sizes the guard admits, exactly 12 to 79 keep every copy and store in its buffer |
| DnsServer.MakeLegible | main/dns_server.c:140-143 | the in-place loop replaces illegible octets up to the first zero octet and nothing else |
| DnsServer.ResponseHeader | main/dns_server.c:121-131 | a resolver reads the query's identifier and counts, an authoritative answer, and no other sections |
| DnsServer.ResponseReadsBack | main/dns_server.c:116-154 | for one question with a plain name the answer parses as that question and one address record for its name if and only if nothing follows the question |

## Left out

- TLS in `main/tcp_stream.c`, sockets, lwIP and MQTT transport: foreign code; the server appears as arbitrary changes of
  `cnt_chat` and arbitrary stop requests.
- The audio pipeline, codec, I2S and MP3 decoding: hardware libraries; a recorder or player task is its phases, its
  notices and its stop requests. A stop request is a counter that a listening task takes one from.
- `main/vad.c`: not wired in.
- Routing of HTTP requests, header extraction, volume control, set-up of soft-AP, DHCP and mDNS: settled by one function
  each.
- `wifi_manager_destroy`: nothing calls it.
- Fields of an access-point record that the firmware never reads: one integer stands for all of them.
- The JSON reader refuses surrogate escapes, fractions and exponents, none of which the firmware prints.
- The `end` that the MQTT handler writes to the stream without looking whether it is open (main/mubby_main.c:101).
- SessionStops.StoppedRunsEndAtHome: does not say when runs end at home with six or more sessions overlapping and fewer
  stop requests than recordings, because then a run may also end stuck.
- WifiStore.RestartAsksForTheLast: takes each flash write as one step.
- WifiStatus.StatusWaitsForItsOwnVerdict: for a POST that arrives while no handler is under way and no connection or
  disconnection is asked for yet, with no DELETE later; `WifiServed.UnservedHappens` shows what may be reported otherwise.
- WifiStatus.VerdictNamesTheLastPost: as for `StatusWaitsForItsOwnVerdict`.
- WifiStatus.VerdictComes: as for `StatusWaitsForItsOwnVerdict`.
- ApListJson.GenerateAccessPointsJson: the memory it is given must not end before the text does; where the original writes
  behind the buffer, what becomes of the variables there is not modelled.
- ApListJson.RefreshAccessPoints: as for `GenerateAccessPointsJson`.
- StatusJson.GenerateIpInfoJson: as for `GenerateAccessPointsJson`.
- WifiManager.Station.PublishVerdict: as for `GenerateAccessPointsJson`.
- WifiManager.Station.RefreshList: as for `GenerateAccessPointsJson`.
- DnsServer.BuildResponse: for a query of less than 12 octets it stops where the original begins to copy about four
  gigabytes, of which nothing can be said.
- Log lines, and return codes that no caller looks at.
