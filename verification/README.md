# A verified model of the ws-server relay

ws-server relays JSON frames between WebSocket connections: clients join areas and channels, send to the
members of a room, and whisper to one another by identifier. This project models, in Dafny, the parts of the
server whose correctness spans several functions or several goroutines, and proves what they promise.

**The relay, as objects.** `RelayHub.dfy` holds the classes `Hub`, `Client` and `Counter` with the fields of the
Go structs and the loops of `server/hub.go`, `server/client.go` and `server/route.go`. `Hub.Valid()` says that the
two sides of the membership index agree, that no stored room is empty and that every member's queue is open. Each
method is proved against functions on values: `Membership.dfy` (the two indexes and the one relation between
clients and rooms that they stand for) and `Routes.dfy` (what a request answers and pushes).

**The relay, interleaved.** `RelaySystem.dfy` is a transition system: one read loop per connection with a program
counter, a writer that drains its queue, and the hub's read-write lock. A section under the write lock is one step
and needs that no broadcast is inside; a broadcast takes the read lock, offers its frame to one member per step in
any order, and releases. A run is any sequence of labels (`Exec`). Ghost histories record every push action of a
sender and every push at a queue with its fate: accepted, dropped because the queue was full, or refused because it
was closed. The theorems hold for every run:

- `RelayShape`: the inductive invariant. `RelaySafety`: isolation of rooms, the one push that can find a closed
  queue, limits, double counting, the directory as a bijection.
- `RelayHistory`, `RelayOrder`, `RelayDelivery`: nothing in a queue is lost but what was dropped when full; per-sender
  order; exactly one attempt per member; what can precede a welcome.
- `RelayPrecedence`, `RelayRequests`: order across senders; what one request comes to, whatever the others do.
- `RelaySchedules`: a request left alone is one schedule of the system and ends as the objects say. `RelayRuns`: runs
  that show what interleaving can do.

What requests do is defined once, by `Routes.Respond`. `Answers.dfy` says the same from the fields of the request and
of the frames, with every text and field written out; `RelayAnswers.dfy` says it of every run, and the methods of
`RelayHub.Client` promise it of every queue.

**The configuration.** `EnvFile.dfy` is the env file loader, `EnvText.dfy` what files as people write them do,
`AppConfig.dfy` the configuration built from them, `ConfigVariables.dfy` each variable by its name, and
`SavedConfig.dfy` the round trip of a configuration through a file. **Placeholders.** `Rebind.dfy` is the rewriting
of `?` to `$n` for PostgreSQL, with `Decimal.dfy` for numerals.

Some facts about the code that the proofs bring out:

- `unregister` does not clear the client's own sets. The two sides agree after a disconnect because `readPump`
  runs `leaveAll` first; after that the sweeps of `unregister` find nothing (`RelayShape.SweepOfNowhere`).
- A whisper's lookup and its push are separate. If the peer unregisters in between, the push meets a closed queue,
  which panics; the deferred teardown then runs, as `RelaySafety.RefusedExactly` says and `RelayRuns.WhisperIsRefused` shows.
- A registered client can receive a whisper before its welcome (`RelayRuns.WhisperBeforeWelcome`).
- `channel_kind` is not restricted to the documented four, so different channels can share a key
  (`Protocol.ChannelsCanCollide`); `Protocol.ChannelKeyCollision` says exactly when.
- A `?` followed by a digit is not recoverable after rewriting (`Rebind.RebindLosesDigit`); `Rebind.RebindRoundTrip`
  says exactly when the rewriting can be undone.
- The comment on `skippedOS` (config/load.go:15) speaks of keys that the system had already; the map also takes the
  keys that the file itself binds a second time (`EnvFile.SkippedWithoutSystem`). `EnvFile.SkippedExactly` says
  which keys it takes.
- The README of the server (README.md:129-134) puts the file above the defaults. A variable that the system sets to
  blanks still hides the file's value, and the default is used (`SavedConfig.BlankHidesFile`).
  `AppConfig.DocumentedOrder` says exactly when the documented order holds.
- A variable called `export` is valid, but a line that sets it off from its '=' by a space loses it
  (`EnvText.ExportIsMistaken`); `EnvText.ReadItem` shows that no other line that sets a valid variable is
  misread.
- Broadcasts share the read lock, so there is no order among senders whose broadcasts overlap: an answer can overtake
  what it answers (`RelayRuns.AnswerOvertakes`). What is complete before something else starts does come first
  everywhere (`RelayPrecedence.CompletedComesFirst`).

## Model

| member | source | states |
|---|---|---|
| Protocol.ChannelKeyCollision | server/hub.go:59-61 | two channels share a key if and only if they are equal, or one kind goes on past a ':' where the other stops and the ids absorb the difference |
| Protocol.ColonFreeKindsSeparate | README.md:325-330 | kinds without ':' (all documented ones) keep different channels apart |
| Protocol.ChannelsCanCollide | server/route.go:89-93 | since any kind is accepted, two different channels can be one room: a concrete pair |
| Protocol.IdsCollideEveryWord | server/client.go:62-63 | two connections get one identifier exactly when their numbers agree modulo 2^64 |
| Protocol.IdsDistinct | server/client.go:29 | the first 2^64 identifiers are distinct |
| Protocol.IdsAreSpelled | server/client.go:63 | connections are called "c1", "c2" and so on, in decimal |
| Decimal.ParseFormat | server/client.go:63 | a decimal numeral determines its number |
| Decimal.DigitsAreUsual | server/client.go:63 | the numerals are the usual decimal ones |
| Membership.JoinAgrees | server/hub.go:133-149 | a join that is admitted keeps the room index and the clients' own records one relation |
| Membership.LeaveAgrees | server/hub.go:168-178 | so does a leave, including when it empties the room and removes it |
| Membership.SweepAgrees | server/hub.go:323-332 | so does striking a client from all its rooms and clearing its record |
| Membership.UnregisterAgrees | server/hub.go:78-103 | and so does forgetting the client with its record altogether |
| Membership.AdmitExactly | server/hub.go:133-146 | while the limits hold, a client is let in if and only if they still hold with it inside, and otherwise the limit that would be exceeded is named |
| Membership.JoinKeepsLimits | server/hub.go:135-146 | an admitted join exceeds neither the number of rooms nor the number of members, if limited |
| Membership.LeavingInAnyOrder | server/hub.go:323-332 | leaving one's own rooms one by one, in any order, gives the same index as the sweep over every room |
| Membership.SweptTwice | server/hub.go:84-100 | a second sweep for the same client changes nothing |
| Membership.WithoutCommutes | server/hub.go:326-331 | the order in which two rooms are left does not matter |
| Membership.RelationDetermines | server/hub.go:13-25 | without empty rooms, the set of (room, client) pairs determines both indexes |
| Membership.ImageOf | server/hub.go:204-212 | a broadcast's recipients are the image of its room under the relation |
| Membership.JoinRelation | server/hub.go:126-150 | a successful join adds exactly the pair of room and client; a refused one adds none |
| Membership.LeaveRelation | server/hub.go:168-178 | a leave removes exactly that pair |
| Membership.SweepRelation | server/hub.go:84-100 | a disconnect removes exactly the pairs of its client |
| Membership.AgreeingTotals | server/hub.go:363-381 | the rooms' sizes add up to the number of rooms on the clients' records |
| Routes.QueueTakesInOrder | server/client.go:98-106 | a request's pushes leave a queue with what it held and then the frames offered to it, in the order of the plan, cut off at 256 |
| Answers.NamesExactly | server/route.go:67-93 | a request names a room by its scope, target and kind, unless its scope is neither "", "area" nor "channel" |
| Answers.LeaveIsAnswered | server/route.go:126-162 | from the fields of the request: its sender is out of the room on both sides and nothing else changes, it gets "left" and then the room gets "system" with event "left", every field of both frames given |
| Answers.ShortageExactly | server/hub.go:127-146 | while the limits hold, a join's error is "" if and only if its room is named and the limits would still hold; otherwise the text says what stands in the way |
| Answers.JoinIsAnswered | server/route.go:64-120 | from the fields and the limits: its sender is in the room on both sides and gets "joined", and then the room gets "system" with event "joined"; or nothing changes and the sender gets the error |
| Answers.SendIsAnswered | server/route.go:168-220 | from the fields: a member's message goes to the room and then back to it, every field of the frame given; a stranger gets the error and nothing else happens |
| Answers.WhisperIsAnswered | server/route.go:226-250 | from the fields: the whisper goes to the client registered under its "to" and then back to its sender, or the sender gets the error |
| Answers.OthersAreAnswered | server/route.go:27-32 | a ping is answered with "pong"; an unknown type, a bad scope or a missing target with an error |
| Answers.NamesAreGiven | server/route.go:43-58 | only a join names its sender, by a string or else by an object with a name |
| RelayHub.Counter.Add | server/client.go:29 | the counter is a 64-bit word, incremented before it is read |
| RelayHub.Client.constructor | server/client.go:62-77 | a new client has the next identifier, an open empty queue and no rooms |
| RelayHub.Client.TrySend | server/client.go:98-106 | enqueues the frame, or drops it when 256 are queued, or is refused by a closed queue; never waits |
| RelayHub.Client.ApplyNameFromPayload | server/route.go:43-58 | the payload sets the name if it is a non-empty string, else if it is an object with a non-empty name |
| RelayHub.Client.RouteInbound | server/route.go:13-33 | without interruption, a request leaves the rooms, the sender's record and name and every queue as the response function says |
| RelayHub.Client.RouteJoin | server/route.go:64-120 | as the fields and the limits say: it is in the room on both sides, its queue is offered "joined" and every other member's "system" with event "joined"; or only its own queue is offered an error |
| RelayHub.Client.RouteLeave | server/route.go:126-162 | it is out of the room on both sides, its queue is offered "left" and every member's left behind "system" with event "left", whether or not it was a member |
| RelayHub.Client.RouteSend | server/route.go:168-220 | every member of the room that the fields name is offered the message once, its sender included, with every field given; a stranger is only offered the error |
| RelayHub.Client.RouteWhisper | server/route.go:226-250 | the client registered under "to" is offered the whisper, and then its sender; or only the sender is offered the error |
| RelayHub.Hub.Register | server/hub.go:67-72 | enters the client under its identifier with no rooms |
| RelayHub.Hub.GetByID | server/hub.go:112-116 | finds a live client with an open queue, or none |
| RelayHub.Hub.Unregister | server/hub.go:78-103 | removes the entry of the client's identifier and the client's pairs and closes its queue, or does nothing if there is no entry; its own record is left alone |
| RelayHub.Hub.SweepAreas | server/hub.go:85-92 | the deleting loop, in any order, is the pointwise removal of the client and of the rooms it leaves empty |
| RelayHub.Hub.SweepChannels | server/hub.go:93-100 | the same for channels |
| RelayHub.Hub.JoinArea | server/hub.go:126-150 | while the limits hold it succeeds if and only if they still would; the room is created on the first join, both sides are updated, nothing changes on an error, and the error says what stands in the way |
| RelayHub.Hub.JoinAreaLocked | server/hub.go:130-149 | even without the index invariant: creating the room first never leaves an empty room behind an error |
| RelayHub.Hub.LeaveAreaLocked | server/hub.go:168-178 | removes the client, then the room if empty; an unknown area leaves the client's record alone |
| RelayHub.Hub.LeaveArea | server/hub.go:157-161 | removes the pair from both sides and keeps them in agreement |
| RelayHub.Hub.InArea | server/hub.go:188-193 | the client's own record answers as the hub's index would |
| RelayHub.Hub.BroadcastArea | server/hub.go:204-212 | offers to exactly the members but the excluded one, and counts those that had space |
| RelayHub.Hub.JoinChannel | server/hub.go:223-252 | as for areas, with kind and id both required |
| RelayHub.Hub.JoinChannelLocked | server/hub.go:232-251 | as for areas |
| RelayHub.Hub.LeaveChannelLocked | server/hub.go:271-281 | as for areas |
| RelayHub.Hub.LeaveChannel | server/hub.go:260-264 | as for areas |
| RelayHub.Hub.InChannel | server/hub.go:292-297 | as for areas |
| RelayHub.Hub.BroadcastChannel | server/hub.go:309-317 | as for areas |
| RelayHub.Hub.LeaveAll | server/hub.go:323-332 | ends with the client in no room on either side, whatever the order, and leaves other clients alone |
| RelayHub.Hub.LeaveAllAreas | server/hub.go:326-328 | the loop ends, since each turn shortens the record: the early return cannot happen |
| RelayHub.Hub.LeaveAllChannels | server/hub.go:329-331 | the same for channels |
| RelayHub.Hub.Disconnect | server/client.go:135-140 | leaveAll and then unregister amount to one sweep, with nothing left on either side and the queue closed |
| RelayHub.Hub.AreaCount | server/hub.go:363-367 | the number of members of the area |
| RelayHub.Hub.ChannelCount | server/hub.go:377-381 | the number of members of the channel |
| RelayHub.Deliver | server/hub.go:343-354 | offers the frame once to every member but the excluded one, in any order with the same outcome, and returns how many had space |
| RelayShape.RunsKeepShape | server/hub.go:13-25 | in every run: directory, two-sided index, closed queues and what each goroutine is about to do fit together |
| RelayShape.TwoSides | server/hub.go:147-148 | a client is in the hub's set for a room exactly when the room is in the client's own set |
| RelayShape.MembersAreOpen | server/hub.go:204-212 | a room member is registered and its queue is open |
| RelayShape.SweepOfNowhere | server/client.go:135-140 | after leaveAll, the sweeps in unregister change nothing |
| RelayShape.RegisterIsFresh | server/hub.go:67-71 | registering never overwrites another client's entry |
| RelayHistory.QueuesChange | server/client.go:98-106 | a step changes a queue only by the one push it makes, or by dequeuing |
| RelayHistory.RunsConserve | server/client.go:98-106 | in every run: accepted frames are those dequeued followed by those queued, at most 256 are queued, and a frame is dropped only when exactly 256 were |
| RelayHistory.AttemptsAccountedFor | server/client.go:98-106 | in every run, every frame pushed at a connection has been dequeued, is queued, was dropped or was refused: the counts add up |
| RelayOrder.RunsKeepOrder | server/client.go:148-157 | in every run a queue saw each sender's issues to it in order and once each, despite drops and concurrent broadcasts |
| RelayOrder.PerSenderFifo | server/hub.go:343-354 | what a client has dequeued from a sender is a subsequence of what the sender issued to it, in issue order |
| RelayOrder.IssuedToIsOrdered | server/route.go:13-33 | the reference list of issues is in issue order and holds exactly the issues that reached the recipient |
| RelayOrder.ExactlyOnce | server/hub.go:343-354 | an issue was pushed exactly once at everyone it reached and never at anyone else |
| RelayDelivery.SendAudience | server/route.go:195-197 | a message's broadcast is for the members at the moment it takes the lock, the sender among them |
| RelayDelivery.SendReachesEveryMemberOnce | server/route.go:184-215 | once its sender is past it, whatever it does since, a message has been pushed exactly once at each of those members, by the broadcast or the echo, and at nobody else |
| RelayDelivery.RunsKeepPrologue | server/server.go:127-151 | in every run only whispers to a client are pushed before its welcome, which is pushed once |
| RelaySafety.Isolation | server/route.go:184-215 | in every interleaving, when a message is pushed its receiver and its sender are both members of its room; notices and whispers go to their own addressees |
| RelaySafety.ChannelIsolation | server/route.go:199-215 | a channel message reaches only clients that joined by the same kind and target, or by ones whose key it shares past a ':'; between kinds without ':' only the former |
| RelaySafety.RefusedExactly | server/route.go:231-249 | a push meets a closed queue if and only if it is a whisper's push to a peer that has unregistered, and the sender's read loop then ends |
| RelaySafety.LookupFindsOnline | server/route.go:231-235 | the peer of a whisper was registered when it was looked up, under the identifier asked for |
| RelayAnswers.LeaveInRuns | server/route.go:126-162 | in every run, what `Answers` says of a leave is what its section does and plans |
| RelayAnswers.JoinInRuns | server/route.go:64-120 | in every run, a join succeeds if and only if it names a target and the limits would still hold, with the effects and frames that `Answers` gives |
| RelayAnswers.SendInRuns | server/route.go:168-220 | in every run, a member's message is planned for its room and for its sender, and a stranger's is refused |
| RelayAnswers.SendGoesOut | server/route.go:195-197 | and is then broadcast to every other member |
| RelayAnswers.WhisperInRuns | server/route.go:226-250 | in every run, a whisper is planned for the online client of that identifier and then for its sender, or refused if there is none |
| RelayAnswers.OthersInRuns | server/route.go:27-32 | in every run, the other requests change nothing and are answered with the one frame given |
| RelayAnswers.GarbageIsAnswered | server/client.go:169-181 | an idle connection can always read on; an unreadable message is answered with an error |
| RelayAnswers.WelcomeIsSpelled | server/server.go:131-148 | the welcome names the client and the server |
| RelaySafety.MembershipChanges | server/hub.go:126-178 | a step changes the relation only by the pairs of the client that takes it, and says which |
| RelaySafety.MembersCountTwice | server/hub.go:363-381 | in every run the sizes of the rooms and of the clients' records have equal sums |
| RelaySafety.RunsKeepLimits | server/hub.go:135-146 | in every run every positive limit holds and no stored room is empty |
| RelayRequests.RefusedJoinOnlyAnswers | server/route.go:70-73 | in every interleaving, a join that the hub refuses changes no room and no membership of its sender up to its end, and all it pushes is the error, at its sender |
| RelaySafety.DirectoryIsBijection | server/hub.go:67-84 | in every run the directory maps exactly the identifiers of the online connections to them |
| RelaySafety.EntriesAreOwn | server/hub.go:78-84 | the presence check in unregister is an identity check: the entry is the client's own, and its queue is closed only once |
| RelaySafety.GoneIsNowhere | server/client.go:135-140 | a connection that is not serving is in no room on either side |
| RelaySchedules.RequestLeftAlone | server/route.go:13-33 | if nobody else moves, a request in the interleaved system ends with the rooms, record and queues that the response function gives |
| RelaySchedules.DeliverAll | server/hub.go:343-354 | a broadcast can always run to its end, whatever the queues hold, offering its frame to each pending member |
| RelayPrecedence.CompletedComesFirst | server/hub.go:204-212 | in every run, an issue that is complete before another one starts stands before it in every queue, whoever sent them |
| RelayRuns.OrderIsPerSender | server/hub.go:204-212 | two broadcasts under the read lock that overlap can reach two receivers in opposite orders |
| RelayRuns.AnswerOvertakes | server/hub.go:343-354 | a run of four connections in one area in which a member answers a message it has dequeued, and another member gets the answer before the message |
| RelayRuns.PeerMayLeaveFirst | server/route.go:231-249 | in any state with a whisper to an idle peer pending, the peer can leave first and the push then fails and ends the sender |
| RelayRuns.WhisperIsRefused | server/route.go:231-249 | a run in which that happens |
| RelayRuns.WhisperBeforeWelcome | server/server.go:128-131 | a run in which a whisper is the first frame of a queue, before the welcome |
| RelayRequests.SelfWhisperIsTwice | server/route.go:248-249 | when a client whispers to itself, its own queue and history get the whisper twice |
| EnvFile.QuotedReads | config/load.go:144-151 | a value in double quotes loses just those two, whatever it holds, and keeps its inner spaces and quotes |
| EnvFile.Process.Setenv | config/load.go:75-77 | sets the variable, or fails on a NUL and changes nothing |
| EnvFile.Process.TakeLine | config/load.go:50-78 | a line passes, stops the load, is skipped because its key is set, or sets its key |
| EnvFile.Process.TakeLines | config/load.go:48-79 | lines are taken in order up to the first that stops the load; its error names it |
| EnvFile.Process.LoadFile | config/load.go:31-84 | the environment becomes the first bindings laid under what was there; fromFile is exactly what was added; an error at a line, a line too long for the scanner or a failed read keeps the lines before it |
| EnvFile.FirstWins | config/load.go:71-78 | a key gets the value of the first line that binds it, and is bound only if a line does |
| EnvFile.SourceIsFound | config/load.go:71-78 | after loading, every variable, bound or not, has the system's value, else the file's first binding before the stop, else none |
| EnvFile.LoadingAgain | config/load.go:31-84 | loading again changes nothing and gives the same error, while every key moves from fromFile to skippedOS |
| EnvFile.NamedKeys | config/load.go:71-78 | fromFile and skippedOS together hold exactly the keys that the file names |
| EnvFile.SkippedExactly | config/load.go:71-74 | a key is in skippedOS if and only if some line binds it when the system or an earlier line has it already |
| EnvFile.SkippedWithoutSystem | config/load.go:12-19 | the file "A=1", "A=2" on an empty environment: A is in skippedOS although the system never had it |
| EnvFile.PrintedScan | config/load.go:43-49 | the scanner takes a printed text to its lines, up to the first that fills its buffer of 1048576 bytes |
| EnvFile.ReadPrinted | config/load.go:50-70 | a line KEY="v" reads back as the key and the value, whatever characters the value holds |
| EnvText.ReadItem | config/load.go:50-70 | a line means what its writer meant, with any blanks, `export`, either quotes or none, and a byte order mark if it is the first; the one exception is a variable called `export` set off from its '=' by a space |
| EnvText.ExportIsMistaken | config/load.go:57 | "export =v" reads as an empty key, although `export` is a valid one |
| EnvText.SettingReads | config/load.go:57-70 | what a line with '=' binds, or which mistake is reported |
| EnvText.NoEqualsReads | config/load.go:58-61 | a line without '=' that is neither blank nor a remark is malformed |
| EnvText.QuotesGo | config/load.go:144-151 | either kind of quotes goes, and an unquoted value stays as it is |
| EnvText.TrimExactly | config/load.go:50 | the blanks around a text go and nothing else |
| EnvText.BlanksAreSpelled | config/load.go:50 | which characters are blanks |
| EnvText.BytesAreCounted | config/load.go:44 | how many bytes a character takes |
| EnvText.ValidKeysAreSpelled | config/load.go:160-175 | examples of keys that are valid and of ones that are not |
| EnvText.JoinedLines | config/load.go:43-49 | the scanner takes a text of lines apart again, whether or not the last ends with a newline |
| EnvText.EveryTextIsJoined | config/load.go:43-49 | and every text is the text of the lines that it is taken to |
| EnvText.CarriageReturnGoes | config/load.go:50 | a carriage return before the newline makes no difference |
| EnvText.FileLoads | config/load.go:31-84 | a file of such lines gives every variable the system's value or else the first that the file gives it, and leaves the others unset; it loads if and only if no value with a NUL would have to be set |
| EnvText.MalformedStops | config/load.go:58-70 | the first malformed line is reported by its number, counted from 1, and the lines before it have had their effect |
| EnvText.FailuresAreReported | config/load.go:37-82 | a load succeeds only if the file opens, is read to its end and has no line that is too long |
| EnvText.BareValueLoads | config/load.go:144-151 | KEY=v sets the variable to v |
| EnvText.SampleLineLoads | sample.env:6 | the first line of the sample file sets SERVER_NAME to ws-server |
| EnvFile.PrintedRoundTrip | config/load.go:43-70 | a printed file of valid keys and newline-free values reads back as those bindings in order if and only if every line fits in the scanner's buffer, and up to the first that does not otherwise |
| EnvFile.PrintedLoads | config/load.go:43-82 | loading it succeeds if and only if every line fits and no value with a NUL would have to be set |
| SavedConfig.AtoiExactly | config/load.go:130-133 | the texts read as an integer are exactly a fitting sign, any zeros and its numeral, and the integer fits in 64 bits |
| AppConfig.CollectExtra | config/config.go:169-181 | the two map loops, in any order, collect the unknown keys with the environment's values |
| AppConfig.SettledExactly | config/config.go:135-167 | reading the settings gives a configuration if and only if each is what its own variable or its default says, every integer is one, and the log's part is valid |
| ConfigVariables.EveryVariable | config/config.go:98-167 | a load that succeeds has each of the 19 fields from its own variable, by its literal name, or else its literal default |
| ConfigVariables.FileErrorsAreReported | config/config.go:126-133 | a load fails with the file's error if and only if the file does; without a path it leaves the environment alone |
| ConfigVariables.KnownKeysAreSpelled | config/config.go:22-46 | which names are known |
| ConfigVariables.AcceptableExactly | config/config.go:194-222 | which configurations pass validation, field by field; the same for the log |
| AppConfig.NotIntegerExactly | config/config.go:145-162 | a load reports a setting as not an integer if and only if the file loads and this is the first integer setting, in the order of reading, whose text is none |
| AppConfig.ValidationDecides | config/config.go:163-187 | once every setting reads, the log's first problem or else the configuration's first problem is what is reported, and without one the load succeeds |
| AppConfig.DocumentedOrder | README.md:129-134 | a setting follows the documented order if and only if the environment does not set it to blanks while the file's value reads as something else than the default |
| AppConfig.Load | config/config.go:126-188 | the environment and the configuration, or the error, are what the reference function gives |
| AppConfig.LoadsExactly | config/config.go:126-188 | loading gives a configuration if and only if the file loads, every setting is what its source or its default says, and validation passes |
| AppConfig.OnlyKnownKeysRead | config/config.go:22-46 | environments that agree on the known keys give the same settings, or the same error |
| AppConfig.ExtraIsUnknownNamed | config/config.go:169-181 | on success the extra entries are exactly the unknown keys that the file names, with their final values |
| AppConfig.LoadingConfigAgain | config/config.go:126-188 | a second load adds nothing to the environment and gives an equal configuration, or the same error |
| SavedConfig.AtoiFormat | config/load.go:125-135 | a printed integer reads back if and only if it fits in 64 bits |
| SavedConfig.LinesSpell | config/config.go:53-92 | every configuration can be written as bindings: its settings in any order and its extra keys |
| SavedConfig.SavedConfigLoads | config/config.go:126-222 | a configuration written to a file, in any order and with or without its defaults, loads back unchanged if and only if it is valid, loading leaves each setting alone, every line fits in the scanner's buffer and no value has a NUL |
| SavedConfig.BlankHidesFile | config/load.go:92-102 | SERVER_NAME set to a blank in the environment and to "x" in the file: the default is loaded, where the documented order gives "x" |
| Rebind.Rebind | logging/db.go:266-282 | for postgres the placeholders are numbered; any other driver's query is unchanged |
| Rebind.EachByteInPlace | logging/db.go:272-280 | wherever the query is cut, the k-th '?' becomes '$' and the numeral k, and any other byte stays |
| Rebind.ReadsBack | logging/db.go:266-282 | a lexer that takes the longest digits reads the text back with placeholders numbered in sequence |
| Rebind.RebindRoundTrip | logging/db.go:266-282 | the rewriting can be undone if and only if no digit directly follows a '$' or a '?' |
| Rebind.RebindLosesDigit | logging/db.go:272-280 | "?5" becomes "$15", which reads as parameter 15 |

## Left out

- Runs with more than 2^64 connections: identifiers then repeat (`Protocol.IdsRepeat`), and every theorem about runs that speaks of identity or membership assumes at most 2^64 connections were made.
- RelayHub.Client.RouteInbound: says nothing about the names that other clients show, or about the hooks run after a request; the hooks are identities.
- RelayHub.Client.RouteJoin: areas and channels are one case here, by the room that the request addresses; `Hub.JoinArea` and `Hub.JoinChannel` keep them apart.
- RelayHub.Hub.Register: the limits are not part of `Valid()`; `RelaySafety.RunsKeepLimits` and the lemmas of `Membership` state them.
- RelayHub.Client.TrySend: what follows a send on a closed queue is not part of the objects, whose other methods prove that it does not happen there; the transition system turns the panic in Go into the deferred teardown.
- RelayHub.Hub.Unregister: closing a queue twice is a run-time failure in Go; the method requires that the queue of a registered identifier's client is open.
- RelayHub.Client.ApplyNameFromPayload: what a payload decodes to, as a string and as an object with a name, is given with the payload.
- EnvFile.Process.LoadFile: the scanner is a function from the text to its lines; bytes that are not valid UTF-8 are not modelled.
- AppConfig.Load: Unicode lower-casing and the JSON reading of WEBHOOK_URL are parameters; `SetListenAddr`, `ExtraString`, `ExtraInt` and the two limit slices are not modelled.
- WebSocket input and output: the upgrade, deadlines, pings and message size; a connection's input is any sequence of messages, of unreadable messages and an end.
- The JSON codec and time stamps: a frame is an envelope value, a payload is its text with what it decodes to; the welcome's constant `protocol` object is omitted.
- Webhooks, extension logging, access and system logs, the health handler and the origin check: no effect on membership or delivery.
- A write section is one atomic step; writer preference in the read-write lock, fairness and scheduling are not modelled, only safety and the ends of loops.
- The writer may stop early when the socket fails; frames then stay in the queue, which every run here allows.
- `ClientCount`, name accessors and the SQL plumbing around `rebind`: easy members.
