# scotmesh-chat, verified

A Dafny model of scotmesh-chat, a chat hub for Reticulum networks. The hub
handles one request at a time; RRC links and an LXMF group sit around it. The
project models the parts where the rules span many operations and proves what
they add up to over every run.

How to read it: `X.dfy` has the operations of a component, `XRuns.dfy` the
state machine over them and the theorems about every run, `XStory.dfy` concrete
runs of it, step by step, in which something goes wrong. `dafny verify
dfyconfig.toml` checks everything.

* **LXMF delivery** (`Delivery`, `DeliveryRuns`, `Outcomes`, `Pruning`, `Split`,
  `SplitRules`, `Utf8`): one scheduler and a pool of senders share the in-flight and finished tables over a queue
  read in snapshots. `Run` interleaves them freely. No stale row is dispatched,
  no key is in flight twice, and the parts of a message go out once each, in
  order, over any failures and retries. `Outcomes` says why a row is final, when
  one is due again and how often it has failed, in every run.
* **RRC sessions** (`Sessions`, `SessionRuns`, `SessionAnswers`, `HandOffs`,
  `SessionStory`, `Presence`): HELLO, JOIN with held messages, fan-out, PART and
  close, each in several steps that interleave with the hub and the fan-out.
  From the beginning of a JOIN on each message reaches the link exactly once, by
  the replay or after it, or is counted as dropped, and the hub's link counts
  are exactly the links.
* **The hub** (`Hub`, `HubServer`): rooms, presence, cursors, the LXMF group,
  posting and removal, as transactions whose in-memory changes and events follow
  the commit. On it: events tell presence and announce each change once
  (`PresenceRuns`, `Announcements`); nothing is stored twice and each request
  does all of what it is for and no more (`Posting`, `Requests`); catch-up leaves
  no gap, and repeats something under an exact condition (`CatchUps`,
  `CatchUpRuns`, `Replays`, `Repeats`, `CatchUpStory`); bans hold and removals are
  complete (`BanRuns`).
* **Pauses** (`Pausing`, `PauseSteps`, `SilentSteps`, `PauseRuns`, `LowCursors`,
  `PauseStory`, `DeletionStory`): whether a resume note counts what was stored
  since the pause began. Every kind of step has its exact condition; in runs of steps that meet
  theirs when they come, all notes are right.
* **People** (`People`, `PeopleLaws`, `Moves`, `TearApart`, `Names`, `NameRules`,
  `Ranks`, `Links`, `LinkServer`, `LinkRuns`, `LinkCodes`, `CodeOrigins`, `Powers`,
  `Commands`, `LinkStory`, `RankRuns`): identities grouped into persons, names
  by skeleton, one-time link codes, ranks, kicks and bans.
* **Limits** (`Limits`, `LimitRuns`, `LimitAnswers`): token buckets, cooldowns,
  sliding windows, and the clean-up of their tables, which no answer ever shows.
  Every answer is told from the earlier ones alone.
* **Frames** (`Cbor`, `Envelope`, `FrameText`, `Frames`, `FrameReads`): the
  envelope codec and the splitting of a message into frames that fit the link and
  can be read back.

Tables are maps and sets. Where the source updates something in place there is
a class whose methods are proved against functions of the old state; the
theorems are about those functions. Sending, hashing, random codes, the clock
and the rules of a single room (keys, invites, moderation) are parameters of a
step, so every outcome is covered. A list that the database would return (a
person's apps, new row numbers, the seats to clear) is a parameter too, and a
step with any other list does nothing.

Assumptions, as the source relies on them: transactions are atomic and run one
at a time, the clock does not go back, recording a delivery succeeds, and
deleting a person cascades to its codes and ignores. Three more are the model's
own. In the delivery and session models a message id is never given twice; the
hub model has no such assumption, and the first finding is about it. Tokens in
the buckets are real numbers where the source has float64. And the delivery
machine has no process restart: a crash between a send and its record makes the
next process send that part again.

## Findings

* `messages.id` is an `INTEGER PRIMARY KEY` without `AUTOINCREMENT`
  (internal/store/migrations/0001_init.sql), so deleting or pruning the newest
  message makes its id come up again, and cursors, which never move back, then
  skip a message. `CatchUpStory.ReuseSkips` is a run in which it happens,
  `CatchUpRuns.ShownIffAbove` says exactly when, and `CatchUpRuns.IdsNeverReused`
  that it cannot happen while deletions keep the newest message. Pause cursors
  have the same trouble. Deleting is always harmless in itself
  (`SilentSteps.DeleteAccounted`), but a group message stored later goes uncounted
  exactly when its id is not above a paused member's cursor (`PauseSteps.SayIff`),
  and the note then falls short by exactly those messages
  (`SilentSteps.ShortAfterDeletion`). `DeletionStory.DeletionLosesTheNote` has, for
  every n, a run in which n messages of a pause are never mentioned, and
  `LowCursors.SayingIsQuiet` shows that this too needs the newest message deleted.
* Linking, unlinking and /forget regroup apps without touching pauses. An auto
  member that is thereby on RRC, or no longer, is paused or resumed without a
  cursor or a note. `PauseStory.LinkingLosesTheNote` has, for every n, a run in
  which n messages are missed and nothing is said; `SilentSteps.RegroupIff` and
  `SilentSteps.ForgetIff` say exactly which regroupings are harmless: those that
  change being on RRC for no auto member that stays, unless it has a cursor with
  nothing after it. `PauseStory.ForgettingLosesTheNote` is the run for /forget.
* A room operator's kick from the group room runs no auto-resume, so the
  person's other app on auto resumes without a note
  (`PauseStory.RemovalLosesTheNote`, again for every n). It is harmless exactly
  when no other auto member loses its last fellow in the room by it, or had
  nothing to be told (`SilentSteps.RoomRemoveIff`). A restart does the
  same to everyone on RRC (`SilentSteps.RestartIff`,
  `PauseStory.RestartLosesTheNote`). Hub-wide kicks and bans are always
  harmless here, since all of the person's apps go (`SilentSteps.RemoveAccounted`).
* Removals and crashes also leave the RRC cursor where it was, so a return shows
  messages again: exactly those with ids above the stored cursor
  (`Repeats.ShownAgainIffAbove`; `CatchUpStory.PutOutSeesTwice` is such a run).
  Over whole runs a seat sees everything once and in order if and only if no
  return did that (`Repeats.SeenOnceIff`). Nothing is ever skipped by it
  (`CatchUpRuns.NothingSkipped`).
* A replayed message is sent once more when its event is fanned out after the
  JOIN has finished, and only then (`SessionStory.LateEventRepeats`,
  `SessionRuns.ReplayedAgainIffLate`); the comment at
  internal/rrcsrv/handle.go:327-330 promises a little more.
* Approving a pending link of an app that meanwhile became the only app of that
  very person frees the person's name and links nothing. A link takes the name
  from the person linked to in that case and no other
  (`PeopleLaws.LinkingHomeFreesName`), and `LinkStory.ApprovalCanFreeTheName` is
  a run that gets there.
* "vv" is folded to "w" from the left, so a "vv" after an odd number of v's does
  not match the "w" it looks like; `Names.VvIsWIff` says exactly when it does.

## Model

| member | source | states |
|---|---|---|
| Split.PartsFit | internal/lxmfgroup/split.go:26-53 | for valid UTF-8 text and max of at least 16, at most 99 parts, each at most max bytes and valid UTF-8, numbered i/n in order |
| Split.PartsKeepText | internal/lxmfgroup/split.go:26-94 | unless truncated, the parts without their marks hold every byte of the text other than space and newline, in order; truncated, a beginning of it |
| Split.CutKeepsInk | internal/lxmfgroup/split.go:57-76 | a cut loses nothing but spaces and newlines |
| Split.CutValid | internal/lxmfgroup/split.go:57-76 | both sides of a cut are valid UTF-8 |
| Split.BreaksWordsLast | internal/lxmfgroup/split.go:57-76 | a word is broken only when no usable space or newline lies in the window |
| Split.OverflowFillsParts | internal/lxmfgroup/split.go:26-53 | text is truncated only when all 99 parts are used |
| SplitRules.CutIs | internal/lxmfgroup/split.go:57-76 | a cut falls at the last paragraph break with text before it, else at the last such line break, else at the last such space, else at the last character that fits; blanks around it are dropped, nothing else |
| SplitRules.TruncateIs | internal/lxmfgroup/split.go:81-94 | a text cut short keeps all that fits before the ellipsis, up to a character |
| Split.TruncateText | internal/lxmfgroup/split.go:81-94 | the loop computes the longest cut at a character that leaves room for the ellipsis |
| Split.CutText | internal/lxmfgroup/split.go:57-76 | the loops compute the cut specified |
| Split.CutIntoChunks | internal/lxmfgroup/split.go:26-44 | the loop computes the chunks, the 99th truncated if text is left over |
| Split.SplitText | internal/lxmfgroup/split.go:26-53 | the loops compute the parts specified |
| Delivery.Group.TryClaim | internal/lxmfgroup/group.go:421-440 | a key is claimed unless it is in flight or finished after the snapshot, and the tables change accordingly |
| Delivery.Group.Unclaim | internal/lxmfgroup/group.go:440-452 | a key no sender took is free again, nothing else changes |
| Delivery.Group.FinishAttempt | internal/lxmfgroup/group.go:467-489 | the finish is numbered and noted, the key freed, and only entries past the pruning age forgotten |
| Delivery.AfterError | internal/lxmfgroup/group.go:556-585 | an error keeps the parts and attempts counted and leaves the row queued for a retry or failed |
| Delivery.Deliver | internal/lxmfgroup/group.go:524-586 | an attempt sends the missing parts in order up to the first failure; the row recorded says how far it got, and is given up, due again at the time its error calls for, or delivered |
| DeliveryRuns.DeliverIsSteps | internal/lxmfgroup/group.go:524-586 | an attempt, given up as too old or worked through, is a sequence of steps of the interleaved machine, with the same row recorded and the same parts sent |
| DeliveryRuns.RunKeeps | internal/lxmfgroup/group.go:421-489 | while senders + 255 is at most 2049, every interleaving keeps the in-flight table equal to the keys held, and every row in the scheduler's hand current or marked busy |
| DeliveryRuns.NoStaleSend | internal/lxmfgroup/group.go:421-452 | in every interleaving a row about to be dispatched is current, held by nobody and not final |
| DeliveryRuns.PartsGoOutOnce | internal/lxmfgroup/group.go:524-586 | over any attempts and retries the parts sent are the first PartsDone parts, in order, once each; a delivered row has sent them all |
| DeliveryRuns.FinalStays | internal/hub/deliveries.go:106-133 | no step changes or sends anything for a row in a final state |
| DeliveryRuns.FinalIsForever | internal/store/group.go:114-159 | after any further run a final row is as it was and nothing more was sent |
| Outcomes.RetryIsDue | internal/lxmfgroup/group.go:556-585 | in every run an attempt that fails is recorded with one attempt more: failed for too costly a stamp only, else queued, due after 30 s for an unknown recipient, 60 s for an unknown node, at once when direct attempts are used up, else after 30 s an attempt, 10 min at most |
| Outcomes.FinalIsExplained | internal/lxmfgroup/group.go:524-585 | in every run a row is failed if and only if some step gave it up as too old or for its stamp, and propagated or proven if and only if some step found all parts out, by how it was last handed to a sender |
| Outcomes.AttemptsAreFailures | internal/hub/deliveries.go:106-133 | in every run a row's attempts are its recorded failures |
| Outcomes.DueIff | internal/store/group.go:114-159 | in every run a row is handed to the scheduler as it stands if and only if it is not final and its time has come |
| Outcomes.RowStays | internal/hub/deliveries.go:106-133 | nothing but its own attempts, its queueing and its deletion changes a row |
| Outcomes.ClaimIff | internal/lxmfgroup/group.go:421-440 | in every run the next due row is claimed if and only if nobody works on it and no attempt at it finished since the round began |
| Pruning.PruningBoundIsTight | internal/lxmfgroup/group.go:467-489 | whatever the tables, a key is still noted as finished when n keys, it being the first, have finished since the snapshot, if and only if n is at most 2049 |
| Sessions.Session.OfferMessage | internal/rrcsrv/session.go:73-89 | a room message is held while joining, counted when 256 are held, sent when inside, else ignored |
| Sessions.Session.BeginJoin | internal/rrcsrv/handle.go:327-336 | messages of the room are held from here on, starting with none |
| Sessions.Session.RefuseJoin | internal/rrcsrv/handle.go:338-345 | what was held for a refused JOIN is let go |
| Sessions.Session.FinishJoin | internal/rrcsrv/handle.go:388-399 | the link enters the room and exactly the held messages the replay did not cover are queued, in order |
| Sessions.Session.Hello | internal/rrcsrv/handle.go:205-226 | a HELLO empties the session, and the rooms of a re-HELLO are those left at the hub |
| Sessions.Session.Part | internal/rrcsrv/handle.go:417-437 | only a link in the room leaves it at the hub |
| SessionRuns.OfferKeeps | internal/rrcsrv/fanout.go:46-50 | offering the next event keeps every message accounted for once, in whatever state the link is |
| SessionAnswers.OfferInRun | internal/rrcsrv/session.go:73-89 | in every run the next event is held by a link joining its room, up to 256, sent to one in it, dropped for want of room only, and ignored by any other; nothing else about the link changes |
| SessionRuns.RunKeeps | internal/rrcsrv/handle.go:310-437 | every interleaving of links, hub and fan-out, links that connect while the fan-out lags included, keeps the accounts and the link counts |
| SessionRuns.NeverTwice | internal/rrcsrv/session.go:73-89 | no message reaches a link twice by the fan-out, held or live |
| SessionRuns.ExactlyOnce | internal/rrcsrv/handle.go:327-399 | once link and fan-out have caught up, each message stored since the JOIN committed has been sent once or counted as dropped |
| HandOffs.NothingFallsBetween | internal/rrcsrv/handle.go:327-399 | in every run, once a link has caught up, each message offered since its JOIN began, and not covered by the replay, was sent or dropped exactly once |
| HandOffs.CommitIs | internal/hub/rooms.go:211-222 | the replay covers everything up to the newest message of the room for an identity's first link in it, and nothing for a further one |
| SessionRuns.EventsSurvive | internal/hub/hub.go:206-220 | in every run the events fanned out are exactly the stored messages the subscription had room for, in the order stored |
| SessionRuns.NoneLost | internal/hub/hub.go:206-220 | if it always had room, every stored message has its event |
| SessionRuns.DeliveredUnlessLost | internal/rrcsrv/handle.go:327-399 | once a link has caught up, each message stored since its JOIN was sent or counted as dropped exactly once, or neither if and only if its event was lost |
| SessionRuns.ReplayedAgainIffLate | internal/rrcsrv/handle.go:388-399 | a replayed message goes out again exactly when its event is offered after the JOIN finished |
| SessionStory.LateEventRepeats | internal/rrcsrv/handle.go:388-399 | a run of nine steps in which a replayed message goes out a second time |
| SessionRuns.CountsAreLinks | internal/hub/rooms.go:237-250 | in every run rrcLinks is the number of the identity's links in the room, joins and leaves in transit included |
| SessionRuns.AllClosedNobodyPresent | internal/rrcsrv/handle.go:95-119 | with all links closed and their leaving recorded nobody is present anywhere |
| HubServer.Server.JoinRoom | internal/hub/rooms.go:148-254 | a join commits or changes nothing; the caller is on record, and the tables, presence, events and replay are the ones specified |
| HubServer.Server.PartRoom | internal/hub/rooms.go:412-452 | a part commits with the tables, presence and events specified |
| HubServer.Server.CloseLink | internal/hub/rooms.go:401-410 | leaving all rooms in one transaction, presence changed at the end, has the effect and events of leaving them one by one |
| HubServer.AutoPauseChanged | internal/hub/people.go:392-409 | the loop over the apps pauses or resumes each auto member once |
| HubServer.Server.SetLxmfMode | internal/hub/people.go:282-307 | the caller is on record, and the mode, the pause cursor and the note are as specified |
| HubServer.Server.LxmfRecipients | internal/hub/post.go:244-276 | the loop yields exactly the members a message is for, each once |
| HubServer.Server.SaySomething | internal/hub/post.go:79-195 | the author is on record, and the message, its deliveries and its event are stored together or not at all; a duplicate stores no message |
| HubServer.Server.SaveAllCursors | internal/hub/rooms.go:476-497 | the cursor of everyone present moves up to the newest message, nobody else's does |
| HubServer.Server.RemoveEverywhere | internal/hub/moderation.go:45-79 | the loops over apps and rooms take every app out of every room and the group and emit one PARTED per seat |
| HubServer.Server.RoomsOf | internal/hub/rooms.go:41-51 | exactly the rooms the identity is in, each once |
| PresenceRuns.JoinTold | internal/hub/rooms.go:192-254 | folding a join's events into who was where gives who is where after it |
| PresenceRuns.PartTold | internal/hub/rooms.go:412-452 | folding a part's events gives who is where after it |
| PresenceRuns.RemoveTold | internal/hub/moderation.go:84-96 | folding a removal's events gives who is where after it |
| Announcements.JoinAnnounced | internal/hub/rooms.go:192-254 | a join announces one JOINED if it fills the seat and nothing about presence otherwise |
| Announcements.PartAnnounced | internal/hub/rooms.go:412-452 | a part announces one PARTED if it empties the seat and nothing about presence otherwise |
| Announcements.RemoveAnnounced | internal/hub/moderation.go:45-96 | a kick or ban announces one PARTED for each seat its apps had, and no other |
| Announcements.RoomRemoveAnnounced | internal/hub/cmd_rooms.go:440-481 | a kick from a room announces one PARTED if the target was in it |
| Announcements.EveryChangeAnnouncedOnce | internal/hub/hub.go:175-204 | in every run every request announces exactly the seats it fills and empties, each once |
| Posting.PermittedIff | internal/hub/post.go:79-147 | a post is refused for the room's reasons, to the banned, to rooms not there, from LXMF but to members, and from LXMF and the page but in the group room; and to nobody else |
| Posting.StoredIff | internal/store/messages.go:47-80 | from any state a permitted post is stored if and only if it has no origin or nothing stored has that origin and way in; a second one changes nothing and is told to nobody |
| Posting.NothingStoredTwice | internal/store/messages.go:47-80 | in every run no two stored messages have the same origin and way in |
| Requests.SayOutcome | internal/hub/post.go:149-195 | a message is stored with exactly the deliveries due, or not at all, and marks the room used |
| Requests.JoinOutcome | internal/hub/rooms.go:148-254 | a join is refused for the room's reasons and to the banned only; else it adds one link, keeps the room's row and marks it used, and a first link moves the one cursor up |
| Requests.PartOutcome | internal/hub/rooms.go:412-471 | a part takes one link; the last moves the one cursor up and ends an unregistered room it leaves empty or marks another used |
| Requests.EnterOutcome | internal/hub/people.go:450-500 | coming into the group is refused to the banned; a new member gets everything, an old one keeps its settings |
| Requests.PutOutOutcome | internal/hub/moderation.go:45-96 | a kick or ban takes exactly the person's apps out of every room and the group with what was queued for them, and a ban holds until its time |
| PresenceRuns.LastLeaves | internal/hub/rooms.go:456-471 | when the last link of the last member goes, the room is gone from presence |
| PresenceRuns.EmptyRoomGoes | internal/hub/rooms.go:456-471 | a room its last member leaves is forgotten exactly when it is neither registered nor configured, and no other row changes |
| PresenceRuns.HandleRooms | internal/hub/maintain.go:67-85 | no request deletes the row of a room someone is in |
| PresenceRuns.DisconnectIsParts | internal/hub/rooms.go:401-452 | applying presence changes after the commit gives what applying them room by room would |
| PresenceRuns.EventsTellPresence | internal/hub/hub.go:175-204 | after every step, aborted ones included, folding the events gives exactly who is where; counts are positive, no empty room is kept, every room with someone in it has a row |
| CatchUps.CatchUpShows | internal/hub/rooms.go:351-381 | a catch-up shows, in order, only later messages of the room, and all of them unless capped; a first visit shows everything after its first message |
| Replays.ReplayIs | internal/hub/rooms.go:351-381 | a first visit is shown the newest few messages of the room; a later one all since the cursor, or the newest up to the cap if those are more |
| CatchUps.EnterOk | internal/hub/rooms.go:211-222 | joining keeps what was seen gapless, and without repeats if earlier departures were clean |
| CatchUps.LeaveOk | internal/hub/rooms.go:412-426 | leaving moves the cursor so that the next visit neither skips nor repeats |
| CatchUpRuns.NothingSkipped | internal/hub/rooms.go:351-381 | in every run, kicks and crashes included, everything still in the log since the first visit has been seen, unless a replay was capped or an id reused |
| CatchUpRuns.NothingRepeated | internal/hub/rooms.go:412-426 | with only PARTs, disconnects and clean shutdowns what was seen is strictly increasing |
| CatchUpRuns.CapDecides | internal/hub/rooms.go:351-381 | a returning visitor is shown all they missed if and only if it is no more than ReplayMax |
| CatchUpRuns.IdsNeverReused | internal/store/messages.go:154-200 | if every deletion keeps the newest message, no id comes up twice |
| CatchUpRuns.ShownIffAbove | internal/store/messages.go:47-80 | a message stored while someone is away is shown on return exactly when its id is above the cursor, and new ids are above every cursor exactly when the newest message is still stored |
| CatchUpStory.ReuseSkips | internal/store/messages.go:154-237 | a run of six steps in which the newest message is deleted while its reader is away, and the next one is not shown on the return |
| Repeats.SeenOnceIff | internal/hub/rooms.go:211-222 | in every run without a reused id what a seat has seen is strictly increasing if and only if no return showed something seen before |
| Repeats.ShownAgainIffAbove | internal/hub/rooms.go:351-381 | in every run a return that is not capped shows a message, seen or not, if and only if its id is above the stored cursor |
| Repeats.AgainIffAbove | internal/hub/rooms.go:351-381 | such a return repeats something if and only if something seen is in the log above the stored cursor |
| CatchUpStory.PutOutSeesTwice | internal/hub/cmd_rooms.go:440-481 | a run in which someone kicked from a room and back sees the same message twice |
| Pausing.CountsSince | internal/hub/people.go:413-441 | the messages after the pause cursor are the group messages stored since the pause began |
| Pausing.PauseEachPauses | internal/hub/people.go:392-409 | pausing a person sets the cursor of exactly its auto members, silently |
| Pausing.PauseEachResumes | internal/hub/people.go:392-441 | resuming a person notifies exactly its auto members that missed something, once each |
| PauseRuns.AccountedIff | internal/hub/people.go:392-441 | for every request, a stop or a crash, from right accounts: they stay right and exactly the notes due are sent if and only if the step meets its condition, which is on the state before it |
| PauseRuns.ResumeNotesAreRight | internal/hub/people.go:282-441 | in every run of steps that meet their conditions a member is told of n missed messages exactly when its pause ends, with n the group messages in the log stored since it began |
| PauseRuns.PausedGetNothing | internal/hub/post.go:180-191 | in every run of steps that meet their conditions nothing stored during a pause is queued for the paused member |
| PauseRuns.RunStocks | internal/hub/post.go:165-191 | in every run whatever, ids grow along the log and everything queued is of a message still stored |
| Pausing.PausePointIff | internal/hub/people.go:413-441 | a cursor counts as many messages as were stored since the pause began if and only if it parts the group's messages there |
| PauseSteps.PointsAreCounts | internal/hub/people.go:413-441 | the accounts of a run are right if and only if every paused member would now be told what was stored since its pause began |
| PauseSteps.SayIff | internal/hub/post.go:79-195 | storing a message keeps the accounts right if and only if it is not a group message with an id at or below a paused member's cursor |
| LowCursors.SayingIsQuiet | internal/store/messages.go:47-80 | in every run whose deletions keep the newest message that never happens |
| SilentSteps.RegroupIff | internal/hub/links.go:234-263 | moving apps between persons keeps the accounts right if and only if it changes for no auto member whether it is on RRC, unless that member has a cursor and nothing after it |
| SilentSteps.ForgetIff | internal/hub/people.go:243-272 | /forget keeps them right if and only if its regrouping is harmless in that sense for everyone else |
| SilentSteps.RoomRemoveIff | internal/hub/cmd_rooms.go:440-481 | a kick from a room keeps them right if and only if it is not the group room, or no other auto member with something to be told loses its last fellow there |
| SilentSteps.RemoveAccounted | internal/hub/moderation.go:45-79 | a kick or ban from the hub always keeps them right |
| SilentSteps.RestartIff | internal/hub/rooms.go:473-497 | a stop or crash keeps them right if and only if no auto member on RRC has anything to be told |
| SilentSteps.DeleteAccounted | internal/store/messages.go:154-237 | deleting messages always keeps them right, counted in the log that is left |
| SilentSteps.ShortAfterDeletion | internal/store/messages.go:154-189 | after any deletion during a pause and n more group messages the count falls short by exactly those with ids not above the cursor, so it is right if and only if n is 0 or the cursor is below the first new id |
| SilentSteps.CountedIffBelow | internal/store/messages.go:176-189 | a cursor counts the next group message if and only if it is below that message's id |
| PauseStory.LinkingLosesTheNote | internal/hub/links.go:234-263 | for every n a run in which an app is linked to someone in the group room, misses n messages and is told nothing when the pause ends |
| PauseStory.RemovalLosesTheNote | internal/hub/cmd_rooms.go:440-481 | for every n a run in which a paused member misses n messages and is told nothing when its fellow is kicked from the group room |
| PauseStory.ForgettingLosesTheNote | internal/hub/people.go:243-272 | for every n the same when its fellow sends /forget |
| PauseStory.RestartLosesTheNote | internal/hub/rooms.go:473-497 | for every n the same when the process stops or crashes |
| DeletionStory.DeletionLosesTheNote | internal/store/messages.go:154-189 | for every n a run in which a member pauses, all messages are deleted, n are stored in the pause, and it is told nothing at its end |
| BanRuns.BansHold | internal/hub/moderation.go:166-212 | in every run someone banned is in no room and not in the group, and nothing of theirs was stored since the ban |
| BanRuns.RemovalIsComplete | internal/hub/moderation.go:45-79 | after any kick or ban every former app is a person of its own with no name or rank, in no room, not in the group, with nothing queued, and banned if it was a ban |
| People.Store.TouchIdentity | internal/store/people.go:59-83 | a new identity becomes a person of its own, a known one is untouched |
| People.Store.NameBySkeleton | internal/store/people.go:153-174 | the holder of a skeleton is found if there is one |
| People.Store.ClaimName | internal/store/people.go:176-207 | the name is claimed, keeping its time when the skeleton stays, or refused when another person has the skeleton |
| People.Store.ReleaseName | internal/store/people.go:210-219 | the name of the identity's person is freed and returned |
| People.Store.SetRank | internal/store/persons.go:164-186 | the stored rank of the identity's person changes, nothing else |
| People.Store.Ignore | internal/store/whispers.go:127-136 | ignoring oneself is refused, ignoring again keeps the first time |
| People.Store.LinkIdentity | internal/store/persons.go:216-266 | the UPDATE, INSERT and DELETE statements in order have the merge specified as their effect |
| People.MergeIgnores | internal/store/persons.go:250-256 | the two INSERT OR IGNORE statements give the renamed relation, existing rows keeping their time |
| People.Store.UnlinkIdentity | internal/store/persons.go:271-297 | a linked app becomes a person with the same preferences, no name and no rank; a lone one stays |
| PeopleLaws.LinkedKeeps | internal/store/persons.go:216-266 | linking keeps every identity in one existing person, no person empty, skeletons unique, ignores irreflexive and all pointers valid |
| PeopleLaws.UnlinkedKeeps | internal/store/persons.go:271-297 | unlinking keeps them too |
| Moves.LinkedIs | internal/store/persons.go:216-266 | when a link succeeds, and then all it does: one app moves now; a person with other apps stays as it is, one without is taken over row by row, ignores keeping the time they had |
| Moves.UnlinkedIs | internal/store/persons.go:271-297 | all an unlink does: the app is a person from now on, with its preferences and no rank; an app alone stays |
| PeopleLaws.LinkingHomeFreesName | internal/hub/links.go:234-263 | a link that succeeds takes the name of the person linked to if and only if the app is that person's only one already |
| LinkStory.ApprovalCanFreeTheName | internal/hub/links.go:180-263 | a run of nine commands whose last, an approval, takes a person's name and moves no app |
| TearApart.UnlinkEachSeparates | internal/hub/links.go:401-423 | unlinking apps one by one leaves each alone, nameless and unranked, and everyone else as they were |
| TearApart.TornApartSeparates | internal/hub/moderation.go:45-79 | a kick or ban leaves every former app a separate person without name or rank, touches nobody else and keeps the tables valid |
| Names.ComputeSkeleton | internal/hub/names.go:112-137 | the loop and the replacements compute the skeleton |
| Names.ReplaceAll | internal/hub/names.go:134-135 | the scan replaces the leftmost non-overlapping pairs |
| Names.CleanName | internal/hub/names.go:40-73 | the checks in order give the name tidied with its skeleton, or the first reason against it |
| Names.SkeletonIsPlain | internal/hub/names.go:112-137 | no lookalike, "rn" or "vv" is left in a skeleton |
| Names.SkeletonFixed | internal/hub/names.go:112-137 | a text is its own skeleton exactly when nothing in it would be folded |
| Names.SkeletonIdempotent | internal/hub/names.go:112-137 | the skeleton of a skeleton is itself |
| Names.CleanIdempotent | internal/hub/names.go:40-73 | cleaning a clean name changes nothing |
| Names.FoldsAlikeIff | internal/hub/names.go:107-131 | two names fold to the same letters if and only if, separators aside, they agree letter by letter up to case, 1 I l bar exclamation mark, 0 o, and 5 s |
| Names.LookalikesShareSkeleton | internal/hub/names.go:107-137 | names that agree like that, with any number of separators, have the same skeleton |
| Names.RnIsM | internal/hub/names.go:132-135 | "rn" and "m" make no difference to a skeleton |
| Names.VvIsWIff | internal/hub/names.go:132-137 | "vv" and "w" make no difference to a skeleton exactly when the folded text before them ends in an even number of v's |
| Names.CleanNeverImpersonates | internal/hub/names.go:40-73 | no name that can be claimed looks like a guest's or a reserved word |
| NameRules.NameVerdict | internal/hub/names.go:40-73 | every name gets exactly the verdict it should, trimmed of white space: each reason for a refusal, and being clean, if and only if what it says holds |
| LinkServer.Desk.LinkIssue | internal/hub/links.go:82-106 | a code is issued within the limits and replaces the unredeemed one |
| LinkServer.Desk.LinkRedeem | internal/hub/links.go:118-178 | the checks in order link the app, ask for approval, refuse, or count a wrong code |
| LinkServer.Desk.LinkDecide | internal/hub/links.go:180-228 | an approval by an app of the person links the redeemer, a denial or a banned redeemer uses the code up |
| LinkServer.Desk.PutLinkCode | internal/store/persons.go:325-341 | the person's unredeemed codes go and the new one is stored |
| LinkServer.Desk.LinkNow | internal/hub/links.go:234-263 | the name is given up if need be, the app moves and the code is used up, or nothing changes |
| LinkRuns.RunKeeps | internal/hub/links.go:82-228 | every run of commands and clean-ups keeps the tables, codes and counters consistent |
| LinkRuns.PartitionInEveryRun | internal/store/persons.go:216-297 | in every run identities are partitioned into non-empty persons, ignores are irreflexive, and no two persons' names share a skeleton |
| LinkRuns.CodesInEveryRun | internal/store/persons.go:325-341 | in every run a code links at most one app and a person has at most one unredeemed code |
| LinkRuns.LimitsInEveryRun | internal/hub/links.go:82-116 | in every run any hour has at most 3 codes issued to a person and any 10 minutes at most 5 wrong codes looked at per identity |
| LinkCodes.IssueOutcome | internal/hub/links.go:82-106 | a code is given out if and only if the person has fewer than five apps and got fewer than three in the last hour; it holds ten minutes, the person's unredeemed ones go and all others stay |
| CodeOrigins.RedeemInRun | internal/hub/links.go:118-178 | in every run /link CODE comes to one of: nothing, for five wrong codes in ten minutes; a wrong code counted, for an unknown, expired or used one or a banned issuer; nothing, for one that does not fit; the app moved; or the code waiting for approval; and to nothing else |
| CodeOrigins.RedeemedInTime | internal/hub/links.go:118-178 | in every run a code that moves its user or is left waiting was asked for by an app of that person less than ten minutes before, was not used, and its issuer is not banned |
| CodeOrigins.AnswerInRun | internal/hub/links.go:180-228 | in every run an answer by an app of the person moves whoever redeemed the code, or uses it up for a denial or a banned redeemer, and otherwise does nothing |
| CodeOrigins.ApprovedInTime | internal/hub/links.go:180-228 | in every run an approval that moves anyone moves who redeemed the code in time, not banned since, less than ten minutes after an app of the person asked for it |
| RankRuns.HubLinkedRanks | internal/hub/links.go:234-263 | a link changes nobody's rank but the linked app's, which gets no more than its new person has |
| RankRuns.EveryRiseExplained | internal/hub/moderation.go:376-398 | in every run, at every step at which anyone's rank rises to mod or above, the step is a grant from an admin or owner outranking them, or the approval by an app of the ranked person |
| RankRuns.RanksAreGiven | internal/hub/moderation.go:376-398 | in every run whoever is mod or above without being configured rose at such a step |
| RankRuns.OwnersAreNotLinkedAway | internal/hub/links.go:118-228 | linking never moves an owner's configured identity |
| Powers.RemovalsAreRanked | internal/hub/moderation.go:98-212 | in every run a kick or ban has its whole effect if the caller is at least a mod and the target another person, no owner and ranked lower, and none otherwise |
| Powers.BansAreRanked | internal/hub/moderation.go:166-212 | in every run whoever is newly banned is an app of such a target, never an owner's |
| Commands.EveryCommand | internal/hub/ranks.go:146-170 | in every run every command about people does all of what it is for when its caller ranks for it and nothing when not; a banned caller gets nothing done |
| Commands.CleanUpDrops | internal/hub/maintain.go:43-62 | the clean-up drops exactly the codes that have run out |
| Limits.FrameBudget.Take | internal/rrcsrv/session.go:114-125 | the bucket refills and a token is spent if there is one |
| Limits.HubLimits.AllowPost | internal/hub/post.go:47-62 | the poster's bucket is filled, spent and stored |
| Limits.HubLimits.AskHistory | internal/hub/post.go:290-321 | a request within the cooldown is refused with the time left, a granted one starts it again |
| Limits.FilterRecent | internal/hub/links.go:60-68 | exactly the times within the window are kept, in order, and the input is left alone |
| Limits.HubLimits.LookAtCode | internal/hub/links.go:110-123 | five recent wrong codes lock the guesser out; a wrong one is counted |
| Limits.HubLimits.IssueAllowed | internal/hub/links.go:86-100 | three recent codes refuse a fourth; an issued one is counted |
| Limits.HubLimits.Maintain | internal/hub/maintain.go:43-62 | the loops drop exactly the entries past their time |
| LimitRuns.FramesInWindow | internal/rrcsrv/session.go:114-125 | in any T minutes a link gets at most rate·(1+T) frames through |
| LimitRuns.PostsInWindow | internal/hub/post.go:47-62 | in any stretch of any run, T minutes long, an identity gets at most rate·(1+T) posts in, clean-ups included |
| LimitRuns.EvictionUnseen | internal/hub/maintain.go:43-62 | a hub that cleans up answers every request of every run as one that never does |
| LimitAnswers.PostAnswer | internal/hub/post.go:47-62 | in every run a post is let in if and only if from no earlier post of the identity on there would be more than the rate and what the time since adds |
| LimitAnswers.HistoryAnswer | internal/hub/post.go:290-321 | in every run a request for history is refused if and only if the latest grant to the identity is less than the cooldown ago, for the rest of it, or the room may not be read |
| LimitAnswers.GrantsAreSpaced | internal/hub/post.go:290-321 | in every run two grants to an identity are at least the cooldown apart |
| LimitAnswers.IssueAnswer | internal/hub/links.go:86-100 | in every run a code is given out if and only if fewer than three went to the person in the hour before |
| LimitAnswers.GuessAnswer | internal/hub/links.go:110-123 | in every run a guess is looked at if and only if fewer than five wrong ones of the identity were in the ten minutes before |
| LimitAnswers.MaintainDrops | internal/hub/maintain.go:43-62 | the clean-up keeps exactly the entries that can still matter, unchanged |
| LimitRuns.WindowsRecord | internal/hub/links.go:60-100 | recording below the limit keeps any n+1 recorded times at least a window apart |
| LimitRuns.SpacedCount | internal/hub/links.go:82-116 | times so spaced leave at most n in any half-open window |
| Cbor.HeadReadsBack | rrc/wire/envelope.go:219-248 | the shortest head of any 64-bit argument reads back, whatever follows |
| Cbor.ItemLocal | rrc/wire/envelope.go:119-131 | an item's well-formedness and length depend on its own bytes only |
| Cbor.MapReadsBack | rrc/wire/envelope.go:219-248 | the deterministic encoding of any map within the limits reads back as that map |
| Cbor.ReadMapOk | rrc/wire/envelope.go:80-91 | a map that was read has 64-bit keys, well-formed values within the nesting limit and at most 256 pairs |
| Envelope.EncodeEnvelope | rrc/wire/envelope.go:219-248 | the map is built from the extensions and the fields that are there |
| Envelope.IntBack | rrc/wire/envelope.go:326-344 | a number comes back exactly when it is below 2^63, and is cut to 2^63-1 otherwise |
| Envelope.EncodeThenDecode | rrc/wire/envelope.go:119-248 | a well-formed envelope with type and timestamp below 2^63 decodes to itself |
| Envelope.DecodeThenEncode | rrc/wire/envelope.go:119-248 | whatever Decode accepts encodes again to a frame that decodes, without limits, to the same envelope |
| FrameReads.AcceptedIff | rrc/wire/envelope.go:119-217 | a frame is accepted if and only if it is within the limits, a map, and its required and optional fields are as they should be; then the envelope says what they say |
| FrameText.PiecesAreOk | internal/rrcsrv/envelopes.go:86-106 | pieces fit the limit, are valid UTF-8, give the text back apart from spaces at the cuts, and each takes more than half the limit |
| FrameText.CutPieces | internal/rrcsrv/envelopes.go:86-106 | the loops compute those pieces |
| Frames.BoundedSize | internal/rrcsrv/envelopes.go:73-83 | within the hub's limits an envelope takes at most 333 bytes beside its body |
| Frames.WithinBudgetFits | internal/rrcsrv/envelopes.go:73-83 | any text within the body budget makes a frame of at most 431 bytes |
| Frames.PartsFit | internal/rrcsrv/envelopes.go:133-169 | fewer than 100 parts, each within the budget with its mark and valid, together the whole text |
| Frames.EveryFrameFits | internal/rrcsrv/envelopes.go:133-169 | no part of a message within the limits is over the link limit |
| FrameReads.FramesReadBack | internal/rrcsrv/envelopes.go:133-169 | the frames of any message within the limits, decoded, are one with everything if and only if there is room, or parts under ids of their own that say which of how many they are and together hold the text |
| FrameReads.MarksRead | internal/lxmfgroup/split.go:26-53 | the mark of a part, read as decimal numbers, says which of how many it is, in frames and over LXMF |
| FrameReads.CutAfterWord | internal/rrcsrv/envelopes.go:86-106 | a piece is cut after the last space past the middle, else at a character |
| Frames.MessageFrames | internal/rrcsrv/envelopes.go:133-169 | the loop encodes the parts that fit in order and counts the rest, which within the limits is none |

## Left out

- Names are modelled on ASCII; NFC, NFKD and script tables belong to a Unicode library.
- The text of notices, replies and help, `/who`, `/list`, profiles, the chat page and its forms: presentation over the same hub calls.
- Room keys, invites, modes, room roles and room bans: whether a room lets someone in or speak is a parameter of the step, so both outcomes are covered.
- Whisper delivery to RRC links and LXMF: whispers appear as rows of the people tables only.
- The page's own read cursors (`MarkRead`): they share no state with the two kinds modelled.
- Restarts in the people and limit models: the counters of codes and guesses live in memory, so the windows are proved per process.
- The five-app cap after an approval: the source checks it when a code is issued and redeemed only.
- The order between held and live messages after a JOIN: the source does not promise one.
- Operator removals in the session model: a removal clears the hub's count for all of an identity's links at once, so the count there is proved for runs without one; `BanRuns` and `PresenceRuns` have them.
- A send already under way when its recipient is removed may record its row again; `BanRuns` is about the queue at the moment of the removal.
- A whole run of the delivery machine past the pruning bound: `Pruning` shows the bound tight on the shared tables.
- Announces, link set-up, LXMF transport, backups, importing, logging and counters: input and output around the rules modelled.
- Which of several faults of one frame is reported: the source ranges over a map there, so it is not determined.
