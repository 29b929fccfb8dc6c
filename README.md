# UsherBot moderation policy and the TTS sound queue

UsherBot is a bot that sits in a Zoom meeting as a host or co-host. It
keeps a roster of known users, read from a text file, and marks some of
them as administrators. It admits participants from the waiting room, known
users at once and unknown ones throttled. It promotes known administrators
to co-host, greets the first known participant, answers small talk and runs
administrator commands sent by chat. It also follows a remote command file,
and hands the host role to a co-host before it leaves. Its text-to-speech
helper splits CamelCase words, spells out "AI", and plays queued speech and
sound files from a timer.

The repository has two versions of the bot:

- **The Demo version.** It runs as a plug-in of a separate controller host.
  It is modelled in module `DemoUsher` (`demo_bot.dfy`).
- **The ZoomController version.** It drives the Zoom window itself. It is
  modelled in module `ZcUsher` (`zc_bot.dfy`).

The two versions differ in many branches. Each is modelled as written, and
they are not unified. The code they share, or write the same way, is in
these modules:

- `Modes` (`modes.dfy`): `SetMode` over the automation flag word.
- `KnownUsers` (`known_users.dfy`): `CleanUserName` and the roster built by
  `LoadGoodUsers`.
- `Phrases` (`phrases.dfy`): topic, greeting and name formatting helpers.
- `Commands` (`commands.dfy`): the pure parts of the chat command
  interpreter and of the remote command file.

`Strings` (`strings.dfy`) models the .NET string operations the bots use.
`Wrappers` (`wrappers.dfy`) holds `Option` and `Result`. `Platform`
(`platform.dfy`) declares the operations the model takes as parameters:
regular-expression formatting, `repr`, title case and the like.

`Sound` (`sound.dfy`) models `ZoomController.TTS/Sound.cs`:

- the `SplitCamelCase` regular expression, proved equal to a
  character-level reference definition and reversible;
- the `\bAI\b` replacement, proved reversible on plain text;
- the resolution of sound file paths;
- the queue and its timer handler, as a class.

### How the model is built

- **Bot state.** Each bot's static fields are the fields of a `Bot` class.
  Examples are the mode flags, the roster, the topic, the broadcast times,
  the message set, the greeting table and the greeted participant.
  The configuration is a `BotSettings` value. Its `broadcastOrder` lists
  every key of the `BroadcastCommands` table exactly once, in the
  dictionary's enumeration order.
- **Controller and sound calls.** Each call the bot makes is appended to a
  `calls` log. The success of each call comes from an `answer` oracle,
  indexed by the call's position in the log.
- **Handlers.** Every event handler is a method. Its `ensures` gives the
  whole new state and any exception it lets escape, as an outcome
  function of the old state and the event (`TickPart`,
  `ChatMessageOutcome`, `CommandOutcome`, ...). The properties of a
  handler are lemmas about its outcome function.
- **Lemmas.** They state the properties the code promises:
  - at most one throttled admission per pass;
  - every admission or promotion call is justified by the flags and the
    roster;
  - the broadcast guard spaces repeats;
  - a set topic sticks;
  - greetings are sent at most once;
  - the roster keys are exactly the normalised aliases;
  - remote scripts compose;
  - the effect of every mode request.
- **Time.** Times are integers in seconds. `DateTime.MinValue` is 0.

## Model

| member | source | states |
|---|---|---|
| Modes.SetMode | Demo/UsherBot/UsherBot.cs:173-256 | the result is the exception exactly for a name that is not one of the five modes; it reports a change exactly when the mode was not already in the requested state, and a request that changes nothing leaves the state as it was |
| Modes.CitadelReachesRequest | Demo/UsherBot/UsherBot.cs:175-195 | after a citadel request, citadel mode is on exactly when requested, and no other flag or setting moves |
| Modes.LockdownOffSetsMask | Demo/UsherBot/UsherBot.cs:197-217 | lockdown off sets all three lockdown flags when lockdown was on, and is "not changed" when any one of them was already set |
| Modes.LockdownOnFlipsMask | Demo/UsherBot/UsherBot.cs:197-217 | lockdown on flips the three flags (exclusive or); the bot reaches lockdown only when all three were set |
| Modes.LockdownDuringCitadelAdmitsOthers | Demo/UsherBot/UsherBot.cs:175-217 | lockdown requested while citadel is on re-enables AdmitOthers |
| Modes.PassiveNeverToggles | Demo/UsherBot/UsherBot.cs:243-253 | a passive request never changes whether the bot is passive; when it reports a change, on assigns every flag and off assigns none |
| Modes.StoredModesReachRequest | Demo/UsherBot/UsherBot.cs:219-241 | debug and pause store the requested value and change nothing else |
| Modes.SecondRequestIsNoChange | Demo/UsherBot/UsherBot.cs:173-256 | repeating a request is "not changed" for every mode and direction except lockdown on and passive |
| Modes.LockdownOnTwiceRestores | Demo/UsherBot/UsherBot.cs:197-217 | with only some lockdown flags set, two lockdown-on requests in a row restore the flags |
| Modes.PartialLockdownFlips | Demo/UsherBot/UsherBot.cs:197-217 | with only some lockdown flags set, lockdown on leaves only some set, so lockdown is never reached |
| KnownUsers.RoleSuffixLength | Demo/UsherBot/UsherBot.cs:311 | the result is 0 or the length of a role suffix (usher, dl, chair, speaker in parentheses, with surrounding white space) that the text ends with |
| KnownUsers.StripRoleSuffix | Demo/UsherBot/UsherBot.cs:311 | the input unchanged exactly when, without trailing white space, it ends in no role suffix; otherwise that suffix and the white space before it are cut off |
| KnownUsers.StackedSuffixesNeedTwoStrips | Demo/UsherBot/UsherBot.cs:311 | the pattern is anchored at the end and applied once, so "a(dl)(dl)" keeps its inner suffix and needs a second strip |
| KnownUsers.CleanUserNameFacts | Demo/UsherBot/UsherBot.cs:301-312 | a cleaned name has no period, no upper-case letter, no double blank and no white space at either end |
| KnownUsers.ParseLine | Demo/UsherBot/UsherBot.cs:614-628 | a roster line gives its administrator flag and the cleaned forms of its `\|`-separated names |
| KnownUsers.AddAliases | Demo/UsherBot/UsherBot.cs:628-646 | the alias loop results in the roster from the specification function: each non-empty alias added, with the flag or-ed into an existing entry |
| KnownUsers.AddLine | Demo/UsherBot/UsherBot.cs:614-647 | one trip of the read loop adds the parsed line to the roster as the specification says |
| KnownUsers.BuildDirectory | Demo/UsherBot/UsherBot.cs:606-648 | the rebuilt roster is the specification `Directory` of the parsed lines, read in order into an empty map |
| KnownUsers.AddNameEffect | Demo/UsherBot/UsherBot.cs:636-645 | adding one alias keeps the old entries, adds the alias if non-empty and ors its flag in |
| KnownUsers.AddNamesEffect | Demo/UsherBot/UsherBot.cs:630-646 | adding the aliases of a line keeps the old entries, adds exactly the non-empty ones and ors the flag in |
| KnownUsers.DirectoryKeys | Demo/UsherBot/UsherBot.cs:606-648 | a name is on the roster exactly when some line lists it as a non-empty normalised alias |
| KnownUsers.DirectoryAdmin | Demo/UsherBot/UsherBot.cs:606-648 | a roster entry is an administrator exactly when some administrator line lists it |
| KnownUsers.DirectoryKeysAreClean | Demo/UsherBot/UsherBot.cs:606-648 | every roster key is non-empty and is the cleaned form of a name listed on some line |
| KnownUsers.CleanIgnoresCase | Demo/UsherBot/UsherBot.cs:301-312 | names that differ only in letter case get the same roster key |
| KnownUsers.CleanIgnoresPeriods | Demo/UsherBot/UsherBot.cs:301-312 | names that differ only in periods get the same roster key |
| Phrases.GetDayTime | Demo/UsherBot/UsherBot.cs:700-713 | "morning" exactly before 12, "afternoon" exactly from 12 to 16, "evening" exactly from 17 |
| Phrases.GetTodayTonight | Demo/UsherBot/UsherBot.cs:715-720 | "tonight" exactly in the evening hours, else "today" |
| Phrases.GetTopic | Demo/UsherBot/UsherBot.cs:270-277 | with no topic: the default line when asked for, else null; with a topic: "Today's topic: " or "Tonight's topic: " by the hour, then the topic |
| Phrases.RemoveIPhoneStuff | Demo/UsherBot/UsherBot.cs:659-671 | the cleaned name, or the name unchanged when the clean-up would leave nothing |
| Phrases.FirstWord | Demo/UsherBot/UsherBot.cs:688 | the longest blank-free prefix of the name: it ends at the first blank or at the end |
| Phrases.GetFirstName | Demo/UsherBot/UsherBot.cs:673-698 | null for a missing or blank name; an empty first word is the `Substring` exception; otherwise the first word, kept or title-cased by its capitals |
| Phrases.UpperFixesExactlyNoLower | Demo/UsherBot/UsherBot.cs:691 | upper-casing leaves a word unchanged exactly when it has no lower-case letter |
| Phrases.FirstNameCasing | Demo/UsherBot/UsherBot.cs:688-697 | a word starting with a capital that has a lower-case letter is returned as it is, and a word without lower-case letters is title-cased |
| Phrases.FormatChatResponse | Demo/UsherBot/UsherBot.cs:722-725 | a failing first-name lookup, a null text or a template that does not take two arguments is an exception; otherwise the template filled with the `GetFirstName` result and the part of day |
| Phrases.FirstHit | Demo/UsherBot/UsherBot.cs:742-748 | the value of the first word whose lower-case form is a key, or none when no word is |
| Phrases.LookupFirst | Demo/UsherBot/UsherBot.cs:742-748 | the word loop that stops at the first hit returns `FirstHit` |
| Phrases.FirstHitAt | Demo/UsherBot/UsherBot.cs:742-748 | a hit is the value of some word's key, and no earlier word is a key |
| Phrases.OneTimeHi | Demo/UsherBot/UsherBot.cs:729-759 | no reply and no change for a key already greeted; otherwise the first hit, recorded for the key exactly when there is one |
| Phrases.GreetedGetsNothing | Demo/UsherBot/UsherBot.cs:729-759 | over any run of requests, a key already greeted never gets another reply |
| Phrases.HiAtMostOnce | Demo/UsherBot/UsherBot.cs:729-759 | over any run of requests, each key gets at most one reply |
| Commands.SplitCommand | Demo/UsherBot/UsherBot.cs:1314-1319 | the command word is the lower-cased first word without its slash; the argument is the rest after the first blank, absent when missing or empty |
| Commands.BroadcastGuard | Demo/UsherBot/UsherBot.cs:1322-1348 | a first send is allowed; a negative guard refuses every repeat; a positive guard refuses a repeat within that many seconds; zero allows every repeat |
| Commands.Record | Demo/UsherBot/UsherBot.cs:1336-1346 | only a delivered broadcast records its time, under its own command; other commands keep theirs |
| Commands.NegativeGuardSendsOnce | Demo/UsherBot/UsherBot.cs:1326-1334 | with a negative guard, a command delivered once is refused for the rest of the run |
| Commands.PositiveGuardSpacesBroadcasts | Demo/UsherBot/UsherBot.cs:1336-1346 | with a positive guard and a clock that does not go back, two delivered sends of a command are more than the guard apart |
| Commands.TopicCommand | Demo/UsherBot/UsherBot.cs:1352-1408 | `force` replaces the topic and broadcasts, and throws without a text; `clear` and `off` remove it; an equal text up to case is "already set"; a set happens only with no topic; the reply says which |
| Commands.SetTopicSticks | Demo/UsherBot/UsherBot.cs:1385-1402 | once a topic is set, a plain set neither changes it nor broadcasts it |
| Commands.SetTopicTwiceIsAlreadySet | Demo/UsherBot/UsherBot.cs:1385-1402 | setting the same text twice gets the "already set" reply the second time |
| Commands.PlanEmail | Demo/UsherBot/UsherBot.cs:1417-1437 | the address is the first word of the argument; a template with `{0}` needs a second part, trimmed, that replaces every `{0}` |
| Commands.ParseOnOff | Demo/UsherBot/UsherBot.cs:1454-1468 | on or off exactly for the trimmed, lower-cased texts "on" and "off", otherwise none |
| Commands.ParseOnOffIgnoresCase | Demo/UsherBot/UsherBot.cs:1454-1468 | the parse of a mode argument does not depend on letter case |
| Commands.WaitMsgCommand | Demo/UsherBot/UsherBot.cs:1484-1511 | an empty text or "off" removes the message; any other text becomes the message, trimmed; the reply says which, or "already" |
| Commands.WaitMsgIdempotent | Demo/UsherBot/UsherBot.cs:1484-1511 | repeating a `/waitmsg` command changes nothing and gets an "already" reply |
| Commands.ParseRename | Demo/UsherBot/UsherBot.cs:1515-1526 | exactly two non-empty " to "-separated pieces give the old and the new name, otherwise none |
| Commands.RenameRoundTrip | Demo/UsherBot/UsherBot.cs:1515-1526 | "Old to New" parses back to the pair when neither name contains " to " and the old name does not end in part of it |
| Commands.FirstAnswer | Demo/UsherBot/UsherBot.cs:1241-1267 | the answer is the first non-null reply of the bots in order, or none when none answers |
| Commands.RunChain | Demo/UsherBot/UsherBot.cs:1241-1267 | the loop returns `FirstAnswer` and asks exactly the bots up to the one that answers |
| Commands.InsertByLevel | Demo/UsherBot/UsherBot.cs:915 | inserting into a list ordered by level, highest first, keeps it ordered |
| Commands.InsertByLevelCounts | Demo/UsherBot/UsherBot.cs:915 | inserting adds the one bot and loses none (as multisets) |
| Commands.SortByLevel | Demo/UsherBot/UsherBot.cs:915 | the sorted list is a permutation of the loaded bots, ordered by level, highest first |
| Commands.ChatBotsFrom | Demo/UsherBot/UsherBot.cs:858-919 | null exactly when no plug-in loaded; otherwise a permutation of the loaded bots, ordered by level, highest first |
| Commands.KeywordReplyIsLastMatch | Demo/UsherBot/UsherBot.cs:1216-1228 | a reply exactly when some key of the enumeration order matches, and then the value of the last matching key |
| Commands.KeywordReplyOverTable | Demo/UsherBot/UsherBot.cs:1216-1228 | over the table's own enumeration order, each key once, the search covers every key: a reply exactly when some key of the table matches, the last matching one winning |
| Commands.FindIndex | Demo/UsherBot/UsherBot.cs:489 | none (the code's -1) exactly when no element is picked; otherwise the index of the first picked element |
| Commands.ClassifyCommand | Demo/UsherBot/UsherBot.cs:1322-1688 | the interpreter branch a command reaches, in the order of the `if` chain; the branches that need an argument are only reached with one |
| Commands.ChainAction | Demo/UsherBot/UsherBot.cs:543-570 | a mode switch is to a known mode, on exactly for its ":on" line; an unknown command carries the line |
| Commands.RemoteActions | Demo/UsherBot/UsherBot.cs:531-574 | exactly a blank line gives no action; a citadel line switches citadel and is also reported unknown; exit leaves without ending and stops; kill ends the meeting; at most two actions per line |
| Commands.ScriptAppend | Demo/UsherBot/UsherBot.cs:517-578 | running two scripts one after the other gives the modes, the leave calls and the exit flag of running their concatenation |
| DemoUsher.SelfCare | Demo/UsherBot/UsherBot.cs:327-367 | the reclaim, rename and unmute calls, each present exactly when its flag is set and the bot's own record needs it; none without an own record |
| DemoUsher.AdmitStep | Demo/UsherBot/UsherBot.cs:384-446 | one participant adds one to the waiting plus attending count exactly when it is present (waiting or attending, not the bot) |
| DemoUsher.AdmitStepEffect | Demo/UsherBot/UsherBot.cs:405-446 | only an attempt makes a call; a delivered one moves the participant to attending and sets the last admission time; a refused one leaves its message in the set |
| DemoUsher.PassKeepsHeadCount | Demo/UsherBot/UsherBot.cs:392-446 | a pass adds the number of participants present to the waiting plus attending count, admissions included |
| DemoUsher.AtMostOneAdmissionPerPass | Demo/UsherBot/UsherBot.cs:411-440 | with positive WaitSecs a pass admits at most one participant, and the last admission time is now exactly when it admitted one |
| DemoUsher.ThrottledPassCallsNothing | Demo/UsherBot/UsherBot.cs:418-434 | a pass that starts less than WaitSecs after the last admission makes no call |
| DemoUsher.FirstGreetable | Demo/UsherBot/UsherBot.cs:489-494 | the index of the first participant who is not the bot, unmuted, on computer audio and known, or -1 |
| DemoUsher.FirstCoHost | Demo/UsherBot/UsherBot.cs:933-941 | the first co-host of the list, or none when there is none |
| DemoUsher.RouteChat | Demo/UsherBot/UsherBot.cs:1174-1305 | messages from the bot or with chat processing off are dropped; a command is only sent to the bot by an administrator, and is the split of the text with the bot's name removed when sent to everyone; small talk has no leading slash; replies go to everyone for a message to everyone, else to the sender |
| DemoUsher.TargetCommand | Demo/UsherBot/UsherBot.cs:1559-1688 | the reply and the call of a command about one participant, refusing unknown names, the bot itself, self-renames and participants in the wrong state |
| DemoUsher.ActOn | Demo/UsherBot/UsherBot.cs:1596-1688 | the action on a resolved participant who is not the bot, by command word |
| DemoUsher.LeaveCalls | Demo/UsherBot/UsherBot.cs:559-569 | a remote script's exit and kill lines give exactly the leave calls in their order |
| DemoUsher.Bot.constructor | Demo/UsherBot/UsherBot.cs:24-45 | all times start at 0, the sets and tables are empty; with Converse set the loaded bots are sorted by level, without it there are no chat bots, as at lines 1016-1019 |
| DemoUsher.Bot.SetMode | Demo/UsherBot/UsherBot.cs:173-256 | the mode flags become those of `Modes.SetMode`, with its result, and nothing else changes |
| DemoUsher.Bot.OneTimeHi | Demo/UsherBot/UsherBot.cs:729-759 | the reply and the new greeting table are those of `Phrases.OneTimeHi` keyed by user id |
| DemoUsher.Bot.LoadGoodUsers | Demo/UsherBot/UsherBot.cs:586-657 | the roster is rebuilt as `BuildDirectory` of the file's lines exactly when the file exists and its time changed |
| DemoUsher.Bot.SendTopicSendsTheLine | Demo/UsherBot/UsherBot.cs:279-299 | `SendTopic` changes no setting; without a topic line it is false and changes nothing; a formatting exception sends nothing; otherwise it sends one message to the recipient ending with the line, and returns whether that send was delivered |
| DemoUsher.Bot.SendTopic | Demo/UsherBot/UsherBot.cs:279-299 | the greeting table, the call log and the result of `SendTopicOutcome`: the "morning" greeting is recorded, and the greeting and the line go out as one message |
| DemoUsher.Bot.AdmitOne | Demo/UsherBot/UsherBot.cs:384-446 | one participant's step: the state and calls of `AdmitStep` |
| DemoUsher.Bot.AdmitUnknown | Demo/UsherBot/UsherBot.cs:384-447 | the loop results in `AdmitPass` of the snapshot, with its counts |
| DemoUsher.Bot.GreetsAtMostOnce | Demo/UsherBot/UsherBot.cs:484-509 | once a participant is recorded as greeted, the record and the greeting table stay; a newly recorded name is that of the first greetable participant |
| DemoUsher.Bot.AnnouncementSpacing | Demo/UsherBot/UsherBot.cs:449-479 | the announcement time moves only to the current time, only with nobody attending and someone waiting, only for a configured message, and only once the delay has passed |
| DemoUsher.Bot.UnconfiguredAnnouncementSkipsGreeting | Demo/UsherBot/UsherBot.cs:449-466 | with someone waiting, nobody attending and no announcement configured, the handler returns after the admission pass, so nobody is greeted |
| DemoUsher.Bot.ParticipantActionsAppend | Demo/UsherBot/UsherBot.cs:318-510 | the participant actions only append to the call log, and start with the self-care calls |
| DemoUsher.Bot.DoParticipantActions | Demo/UsherBot/UsherBot.cs:318-510 | the whole participant state and the exception are those of `ParticipantActionsOutcome`: self care, the admission pass, the announcement and the first greeting |
| DemoUsher.Bot.AnnounceAndGreet | Demo/UsherBot/UsherBot.cs:449-509 | the state after the admission loop is that of `AnnounceAndGreetOutcome`, including the early return that skips the greeting |
| DemoUsher.Bot.DoSelfCare | Demo/UsherBot/UsherBot.cs:327-367 | the call log grows by exactly `SelfCare` |
| DemoUsher.Bot.AnnounceToWaitingRoom | Demo/UsherBot/UsherBot.cs:449-479 | one announcement to everyone once the delay passed; its time is recorded only when delivered |
| DemoUsher.Bot.AdmitPassExtendsCalls | Demo/UsherBot/UsherBot.cs:384-447 | a pass only appends to the call log |
| DemoUsher.Bot.GreetFirst | Demo/UsherBot/UsherBot.cs:484-509 | no greetable participant: nothing happens; otherwise the state of greeting the first one |
| DemoUsher.Bot.GreetParticipant | Demo/UsherBot/UsherBot.cs:484-509 | the name is recorded, the "morning" one-time greeting formatted for it is followed by the boot sound, the online line and the greeting, or by nothing when the format throws |
| DemoUsher.Bot.SendGreeting | Demo/UsherBot/UsherBot.cs:498-507 | a formatting exception sends nothing; otherwise the calls of the greeting |
| DemoUsher.Bot.AnnounceGreeting | Demo/UsherBot/UsherBot.cs:500-507 | the calls of the greeting, with the spoken copy only when the chat message was delivered |
| DemoUsher.Bot.ReadRemoteCommands | Demo/UsherBot/UsherBot.cs:517-578 | without a file nothing; otherwise the modes, leave calls and exit flag of `RemoteScript` of its lines |
| DemoUsher.Bot.RunRemoteLines | Demo/UsherBot/UsherBot.cs:531-574 | the lines, in order, give the script's state |
| DemoUsher.Bot.RunRemoteLine | Demo/UsherBot/UsherBot.cs:531-574 | one line extends the state by that line's actions |
| DemoUsher.Bot.ScriptLineStep | Demo/UsherBot/UsherBot.cs:531-574 | the modes, leave calls and exit flag after one more line are those of running that line after the earlier ones |
| DemoUsher.Bot.RunRemoteActions | Demo/UsherBot/UsherBot.cs:539-570 | the actions of a line, in order |
| DemoUsher.Bot.ScriptStep | Demo/UsherBot/UsherBot.cs:539-570 | an appended action changes the modes by `ModeStep`, adds its leave call and can only set the exit flag |
| DemoUsher.Bot.LeaveCallsAppend | Demo/UsherBot/UsherBot.cs:559-569 | the leave calls of two scripts in a row are the calls of the first followed by those of the second |
| DemoUsher.Bot.RunRemoteAction | Demo/UsherBot/UsherBot.cs:543-570 | a mode switch, the controller's leave call (exit also stops the bot), or nothing for an unknown line |
| DemoUsher.Bot.LeaveMeetingSafely | Demo/UsherBot/UsherBot.cs:921-967 | without the bot's own record a leave without ending throws; a host leaving without ending first promotes the first co-host to host; the meeting ends for all when there is none or the promotion fails |
| DemoUsher.Bot.FirstCoHostAt | Demo/UsherBot/UsherBot.cs:933-941 | a co-host with no co-host before it is the one `FirstCoHost` picks |
| DemoUsher.Bot.Tick | Demo/UsherBot/UsherBot.cs:1036-1082 | nothing once exiting; otherwise the roster rebuilt when it changed, the modes, leave calls and exit flag of the remote script, and the participant state of `TickPart`: unchanged when paused, else the participant actions with their exception dropped |
| DemoUsher.Bot.LoadThenRun | Demo/UsherBot/UsherBot.cs:1054-1076 | the roster step, then the state of the remote script and of `TickPart` |
| DemoUsher.Bot.RemoteThenParticipants | Demo/UsherBot/UsherBot.cs:1055-1076 | the remote script's modes, leave calls and exit flag, then the participant state of `TickPart` |
| DemoUsher.Bot.TryParticipantActions | Demo/UsherBot/UsherBot.cs:1051-1076 | the state of `ParticipantActionsOutcome`, with its exception logged and dropped |
| DemoUsher.Bot.JoinChangesNoSetting | Demo/UsherBot/UsherBot.cs:1089-1125 | a joining participant changes no setting |
| DemoUsher.Bot.JoinWithoutTopic | Demo/UsherBot/UsherBot.cs:1089-1125 | without SendTopicOnJoin the promotion to co-host is the only call, made exactly for a known administrator when CoHostKnown is set and the bot is host or co-host |
| DemoUsher.Bot.JoinEndsWithPromotion | Demo/UsherBot/UsherBot.cs:1093-1125 | when the promotion is due and the handler completes, the promotion is its last call, after the topic |
| DemoUsher.Bot.JoinWithoutRecord | Demo/UsherBot/UsherBot.cs:1101-1123 | without the bot's own record the promotion check throws whenever CoHostKnown is set and the participant is an administrator |
| DemoUsher.Bot.OnParticipantJoinMeeting | Demo/UsherBot/UsherBot.cs:1089-1125 | the greeting table, the call log and the exception of `JoinOutcome` |
| DemoUsher.Bot.OnParticipantJoinWaitingRoom | Demo/UsherBot/UsherBot.cs:1132-1153 | one admission call exactly for a known participant when AdmitKnown is set |
| DemoUsher.Bot.OnlyCommandsChangeSettings | Demo/UsherBot/UsherBot.cs:1160-1305 | dropped and refused messages change nothing; small talk and "/topic" change only the greeting table and append to the log; a sender who is not an administrator changes no setting |
| DemoUsher.Bot.TopicRequestGetsTheLine | Demo/UsherBot/UsherBot.cs:1297-1302 | "/topic" sends at most one message, to the one who asked, ending with the topic line; a formatting exception sends nothing |
| DemoUsher.Bot.OnChatMessageReceive | Demo/UsherBot/UsherBot.cs:1160-1688 | the whole chat state and the exception are those of `ChatMessageOutcome` |
| DemoUsher.Bot.KeywordFor | Demo/UsherBot/UsherBot.cs:1216-1228 | the `foreach` over the whole `BroadcastCommands` table: a reply exactly when some key of the table matches, and then the value of the last matching key in the table's enumeration order |
| DemoUsher.Bot.BotsAnswer | Demo/UsherBot/UsherBot.cs:1241-1267 | none without chat bots; otherwise `FirstAnswer`: the answer of the first bot that answers, every earlier bot having had none |
| DemoUsher.Bot.SmallTalkReply | Demo/UsherBot/UsherBot.cs:1212-1267 | a keyword's reply over the greeting, else the chat bots' answer |
| DemoUsher.Bot.ReplyCalls | Demo/UsherBot/UsherBot.cs:1269-1273 | the chat reply, and the spoken copy only when delivered and wanted |
| DemoUsher.Bot.SmallTalkChangesNoSetting | Demo/UsherBot/UsherBot.cs:1204-1273 | small talk changes only the greeting table and the call log |
| DemoUsher.Bot.RespondChangesNoSetting | Demo/UsherBot/UsherBot.cs:1230-1280 | the reply step changes only the greeting table and the call log |
| DemoUsher.Bot.KeywordRepliesAreNotSpoken | Demo/UsherBot/UsherBot.cs:1216-1228 | a keyword's canned reply is formatted and sent to the reply recipient without the spoken copy, or the formatting exception is returned and nothing is sent |
| DemoUsher.Bot.TopicQuestionGetsTheLine | Demo/UsherBot/UsherBot.cs:1230-1238 | a question about the topic that nothing else answered gets at most one message, ending with the topic line |
| DemoUsher.Bot.SmallTalkReplies | Demo/UsherBot/UsherBot.cs:1212-1273 | otherwise the small-talk reply is formatted and sent once, spoken when wanted unless it is a keyword reply; no reply sends nothing |
| DemoUsher.Bot.Converse | Demo/UsherBot/UsherBot.cs:1204-1273 | the greeting table, the call log and the exception of `ConverseOutcome` |
| DemoUsher.Bot.Respond | Demo/UsherBot/UsherBot.cs:1230-1273 | the state of `RespondOutcome`: the topic when asked for and nothing answered, else the reply |
| DemoUsher.Bot.FirstReply | Demo/UsherBot/UsherBot.cs:1212-1228 | the greeting, replaced by a matching keyword's reply; the greeting table of the one-time greeting |
| DemoUsher.Bot.ChainReply | Demo/UsherBot/UsherBot.cs:1241-1267 | the chat bots are asked only when nothing answered yet |
| DemoUsher.Bot.SendReply | Demo/UsherBot/UsherBot.cs:1269-1273 | the state of `ReplyOutcome`: a formatting exception is returned and nothing is sent |
| DemoUsher.Bot.CommandsChangeOnlyTheirFields | Demo/UsherBot/UsherBot.cs:1314-1688 | each command branch changes only the field it owns, a missing argument does nothing, only the topic branches throw, and the call log is only appended to |
| DemoUsher.Bot.TopicOrBroadcastFields | Demo/UsherBot/UsherBot.cs:1322-1408 | the broadcast and topic branches keep the modes and the waiting-room message, and the topic change throws exactly when `TopicCommand` does |
| DemoUsher.Bot.SettingFields | Demo/UsherBot/UsherBot.cs:1410-1511 | the setting branches keep the topic, the broadcast times and the greeting table, and do not throw |
| DemoUsher.Bot.ParticipantCommandActsOnce | Demo/UsherBot/UsherBot.cs:1555-1688 | a participant command makes at most one call about a participant, the one `TargetCommand` chose, on the resolved participant, never the bot |
| DemoUsher.Bot.RunCommand | Demo/UsherBot/UsherBot.cs:1314-1688 | the whole chat state and the exception of `CommandOutcome`, the branch `ClassifyCommand` gives |
| DemoUsher.Bot.RunPlan | Demo/UsherBot/UsherBot.cs:1322-1688 | the state of `PlanOutcome` for the branch |
| DemoUsher.Bot.TopicOrBroadcastPlan | Demo/UsherBot/UsherBot.cs:1322-1408 | the state of `TopicOrBroadcastOutcome` |
| DemoUsher.Bot.SettingPlan | Demo/UsherBot/UsherBot.cs:1410-1511 | the state of `SettingOutcome` |
| DemoUsher.Bot.AnswerPlan | Demo/UsherBot/UsherBot.cs:1417-1688 | the call log grows by exactly `AnswerCalls` of the branch |
| DemoUsher.Bot.EmailCommand | Demo/UsherBot/UsherBot.cs:1417-1448 | the usage reply when `PlanEmail` fails; otherwise the mail and a reply saying whether it went out |
| DemoUsher.Bot.ModeCommand | Demo/UsherBot/UsherBot.cs:1452-1481 | the usage reply without on or off; otherwise the `SetMode` switch and a reply saying whether it changed |
| DemoUsher.Bot.WaitMsgCommandRun | Demo/UsherBot/UsherBot.cs:1484-1511 | the message and the reply of `WaitMsgCommand` |
| DemoUsher.Bot.SayCommand | Demo/UsherBot/UsherBot.cs:1535-1542 | the text to everyone; spoken only when delivered |
| DemoUsher.Bot.PlayCommand | Demo/UsherBot/UsherBot.cs:1545-1552 | the reply naming the sound; the sound only when delivered |
| DemoUsher.Bot.ParticipantCommand | Demo/UsherBot/UsherBot.cs:1555-1688 | the reply and the call of `TargetCommand` |
| DemoUsher.Bot.EmailTable | Demo/UsherBot/UsherBot.cs:1417 | a null table is read as an empty one |
| DemoUsher.Bot.BroadcastCommand | Demo/UsherBot/UsherBot.cs:1322-1349 | refused by `BroadcastGuard` with its reply, or sent to everyone and its time recorded as `Record` says |
| DemoUsher.Bot.ChangeTopic | Demo/UsherBot/UsherBot.cs:1352-1408 | the topic and the reply of `TopicCommand`, and the topic line to everyone after a set or a force |
| ZcUsher.SelfCareFacts | ZoomController/UsherBot.cs:204-237 | each self-care call is present exactly when its flag is set and the record needs it; the meeting options come last; no call without an own record |
| ZcUsher.WhenToAdmit | ZoomController/UsherBot.cs:278-279 | the later of the end of the wait and the next admission time |
| ZcUsher.AttendingStep | ZoomController/UsherBot.cs:316-330 | an attending participant is promoted exactly under `PromotionRule`, and nothing else changes |
| ZcUsher.WaitingStep | ZoomController/UsherBot.cs:254-314 | a waiting participant is admitted when known under AdmitKnown, or tried when unknown under AdmitOthers |
| ZcUsher.KnownStep | ZoomController/UsherBot.cs:263-275 | a known waiting participant is admitted exactly when AdmitKnown is set |
| ZcUsher.UnknownStep | ZoomController/UsherBot.cs:277-313 | the log line joins the set; while the admission time is ahead one call is made; a delivered one removes the line and moves the next admission time |
| ZcUsher.KnownWaitingUsesAdmitKnown | ZoomController/UsherBot.cs:263-275 | a known participant never takes the unknown path: the throttle time and the log lines stay |
| ZcUsher.NoAdmitFlagsLeaveWaitingAlone | ZoomController/UsherBot.cs:258-261 | with both admit flags off, a waiting participant only marks someone as waiting |
| ZcUsher.UnknownWaitingEffect | ZoomController/UsherBot.cs:287-311 | the log line is added once; an attempt makes exactly one admission call; a delivered one removes the line and sets the next admission time to now plus the throttle |
| ZcUsher.FreshArrivalIsTriedAtOnce | ZoomController/UsherBot.cs:278-280 | as written, a participant whose wait has not run out is tried at once |
| ZcUsher.LongWaiterIsNeverTried | ZoomController/UsherBot.cs:278-280 | as written, a participant whose wait ran out is not tried once the next admission time passed too |
| ZcUsher.ThrottleDoesNotHoldBack | ZoomController/UsherBot.cs:278-303 | as written, a delivered admission does not stop later unknown participants of the same pass being tried |
| ZcUsher.PromotionRule | ZoomController/UsherBot.cs:316-327 | promotion happens exactly with CoHostKnown, no role, the bot as host and an administrator entry; no own record throws |
| ZcUsher.StepCall | ZoomController/UsherBot.cs:241-331 | one step adds at most one call, about the participant it looks at, and justified |
| ZcUsher.PassCallsJustified | ZoomController/UsherBot.cs:241-331 | every call of the pass is an admission or promotion justified by the flags, the roster and its participant |
| ZcUsher.ExtendCalls | ZoomController/UsherBot.cs:241-331 | the calls after a step are the calls before it plus at most one about that participant |
| ZcUsher.FirstGreetable | ZoomController/UsherBot.cs:369-374 | the index of the first participant who is not the bot, on computer audio, connected and known, or -1 |
| ZcUsher.FirstCoHost | ZoomController/UsherBot.cs:1391-1399 | the first co-host of the participants, or none |
| ZcUsher.Addressed | ZoomController/UsherBot.cs:823-843 | a public message must name the bot, which is removed, and the reply goes to everyone; a private one must be to "me" |
| ZcUsher.RouteChat | ZoomController/UsherBot.cs:803-957 | messages from "me" and not addressed to the bot are dropped; non-slash text is small talk; "/topic" for anyone; other commands need "me", an administrator and a known participant |
| ZcUsher.TopicIgnoresPrivilege | ZoomController/UsherBot.cs:934-938 | "/topic" is routed the same whatever the roster and the participant list |
| ZcUsher.TargetCommand | ZoomController/UsherBot.cs:1186-1303 | the reply and the call of a command about one participant, refusing unknown names (case matters), the bot, self-renames and wrong states |
| ZcUsher.ActOn | ZoomController/UsherBot.cs:1206-1303 | the action on a found participant who is not the bot, by command word |
| ZcUsher.LeaveCalls | ZoomController/UsherBot.cs:488-498 | the leave calls of a script's exit and kill lines, in order |
| ZcUsher.Bot.constructor | ZoomController/UsherBot.cs:24-39 | times start at 0, tables empty; with Converse set the loaded bots are sorted by level, without it there are no chat bots |
| ZcUsher.Bot.SetMode | ZoomController/UsherBot.cs:41-120 | the mode flags become those of `Modes.SetMode`, with its result |
| ZcUsher.Bot.OneTimeHi | ZoomController/UsherBot.cs:689-714 | the reply and the table of `Phrases.OneTimeHi` keyed by name |
| ZcUsher.Bot.LoadGoodUsers | ZoomController/UsherBot.cs:515-579 | the roster is rebuilt as `BuildDirectory` exactly when the file exists and its time changed |
| ZcUsher.Bot.SendTopicSendsTheLine | ZoomController/UsherBot.cs:142-164 | `SendTopic` changes no setting; without a topic line it is false and changes nothing; a formatting exception sends nothing; otherwise one message to the recipient ending with the line, and true whatever the send did |
| ZcUsher.Bot.SendTopic | ZoomController/UsherBot.cs:142-164 | the greeting table, the call log and the result of `SendTopicOutcome`: the "morning" greeting is recorded; the message is the formatted greeting, a blank and the line, or the line alone |
| ZcUsher.Bot.AnswerTopic | ZoomController/UsherBot.cs:142-164 | the state of `SendTopicOutcome` with the default topic, its exception returned |
| ZcUsher.Bot.AdmitOne | ZoomController/UsherBot.cs:241-331 | one participant's step: the state and calls of `AdmitStep` |
| ZcUsher.Bot.PromoteIfAdmin | ZoomController/UsherBot.cs:316-330 | the step of `AttendingStep` |
| ZcUsher.Bot.AdmitWaiting | ZoomController/UsherBot.cs:254-314 | the step of `WaitingStep` |
| ZcUsher.Bot.AdmitKnownWaiting | ZoomController/UsherBot.cs:263-275 | the step of `KnownStep` |
| ZcUsher.Bot.AdmitUnknownWaiting | ZoomController/UsherBot.cs:277-313 | the step of `UnknownStep` |
| ZcUsher.Bot.TryAdmit | ZoomController/UsherBot.cs:300-311 | one admission call; a delivered one clears the log line and moves the next admission time |
| ZcUsher.Bot.AdmitAll | ZoomController/UsherBot.cs:241-331 | the loop results in `AdmitPass` and stops at the first exception |
| ZcUsher.Bot.FailedStays | ZoomController/UsherBot.cs:241-331 | after an exception the rest of the loop changes nothing |
| ZcUsher.Bot.DoSelfCare | ZoomController/UsherBot.cs:204-237 | the call log grows by exactly `SelfCare` |
| ZcUsher.Bot.SelfCareLog | ZoomController/UsherBot.cs:204-237 | the log after the four self-care steps is the old log plus `SelfCare` |
| ZcUsher.Bot.StepExtends | ZoomController/UsherBot.cs:241-331 | one step of the admission loop only appends to the call log |
| ZcUsher.Bot.AdmitPassExtendsCalls | ZoomController/UsherBot.cs:241-331 | the admission pass only appends to the call log |
| ZcUsher.Bot.GreetsAtMostOnce | ZoomController/UsherBot.cs:363-385 | once a name is recorded, or when Zoom was already running, the record and the greeting table stay; a newly recorded name is that of the first greetable participant |
| ZcUsher.Bot.GreetOnce | ZoomController/UsherBot.cs:363-385 | the first greeting step greets at most once, and only the first greetable participant |
| ZcUsher.Bot.MorningWithoutGreetingThrows | ZoomController/UsherBot.cs:377-383 | "morning" without a one-time greeting makes the formatting throw after the name is recorded, and nothing is sent |
| ZcUsher.Bot.AnnouncementSpacing | ZoomController/UsherBot.cs:333-361 | the announcement time moves only to the current time, only when the pass saw someone waiting and did not throw, only for a configured message, and only once the delay has passed |
| ZcUsher.Bot.UnconfiguredAnnouncementSkipsGreeting | ZoomController/UsherBot.cs:333-351 | with someone waiting and no announcement configured, the handler returns after the admission pass, so nobody is greeted |
| ZcUsher.Bot.FailedPassSkipsTheRest | ZoomController/UsherBot.cs:318-425 | an exception in the pass (the bot's own record is missing) ends the participant actions with a null-reference fault, and the chat actions do not run |
| ZcUsher.Bot.ChatOnlyWithoutParticipants | ZoomController/UsherBot.cs:195-425 | without ProcessParticipants the participant actions do nothing and the chat actions still run |
| ZcUsher.Bot.ParticipantActionsAppend | ZoomController/UsherBot.cs:195-386 | the participant actions only append to the call log, starting with the participant refresh and the self-care calls |
| ZcUsher.Bot.GreetExtends | ZoomController/UsherBot.cs:363-385 | the first greeting only appends to the call log |
| ZcUsher.Bot.DoParticipantActions | ZoomController/UsherBot.cs:195-386 | the whole participant state and the exception are those of `ParticipantActionsOutcome`: the refresh, self care, the pass and, unless it threw, the announcement and the greeting |
| ZcUsher.Bot.AnnounceAndGreet | ZoomController/UsherBot.cs:333-385 | the state after the admission loop is that of `AnnounceAndGreetOutcome`, including the early return that skips the greeting |
| ZcUsher.Bot.AnnounceToWaitingRoom | ZoomController/UsherBot.cs:354-360 | the state of `AnnounceOutcome`: at most one announcement per delay, its time recorded whether or not it went out |
| ZcUsher.Bot.GreetFirst | ZoomController/UsherBot.cs:366-385 | no greetable participant: nothing happens; otherwise the state of greeting the first one |
| ZcUsher.Bot.GreetParticipant | ZoomController/UsherBot.cs:377-383 | the state of `GreetParticipantOutcome`: the name is recorded before the format, so a formatting exception means nobody is greeted again |
| ZcUsher.Bot.SendGreeting | ZoomController/UsherBot.cs:378-383 | a formatting exception sends nothing; otherwise the boot sound, the online line and the greeting |
| ZcUsher.Bot.DoChatActions | ZoomController/UsherBot.cs:180-190 | the refresh and the queued send when ProcessChat is set, else nothing |
| ZcUsher.Bot.ReadRemoteCommands | ZoomController/UsherBot.cs:446-507 | without a file nothing; otherwise the modes, leave calls and exit flag of `RemoteScript` of its lines |
| ZcUsher.Bot.RunRemoteLines | ZoomController/UsherBot.cs:460-503 | the lines, in order, give the script's state |
| ZcUsher.Bot.RunRemoteLine | ZoomController/UsherBot.cs:460-503 | one line extends the state by its actions |
| ZcUsher.Bot.ScriptLineStep | ZoomController/UsherBot.cs:460-503 | the modes, leave calls and exit flag after one more line are those of running that line after the earlier ones |
| ZcUsher.Bot.RunRemoteActions | ZoomController/UsherBot.cs:468-502 | the actions of a line, in order |
| ZcUsher.Bot.ScriptStep | ZoomController/UsherBot.cs:468-502 | an appended action changes the modes by `ModeStep`, adds its leave call and can only set the exit flag |
| ZcUsher.Bot.LeaveCallsAppend | ZoomController/UsherBot.cs:488-498 | the leave calls of two scripts in a row are those of the first followed by those of the second |
| ZcUsher.Bot.RunRemoteAction | ZoomController/UsherBot.cs:468-502 | exit leaves without ending the meeting and stops the bot; kill ends the meeting; a mode line switches that mode |
| ZcUsher.Bot.LeaveMeetingSafely | ZoomController/UsherBot.cs:1379-1425 | a host leaving without ending first hands host to the first co-host; the meeting ends for all when there is none or the hand-off throws; no own record throws |
| ZcUsher.Bot.FindCoHost | ZoomController/UsherBot.cs:1391-1399 | the loop returns `FirstCoHost` |
| ZcUsher.Bot.FirstCoHostAt | ZoomController/UsherBot.cs:1391-1399 | a co-host with no co-host before it is the one `FirstCoHost` picks |
| ZcUsher.Bot.NoCoHost | ZoomController/UsherBot.cs:1391-1399 | without co-hosts `FirstCoHost` finds none |
| ZcUsher.Bot.Tick | ZoomController/UsherBot.cs:390-441 | nothing once exiting; otherwise the roster rebuilt when it changed, the modes, leave calls and exit flag of the remote script, the layout call, and the participant state of `TickPart`: unchanged when paused, else the participant actions and, unless they threw, the chat actions |
| ZcUsher.Bot.LoadThenRun | ZoomController/UsherBot.cs:409-425 | the roster step, then the state of the remote script, the layout call and `TickPart` |
| ZcUsher.Bot.RemoteThenParticipants | ZoomController/UsherBot.cs:411-425 | the remote script's modes, leave calls and exit flag and the layout call, then the participant state of `TickPart` |
| ZcUsher.Bot.RemoteAndLayout | ZoomController/UsherBot.cs:411-414 | the remote script's modes, leave calls and exit flag, then the layout call |
| ZcUsher.Bot.ParticipantsThenChat | ZoomController/UsherBot.cs:422-425 | the state of `ParticipantsThenChatOutcome`: the chat actions run only when the participant actions did not throw |
| ZcUsher.Bot.OnlyCommandsChangeSettings | ZoomController/UsherBot.cs:803-957 | dropped and refused messages change nothing; small talk and "/topic" change only the greeting table and append to the log; a sender who is not an administrator changes no setting |
| ZcUsher.Bot.RouteKeepsSettings | ZoomController/UsherBot.cs:803-957 | every route but a command changes only the greeting table and appends to the log, and the refused routes change nothing |
| ZcUsher.Bot.TopicRequestGetsTheLine | ZoomController/UsherBot.cs:933-938 | "/topic" from anyone sends at most one message, to whoever asked, ending with the topic line; a formatting exception sends nothing |
| ZcUsher.Bot.TopicExtends | ZoomController/UsherBot.cs:142-164 | `SendTopic` only appends to the call log |
| ZcUsher.Bot.OnChatMessageReceive | ZoomController/UsherBot.cs:803-1304 | the whole chat state and the exception are those of `ChatMessageOutcome` |
| ZcUsher.Bot.AnswerRoute | ZoomController/UsherBot.cs:803-1304 | the state of `RouteOutcome` for the route |
| ZcUsher.Bot.KeywordFor | ZoomController/UsherBot.cs:862-871 | the `foreach` over the whole `BroadcastCommands` table: a reply exactly when some key's (swapped) match succeeds, and then the value of the last such key in the table's enumeration order |
| ZcUsher.Bot.BotsAnswer | ZoomController/UsherBot.cs:884-911 | none without chat bots; otherwise `FirstAnswer`: the answer of the first bot that answers, every earlier bot having had none |
| ZcUsher.Bot.Fallback | ZoomController/UsherBot.cs:884-923 | the chat bots, then the small-talk table, then a random line |
| ZcUsher.Bot.FirstChoice | ZoomController/UsherBot.cs:859-871 | the last matching keyword's reply over the greeting |
| ZcUsher.Bot.SmallTalkReply | ZoomController/UsherBot.cs:859-923 | the reply when the topic was not asked for |
| ZcUsher.Bot.SmallTalkChangesNoSetting | ZoomController/UsherBot.cs:846-930 | small talk changes only the greeting table, and only appends to the call log |
| ZcUsher.Bot.RespondChangesNoSetting | ZoomController/UsherBot.cs:873-930 | the reply step changes only the greeting table, and only appends to the call log |
| ZcUsher.Bot.KeywordRepliesAreNotSpoken | ZoomController/UsherBot.cs:855-928 | a keyword's canned reply is formatted and sent to the reply recipient, never spoken, or the formatting exception is returned and nothing is sent |
| ZcUsher.Bot.TopicQuestionGetsTheLine | ZoomController/UsherBot.cs:873-881 | a question about the topic that neither a greeting nor a keyword answered gets at most one message, to the reply recipient, ending with the topic line |
| ZcUsher.Bot.SmallTalkReplies | ZoomController/UsherBot.cs:851-931 | otherwise the small-talk reply is formatted and sent once, spoken when public or in a two-person meeting unless it is a keyword reply; no reply sends nothing |
| ZcUsher.Bot.TalkBack | ZoomController/UsherBot.cs:846-930 | the greeting table, the call log and the exception of `TalkBackOutcome` |
| ZcUsher.Bot.Respond | ZoomController/UsherBot.cs:873-930 | the state of `RespondOutcome`: the topic when asked for and nothing answered, else the reply or the fallback |
| ZcUsher.Bot.FirstReply | ZoomController/UsherBot.cs:859-871 | the greeting, replaced by a matching keyword's reply; the greeting table of the one-time greeting |
| ZcUsher.Bot.ChainReply | ZoomController/UsherBot.cs:884-923 | the fallbacks are tried only while nothing answered |
| ZcUsher.Bot.SendReply | ZoomController/UsherBot.cs:925-928 | the state of `ReplyOutcome`: a formatting exception is returned and nothing is sent |
| ZcUsher.Bot.CommandsChangeOnlyTheirFields | ZoomController/UsherBot.cs:959-1304 | each command branch changes only the field it owns, a missing argument does nothing, only the topic branches and a mode switch throw, and the call log is only appended to |
| ZcUsher.Bot.TopicOrBroadcastFields | ZoomController/UsherBot.cs:965-1050 | the broadcast and topic branches keep the modes and the waiting-room message, a broadcast does not throw, and the topic change throws exactly when `TopicCommand` does |
| ZcUsher.Bot.SettingFields | ZoomController/UsherBot.cs:1052-1148 | the setting branches keep the topic, the broadcast times and the greeting table; only a mode switch throws |
| ZcUsher.Bot.ModeFields | ZoomController/UsherBot.cs:1092-1120 | a mode command changes only the modes and the call log, the modes only with on or off |
| ZcUsher.Bot.ModeSwitchStaysMade | ZoomController/UsherBot.cs:1092-1120 | the switch is made even when naming the mode in the reply throws, and then nothing is sent |
| ZcUsher.Bot.ParticipantCommandActsOnce | ZoomController/UsherBot.cs:1186-1304 | a participant command makes at most one call about a participant, the one `TargetCommand` chose, after the reply, on the participant the name resolves to, never the bot |
| ZcUsher.Bot.RunCommand | ZoomController/UsherBot.cs:959-1304 | the whole chat state and the exception of `CommandOutcome`: the branch `ClassifyCommand` gives, replies to the sender, the `/topic <arg>` reply to the reply recipient |
| ZcUsher.Bot.RunPlan | ZoomController/UsherBot.cs:965-1304 | the state of `PlanOutcome` for the branch |
| ZcUsher.Bot.TopicOrBroadcastPlan | ZoomController/UsherBot.cs:965-1050 | the state of `TopicOrBroadcastOutcome` |
| ZcUsher.Bot.SettingPlan | ZoomController/UsherBot.cs:1052-1148 | the state of `SettingOutcome` |
| ZcUsher.Bot.AnswerPlan | ZoomController/UsherBot.cs:1058-1304 | the call log grows by exactly `AnswerCalls` of the branch |
| ZcUsher.Bot.SpeakerNotice | ZoomController/UsherBot.cs:716 | only the "not implemented" notice to the sender |
| ZcUsher.Bot.SayCommand | ZoomController/UsherBot.cs:1172-1177 | the text to everyone, spoken only for `/speak` |
| ZcUsher.Bot.RenameUsageReply | ZoomController/UsherBot.cs:1155-1160 | the two usage lines to the sender |
| ZcUsher.Bot.PlayCommand | ZoomController/UsherBot.cs:1179-1184 | the reply naming the sound, then the sound |
| ZcUsher.Bot.EmailCommand | ZoomController/UsherBot.cs:1058-1090 | the calls of `EmailCalls`: the usage reply, or the mail and a reply saying whether it went out |
| ZcUsher.Bot.ModeCommand | ZoomController/UsherBot.cs:1092-1120 | the state of `ModeOutcome`: the usage reply without on or off; otherwise the switch, and a reply through `GetFirstName` whose exception leaves the switch made and sends nothing |
| ZcUsher.Bot.WaitMsgCommandRun | ZoomController/UsherBot.cs:1122-1148 | the message and the reply of `WaitMsgCommand` |
| ZcUsher.Bot.ParticipantCommand | ZoomController/UsherBot.cs:1186-1304 | the calls of `ActionCalls` for `TargetCommand`: the reply, the reply and the call, or the speaker notice |
| ZcUsher.Bot.BroadcastCommand | ZoomController/UsherBot.cs:966-991 | the state of `BroadcastOutcome`: refused by `BroadcastGuard`, or sent to everyone; the time is recorded whether or not it went out |
| ZcUsher.Bot.ChangeTopic | ZoomController/UsherBot.cs:994-1050 | the topic and reply of `TopicCommand`, and the topic line to everyone after a set or a force |
| ZcUsher.Bot.ApplyTopic | ZoomController/UsherBot.cs:1042-1047 | the topic takes its new value, the reply goes to the reply recipient, and after a set or a force the new topic line goes to everyone; nothing else changes |
| Sound.SplitCamelCaseSpaced | ZoomController.TTS/Sound.cs:98-105 | the splitter equals the character-level reference: one space exactly before each match of the pattern, nothing else changed |
| Sound.SplitCamelCaseRoundTrip | ZoomController.TTS/Sound.cs:102-105 | the pieces, concatenated, are the input, and none is empty when the input is not |
| Sound.JoinPiecesSpaced | ZoomController.TTS/Sound.cs:104 | joining the pieces with single blanks is the reference definition |
| Sound.PiecesConcat | ZoomController.TTS/Sound.cs:104 | `Regex.Split`'s pieces glue back to the input |
| Sound.CamelCaseExample | ZoomController.TTS/Sound.cs:99 | "CamelCase" becomes "Camel Case" |
| Sound.ShortWordExamples | ZoomController.TTS/Sound.cs:112-113 | short words split too: "iPad" becomes "i Pad"; "AI" is unchanged |
| Sound.CapitalRunExample | ZoomController.TTS/Sound.cs:104 | "AIBot" becomes "AI Bot" |
| Sound.ReplaceAIRoundTrip | ZoomController.TTS/Sound.cs:116 | on text without '<', turning the markup back into "AI" gives the text again |
| Sound.ReplaceAINoMatch | ZoomController.TTS/Sound.cs:116 | text without a whole-word "AI" is left unchanged |
| Sound.AIExamples | ZoomController.TTS/Sound.cs:116 | "AI" and "an AI" get the markup; "AIR" is unchanged |
| Sound.TTSPreprocessRoundTrip | ZoomController.TTS/Sound.cs:110-118 | on text without '<', restoring the spelled-out "AI"s gives the split text back |
| Sound.ExtensionFrom | ZoomController.TTS/Sound.cs:56 | the extension is empty or a suffix of the path of at least two characters that starts with its only '.' and holds no separator; a path without '.' has none; a '.' that is not last and has no '.' or separator after it starts the extension |
| Sound.WavExtension | ZoomController.TTS/Sound.cs:66 | appending ".wav" gives the extension ".wav" |
| Sound.ResolvedFileIsWav | ZoomController.TTS/Sound.cs:55-66 | a path without an extension that is not a directory is played as its ".wav" file under "sounds\\" |
| Sound.HandleAllEach | ZoomController.TTS/Sound.cs:71-96 | one effect per item, in order |
| Sound.HandleAllAppend | ZoomController.TTS/Sound.cs:71-96 | draining two queues one after the other is draining their concatenation |
| Sound.HandleFailures | ZoomController.TTS/Sound.cs:78-94 | an unknown action is logged, and so is a pick from a directory without a ".wav" file |
| Sound.SoundQueue.constructor | ZoomController.TTS/Sound.cs:17 | the queue and the effects start empty |
| Sound.SoundQueue.Speak | ZoomController.TTS/Sound.cs:121-124 | the pre-processed text joins the tail of the queue; nothing else changes |
| Sound.SoundQueue.Play | ZoomController.TTS/Sound.cs:126-130 | the path joins the tail of the queue unchanged |
| Sound.SoundQueue.TimerHandler | ZoomController.TTS/Sound.cs:71-96 | the queue is emptied and the effects grow by `HandleAll` of the old queue, in order |
| Sound.SpeakThenDrain | ZoomController.TTS/Sound.cs:121-124 | spoken text comes out pre-processed, after everything queued before it |

## Left out

- File I/O is not modelled: reading the roster, the remote command file and the settings. A file's lines, its existence and its write time are parameters.
- Concurrency is not modelled: the `Monitor` lock, the `volatile` exit flag, `Interlocked`, the `ConcurrentQueue` and the timers. Each handler runs to completion in one step. The "busy" branch of the tick handlers is not modelled.
- The Zoom controller, the SDK and `Interop` are not modelled. Their calls are entries in a call log, and an oracle answers them.
- The clock and the current hour are parameters.
- Regular-expression replacement, `string.Format`, `repr`, title case and the `RemoveIPhoneStuff` pattern are functions of the `Platform` module. That module is only declared by its properties.
- `\w` is the `isWord` parameter of `Sound`.
- `Directory.Exists` and the random `.wav` pick are parameters.
- `SoundPlayer` and `SpeechSynthesizer` are not modelled. The model does not cover whether the engine interprets the say-as markup, or the voice selection in the static constructor.
- Sound.ExtensionFrom: the invalid-path-character exception of `Path.GetExtension` is not modelled.
- `RandomTalk` is a parameter, and so is the plug-in loading behind `GetChatBots`. Of `GetChatBots` only the ordering by intelligence level is kept.
- The chatbot back ends, `chatbot.py` and the Gmail sender are not modelled. Their answers are oracles.
- `SetSpeaker` is a stub in the code, and only its notice is modelled.
- `LoadSettings` and the settings JSON are not modelled. The configuration is a constant of the bot within a handler.
- `ZoomClosedException` is dropped like any other exception.
- `WriteRemoteCommands`, `ClearRemoteCommands`, `Dispose` and the meeting-option and attendance event handlers are not modelled. They only log or do file I/O.
- The `Global.BotAutomationFlag` enum of the ZoomController version, `All` included, is not declared in the modelled sources. `Modes` takes its values from the Demo enum (Demo/UsherBot/UsherBot.cs:47-62) and assumes the ZoomController enum has the same ones, so passive mode off sets the eleven bits `AllFlags` in both versions.
- The enumeration order of a .NET `Dictionary` is not modelled. `broadcastOrder` is any order that lists each key of the table once, and the lemmas hold for every such order.
- Deleting the remote command file after it is read is not modelled, since the file system is not. The file's lines are a parameter of each tick, so the model does not promise that a file is read only once.
- `Strings` maps case and white space for ASCII only. .NET `ToLower`, `ToUpper`, `Trim` and `\s` also handle the rest of Unicode. This affects the roster keys of `CleanUserName`, the casing of `GetFirstName` and `ParseOnOff`.
- `Platform.format` is total. `string.Format` throws `FormatException` on a malformed template, and the model follows that exception only where a reply is built from a configured template: the topic, the greeting and the small-talk reply (`FormatChatResponse`). The other formatted replies use fixed templates and are taken not to throw.
- ZcUsher.Bot.BroadcastCommand, DemoUsher.Bot.BroadcastCommand: the `BroadcastCommands` table is taken to be non-null, as the code reads it without a test (ZoomController/UsherBot.cs:965, Demo/UsherBot/UsherBot.cs:1322).
- ZcUsher.Bot.EmailCommand: the `EmailCommands` table is taken to be non-null, as the code reads it without a test.
- These behaviours are modelled as written:
  - The unknown-participant admission of the ZoomController version (`dtWhenToAdmit >= dtNow`) is tried while the time is still ahead. The Demo version (`dtWhenToAdmit < dtNow`) skips a participant once the time has passed.
  - The keyword test and the topic-question test of the ZoomController version pass the pattern where the input belongs (ZoomController/UsherBot.cs:864 and 876).
  - Both versions build the keyword pattern as `\b$` followed by the keyword and `\b`. The `$` anchor is kept as written. Regular-expression matching is an oracle of `Platform`, so the model draws no conclusion about which keywords can match.
  - `SendTopic` of the ZoomController version returns true whatever the send did.
  - In both versions a citadel line in the remote command file also falls through to the unknown-command report (`Commands.ChainAction`).
  - The first greeting throws when "morning" has no one-time greeting. The ZoomController version has already recorded the participant as greeted by then.
