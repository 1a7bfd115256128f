# Twitch chat bot manager — a Dafny model

The program is a desktop window that logs several Twitch accounts into one
channel's IRC chat and has them post phrases in turn. This project models
its two pieces of sequential logic and proves what they promise:

- **The driver** (`main_gui.py`, class `TwitchBotGUI`), in `gui.dfy` and
  `inputs.dfy`:
  - the `running` flag as the start and stop buttons and the `stopped`
    control message move it;
  - `async_main`, which:
    - turns the account, proxy and phrase file lines into lists;
    - creates one bot per account, paired with the proxy at the same
      position;
    - connects every bot;
    - rotates the phrases over the bots with one shared cursor until
      `running` drops;
    - closes every bot.
- **One account's IRC connection** (`twitch_bot.py`, class `TwitchBot`), in
  `irc.dfy`. The connection is a state machine over `connected`, the
  reader and writer, the reader task and the time of the last message.
  Everything written to the server is kept as a ghost sequence of wire
  lines. Each method of the class is proved to perform exactly one step
  function over the value `Conn`. Each step function is proved to keep the
  connection invariant:
  - connected exactly while the reader task runs;
  - every line ends in CR LF;
  - chat messages at least 1.6 s apart.
- `text.dfy` holds the Python string operations these rely on: `strip`,
  `lstrip('#')`, `rstrip('\r\n')`, `split(';', 1)`, `startswith` and
  `lower`.

The modelling choices:

- **The transport** is reduced to "opening succeeds or fails".
- **Inbound traffic** is a sequence of lines; an empty line is end of
  stream.
- **Time** is integer milliseconds.
- **The file dialogs and file reads** become parameters. A file read is a
  `ReadResult`, either its lines or an error.
- **What happens during a run** comes as a schedule of `Turn`s, one per bot
  visit:
  - whether the user pressed stop;
  - what the bot's reader received;
  - whether a reconnection opens;
  - the clock.
- **The log window** is a ghost sequence of `Event`s.
- **The rotation** is recorded as a ghost trace of `Visit`s. The ghost
  function `Rotation` gives, from the bots' connections and the schedule,
  the visits, the final connections and the final cursor of the send loop,
  one `VisitStep` per turn. The loop is proved to do exactly that. What the
  visits mean is stated by two predicates:
  - `RoundRobin`: visit `m` is to bot `m % n`;
  - `Cyclic`: the `q`-th send attempt uses phrase `q % |messages|`.

## Model

| member | source | states |
|---|---|---|
| Text.Strip | main_gui.py:296 | `strip()` leaves no leading or trailing whitespace and never lengthens its argument |
| Text.StripInfix | main_gui.py:296-300 | what `strip()` keeps is the infix after the leading whitespace, and everything it drops is whitespace |
| Text.StripEmpty | main_gui.py:297 | a stripped line is empty exactly when every character of the line is whitespace |
| Text.StripExcludes | main_gui.py:299-300 | stripping cannot introduce a `;`, so the name part of an account keeps none |
| Text.LStripHashes | twitch_bot.py:18 | `lstrip('#')` removes the whole run of leading `#`, not just one, and keeps the rest as a suffix |
| Text.RStripLineBreaks | twitch_bot.py:69 | `rstrip('\r\n')` removes only trailing CR/LF characters and keeps the rest as a prefix |
| Text.SplitFirst | main_gui.py:299 | `split(';', 1)` cuts at a `;`, the left part has none, and rejoining the parts gives back the line |
| Text.SplitFirstUnique | main_gui.py:299 | a split at the first `;` is the only one whose left part is free of `;`, so the token may itself contain `;` |
| Inputs.ParseAccountLine | main_gui.py:296-300 | a line yields an account exactly when, stripped, it is non-empty and contains `;`; both halves come out stripped, and the name has no `;` |
| Inputs.ParseAccountLineSplits | main_gui.py:296-300 | for any split of the stripped line into a `;`-free name part, `;` and a rest, the account read is exactly that name and rest, each stripped |
| Inputs.ParseAccounts | main_gui.py:293-300 | never more accounts than lines, and each account is in stripped form |
| Inputs.ParseAccountsMeaning | main_gui.py:293-300 | an account is in the list exactly when some line of the file reads as that account; with `ParseAccountsAppend` the list is those accounts in line order |
| Inputs.ParseAccountsAppend | main_gui.py:295-300 | parsing goes line by line: the accounts of two blocks of lines joined are the two account lists joined, so file order is kept |
| Inputs.AccountLineRoundTrip | main_gui.py:299-300 | an account written as `name;token` parses back to itself, whatever `;` the token holds |
| Inputs.AccountsRoundTrip | main_gui.py:293-300 | a list of accounts written one per line parses back to the same list, in order |
| Inputs.NonBlankLines | main_gui.py:314 | the proxy and phrase lists hold only non-empty stripped lines, never more than were read |
| Inputs.NonBlankLinesMeaning | main_gui.py:314-322 | a text is kept exactly when it is non-empty and is the stripped form of some line read |
| Inputs.NonBlankLinesAppend | main_gui.py:322 | the filter works line by line, so file order is kept |
| Inputs.NonBlankLinesKeepsClean | main_gui.py:314 | lines that are already stripped and non-empty all pass, so filtering twice is filtering once |
| Inputs.ProxyFor | main_gui.py:334 | bot `i` gets `proxies[i]` exactly when `i < len(proxies)`, and no proxy otherwise |
| Inputs.Prepare | main_gui.py:292-329 | a run stops before any bot exists exactly when: the accounts read fails; or it yields no account; or the phrases read fails; or it yields no phrase. Otherwise it proceeds with the parsed accounts and filtered phrases, and with the filtered proxies, or none if that read failed or no proxy file was chosen |
| Irc.Frame | twitch_bot.py:86 | a wire line is the data followed by exactly CR LF |
| Irc.InitialInvariant | twitch_bot.py:14-27 | a new bot satisfies the connection invariant |
| Irc.WriteStep | twitch_bot.py:82-88 | `_write` appends one framed line when a writer exists, writes nothing otherwise, changes nothing else and keeps the invariant |
| Irc.HasOAuthPrefix | twitch_bot.py:49 | the token test accepts exactly the tokens whose first six characters are `oauth:` in any letter case |
| Irc.ConnectStep | twitch_bot.py:29-60 | **already connected:** nothing changes and nothing is written. **Open fails:** it raises with the state untouched. **Bad token:** it raises exactly when the token lacks the prefix; reader and writer then exist, no line was written and the bot is not connected. **Success:** exactly `PASS`, `NICK`, `JOIN #channel` are written and the bot is connected with a running reader. The invariant is kept |
| Irc.Received | twitch_bot.py:64-66 | the reader handles the inbound lines before the first empty read, and only those |
| Irc.IsPing | twitch_bot.py:68-70 | a line is a keepalive probe exactly when it starts with `PING`: dropping trailing CR and LF first never changes the answer |
| Irc.Replies | twitch_bot.py:69-72 | every line the reader writes is `PONG :tmi.twitch.tv`, at most one per inbound line |
| Irc.RepliesAppend | twitch_bot.py:64-72 | replies are produced line by line, in order |
| Irc.RepliesEmpty | twitch_bot.py:69-72 | the reader writes nothing exactly when no inbound line is a `PING` |
| Irc.ReadStep | twitch_bot.py:62-80 | the read loop appends the replies to the received probes, if a writer exists. When the stream ends or an empty read arrives, the bot is no longer connected. Timing state is unchanged and the invariant is kept |
| Irc.SendTime | twitch_bot.py:98-101 | a message goes out no earlier than the call and no earlier than 1600 ms after the previous one, and waits no longer than that |
| Irc.SendStep | twitch_bot.py:90-109 | `send_message` raises when not connected or without a writer. Otherwise it writes exactly one `PRIVMSG #channel :message` at `SendTime` and records the clock after the flush as `_last_sent`. The invariant is kept |
| Irc.CloseStep | twitch_bot.py:111-135 | `close` leaves the bot disconnected with no reader, writer or task. It writes `PART #channel` exactly when a writer existed, and keeps the timing state and the invariant |
| Irc.CloseIdempotent | twitch_bot.py:111-135 | closing twice is closing once |
| Irc.SendsSpaced | twitch_bot.py:96-109 | a successful send is at least 1600 ms after every earlier message of that bot, across reconnections |
| Irc.ReceivedUpTo | twitch_bot.py:64-66 | the lines the read loop walks before stopping are exactly the received ones |
| Irc.TwitchBot.constructor | twitch_bot.py:14-27 | the bot keeps its login, token and proxy and drops every leading `#` of the channel; it starts disconnected with `_last_sent` zero and satisfies the invariant |
| Irc.TwitchBot.Write | twitch_bot.py:82-88 | the method performs `WriteStep` |
| Irc.TwitchBot.Connect | twitch_bot.py:29-60 | the method performs `ConnectStep` and returns its outcome |
| Irc.TwitchBot.ReadLoop | twitch_bot.py:62-80 | the loop over inbound lines performs `ReadStep` |
| Irc.TwitchBot.SendMessage | twitch_bot.py:90-109 | the method performs `SendStep` and returns its outcome |
| Irc.TwitchBot.Close | twitch_bot.py:111-135 | the method performs `CloseStep` |
| Gui.AccountedStep | main_gui.py:352-368 | a visit to the next bot in turn that uses the phrase under the cursor keeps the rotation's bookkeeping. The number of send attempts grows by one exactly for a send attempt |
| Gui.NextBotPosition | main_gui.py:352 | the next bot the rotation visits is the visit count modulo the number of bots |
| Gui.AccountedMeans | main_gui.py:350-368 | the rotation's bookkeeping means: visit `m` is to bot `m % n` and names that bot's account; the `q`-th send attempt of the run uses `messages[q % len(messages)]` |
| Gui.VisitStep | main_gui.py:353-369 | one visit as a function of the bot's connection: it names the bot and its account. It is a skip exactly when the bot is disconnected and its reconnection does not open or its token lacks the `oauth:` prefix; a skip keeps the bot disconnected, writes nothing and carries that error. A send attempt that succeeds writes, after the reader's replies, the handshake if the bot was just reconnected and then exactly one `PRIVMSG #channel :message`, and records its send time. One that raises changes nothing and never follows a reconnection. A connection that keeps its invariant keeps it, and then no send attempt fails |
| Gui.Rotation | main_gui.py:349-369 | the send loop from a turn, a bot and a cursor: it ends at the first turn with a stop request, and otherwise makes one `VisitStep` to that bot with the phrase under the cursor, advancing the cursor on a send attempt and moving to the next bot, the first after the last. Its contract keeps one connection per bot; what it does is stated by the lemmas below and tied to the loop by `Rotate` |
| Gui.RotationAccounted | main_gui.py:349-369 | the send loop from any point keeps the rotation's bookkeeping of the visits before it: the next bot in turn, its account, the phrase under the cursor; its final cursor counts the send attempts |
| Gui.RotationStops | main_gui.py:350-352 | the send loop makes one visit per turn while no stop is requested and ends at the first turn with a stop request |
| Gui.RotationSkips | main_gui.py:355-361 | a bot is skipped only on a turn whose reconnection does not open or when its token lacks the `oauth:` prefix |
| Gui.RotationKeepsInvariant | main_gui.py:349-369 | bots whose connections keep the connection invariant keep it through the whole send loop, and none of their send attempts fails |
| Gui.RotationMeans | main_gui.py:349-369 | the send loop from its start visits the bots round in list order, each visit naming its bot's account, and the `q`-th send attempt uses `messages[q % len(messages)]`; the final cursor counts the send attempts |
| Gui.RunEndsClean | main_gui.py:340-380 | from the connections the first connection attempts leave, no send attempt of the rotation fails, and after the teardown, with or without the rotation, every bot is disconnected with its connection invariant intact |
| Gui.LaunchedEndsClean | main_gui.py:331-380 | whatever a run past its setup did, every bot ends disconnected with its connection invariant intact |
| Gui.Opened | main_gui.py:340-346 | bot `j`'s connection after the first connection attempts is the outcome of one connection attempt from a fresh bot |
| Gui.LockStep | main_gui.py:350-368 | while no reconnection fails, visit `m` is bot `m % n` sending phrase `m % len(messages)` |
| Gui.OnePhrasePerBot | main_gui.py:362 | with as many bots as phrases and no failed reconnection, bot `b` always sends phrase `b` |
| Gui.SkipKeepsPhrase | main_gui.py:355-362 | a skipped bot does not consume a phrase: the next send attempt uses the phrase the skipped bot would have sent |
| Gui.TwitchBotGui.constructor | main_gui.py:22-36 | no file chosen, empty channel, not running, no bots |
| Gui.TwitchBotGui.SelectAccountsFile | main_gui.py:215-219 | a chosen name replaces the accounts file, a cancelled dialog keeps it |
| Gui.TwitchBotGui.SelectProxiesFile | main_gui.py:221-225 | a chosen name replaces the proxies file, a cancelled dialog keeps it |
| Gui.TwitchBotGui.SelectPhrasesFile | main_gui.py:227-231 | a chosen name replaces the phrases file, a cancelled dialog keeps it |
| Gui.TwitchBotGui.StartBots | main_gui.py:237-254 | refused, changing nothing, while running. Otherwise the channel name becomes the stripped text, and the start is refused exactly when the channel is empty or the accounts or phrases file is unset. `running` becomes true exactly when the start goes ahead |
| Gui.TwitchBotGui.StopBots | main_gui.py:260-270 | afterwards not running; the stop is logged exactly when the manager was running |
| Gui.TwitchBotGui.HandleControl | main_gui.py:201-213 | only a `stopped` message clears `running`; others leave it alone |
| Gui.TwitchBotGui.CreateBots | main_gui.py:331-336 | one fresh, distinct, disconnected bot per account, in account order, with the account's login and token, the proxy of the same position and the channel without leading `#` |
| Gui.TwitchBotGui.ConnectAll | main_gui.py:340-346 | every bot gets one connection attempt, in order. A failure does not stop the others, and each outcome is logged in bot order |
| Gui.TwitchBotGui.VisitBot | main_gui.py:353-369 | one visit: the reader's traffic is handled first. A disconnected bot is reconnected; a failed reconnection skips the bot and keeps the cursor. Otherwise phrase `idx % len(messages)` is sent and the cursor advances whether the send succeeds or raises. The visit's log lines are appended |
| Gui.TwitchBotGui.Rotate | main_gui.py:349-369 | the send loop ends with `running` false. When it was running, its visits, the cursor it returns and every bot's connection are exactly those of `Rotation` from the bots' connections at its start, with one turn of the schedule per check of `running`. Otherwise nothing is visited and nothing changes. The log holds the visits' lines and the stop line |
| Gui.TwitchBotGui.Pass | main_gui.py:351-369 | one pass over the bots, `running` checked before each, keeps the visits so far plus the rest of `Rotation` equal to the whole rotation, and ends at the first bot unless a stop cut it short, after which the whole rotation is done |
| Gui.TwitchBotGui.Step | main_gui.py:352-369 | the turn of one bot: `running` stays true exactly when the turn brings no stop request. A stop ends the rotation; otherwise the bot is visited as one step of `Rotation` |
| Gui.TwitchBotGui.Halt | main_gui.py:352-353 | a stop request on a bot's turn leaves `running` false with the rotation complete and the stop logged |
| Gui.TwitchBotGui.Advance | main_gui.py:355-369 | a turn without a stop request visits bot `i` as one step of `Rotation`, advancing to the next bot, the first after the last |
| Gui.TwitchBotGui.AsyncMain | main_gui.py:290-380 | **Setup fails:** exactly the setup error is logged, after a proxy warning if the proxy file was unreadable, and nothing else changes. **Setup succeeds:** one bot per account with its proxy, then the launch line, the connection results, the rotation, the stop and the teardown, in that order. The trace is `Rotation` from the connections the first connection attempts left, if the manager was running. Every bot ends as `close` leaves that rotation's final connection for it, and the manager is not running |
| Gui.TwitchBotGui.Launch | main_gui.py:331-380 | after a successful setup, fresh bots one per account are created, connected, rotated over as `Rotation` says from the connections the first attempts left, and closed, with the log lines in that order |
| Gui.TwitchBotGui.Open | main_gui.py:331-346 | one fresh bot per account with its proxy, the launch line, then one connection attempt per bot, logged in bot order; each bot's connection is then what `Opened` gives |
| Gui.TwitchBotGui.Finish | main_gui.py:349-380 | the send loop, whose visits are `Rotation` from the bots' connections when the manager was running and none otherwise, then the teardown: every bot ends as `close` leaves the loop's final connection for it |
| Gui.TwitchBotGui.Run | main_gui.py:272-288 | after the worker thread's run and its `stopped` message, the manager is not running, so it can be started again |
| Gui.TwitchBotGui.CloseAll | main_gui.py:372-380 | every bot is closed in list order, each close logged, then the final "all stopped" line |
| Gui.TwitchBotGui.CloseBot | main_gui.py:374-378 | one bot closed and logged; every other bot unchanged |

Two places where the code does something a reader might not expect; the
model follows the code in both:

- `start_bots` (main_gui.py:242) assigns the channel name before checking
  it and the files, so a start refused for a missing file still changes
  the channel name.
- In the send loop (main_gui.py:355-361) only a failed reconnection skips
  the bot. After a successful one the bot sends in the same visit.

## Left out

- The window itself (layout, styles, message boxes, the status label, the
  delay slider) is presentation and is not modelled.
- **Threads and the event loop.** The worker thread, the event loop and the
  `asyncio.Lock` around sends are not modelled; the run is sequential.
- **The teardown after a stop.** `stop_bots` also schedules `loop.stop()`
  from the window's thread (main_gui.py:264-268). In the program this can
  halt `async_main` at its next suspension point, before its `finally`
  closes the bots. The model assumes the loop observes `running` first, so
  the teardown always runs.
- **Concurrent reader traffic.** The reader task runs alongside the
  rotation in the program. In the model, what a bot's reader received is
  handled when the rotation next visits that bot.
- **The race with the reader task during `connect`.** The program sets
  `connected` after a 0.5 s pause, so a stream that ends during that pause
  leaves a connected bot with a finished reader. The model completes
  `connect` atomically.
- **Networking.** TLS, the TCP connection, `drain`, `wait_closed` and
  byte decoding with `errors='ignore'` are not modelled. Opening is a
  boolean input; inbound lines are strings; the time a flush takes is an
  input in milliseconds.
- **The clock.** The float clock and the sleeps (the configurable delay
  between sends, the 0.5 s and 0.05 s pauses) are not modelled. The clock
  at each send is an input, and only the 1.6 s spacing rule is modelled.
- **Files.** Opening and decoding the files is left out. A read gives its
  lines or an error; a path that is unset or empty reads as an error, as
  `open` fails on it.
- **Exceptions.** An exception escaping `async_main` and the "asyncio loop"
  error line are not modelled. In the model every exception is caught
  where the program catches it.
- **The proxy** is stored on each bot and never used by the program; the
  model does the same.
- **Case folding.** `lower()` is modelled for ASCII letters only. It is used
  only for the `oauth:` prefix test, on which non-ASCII case folding has no
  effect.
- Gui.TwitchBotGui.Rotate: a run's schedule is finite, and a run whose
  schedule is used up behaves as if the user pressed stop. This bounds the
  loop, which in the program runs until the user stops it.
- Gui.TwitchBotGui.Rotate: its contract ties the loop to `Rotation`; that
  the connection invariant holds throughout and that no send fails is
  proved about `Rotation` (`RotationKeepsInvariant`, `RunEndsClean`) rather
  than carried as a loop invariant.
- Gui.TwitchBotGui.Run: states only that the manager ends idle; the rest of
  the run is stated by `AsyncMain`.
