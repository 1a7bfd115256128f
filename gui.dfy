/**
 * The bot manager's driver (main_gui.py, class `TwitchBotGUI`): the
 * `running` flag as the window's buttons and control messages move it, and
 * `async_main`, which prepares the lists, creates one bot per account,
 * connects them, rotates the phrases over the bots until `running` drops
 * and finally closes every bot.
 *
 * The window itself, the worker thread and the event loop are not
 * modelled: the run is sequential, what the user or the network does
 * during it arrives as a schedule of `Turn`s, one per bot visit, and the
 * log window becomes a ghost sequence of `Event`s.
 */
module Gui {
  import opened Basics
  import opened Text
  import opened Inputs
  import opened Irc

  /** A line of the log window. */
  datatype Event =
    | SetupFailed(reason: SetupError)
    | ProxiesUnreadable
    | Launching(count: nat, channel: string)
    | ConnectResult(user: string, status: Status)
    | ReconnectResult(user: string, status: Status)
    | Sent(user: string, message: string, status: Status)
    | StopRequested
    | Disconnected(user: string)
    | AllStopped

  /** What pressing "start" did: started, or the warning it showed. */
  datatype StartResult = Started | AlreadyRunning | NoChannel | NoAccountsFile | NoPhrasesFile

  /**
   * What happens around one bot visit: whether the user pressed "stop"
   * just before it, what the bot's reader received since its last visit
   * and whether its stream ended, whether a (re)connection would open,
   * the clock when a message is sent, and how long flushing it takes.
   */
  datatype Turn = Turn(stopRequested: bool, inbound: seq<string>, streamEnds: bool, openOk: bool, now: int, drainMs: nat)

  /**
   * One visit of the rotation to bot number `bot`: a reconnection that
   * failed, so the bot is skipped, or a send attempt, made after a
   * successful reconnection when `reconnected`.
   */
  datatype Visit =
    | Skipped(bot: nat, user: string, error: Error)
    | Attempted(bot: nat, user: string, reconnected: bool, message: string, status: Status)

  /** The turn of visit `k`; once the schedule is used up the user stops the run. */
  function TurnAt(schedule: seq<Turn>, k: nat): (t: Turn)
    ensures !t.stopRequested ==> k < |schedule|
  {
    if k < |schedule| then schedule[k] else Turn(true, [], false, false, 0, 0)
  }

  /** Whether the `i`-th initial connection opens; a missing entry means it does not. */
  function OpenAt(opens: seq<bool>, i: nat): bool {
    i < |opens| && opens[i]
  }

  /** A file path is chosen when it is set and not empty (Python truthiness). */
  predicate Chosen(path: Option<string>) {
    path.Some? && path.value != []
  }

  /** The log lines of one visit: the reconnection's outcome if there was one, then the send's. */
  function EventsOf(v: Visit): (r: seq<Event>)
    ensures 1 <= |r| <= 2
  {
    match v
    case Skipped(_, user, error) => [ReconnectResult(user, Raised(error))]
    case Attempted(_, user, reconnected, message, status) =>
      (if reconnected then [ReconnectResult(user, Done)] else []) + [Sent(user, message, status)]
  }

  /** The log lines of a sequence of visits, in order. */
  function Events(trace: seq<Visit>): (r: seq<Event>)
    ensures |trace| <= |r| <= 2 * |trace|
  {
    if trace == [] then [] else Events(trace[..|trace| - 1]) + EventsOf(trace[|trace| - 1])
  }

  /** The send attempts among some visits, in order. */
  function Attempts(trace: seq<Visit>): (r: seq<Visit>)
    ensures |r| <= |trace|
    ensures forall q :: 0 <= q < |r| ==> r[q].Attempted?
  {
    if trace == [] then []
    else
      var last := trace[|trace| - 1];
      Attempts(trace[..|trace| - 1]) + (if last.Attempted? then [last] else [])
  }

  /** Visits go round the bots in list order: visit `m` is to bot `m % n`. */
  ghost predicate RoundRobin(trace: seq<Visit>, n: nat) {
    n > 0 && forall m :: 0 <= m < |trace| ==> trace[m].bot == m % n
  }

  /** The `q`-th send attempt of the run, whoever makes it, uses phrase `q % |messages|`. */
  ghost predicate Cyclic(trace: seq<Visit>, messages: seq<string>) {
    var sends := Attempts(trace);
    messages != [] && forall q :: 0 <= q < |sends| ==> sends[q].message == messages[q % |messages|]
  }

  /** What reading a required file gives: nothing chosen reads as an error, as opening no file fails. */
  function EffectiveRead(path: Option<string>, read: ReadResult): (r: ReadResult)
    ensures Chosen(path) ==> r == read
    ensures !Chosen(path) ==> r.ReadError?
  {
    if Chosen(path) then read else ReadError
  }

  /** What reading the optional proxy file gives: `None` when no file is chosen. */
  function ProxyInput(path: Option<string>, read: ReadResult): (r: Option<ReadResult>)
    ensures r.Some? <==> Chosen(path)
    ensures r.Some? ==> r.value == read
  {
    if Chosen(path) then Some(read) else None
  }

  /** The proxy file is only read once accounts were found, and an unreadable one is reported and ignored. */
  predicate ProxyWarning(accounts: ReadResult, proxies: Option<ReadResult>) {
    accounts.Read? && ParseAccounts(accounts.lines) != [] && proxies == Some(ReadError)
  }

  /** `bot` was created for `account`, with `proxy`, to join `channel`. */
  predicate MadeFor(bot: TwitchBot, account: Account, proxy: Option<string>, channel: string) {
    && bot.username == account.name && bot.oauthToken == account.token
    && bot.proxy == proxy && bot.channel == LStripHashes(channel)
  }

  /** The account names of some bots, in order. */
  function Usernames(bots: seq<TwitchBot>): (r: seq<string>)
    ensures |r| == |bots|
    ensures forall j :: 0 <= j < |bots| ==> r[j] == bots[j].username
  {
    seq(|bots|, j requires 0 <= j < |bots| => bots[j].username)
  }

  /** The identities of some bots, in order. */
  function Ids(bots: seq<TwitchBot>): (r: seq<Identity>)
    ensures |r| == |bots|
    ensures forall j :: 0 <= j < |bots| ==> r[j] == bots[j].Id()
  {
    seq(|bots|, j requires 0 <= j < |bots| => bots[j].Id())
  }

  /** The log lines of the first connection of bots `ids`, bot `j` opening as `opens` says. */
  function ConnectEvents(ids: seq<Identity>, opens: seq<bool>): (r: seq<Event>)
    ensures |r| == |ids|
    ensures forall j :: 0 <= j < |ids| ==> r[j] == ConnectResult(ids[j].username, ConnectStep(Initial, ids[j], OpenAt(opens, j)).1)
  {
    seq(|ids|, j requires 0 <= j < |ids| => ConnectResult(ids[j].username, ConnectStep(Initial, ids[j], OpenAt(opens, j)).1))
  }

  /** The log lines of the teardown of bots with accounts `users`. */
  function CloseEvents(users: seq<string>): (r: seq<Event>)
    ensures |r| == |users|
    ensures forall j :: 0 <= j < |users| ==> r[j] == Disconnected(users[j])
  {
    seq(|users|, j requires 0 <= j < |users| => Disconnected(users[j]))
  }

  /** The bot the rotation visits after `trace`: the next in the list, or the first after the last. */
  function NextBot(trace: seq<Visit>, n: nat): (b: nat)
    ensures n > 0 ==> b < n
  {
    if trace == [] then 0
    else
      var b := trace[|trace| - 1].bot + 1;
      if b >= n then 0 else b
  }

  /**
   * The bookkeeping of a rotation over bots with identities `ids`, stated
   * visit by visit: each visit goes to the bot after the previous one,
   * wrapping round to the first, and names that bot's account, and a send attempt made after `q` earlier ones uses
   * phrase `q % |messages|`.
   */
  ghost predicate Accounted(trace: seq<Visit>, ids: seq<Identity>, messages: seq<string>)
    decreases |trace|
  {
    && ids != [] && messages != []
    && (trace != [] ==>
      var before, v := trace[..|trace| - 1], trace[|trace| - 1];
      && Accounted(before, ids, messages)
      && v.bot == NextBot(before, |ids|) && v.bot < |ids| && v.user == ids[v.bot].username
      && (v.Attempted? ==> v.message == messages[|Attempts(before)| % |messages|]))
  }

  /** The log lines of visits extend one visit at a time, after whatever was logged before them. */
  lemma EventsSnoc(base: seq<Event>, trace: seq<Visit>, v: Visit)
    ensures base + Events(trace) + EventsOf(v) == base + Events(trace + [v])
  {
    assert (trace + [v])[..|trace|] == trace;
  }

  /** A visit to the next bot in turn that, if it is a send attempt, uses the phrase the cursor points at keeps the bookkeeping. */
  lemma AccountedStep(trace: seq<Visit>, ids: seq<Identity>, messages: seq<string>, v: Visit)
    requires Accounted(trace, ids, messages)
    requires v.bot == NextBot(trace, |ids|) && v.user == ids[v.bot].username
    requires v.Attempted? ==> v.message == messages[|Attempts(trace)| % |messages|]
    ensures Accounted(trace + [v], ids, messages)
    ensures |Attempts(trace + [v])| == |Attempts(trace)| + (if v.Attempted? then 1 else 0)
  {
    assert (trace + [v])[..|trace|] == trace;
  }

  /**
   * What the bookkeeping means for the whole run: visits go round the
   * bots, each names its bot's account, and the send attempts cycle
   * through the phrases.
   */
  lemma {:induction false} AccountedMeans(trace: seq<Visit>, ids: seq<Identity>, messages: seq<string>)
    requires Accounted(trace, ids, messages)
    ensures RoundRobin(trace, |ids|) && Cyclic(trace, messages)
    ensures forall m :: 0 <= m < |trace| ==> trace[m].bot < |ids| && trace[m].user == ids[trace[m].bot].username
  {
    if trace != [] {
      var before, v := trace[..|trace| - 1], trace[|trace| - 1];
      AccountedMeans(before, ids, messages);
      NextBotPosition(before, ids, messages);
      assert forall m :: 0 <= m < |before| ==> trace[m] == before[m];
      var sends, earlier := Attempts(trace), Attempts(before);
      assert sends == earlier + (if v.Attempted? then [v] else []);
      forall q | 0 <= q < |sends|
        ensures sends[q].message == messages[q % |messages|]
      {
        if q < |earlier| {
          assert sends[q] == earlier[q];
        }
      }
    }
  }

  /** Following the rotation, the next bot is the one at the visit count modulo the number of bots. */
  lemma {:induction false} NextBotPosition(trace: seq<Visit>, ids: seq<Identity>, messages: seq<string>)
    requires Accounted(trace, ids, messages)
    ensures NextBot(trace, |ids|) == |trace| % |ids|
  {
    var n := |ids|;
    if trace != [] {
      var before, v := trace[..|trace| - 1], trace[|trace| - 1];
      NextBotPosition(before, ids, messages);
      var q, r := |before| / n, |before| % n;
      assert |before| == q * n + r;
      assert v.bot == r;
      if r + 1 == n {
        assert (q + 1) * n == q * n + n;
        ModUnique(|trace|, n, q + 1, 0);
      } else {
        ModUnique(|trace|, n, q, r + 1);
      }
    }
  }

  /** The reader's traffic, delivered when the bot is visited: `ReadStep` if its reader task runs. */
  ghost function Delivered(s: Conn, turn: Turn): Conn {
    if s.task == Reading then ReadStep(s, turn.inbound, turn.streamEnds) else s
  }

  /**
   * One visit as a function of the bot's connection before it: the
   * reader's traffic is delivered; a bot that is then disconnected is
   * reconnected, and the visit is a skip when that raises; otherwise the
   * bot is sent `message`. The result is the visit and the connection
   * after it. A bot that has just reconnected always gets its message out,
   * a skipped bot stays disconnected, and a bot whose connection keeps
   * its invariant never fails a send.
   */
  ghost function VisitStep(before: Conn, id: Identity, bot: nat, turn: Turn, message: string): (r: (Visit, Conn))
    ensures r.0.bot == bot && r.0.user == id.username
    ensures r.0.Skipped? <==> !Delivered(before, turn).connected && (!turn.openOk || !HasOAuthPrefix(id.token))
    ensures r.0.Skipped? ==>
      && r.0.error == (if turn.openOk then BadToken else OpenFailed)
      && !r.1.connected && r.1.wire == Delivered(before, turn).wire
    ensures r.0.Attempted? ==> r.0.message == message && r.0.reconnected == !Delivered(before, turn).connected
    ensures r.0.Attempted? && r.0.reconnected ==> r.0.status == Done && r.1.connected
    ensures r.0.Attempted? && r.0.status == Done ==>
      var mid := Delivered(before, turn);
      && r.1.wire == mid.wire + (if r.0.reconnected then Handshake(id) else [])
                     + [Frame("PRIVMSG #" + id.channel + " :" + message)]
      && r.1.sendTimes == mid.sendTimes + [SendTime(mid.lastSent, turn.now)]
      && r.1.lastSent == SendTime(mid.lastSent, turn.now) + turn.drainMs
    ensures r.0.Attempted? && r.0.status.Raised? ==> !r.0.reconnected && r.1 == Delivered(before, turn)
    ensures Invariant(before) ==> Invariant(r.1) && (r.0.Attempted? ==> r.0.status == Done)
  {
    var mid := Delivered(before, turn);
    var again := ConnectStep(mid, id, turn.openOk);
    if !mid.connected && again.1.Raised? then
      (Skipped(bot, id.username, again.1.error), again.0)
    else
      var sent := SendStep(if mid.connected then mid else again.0, id, message, turn.now, turn.drainMs);
      (Attempted(bot, id.username, !mid.connected, message, sent.1), sent.0)
  }

  /** What the send loop leaves: its visits, the bots' connections and the phrase cursor. */
  datatype Rotated = Rotated(visits: seq<Visit>, states: seq<Conn>, cursor: nat)

  /** `r` after the visits `trace` that came before it. */
  function After(trace: seq<Visit>, r: Rotated): Rotated {
    r.(visits := trace + r.visits)
  }

  /**
   * The send loop from turn `k`, with bot `i` next, phrase cursor `idx`
   * and the bots' connections `states`: it ends at the first turn that
   * brings a stop request (past the schedule every turn does); otherwise
   * bot `i` is visited with the phrase at the cursor, the cursor advances
   * on a send attempt, and the loop goes on with the next bot, the first
   * after the last.
   */
  ghost function Rotation(states: seq<Conn>, ids: seq<Identity>, schedule: seq<Turn>, messages: seq<string>,
                          k: nat, i: nat, idx: nat): (r: Rotated)
    requires |states| == |ids| && i < |ids| && messages != []
    ensures |r.states| == |states|
    decreases |schedule| - k
  {
    var turn := TurnAt(schedule, k);
    if turn.stopRequested then Rotated([], states, idx)
    else
      var step := VisitStep(states[i], ids[i], i, turn, messages[idx % |messages|]);
      var rest := Rotation(states[i := step.1], ids, schedule, messages, k + 1,
                           if i + 1 == |ids| then 0 else i + 1, if step.0.Attempted? then idx + 1 else idx);
      After([step.0], rest)
  }

  /** A turn without a stop request is one visit followed by the rest of the rotation. */
  lemma RotationUnfold(states: seq<Conn>, ids: seq<Identity>, schedule: seq<Turn>, messages: seq<string>,
                       k: nat, i: nat, idx: nat, v: Visit, after: Conn)
    requires |states| == |ids| && i < |ids| && messages != []
    requires !TurnAt(schedule, k).stopRequested
    requires (v, after) == VisitStep(states[i], ids[i], i, TurnAt(schedule, k), messages[idx % |messages|])
    ensures Rotation(states, ids, schedule, messages, k, i, idx) ==
      After([v], Rotation(states[i := after], ids, schedule, messages, k + 1,
                          if i + 1 == |ids| then 0 else i + 1, if v.Attempted? then idx + 1 else idx))
  {
  }

  /** Visits recorded in two steps are recorded in one. */
  lemma AfterAfter(a: seq<Visit>, b: seq<Visit>, r: Rotated)
    ensures After(a, After(b, r)) == After(a + b, r)
  {
    assert a + (b + r.visits) == a + b + r.visits;
  }

  /**
   * The rotation keeps the bookkeeping of the visits before it: its
   * visits go round the bots and cycle through the phrases, and its final
   * cursor counts the send attempts.
   */
  lemma {:induction false} RotationAccounted(prefix: seq<Visit>, states: seq<Conn>, ids: seq<Identity>,
                                             schedule: seq<Turn>, messages: seq<string>, k: nat, i: nat, idx: nat)
    requires |states| == |ids| && i < |ids| && messages != []
    requires Accounted(prefix, ids, messages) && NextBot(prefix, |ids|) == i && idx == |Attempts(prefix)|
    ensures var r := Rotation(states, ids, schedule, messages, k, i, idx);
      Accounted(prefix + r.visits, ids, messages) && r.cursor == |Attempts(prefix + r.visits)|
    decreases |schedule| - k
  {
    var turn := TurnAt(schedule, k);
    if turn.stopRequested {
      assert prefix + [] == prefix;
    } else {
      var step := VisitStep(states[i], ids[i], i, turn, messages[idx % |messages|]);
      var v, after := step.0, step.1;
      var i', idx' := if i + 1 == |ids| then 0 else i + 1, if v.Attempted? then idx + 1 else idx;
      AccountedStep(prefix, ids, messages, v);
      RotationAccounted(prefix + [v], states[i := after], ids, schedule, messages, k + 1, i', idx');
      var rest := Rotation(states[i := after], ids, schedule, messages, k + 1, i', idx');
      assert Rotation(states, ids, schedule, messages, k, i, idx) == After([v], rest);
      AfterAfter(prefix, [v], rest);
    }
  }

  /**
   * The rotation from turn `k` makes one visit per turn and stops at the
   * first turn with a stop request.
   */
  lemma {:induction false} RotationStops(states: seq<Conn>, ids: seq<Identity>, schedule: seq<Turn>,
                                         messages: seq<string>, k: nat, i: nat, idx: nat)
    requires |states| == |ids| && i < |ids| && messages != []
    ensures var r := Rotation(states, ids, schedule, messages, k, i, idx);
      && (forall m :: k <= m < k + |r.visits| ==> !TurnAt(schedule, m).stopRequested)
      && TurnAt(schedule, k + |r.visits|).stopRequested
    decreases |schedule| - k
  {
    var turn := TurnAt(schedule, k);
    if !turn.stopRequested {
      var step := VisitStep(states[i], ids[i], i, turn, messages[idx % |messages|]);
      var i', idx' := if i + 1 == |ids| then 0 else i + 1, if step.0.Attempted? then idx + 1 else idx;
      RotationStops(states[i := step.1], ids, schedule, messages, k + 1, i', idx');
      var rest := Rotation(states[i := step.1], ids, schedule, messages, k + 1, i', idx');
      assert Rotation(states, ids, schedule, messages, k, i, idx) == After([step.0], rest);
    }
  }

  /**
   * The rotation skips a bot only when its transport could not be opened
   * on that turn or its token lacks the `oauth:` prefix.
   */
  lemma {:induction false} RotationSkips(states: seq<Conn>, ids: seq<Identity>, schedule: seq<Turn>,
                                         messages: seq<string>, k: nat, i: nat, idx: nat)
    requires |states| == |ids| && i < |ids| && messages != []
    ensures var r := Rotation(states, ids, schedule, messages, k, i, idx);
      forall m :: 0 <= m < |r.visits| && r.visits[m].Skipped? ==>
        r.visits[m].bot < |ids| && (!TurnAt(schedule, k + m).openOk || !HasOAuthPrefix(ids[r.visits[m].bot].token))
    decreases |schedule| - k
  {
    var turn := TurnAt(schedule, k);
    if !turn.stopRequested {
      var step := VisitStep(states[i], ids[i], i, turn, messages[idx % |messages|]);
      var v, after := step.0, step.1;
      var i', idx' := if i + 1 == |ids| then 0 else i + 1, if v.Attempted? then idx + 1 else idx;
      RotationSkips(states[i := after], ids, schedule, messages, k + 1, i', idx');
      var rest := Rotation(states[i := after], ids, schedule, messages, k + 1, i', idx');
      assert Rotation(states, ids, schedule, messages, k, i, idx) == After([v], rest);
      assert var r := Rotation(states[i := after], ids, schedule, messages, k + 1, i', idx');
        forall m :: 0 <= m < |r.visits| && r.visits[m].Skipped? ==>
          r.visits[m].bot < |ids| && (!TurnAt(schedule, k + 1 + m).openOk || !HasOAuthPrefix(ids[r.visits[m].bot].token));
      var visits := [v] + rest.visits;
      forall m | 0 <= m < |visits| && visits[m].Skipped?
        ensures visits[m].bot < |ids| && (!TurnAt(schedule, k + m).openOk || !HasOAuthPrefix(ids[visits[m].bot].token))
      {
        if m > 0 {
          assert visits[m] == rest.visits[m - 1];
        }
      }
    }
  }

  /**
   * Bots whose connections keep their invariant keep it through the
   * whole rotation, and none of their send attempts fails.
   */
  lemma {:induction false} RotationKeepsInvariant(states: seq<Conn>, ids: seq<Identity>, schedule: seq<Turn>,
                                                  messages: seq<string>, k: nat, i: nat, idx: nat)
    requires |states| == |ids| && i < |ids| && messages != []
    requires forall j :: 0 <= j < |states| ==> Invariant(states[j])
    ensures var r := Rotation(states, ids, schedule, messages, k, i, idx);
      && (forall j :: 0 <= j < |r.states| ==> Invariant(r.states[j]))
      && (forall m :: 0 <= m < |r.visits| && r.visits[m].Attempted? ==> r.visits[m].status == Done)
    decreases |schedule| - k
  {
    var turn := TurnAt(schedule, k);
    if !turn.stopRequested {
      var step := VisitStep(states[i], ids[i], i, turn, messages[idx % |messages|]);
      var v, after := step.0, step.1;
      var i', idx' := if i + 1 == |ids| then 0 else i + 1, if v.Attempted? then idx + 1 else idx;
      assert Invariant(after) && (v.Attempted? ==> v.status == Done);
      RotationKeepsInvariant(states[i := after], ids, schedule, messages, k + 1, i', idx');
      var rest := Rotation(states[i := after], ids, schedule, messages, k + 1, i', idx');
      assert Rotation(states, ids, schedule, messages, k, i, idx) == After([v], rest);
      assert var r := Rotation(states[i := after], ids, schedule, messages, k + 1, i', idx'); forall j :: 0 <= j < |r.states| ==> Invariant(r.states[j]);
      assert var r := Rotation(states[i := after], ids, schedule, messages, k + 1, i', idx');
        forall m :: 0 <= m < |r.visits| && r.visits[m].Attempted? ==> r.visits[m].status == Done;
      var visits := [v] + rest.visits;
      forall m | 0 <= m < |visits| && visits[m].Attempted?
        ensures visits[m].status == Done
      {
        if m > 0 {
          assert visits[m] == rest.visits[m - 1];
        }
      }
    }
  }

  /**
   * The whole rotation, from the first turn, the first bot and cursor 0:
   * visits go round the bots, name their accounts and cycle through the
   * phrases, and the final cursor counts the send attempts.
   */
  lemma RotationMeans(states: seq<Conn>, ids: seq<Identity>, schedule: seq<Turn>, messages: seq<string>)
    requires |states| == |ids| && ids != [] && messages != []
    ensures var r := Rotation(states, ids, schedule, messages, 0, 0, 0);
      && RoundRobin(r.visits, |ids|) && Cyclic(r.visits, messages) && r.cursor == |Attempts(r.visits)|
      && (forall m :: 0 <= m < |r.visits| ==> r.visits[m].bot < |ids| && r.visits[m].user == ids[r.visits[m].bot].username)
  {
    var r := Rotation(states, ids, schedule, messages, 0, 0, 0);
    RotationAccounted([], states, ids, schedule, messages, 0, 0, 0);
    assert [] + r.visits == r.visits;
    AccountedMeans(r.visits, ids, messages);
  }

  /** The bots' connections once every first connection was attempted. */
  ghost function Opened(ids: seq<Identity>, opens: seq<bool>): (r: seq<Conn>)
    ensures |r| == |ids|
    ensures forall j :: 0 <= j < |ids| ==> r[j] == ConnectStep(Initial, ids[j], OpenAt(opens, j)).0
  {
    seq(|ids|, j requires 0 <= j < |ids| => ConnectStep(Initial, ids[j], OpenAt(opens, j)).0)
  }

  lemma {:induction false} MulAtLeast(d: int, n: int)
    requires d >= 1 && n > 0
    ensures d * n >= n
  {
    if d > 1 {
      MulAtLeast(d - 1, n);
      assert d * n == (d - 1) * n + n;
    }
  }

  /** Euclidean division is unique: a quotient and a remainder in range are the ones `/` and `%` give. */
  lemma ModUnique(x: int, n: int, q: int, r: int)
    requires n > 0 && 0 <= r < n && x == q * n + r
    ensures x % n == r
  {
    var q', r' := x / n, x % n;
    assert (q - q') * n == r' - r;
    if q - q' >= 1 {
      MulAtLeast(q - q', n);
    } else if q' - q >= 1 {
      MulAtLeast(q' - q, n);
    }
  }

  /** Without skipped visits every visit is a send attempt. */
  lemma {:induction false} AttemptsWithoutSkips(trace: seq<Visit>)
    requires forall m :: 0 <= m < |trace| ==> trace[m].Attempted?
    ensures Attempts(trace) == trace
  {
    if trace != [] {
      AttemptsWithoutSkips(trace[..|trace| - 1]);
    }
  }

  /**
   * While no reconnection fails, the rotation is a lockstep: visit `m`
   * is bot `m % n` sending phrase `m % |messages|`.
   */
  lemma LockStep(trace: seq<Visit>, n: nat, messages: seq<string>)
    requires RoundRobin(trace, n) && Cyclic(trace, messages)
    requires forall m :: 0 <= m < |trace| ==> trace[m].Attempted?
    ensures forall m :: 0 <= m < |trace| ==>
      trace[m].bot == m % n && trace[m].message == messages[m % |messages|]
  {
    AttemptsWithoutSkips(trace);
  }

  /** With as many bots as phrases and no failed reconnection, every bot repeats one phrase: bot `b` always sends phrase `b`. */
  lemma OnePhrasePerBot(trace: seq<Visit>, messages: seq<string>)
    requires RoundRobin(trace, |messages|) && Cyclic(trace, messages)
    requires forall m :: 0 <= m < |trace| ==> trace[m].Attempted?
    ensures forall m :: 0 <= m < |trace| ==> trace[m].message == messages[trace[m].bot]
  {
    LockStep(trace, |messages|, messages);
  }

  /** A skipped visit delays the phrase: the next send attempt, by whichever bot, uses the phrase the skipped bot would have sent. */
  lemma SkipKeepsPhrase(trace: seq<Visit>, messages: seq<string>, skipped: Visit, next: Visit)
    requires Cyclic(trace + [skipped, next], messages)
    requires skipped.Skipped? && next.Attempted?
    ensures next.message == messages[|Attempts(trace)| % |messages|]
  {
    var t := trace + [skipped, next];
    var u := trace + [skipped];
    assert t[..|t| - 1] == u;
    assert u[..|u| - 1] == trace;
    assert Attempts(u) == Attempts(trace);
    assert Attempts(t) == Attempts(trace) + [next];
  }

  /** The window: chosen files, channel, the `running` flag and the bots of the current run. */
  class TwitchBotGui {
    var accountsFile: Option<string>
    var proxiesFile: Option<string>
    var phrasesFile: Option<string>
    var channelName: string
    var running: bool
    var bots: seq<TwitchBot>
    /** Every line written to the log window. */
    ghost var log: seq<Event>
    /** The visits of the current run's rotation. */
    ghost var trace: seq<Visit>

    /** No bot appears twice in the list. */
    ghost predicate BotsDistinct()
      reads this`bots
    {
      forall a, b :: 0 <= a < |bots| && 0 <= b < |bots| && a != b ==> bots[a] != bots[b]
    }

    /** The bots' connections, in list order. */
    ghost function States(): (r: seq<Conn>)
      reads this`bots, bots
      ensures |r| == |bots| && forall j :: 0 <= j < |bots| ==> r[j] == bots[j].State()
    {
      var bs := bots;
      seq(|bs|, j requires 0 <= j < |bs| reads bs => bs[j].State())
    }

    constructor ()
      ensures accountsFile == None && proxiesFile == None && phrasesFile == None
      ensures channelName == "" && !running && bots == []
      ensures log == [] && trace == []
    {
      accountsFile, proxiesFile, phrasesFile := None, None, None;
      channelName := "";
      running := false;
      bots := [];
      log, trace := [], [];
    }

    /** A file dialog that returned `name`; an empty name means it was cancelled. */
    method SelectAccountsFile(name: string)
      modifies this`accountsFile
      ensures accountsFile == if name != [] then Some(name) else old(accountsFile)
    {
      if name != [] {
        accountsFile := Some(name);
      }
    }

    method SelectProxiesFile(name: string)
      modifies this`proxiesFile
      ensures proxiesFile == if name != [] then Some(name) else old(proxiesFile)
    {
      if name != [] {
        proxiesFile := Some(name);
      }
    }

    method SelectPhrasesFile(name: string)
      modifies this`phrasesFile
      ensures phrasesFile == if name != [] then Some(name) else old(phrasesFile)
    {
      if name != [] {
        phrasesFile := Some(name);
      }
    }

    /**
     * `start_bots` with the text of the channel field: refused while
     * running; otherwise the stripped text becomes the channel name even
     * when the start is then refused for an empty channel or a missing
     * file; `running` is set only when the start goes ahead.
     */
    method StartBots(channelText: string) returns (result: StartResult)
      modifies this`running, this`channelName
      ensures old(running) ==> result == AlreadyRunning && channelName == old(channelName)
      ensures !old(running) ==> channelName == Strip(channelText)
      ensures result == NoChannel <==> !old(running) && Strip(channelText) == []
      ensures result == NoAccountsFile <==> !old(running) && Strip(channelText) != [] && !Chosen(accountsFile)
      ensures result == NoPhrasesFile <==>
        !old(running) && Strip(channelText) != [] && Chosen(accountsFile) && !Chosen(phrasesFile)
      ensures result == Started <==>
        !old(running) && Strip(channelText) != [] && Chosen(accountsFile) && Chosen(phrasesFile)
      ensures running <==> old(running) || result == Started
    {
      if running {
        return AlreadyRunning;
      }
      channelName := Strip(channelText);
      if channelName == [] {
        return NoChannel;
      }
      if !Chosen(accountsFile) {
        return NoAccountsFile;
      }
      if !Chosen(phrasesFile) {
        return NoPhrasesFile;
      }
      running := true;
      result := Started;
    }

    /** `stop_bots`: only a running manager is stopped, and only then is the stop logged. */
    method StopBots()
      modifies this`running, this`log
      ensures !running
      ensures log == old(log) + (if old(running) then [StopRequested] else [])
    {
      if !running {
        return;
      }
      running := false;
      log := log + [StopRequested];
    }

    /** `handle_control` with the message's `action` entry, if any: only `stopped` touches the flag. */
    method HandleControl(action: Option<string>)
      modifies this`running
      ensures running <==> old(running) && action != Some("stopped")
    {
      if action == Some("stopped") {
        running := false;
      }
    }

    /** One bot per account, in account order, with the proxy of the same position if there is one. */
    method CreateBots(accounts: seq<Account>, proxies: seq<string>)
      modifies this`bots
      ensures |bots| == |accounts|
      ensures forall j :: 0 <= j < |bots| ==> fresh(bots[j]) && bots[j].State() == Initial
      ensures forall j :: 0 <= j < |bots| ==>
        && bots[j].username == accounts[j].name && bots[j].oauthToken == accounts[j].token
        && bots[j].proxy == ProxyFor(proxies, j) && bots[j].channel == LStripHashes(channelName)
      ensures BotsDistinct()
    {
      var created: seq<TwitchBot> := [];
      var i := 0;
      while i < |accounts|
        invariant 0 <= i <= |accounts| && |created| == i
        invariant forall j :: 0 <= j < i ==> fresh(created[j])
        invariant forall j :: 0 <= j < i ==> created[j].State() == Initial
        invariant forall j :: 0 <= j < i ==> MadeFor(created[j], accounts[j], ProxyFor(proxies, j), channelName)
        invariant forall a, b :: 0 <= a < b < i ==> created[a] != created[b]
      {
        var bot := new TwitchBot(accounts[i].name, accounts[i].token, ProxyFor(proxies, i), channelName);
        created := created + [bot];
        i := i + 1;
      }
      bots := created;
    }

    /** The first connection of every bot, in order, each outcome logged; a failure does not stop the others. */
    method ConnectAll(opens: seq<bool>)
      requires BotsDistinct()
      requires forall j :: 0 <= j < |bots| ==> bots[j].State() == Initial
      modifies this`log, bots
      ensures forall j :: 0 <= j < |bots| ==> bots[j].State() == ConnectStep(Initial, bots[j].Id(), OpenAt(opens, j)).0
      ensures log == old(log) + ConnectEvents(Ids(bots), opens)
    {
      var i := 0;
      while i < |bots|
        invariant 0 <= i <= |bots|
        invariant BotsDistinct()
        invariant forall j :: i <= j < |bots| ==> bots[j].State() == Initial
        invariant forall j :: 0 <= j < i ==> bots[j].State() == ConnectStep(Initial, bots[j].Id(), OpenAt(opens, j)).0
        invariant |log| == |old(log)| + i && log[..|old(log)|] == old(log)
        invariant forall j :: 0 <= j < i ==>
          log[|old(log)| + j] == ConnectResult(bots[j].username, ConnectStep(Initial, bots[j].Id(), OpenAt(opens, j)).1)
      {
        var status := bots[i].Connect(OpenAt(opens, i));
        log := log + [ConnectResult(bots[i].username, status)];
        i := i + 1;
      }
    }

    /**
     * One visit of the rotation to bot `i`: the bot's reader first handles
     * what arrived; a bot that is then disconnected is reconnected, and
     * skipped with the cursor kept when that fails; a connected or
     * reconnected bot is sent phrase `idx % |messages|` and the cursor
     * advances whether or not the send succeeds. No other bot changes.
     */
    method VisitBot(i: nat, turn: Turn, messages: seq<string>, idx: nat) returns (next: nat, ghost v: Visit)
      requires i < |bots| && messages != [] && BotsDistinct()
      modifies this`log, this`trace, bots[i]
      ensures (v, bots[i].State()) == VisitStep(old(bots[i].State()), bots[i].Id(), i, turn, messages[idx % |messages|])
      ensures forall j :: 0 <= j < |bots| && j != i ==> bots[j].State() == old(bots[j].State())
      ensures trace == old(trace) + [v] && log == old(log) + EventsOf(v)
      ensures next == idx + (if v.Attempted? then 1 else 0)
    {
      var bot := bots[i];
      if bot.readTask == Reading {
        bot.ReadLoop(turn.inbound, turn.streamEnds);
      }
      var reconnected := false;
      if !bot.connected {
        var status := bot.Connect(turn.openOk);
        if status.Raised? {
          v := Skipped(i, bot.username, status.error);
          next := idx;
          trace := trace + [v];
          log := log + EventsOf(v);
          return;
        }
        reconnected := true;
      }
      var message := messages[idx % |messages|];
      var status := bot.SendMessage(message, turn.now, turn.drainMs);
      v := Attempted(i, bot.username, reconnected, message, status);
      next := idx + 1;
      trace := trace + [v];
      log := log + EventsOf(v);
    }

    /**
     * The send loop: passes over the bots in order while `running`, with
     * `running` checked before every bot, each check taking the next turn
     * of `schedule`; `idx` starts at 0, is never reset, and counts the send
     * attempts. A running loop does exactly what `Rotation` describes from
     * the bots' connections at its start; it returns the final cursor.
     */
    method Rotate(messages: seq<string>, schedule: seq<Turn>) returns (idx: nat)
      requires bots != [] && messages != [] && trace == [] && BotsDistinct()
      modifies this`running, this`log, this`trace, bots
      ensures !running
      ensures var r := Rotation(old(States()), Ids(bots), schedule, messages, 0, 0, 0);
        if old(running) then trace == r.visits && idx == r.cursor && States() == r.states
        else trace == [] && idx == 0 && States() == old(States())
      ensures log == old(log) + Events(trace) + (if old(running) then [StopRequested] else [])
    {
      idx := 0;
      if !running {
        return;
      }
      ghost var ids := Ids(bots);
      ghost var states := States();
      ghost var start := Rotation(states, ids, schedule, messages, 0, 0, 0);
      var k := 0;
      while running
        invariant running ==> k <= |schedule| && Follows(schedule, messages, ids, start, states, old(log), k, 0, idx)
        invariant !running ==> Stopped(ids, start, states, old(log), idx)
        decreases |schedule| + 1 - k
      {
        k, idx, states := Pass(messages, schedule, k, idx, old(log), ids, start, states);
      }
      assert States() == states;
    }

    /**
     * The bookkeeping of the send loop at turn `k` with bot `i` next:
     * `states` are the bots' connections, the whole rotation `start` is
     * the visits so far followed by the rotation from here, and the log
     * holds the lines of those visits after `base`.
     */
    ghost predicate Follows(schedule: seq<Turn>, messages: seq<string>, ids: seq<Identity>, start: Rotated,
                            states: seq<Conn>, base: seq<Event>, k: nat, i: nat, idx: nat)
      reads this`bots, this`trace, this`log, bots
    {
      && ids == Ids(bots) && BotsDistinct() && messages != []
      && |states| == |bots| && i < |bots|
      && (forall j :: 0 <= j < |bots| ==> bots[j].State() == states[j])
      && start == After(trace, Rotation(states, ids, schedule, messages, k, i, idx))
      && log == base + Events(trace)
    }

    /** The bookkeeping once a stop request ended the send loop: the whole rotation is done. */
    ghost predicate Stopped(ids: seq<Identity>, start: Rotated, states: seq<Conn>, base: seq<Event>, idx: nat)
      reads this`bots, this`trace, this`log, bots
    {
      && |states| == |bots|
      && (forall j :: 0 <= j < |bots| ==> bots[j].State() == states[j])
      && start == Rotated(trace, states, idx)
      && log == base + Events(trace) + [StopRequested]
    }

    /** One pass of the send loop over the bots, cut short when `running` drops. */
    method Pass(messages: seq<string>, schedule: seq<Turn>, k0: nat, idx0: nat, ghost base: seq<Event>,
                ghost ids: seq<Identity>, ghost start: Rotated, ghost states0: seq<Conn>)
      returns (k: nat, idx: nat, ghost states: seq<Conn>)
      requires running && Follows(schedule, messages, ids, start, states0, base, k0, 0, idx0)
      modifies this`running, this`log, this`trace, bots
      ensures k0 < k
      ensures running ==> k <= |schedule| && Follows(schedule, messages, ids, start, states, base, k, 0, idx)
      ensures !running ==> Stopped(ids, start, states, base, idx)
    {
      k, idx, states := k0, idx0, states0;
      var i := 0;
      while true
        invariant i < |bots| && k == k0 + i && running
        invariant Follows(schedule, messages, ids, start, states, base, k, i, idx)
        decreases |bots| - i
      {
        idx, states := Step(bots[i], i, schedule, k, messages, idx, base, ids, start, states);
        k := k + 1;
        if !running || i + 1 == |bots| {
          return;
        }
        i := i + 1;
      }
    }

    /**
     * The turn of bot `i`: a stop request drops `running`, and otherwise
     * the bot is visited; the pass checks `running` right after.
     */
    method Step(bot: TwitchBot, i: nat, schedule: seq<Turn>, k: nat, messages: seq<string>, idx: nat,
                ghost base: seq<Event>, ghost ids: seq<Identity>, ghost start: Rotated, ghost states0: seq<Conn>)
      returns (next: nat, ghost states: seq<Conn>)
      requires running && i < |bots| && bot == bots[i]
      requires Follows(schedule, messages, ids, start, states0, base, k, i, idx)
      modifies this`running, this`log, this`trace, bot
      ensures running <==> !TurnAt(schedule, k).stopRequested
      ensures running ==> k < |schedule|
      ensures running ==> Follows(schedule, messages, ids, start, states, base, k + 1, if i + 1 == |bots| then 0 else i + 1, next)
      ensures !running ==> Stopped(ids, start, states, base, next)
    {
      if TurnAt(schedule, k).stopRequested {
        Halt(schedule, messages, ids, start, states0, base, k, i, idx);
        next, states := idx, states0;
      } else {
        next, states := Advance(bot, i, schedule, k, messages, idx, base, ids, start, states0);
      }
    }

    /** A stop request on the turn of bot `i`: `stop_bots`, after which the whole rotation is done. */
    method Halt(schedule: seq<Turn>, messages: seq<string>, ghost ids: seq<Identity>, ghost start: Rotated,
                ghost states: seq<Conn>, ghost base: seq<Event>, ghost k: nat, ghost i: nat, ghost idx: nat)
      requires running && TurnAt(schedule, k).stopRequested
      requires Follows(schedule, messages, ids, start, states, base, k, i, idx)
      modifies this`running, this`log
      ensures !running && Stopped(ids, start, states, base, idx)
    {
      assert Rotation(states, ids, schedule, messages, k, i, idx) == Rotated([], states, idx);
      StopBots();
    }

    /** The visit of one turn without a stop request, as one step of `Rotation`. */
    method Advance(bot: TwitchBot, i: nat, schedule: seq<Turn>, k: nat, messages: seq<string>, idx: nat,
                   ghost base: seq<Event>, ghost ids: seq<Identity>, ghost start: Rotated, ghost states0: seq<Conn>)
      returns (next: nat, ghost states: seq<Conn>)
      requires i < |bots| && bot == bots[i] && !TurnAt(schedule, k).stopRequested
      requires Follows(schedule, messages, ids, start, states0, base, k, i, idx)
      modifies this`log, this`trace, bot
      ensures Follows(schedule, messages, ids, start, states, base, k + 1, if i + 1 == |bots| then 0 else i + 1, next)
    {
      ghost var before := trace;
      ghost var v;
      next, v := VisitBot(i, TurnAt(schedule, k), messages, idx);
      states := states0[i := bots[i].State()];
      RotationUnfold(states0, ids, schedule, messages, k, i, idx, v, bots[i].State());
      AfterAfter(before, [v], Rotation(states, ids, schedule, messages, k + 1, if i + 1 == |bots| then 0 else i + 1, next));
      EventsSnoc(base, before, v);
    }

    /**
     * `async_main` given what reading the chosen files gives, whether each
     * first connection opens, and the schedule of the rotation: the lists
     * are prepared, and a setup error is logged and ends the run; otherwise
     * the bots are created, announced, connected, rotated over until
     * `running` drops, and closed.
     */
    method AsyncMain(accountsRead: ReadResult, proxiesRead: ReadResult, phrasesRead: ReadResult,
                     opens: seq<bool>, schedule: seq<Turn>)
      modifies this`running, this`log, this`trace, this`bots
      ensures var accounts := EffectiveRead(old(accountsFile), accountsRead);
        var proxies := ProxyInput(old(proxiesFile), proxiesRead);
        var plan := Prepare(accounts, proxies, EffectiveRead(old(phrasesFile), phrasesRead));
        var warn := if ProxyWarning(accounts, proxies) then [ProxiesUnreadable] else [];
        && (plan.Err? ==>
          && bots == old(bots) && running == old(running) && trace == old(trace)
          && log == old(log) + warn + [SetupFailed(plan.error)])
        && (plan.Ok? ==> Launched(plan.value, opens, schedule, old(running), old(log) + warn, old(channelName)))
    {
      var accounts := EffectiveRead(accountsFile, accountsRead);
      ghost var proxyInput := ProxyInput(proxiesFile, proxiesRead);
      ghost var plan := Prepare(accounts, proxyInput, EffectiveRead(phrasesFile, phrasesRead));
      if accounts.ReadError? {
        log := log + [SetupFailed(AccountsUnreadable)];
        return;
      }
      var parsed := ParseAccounts(accounts.lines);
      if parsed == [] {
        log := log + [SetupFailed(NoAccounts)];
        return;
      }
      var proxies: seq<string> := [];
      if Chosen(proxiesFile) {
        if proxiesRead.ReadError? {
          log := log + [ProxiesUnreadable];
        } else {
          proxies := NonBlankLines(proxiesRead.lines);
        }
      }
      ghost var setupLog := log;
      assert setupLog == old(log) + if ProxyWarning(accounts, proxyInput) then [ProxiesUnreadable] else [];
      var phrases := EffectiveRead(phrasesFile, phrasesRead);
      if phrases.ReadError? {
        log := log + [SetupFailed(PhrasesUnreadable)];
        return;
      }
      var messages := NonBlankLines(phrases.lines);
      if messages == [] {
        log := log + [SetupFailed(NoPhrases)];
        return;
      }
      assert plan == Ok(Plan(parsed, proxies, messages));
      Launch(Plan(parsed, proxies, messages), opens, schedule);
    }

    /**
     * What a run that got past its setup leaves behind, starting from
     * `running0` and the log `log0`: one bot per account, joining
     * `channel`, with the proxy of the same position; when the run was
     * running, the visits and connections `Rotation` gives from the
     * connections the first connection attempts left, and no visit
     * otherwise; every bot then closed, the manager stopped, and the log
     * lines of the launch, the connections, the rotation, the stop if one
     * was requested, and the teardown, in that order.
     */
    ghost predicate Launched(plan: Plan, opens: seq<bool>, schedule: seq<Turn>, running0: bool,
                             log0: seq<Event>, channel: string)
      reads this`bots, this`running, this`trace, this`log, bots
    {
      && |bots| == |plan.accounts| && bots != [] && plan.messages != []
      && (forall j :: 0 <= j < |bots| ==>
        && bots[j].Id() == Identity(plan.accounts[j].name, plan.accounts[j].token, LStripHashes(channel))
        && bots[j].proxy == ProxyFor(plan.proxies, j))
      && !running
      && log == log0 + [Launching(|bots|, channel)] + ConnectEvents(Ids(bots), opens)
                + Events(trace) + (if running0 then [StopRequested] else [])
                + CloseEvents(Usernames(bots)) + [AllStopped]
      && var first := Opened(Ids(bots), opens);
         var r := Rotation(first, Ids(bots), schedule, plan.messages, 0, 0, 0);
         && trace == (if running0 then r.visits else [])
         && forall j :: 0 <= j < |bots| ==>
              bots[j].State() == CloseStep((if running0 then r.states else first)[j], bots[j].Id())
    }

    /** The part of `async_main` after a successful setup. */
    method Launch(plan: Plan, opens: seq<bool>, schedule: seq<Turn>)
      requires plan.accounts != [] && plan.messages != []
      modifies this`running, this`log, this`trace, this`bots
      ensures forall j :: 0 <= j < |bots| ==> fresh(bots[j])
      ensures |bots| == |plan.accounts|
      ensures forall j :: 0 <= j < |bots| ==>
        && bots[j].Id() == Identity(plan.accounts[j].name, plan.accounts[j].token, LStripHashes(old(channelName)))
        && bots[j].proxy == ProxyFor(plan.proxies, j)
      ensures var first := Opened(Ids(bots), opens);
        var r := Rotation(first, Ids(bots), schedule, plan.messages, 0, 0, 0);
        && trace == (if old(running) then r.visits else [])
        && forall j :: 0 <= j < |bots| ==>
             bots[j].State() == CloseStep((if old(running) then r.states else first)[j], bots[j].Id())
      ensures !running
      ensures log == old(log) + [Launching(|bots|, old(channelName))] + ConnectEvents(Ids(bots), opens)
                + Events(trace) + (if old(running) then [StopRequested] else [])
                + CloseEvents(Usernames(bots)) + [AllStopped]
    {
      Open(plan, opens);
      Finish(plan.messages, schedule);
    }

    /** Creating the bots, announcing the launch and connecting every bot. */
    method Open(plan: Plan, opens: seq<bool>)
      requires plan.accounts != []
      modifies this`log, this`bots
      ensures |bots| == |plan.accounts| && BotsDistinct()
      ensures forall j :: 0 <= j < |bots| ==> fresh(bots[j])
      ensures forall j :: 0 <= j < |bots| ==>
        && bots[j].Id() == Identity(plan.accounts[j].name, plan.accounts[j].token, LStripHashes(old(channelName)))
        && bots[j].proxy == ProxyFor(plan.proxies, j)
      ensures States() == Opened(Ids(bots), opens)
      ensures log == old(log) + [Launching(|bots|, old(channelName))] + ConnectEvents(Ids(bots), opens)
    {
      CreateBots(plan.accounts, plan.proxies);
      log := log + [Launching(|bots|, channelName)];
      ConnectAll(opens);
    }

    /**
     * The send loop over the connected bots, then the teardown: each bot
     * is closed in the state the rotation left it in.
     */
    method Finish(messages: seq<string>, schedule: seq<Turn>)
      requires bots != [] && messages != [] && BotsDistinct()
      modifies this`running, this`log, this`trace, bots
      ensures var r := Rotation(old(States()), Ids(bots), schedule, messages, 0, 0, 0);
        && trace == (if old(running) then r.visits else [])
        && forall j :: 0 <= j < |bots| ==>
             bots[j].State() == CloseStep((if old(running) then r.states else old(States()))[j], bots[j].Id())
      ensures !running
      ensures log == old(log) + Events(trace) + (if old(running) then [StopRequested] else [])
                + CloseEvents(Usernames(bots)) + [AllStopped]
    {
      trace := [];
      var _ := Rotate(messages, schedule);
      CloseAll();
    }

    /** The worker thread: the run, then the `stopped` control message, which leaves the manager idle. */
    method Run(accountsRead: ReadResult, proxiesRead: ReadResult, phrasesRead: ReadResult,
               opens: seq<bool>, schedule: seq<Turn>)
      modifies this`running, this`log, this`trace, this`bots
      ensures !running
    {
      AsyncMain(accountsRead, proxiesRead, phrasesRead, opens, schedule);
      HandleControl(Some("stopped"));
    }

    /** The teardown: every bot closed in list order, each logged, then the final line. */
    method CloseAll()
      requires BotsDistinct()
      modifies this`log, bots
      ensures forall j :: 0 <= j < |bots| ==> bots[j].State() == CloseStep(old(bots[j].State()), bots[j].Id())
      ensures log == old(log) + CloseEvents(Usernames(bots)) + [AllStopped]
    {
      var i := 0;
      while i < |bots|
        invariant 0 <= i <= |bots|
        invariant BotsDistinct()
        invariant forall j :: 0 <= j < i ==> bots[j].State() == CloseStep(old(bots[j].State()), bots[j].Id())
        invariant forall j :: i <= j < |bots| ==> bots[j].State() == old(bots[j].State())
        invariant |log| == |old(log)| + i && log[..|old(log)|] == old(log)
        invariant forall j :: 0 <= j < i ==> log[|old(log)| + j] == Disconnected(bots[j].username)
      {
        CloseBot(i);
        i := i + 1;
      }
      log := log + [AllStopped];
    }

    /** Closing bot `i` and logging it; `close` swallows its own errors, so the line is always written. */
    method CloseBot(i: nat)
      requires BotsDistinct() && i < |bots|
      modifies this`log, bots[i]
      ensures bots[i].State() == CloseStep(old(bots[i].State()), bots[i].Id())
      ensures forall j :: 0 <= j < |bots| && j != i ==> bots[j].State() == old(bots[j].State())
      ensures log == old(log) + [Disconnected(bots[i].username)]
    {
      bots[i].Close();
      log := log + [Disconnected(bots[i].username)];
    }
  }

  /**
   * A run from the connections its first connection attempts left, with
   * the rotation when the manager was running and without it otherwise:
   * no send attempt of the rotation fails, and after the teardown every
   * bot is disconnected with its connection invariant intact.
   */
  lemma RunEndsClean(ids: seq<Identity>, opens: seq<bool>, schedule: seq<Turn>, messages: seq<string>, running0: bool)
    requires ids != [] && messages != []
    ensures var first := Opened(ids, opens);
      var r := Rotation(first, ids, schedule, messages, 0, 0, 0);
      && (forall m :: 0 <= m < |r.visits| && r.visits[m].Attempted? ==> r.visits[m].status == Done)
      && forall j :: 0 <= j < |ids| ==>
           var closed := CloseStep((if running0 then r.states else first)[j], ids[j]);
           !closed.connected && Invariant(closed)
  {
    var first := Opened(ids, opens);
    InitialInvariant();
    assert forall j :: 0 <= j < |first| ==> Invariant(first[j]);
    RotationKeepsInvariant(first, ids, schedule, messages, 0, 0, 0);
    assert var r := Rotation(first, ids, schedule, messages, 0, 0, 0);
      && (forall j :: 0 <= j < |r.states| ==> Invariant(r.states[j]))
      && (forall m :: 0 <= m < |r.visits| && r.visits[m].Attempted? ==> r.visits[m].status == Done);
  }

  /** Whatever a run that got past its setup did, it leaves every bot disconnected with its connection invariant intact. */
  lemma LaunchedEndsClean(g: TwitchBotGui, plan: Plan, opens: seq<bool>, schedule: seq<Turn>, running0: bool,
                          log0: seq<Event>, channel: string)
    requires g.Launched(plan, opens, schedule, running0, log0, channel)
    ensures forall j :: 0 <= j < |g.bots| ==> !g.bots[j].State().connected && Invariant(g.bots[j].State())
  {
    RunEndsClean(Ids(g.bots), opens, schedule, plan.messages, running0);
  }
}
