/**
 * One account's IRC connection (twitch_bot.py, class `TwitchBot`).
 *
 * The first half is a functional description of the connection: its state
 * as a value (`Conn`) and one step function per operation, together with
 * the invariant every step keeps. The second half is the class whose
 * methods update the fields one by one and are proved to perform exactly
 * those steps. Everything the bot writes to the server is recorded as a
 * sequence of wire lines; the transport itself is reduced to "opening
 * succeeds or fails" and inbound traffic to a sequence of lines.
 */
module Irc {
  import opened Basics
  import opened Text

  /** Minimum spacing between two messages of one account, in milliseconds (1.6 s). */
  const MinIntervalMs: int := 1600

  /** The reply to a server keepalive probe. */
  const PongText: string := "PONG :tmi.twitch.tv"

  /** The background reader task: absent, running, or ended. */
  datatype ReadTask = NoTask | Reading | Finished

  /** Why an operation raised. */
  datatype Error =
    | OpenFailed    // the TLS stream could not be opened
    | BadToken      // the token lacks the `oauth:` prefix
    | NotConnected  // a message was sent while disconnected

  datatype Status = Done | Raised(error: Error)

  /** What identifies one bot: its login, its token and its channel (without `#`). */
  datatype Identity = Identity(username: string, token: string, channel: string)

  /**
   * The mutable state of one connection: the `connected` flag, whether a
   * reader and a writer exist, the reader task, the time of the last
   * message (ms), every line written so far and the instant each chat
   * message was written.
   */
  datatype Conn = Conn(
    connected: bool,
    reader: bool,
    writer: bool,
    task: ReadTask,
    lastSent: int,
    wire: seq<string>,
    sendTimes: seq<int>)

  /** A freshly constructed bot: disconnected, nothing open, `_last_sent` zero. */
  const Initial: Conn := Conn(false, false, false, NoTask, 0, [], [])

  /** A protocol line as it goes on the wire. */
  function Frame(data: string): (line: string)
    ensures |line| == |data| + 2
    ensures line[..|data|] == data && line[|data|..] == "\r\n"
  {
    data + "\r\n"
  }

  predicate EndsWithCrLf(line: string) {
    |line| >= 2 && line[|line| - 2..] == "\r\n"
  }

  /**
   * The invariant of a connection: it counts as connected exactly while
   * its reader task runs, a running reader task owns a reader and a
   * writer, any two chat messages are at least `MinIntervalMs` apart, none
   * is later than `lastSent`, and every wire line ends in CR LF.
   */
  ghost predicate Invariant(s: Conn) {
    && (s.connected <==> s.task == Reading)
    && (s.task == Reading ==> s.reader && s.writer)
    && (forall i, j :: 0 <= i < j < |s.sendTimes| ==> s.sendTimes[i] + MinIntervalMs <= s.sendTimes[j])
    && (forall i :: 0 <= i < |s.sendTimes| ==> s.sendTimes[i] <= s.lastSent)
    && (forall i :: 0 <= i < |s.wire| ==> EndsWithCrLf(s.wire[i]))
  }

  lemma InitialInvariant()
    ensures Invariant(Initial)
  {
  }

  /** `_write`: one framed line when a writer exists, nothing otherwise. */
  function WriteStep(s: Conn, data: string): (r: Conn)
    ensures r.wire == if s.writer then s.wire + [Frame(data)] else s.wire
    ensures r == s.(wire := r.wire)
    ensures Invariant(s) ==> Invariant(r)
  {
    if s.writer then s.(wire := s.wire + [Frame(data)]) else s
  }

  /**
   * The token check of `connect`, `token.lower().startswith("oauth:")`: it
   * is case-insensitive on exactly the six characters `oauth:`.
   */
  function HasOAuthPrefix(token: string): (b: bool)
    ensures b <==>
      && |token| >= 6
      && token[0] in "oO" && token[1] in "aA" && token[2] in "uU"
      && token[3] in "tT" && token[4] in "hH" && token[5] == ':'
  {
    StartsWith(Lower(token), "oauth:")
  }

  /** The three handshake lines of a successful `connect`. */
  function Handshake(id: Identity): seq<string> {
    [Frame("PASS " + id.token), Frame("NICK " + id.username), Frame("JOIN #" + id.channel)]
  }

  /**
   * `connect(openOk)`: nothing happens when already connected; a transport
   * that cannot be opened raises with the state untouched; a token without
   * the `oauth:` prefix raises after the transport opened, so reader and
   * writer exist but no line was written; otherwise the handshake is
   * written, the reader task starts and the bot is connected.
   */
  function ConnectStep(s: Conn, id: Identity, openOk: bool): (r: (Conn, Status))
    ensures s.connected ==> r == (s, Done)
    ensures !s.connected && !openOk ==> r == (s, Raised(OpenFailed))
    ensures r.1 == Raised(BadToken) <==> !s.connected && openOk && !HasOAuthPrefix(id.token)
    ensures r.1 == Raised(BadToken) ==> r.0 == s.(reader := true, writer := true)
    ensures r.1.Raised? ==> r.0.wire == s.wire && !r.0.connected
    ensures !s.connected && r.1 == Done ==>
      r.0.connected && r.0.writer && r.0.task == Reading && r.0.wire == s.wire + Handshake(id)
    ensures r.0.lastSent == s.lastSent && r.0.sendTimes == s.sendTimes
    ensures Invariant(s) ==> Invariant(r.0)
  {
    if s.connected then (s, Done)
    else if !openOk then (s, Raised(OpenFailed))
    else
      var attached := s.(reader := true, writer := true);
      if !HasOAuthPrefix(id.token) then (attached, Raised(BadToken))
      else
        var greeted := WriteStep(WriteStep(WriteStep(attached, "PASS " + id.token), "NICK " + id.username), "JOIN #" + id.channel);
        (greeted.(task := Reading, connected := true), Done)
  }

  /** The inbound lines the reader handles: those before the first empty read, which means end of stream. */
  function Received(lines: seq<string>): (r: seq<string>)
    ensures |r| <= |lines| && r == lines[..|r|]
    ensures "" !in r
    ensures |r| < |lines| ==> lines[|r|] == ""
  {
    if lines == [] || lines[0] == "" then []
    else [lines[0]] + Received(lines[1..])
  }

  /**
   * A keepalive probe: the line, without its trailing CR and LF, starts
   * with `PING`; as `PING` holds neither, that is the line itself starting
   * with `PING`.
   */
  function IsPing(line: string): (b: bool)
    ensures b <==> StartsWith(line, "PING")
  {
    PingSurvivesRStrip(line);
    StartsWith(RStripLineBreaks(line), "PING")
  }

  /** Dropping trailing CR and LF cannot reach into a leading `PING`. */
  lemma PingSurvivesRStrip(line: string)
    ensures StartsWith(RStripLineBreaks(line), "PING") <==> StartsWith(line, "PING")
  {
    var r := RStripLineBreaks(line);
    if StartsWith(line, "PING") {
      assert line[3] == 'G';
      assert |r| >= 4;
      assert r[..4] == line[..4];
    }
    if StartsWith(r, "PING") {
      assert line[..4] == r[..4];
    }
  }

  /** What the reader writes back for some inbound lines: one `PONG` per probe. */
  function Replies(lines: seq<string>): (r: seq<string>)
    ensures |r| <= |lines|
    ensures forall k :: 0 <= k < |r| ==> r[k] == Frame(PongText)
  {
    if lines == [] then []
    else (if IsPing(lines[0]) then [Frame(PongText)] else []) + Replies(lines[1..])
  }

  /** Replies are produced line by line, in order. */
  lemma {:induction false} RepliesAppend(a: seq<string>, b: seq<string>)
    ensures Replies(a + b) == Replies(a) + Replies(b)
  {
    if a == [] {
      assert a + b == b;
    } else {
      assert (a + b)[0] == a[0];
      assert (a + b)[1..] == a[1..] + b;
      RepliesAppend(a[1..], b);
    }
  }

  /** The reader answers something exactly when some line is a probe. */
  lemma {:induction false} RepliesEmpty(lines: seq<string>)
    ensures Replies(lines) == [] <==> forall k :: 0 <= k < |lines| ==> !IsPing(lines[k])
  {
    if lines != [] {
      RepliesEmpty(lines[1..]);
      assert forall k :: 1 <= k < |lines| ==> lines[k] == lines[1..][k - 1];
    }
  }

  /**
   * `_read_loop` fed with `lines` and then, if `streamEnds`, a closed
   * stream or a read error: every probe before the first empty read gets
   * a reply; when the loop ends, the bot is no longer connected.
   */
  function ReadStep(s: Conn, lines: seq<string>, streamEnds: bool): (r: Conn)
    requires s.task == Reading
    ensures r.wire == s.wire + (if s.writer then Replies(Received(lines)) else [])
    ensures streamEnds || |Received(lines)| < |lines| ==> !r.connected && r.task == Finished
    ensures !streamEnds && |Received(lines)| == |lines| ==> r.connected == s.connected && r.task == Reading
    ensures r.reader == s.reader && r.writer == s.writer
    ensures r.lastSent == s.lastSent && r.sendTimes == s.sendTimes
    ensures Invariant(s) ==> Invariant(r)
  {
    var got := Received(lines);
    var answered := s.(wire := if s.writer then s.wire + Replies(got) else s.wire);
    if streamEnds || |got| < |lines| then answered.(connected := false, task := Finished) else answered
  }

  /** The instant a message goes out: after sleeping off what remains of the minimum interval. */
  function SendTime(lastSent: int, now: int): (at: int)
    ensures at >= now && at >= lastSent + MinIntervalMs
    ensures at == now || at == lastSent + MinIntervalMs
  {
    var wait := MinIntervalMs - (now - lastSent);
    if wait > 0 then now + wait else now
  }

  /**
   * `send_message(message)`: raises when not connected or without a writer;
   * otherwise writes exactly one `PRIVMSG` line at `SendTime(lastSent, now)`
   * and records as `lastSent` the clock after the flush took `drainMs`.
   */
  function SendStep(s: Conn, id: Identity, message: string, now: int, drainMs: nat): (r: (Conn, Status))
    ensures !s.connected || !s.writer ==> r == (s, Raised(NotConnected))
    ensures s.connected && s.writer ==>
      && r.1 == Done
      && r.0.wire == s.wire + [Frame("PRIVMSG #" + id.channel + " :" + message)]
      && r.0.sendTimes == s.sendTimes + [SendTime(s.lastSent, now)]
      && r.0.lastSent == SendTime(s.lastSent, now) + drainMs
      && r.0.connected && r.0.task == s.task && r.0.reader == s.reader && r.0.writer
    ensures Invariant(s) ==> Invariant(r.0)
  {
    if !s.connected || !s.writer then (s, Raised(NotConnected))
    else
      var at := SendTime(s.lastSent, now);
      var written := WriteStep(s, "PRIVMSG #" + id.channel + " :" + message);
      (written.(sendTimes := s.sendTimes + [at], lastSent := at + drainMs), Done)
  }

  /**
   * `close()`: never raises; afterwards the bot is disconnected with no
   * reader, writer or task, and a `PART` line was written exactly when a
   * writer existed.
   */
  function CloseStep(s: Conn, id: Identity): (r: Conn)
    ensures !r.connected && !r.reader && !r.writer && r.task == NoTask
    ensures r.wire == s.wire + (if s.writer then [Frame("PART #" + id.channel)] else [])
    ensures r.lastSent == s.lastSent && r.sendTimes == s.sendTimes
    ensures Invariant(s) ==> Invariant(r)
  {
    var left := WriteStep(s.(connected := false), "PART #" + id.channel);
    left.(reader := false, writer := false, task := NoTask)
  }

  /** Closing twice is closing once: the second call writes nothing and changes nothing. */
  lemma CloseIdempotent(s: Conn, id: Identity)
    ensures CloseStep(CloseStep(s, id), id) == CloseStep(s, id)
  {
  }

  /** A bot's chat messages stay `MinIntervalMs` apart over its whole life, across reconnections. */
  lemma SendsSpaced(s: Conn, id: Identity, message: string, now: int, drainMs: nat)
    requires Invariant(s)
    requires SendStep(s, id, message, now, drainMs).1 == Done
    ensures var t := SendStep(s, id, message, now, drainMs).0.sendTimes;
      forall i :: 0 <= i < |t| - 1 ==> t[i] + MinIntervalMs <= t[|t| - 1]
  {
  }

  /** One account's bot. `proxy` is stored and never used. */
  class TwitchBot {
    const username: string
    const oauthToken: string
    const proxy: Option<string>
    const channel: string

    var connected: bool
    var hasReader: bool
    var hasWriter: bool
    var readTask: ReadTask
    var lastSent: int
    ghost var wire: seq<string>
    ghost var sendTimes: seq<int>

    ghost function State(): Conn
      reads this
    {
      Conn(connected, hasReader, hasWriter, readTask, lastSent, wire, sendTimes)
    }

    function Id(): Identity {
      Identity(username, oauthToken, channel)
    }

    /** The channel loses every leading `#`; the bot starts disconnected with `_last_sent` zero. */
    constructor (username: string, oauthToken: string, proxy: Option<string>, channel: string)
      ensures this.username == username && this.oauthToken == oauthToken && this.proxy == proxy
      ensures this.channel == LStripHashes(channel)
      ensures State() == Initial && Invariant(State())
    {
      this.username := username;
      this.oauthToken := oauthToken;
      this.proxy := proxy;
      this.channel := LStripHashes(channel);
      connected := false;
      hasReader, hasWriter := false, false;
      readTask := NoTask;
      lastSent := 0;
      wire, sendTimes := [], [];
    }

    /** `_write`. */
    method Write(data: string)
      modifies this`wire
      ensures State() == WriteStep(old(State()), data)
    {
      if hasWriter {
        wire := wire + [Frame(data)];
      }
    }

    method Connect(openOk: bool) returns (status: Status)
      modifies this
      ensures (State(), status) == ConnectStep(old(State()), Id(), openOk)
    {
      if connected {
        return Done;
      }
      if !openOk {
        return Raised(OpenFailed);
      }
      hasReader, hasWriter := true, true;
      if !HasOAuthPrefix(oauthToken) {
        return Raised(BadToken);
      }
      Write("PASS " + oauthToken);
      Write("NICK " + username);
      Write("JOIN #" + channel);
      readTask := Reading;
      connected := true;
      status := Done;
    }

    /** `_read_loop`, run on the lines that arrive before the loop ends or is observed. */
    method ReadLoop(inbound: seq<string>, streamEnds: bool)
      requires readTask == Reading
      modifies this
      ensures State() == ReadStep(old(State()), inbound, streamEnds)
    {
      var i := 0;
      var ended := streamEnds;
      while i < |inbound|
        invariant 0 <= i <= |inbound|
        invariant "" !in inbound[..i]
        invariant wire == old(wire) + (if hasWriter then Replies(inbound[..i]) else [])
        invariant State() == old(State()).(wire := wire)
        invariant ended == streamEnds
      {
        var line := inbound[i];
        if line == "" {
          ended := true;
          break;
        }
        if IsPing(line) {
          Write(PongText);
        }
        RepliesAppend(inbound[..i], [line]);
        assert inbound[..i + 1] == inbound[..i] + [line];
        i := i + 1;
      }
      assert Received(inbound) == inbound[..i] by {
        ReceivedUpTo(inbound, i);
      }
      if ended {
        connected := false;
        readTask := Finished;
      }
    }

    method SendMessage(message: string, now: int, drainMs: nat) returns (status: Status)
      modifies this
      ensures (State(), status) == SendStep(old(State()), Id(), message, now, drainMs)
    {
      if !connected || !hasWriter {
        return Raised(NotConnected);
      }
      var wait := MinIntervalMs - (now - lastSent);
      var at := now;
      if wait > 0 {
        at := now + wait;
      }
      Write("PRIVMSG #" + channel + " :" + message);
      sendTimes := sendTimes + [at];
      lastSent := at + drainMs;
      status := Done;
    }

    method Close()
      modifies this
      ensures State() == CloseStep(old(State()), Id())
    {
      connected := false;
      if hasWriter {
        Write("PART #" + channel);
      }
      hasReader, hasWriter, readTask := false, false, NoTask;
    }
  }

  /** The prefix the read loop walked is what `Received` keeps. */
  lemma {:induction false} ReceivedUpTo(lines: seq<string>, i: nat)
    requires i <= |lines| && "" !in lines[..i]
    requires i == |lines| || lines[i] == ""
    ensures Received(lines) == lines[..i]
  {
    if i > 0 {
      assert lines[0] == lines[..i][0];
      assert lines[1..][..i - 1] == lines[..i][1..];
      assert "" !in lines[1..][..i - 1];
      ReceivedUpTo(lines[1..], i - 1);
      assert lines[..i] == [lines[0]] + lines[1..][..i - 1];
    }
  }
}
