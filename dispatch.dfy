/**
 * The command dispatcher of the controller, as values: the commands producers
 * send, the dispatcher's state, and what applying one command, or a whole
 * ordered stream of them, does to that state, to the MIDI bytes written and to
 * the device-state reports sent back to the display.
 *
 * Opening a port and writing to it are outside the model; their outcomes are
 * given by an oracle (`Env`), indexed so that every open attempt and every write
 * attempt has its own outcome.
 */
module Dispatch {
  import opened Wrappers
  import MidiWire

  /** `MidiCommand`: what producers ask the dispatcher to do. `bpm` is stored and echoed only. */
  datatype Command =
    | Connect(port: Option<nat>, channel: bv8)
    | Disconnect
    | SendCC(channel: bv8, controller: bv8, value: bv8)
    | Start
    | Stop
    | Continue
    | QueryDevice
    | SetBpm(bpm: real)
    | Quit

  /** `DeviceState`: the reports the dispatcher sends back to the display. */
  datatype DeviceState = Artist(name: string) | Bpm(bpm: real)

  /** An open output connection: the port it was opened on and which open attempt produced it. */
  datatype Handle = Handle(port: nat, serial: nat)

  /** One attempted write on a connection, with whether the device accepted it. */
  datatype Write = Write(handle: Handle, bytes: seq<bv8>, ok: bool)

  /**
   * The outside world: `openOk(serial, port)` says whether open attempt number `serial`
   * on `port` succeeds; `sendOk(n)` whether the write attempt with index `n` in the
   * write log succeeds.
   */
  datatype Env = Env(openOk: (nat, nat) -> bool, sendOk: nat -> bool)

  /**
   * The dispatcher's locals (`conn`, `_current_port`, `_current_channel`, `current_bpm`),
   * the count of open attempts, and the logs of MIDI writes and of reports sent.
   */
  datatype State = State(
    conn: Option<Handle>,
    currentPort: Option<nat>,
    currentChannel: bv8,
    currentBpm: real,
    opens: nat,
    writes: seq<Write>,
    events: seq<DeviceState>)

  const DeviceName: string := "Digitakt"
  const DefaultBpm: real := 120.0
  /** The number of clock pulses sent after a Start. */
  const StartBurst: nat := 6

  /** The dispatcher before its first command: no connection, the initial channel, 120 bpm. */
  function Initial(channel: bv8): State {
    State(None, None, channel, DefaultBpm, 0, [], [])
  }

  /** The report sent on a successful connect and on a device query. */
  function Report(bpm: real): seq<DeviceState> {
    [Artist(DeviceName), Bpm(bpm)]
  }

  /**
   * The source computes `channel - 1` on a `u8` when it sends a Control Change, so a
   * Control Change on channel 0 is outside its domain once there is a connection;
   * without one, `send_cc` is never reached.
   */
  predicate Encodable(cmd: Command) {
    cmd.SendCC? ==> cmd.channel != 0
  }

  predicate AllEncodable(cmds: seq<Command>) {
    forall i :: 0 <= i < |cmds| ==> Encodable(cmds[i])
  }

  /** The commands that write to the connection when there is one. */
  predicate Transmits(cmd: Command) {
    cmd.SendCC? || cmd.Start? || cmd.Stop? || cmd.Continue?
  }

  /** The clock-pulse write attempts number `from` to `from + n - 1` on `h`, with their outcomes. */
  function ClockWrites(h: Handle, from: nat, n: nat, env: Env): seq<Write>
  {
    seq(n, i requires 0 <= i < n => Write(h, [MidiWire.ClockByte], env.sendOk(from + i)))
  }

  /** One write attempt (`conn.send`) on the open connection; the oracle decides its outcome. */
  function Send(s: State, bytes: seq<bv8>, env: Env): (State, bool)
    requires s.conn.Some?
  {
    var ok := env.sendOk(|s.writes|);
    (s.(writes := s.writes + [Write(s.conn.value, bytes, ok)]), ok)
  }

  /** The Start path's `for _ in 0..6` loop, for `n` pulses: every pulse is attempted, a failure is only logged. */
  function Ticks(s: State, n: nat, env: Env): (r: State)
    requires s.conn.Some?
    ensures r == s.(writes := r.writes)
    ensures r.writes == s.writes + ClockWrites(s.conn.value, |s.writes|, n, env)
    decreases n
  {
    if n == 0 then s else Send(Ticks(s, n - 1, env), MidiWire.RealtimeMessage(MidiWire.ClockByte), env).0
  }

  /**
   * `send_timing_clock`'s loop: up to `ticks` clock pulses, stopping at the first
   * write that fails (the `?`). The boolean is the `Result`: true for `Ok(())`.
   */
  function TimingClock(s: State, ticks: nat, env: Env): (r: (State, bool))
    requires s.conn.Some?
    ensures r.0 == s.(writes := r.0.writes)
    ensures |s.writes| <= |r.0.writes| <= |s.writes| + ticks
    ensures r.0.writes == s.writes + ClockWrites(s.conn.value, |s.writes|, |r.0.writes| - |s.writes|, env)
    ensures r.1 <==> forall i :: |s.writes| <= i < |s.writes| + ticks ==> env.sendOk(i)
    ensures r.1 ==> |r.0.writes| == |s.writes| + ticks
    ensures !r.1 ==> |r.0.writes| > |s.writes| && !env.sendOk(|r.0.writes| - 1)
    ensures forall i :: |s.writes| <= i < |r.0.writes| - 1 ==> env.sendOk(i)
    decreases ticks
  {
    if ticks == 0 then (s, true)
    else
      var (t, ok) := TimingClock(s, ticks - 1, env);
      if !ok then (t, false)
      else Send(t, MidiWire.RealtimeMessage(MidiWire.ClockByte), env)
  }

  /** Once a pulse has failed, asking for more pulses changes nothing: the loop has returned. */
  lemma {:induction false} TimingClockStopsAtFailure(s: State, i: nat, k: nat, env: Env)
    requires s.conn.Some? && i <= k && !TimingClock(s, i, env).1
    ensures TimingClock(s, k, env) == TimingClock(s, i, env)
    decreases k
  {
    if k > i {
      TimingClockStopsAtFailure(s, i, k - 1, env);
    }
  }

  /** When every write succeeds, `ticks` clock pulses go out, one message of 0xF8 each. */
  lemma TimingClockAllSent(s: State, ticks: nat, env: Env)
    requires s.conn.Some?
    requires forall i :: |s.writes| <= i < |s.writes| + ticks ==> env.sendOk(i)
    ensures TimingClock(s, ticks, env).1
    ensures TimingClock(s, ticks, env).0 == s.(writes := s.writes + ClockWrites(s.conn.value, |s.writes|, ticks, env))
  {
    var r := TimingClock(s, ticks, env);
    assert r.0.writes == s.writes + ClockWrites(s.conn.value, |s.writes|, ticks, env);
  }

  /** What the dispatcher does with one command (one arm of the `match cmd`). */
  function StepSpec(s: State, cmd: Command, env: Env): State
    requires s.conn.Some? ==> Encodable(cmd)
  {
    match cmd
    case Connect(port, ch) =>
      var s1 := s.(currentChannel := ch);
      if port.None? then s1
      else if env.openOk(s.opens, port.value) then
        s1.(conn := Some(Handle(port.value, s.opens)), currentPort := port, opens := s.opens + 1,
            events := s.events + Report(s.currentBpm))
      else
        s1.(opens := s.opens + 1)
    case Disconnect =>
      s.(conn := None, currentPort := None)
    case SendCC(ch, controller, value) =>
      if s.conn.None? then s else Send(s, MidiWire.CcMessage(ch, controller, value), env).0
    case Start =>
      if s.conn.None? then s
      else
        var (s1, ok) := Send(s, MidiWire.RealtimeMessage(MidiWire.StartByte), env);
        if ok then Ticks(s1, StartBurst, env) else s1
    case Stop =>
      if s.conn.None? then s else Send(s, MidiWire.RealtimeMessage(MidiWire.StopByte), env).0
    case Continue =>
      if s.conn.None? then s else Send(s, MidiWire.RealtimeMessage(MidiWire.ContinueByte), env).0
    case QueryDevice =>
      s.(events := s.events + Report(s.currentBpm))
    case SetBpm(bpm) =>
      s.(currentBpm := bpm, events := s.events + [Bpm(bpm)])
    case Quit =>
      s
  }

  /** The `for cmd in rx` loop: commands applied in order, up to the first `Quit` or the end of the stream. */
  function RunSpec(s: State, cmds: seq<Command>, env: Env): State
    requires AllEncodable(cmds)
    decreases |cmds|
  {
    if cmds == [] || cmds[0].Quit? then s
    else RunSpec(StepSpec(s, cmds[0], env), cmds[1..], env)
  }

  // ---------------------------------------------------------------------------
  // One command.

  /** A Control Change writes exactly [0xB0 | (channel - 1), controller, value] once, and changes nothing else. */
  lemma SendCcOnWire(s: State, channel: bv8, controller: bv8, value: bv8, env: Env)
    requires s.conn.Some? && 1 <= channel <= 16
    ensures StepSpec(s, SendCC(channel, controller, value), env)
         == s.(writes := s.writes + [Write(s.conn.value, [0xB0 | (channel - 1), controller, value], env.sendOk(|s.writes|))])
  {
    MidiWire.CcMessageLayout(channel, controller, value);
  }

  /** The channel a Control Change goes out on is the command's own, whatever the dispatcher's current channel. */
  lemma SendCcIgnoresCurrentChannel(s: State, ch: bv8, cmd: Command, env: Env)
    requires cmd.SendCC? && cmd.channel != 0
    ensures StepSpec(s.(currentChannel := ch), cmd, env) == StepSpec(s, cmd, env).(currentChannel := ch)
  {
  }

  /** Stop and Continue write their single real-time byte once when connected. */
  lemma StopAndContinueOnWire(s: State, env: Env)
    requires s.conn.Some?
    ensures StepSpec(s, Stop, env) == s.(writes := s.writes + [Write(s.conn.value, [0xFC], env.sendOk(|s.writes|))])
    ensures StepSpec(s, Continue, env) == s.(writes := s.writes + [Write(s.conn.value, [0xFB], env.sendOk(|s.writes|))])
  {
  }

  /**
   * Start writes 0xFA; when that write succeeds it is followed by exactly six clock
   * write attempts, each made whether or not the previous one failed; when it fails,
   * nothing follows.
   */
  lemma StartOnWire(s: State, env: Env)
    requires s.conn.Some?
    ensures var n := |s.writes|;
            var h := s.conn.value;
            StepSpec(s, Start, env)
            == s.(writes := s.writes + [Write(h, [0xFA], env.sendOk(n))]
                            + (if env.sendOk(n) then ClockWrites(h, n + 1, 6, env) else []))
  {
  }

  /** The bytes of a successful Start are 0xFA and six 0xF8, however the pulses fare. */
  lemma StartBytes(s: State, env: Env)
    requires s.conn.Some? && env.sendOk(|s.writes|)
    ensures var w := StepSpec(s, Start, env).writes;
            && |w| == |s.writes| + 7
            && w[|s.writes|].bytes == [0xFA]
            && forall i :: |s.writes| < i < |w| ==> w[i].bytes == [0xF8] && w[i].handle == s.conn.value
  {
    StartOnWire(s, env);
  }

  /** Without a connection, the commands that would write do nothing at all. */
  lemma OfflineIsNoOp(s: State, cmd: Command, env: Env)
    requires s.conn.None? && Transmits(cmd)
    ensures StepSpec(s, cmd, env) == s
  {
  }

  /**
   * Connect always takes the new channel. A port that opens becomes the connection and
   * the current port, and the device report is sent; a port that fails to open, or no
   * port, leaves the previous connection and port in place. Nothing is written.
   */
  lemma ConnectEffect(s: State, port: Option<nat>, ch: bv8, env: Env)
    ensures var r := StepSpec(s, Connect(port, ch), env);
            && r.currentChannel == ch
            && r.writes == s.writes
            && r.currentBpm == s.currentBpm
            && (port.Some? && env.openOk(s.opens, port.value) ==>
                  r.conn == Some(Handle(port.value, s.opens)) && r.currentPort == port
                  && r.events == s.events + [Artist("Digitakt"), Bpm(s.currentBpm)])
            && (port.None? || !env.openOk(s.opens, port.value) ==>
                  r.conn == s.conn && r.currentPort == s.currentPort && r.events == s.events)
  {
  }

  /** Disconnect drops the connection and the current port, and is idempotent. */
  lemma DisconnectEffect(s: State, env: Env)
    ensures StepSpec(s, Disconnect, env) == s.(conn := None, currentPort := None)
    ensures StepSpec(StepSpec(s, Disconnect, env), Disconnect, env) == StepSpec(s, Disconnect, env)
  {
  }

  /** Connect, Disconnect, SetBpm and QueryDevice write no MIDI bytes. */
  lemma ControlCommandsAreSilent(s: State, cmd: Command, env: Env)
    requires cmd.Connect? || cmd.Disconnect? || cmd.SetBpm? || cmd.QueryDevice?
    ensures StepSpec(s, cmd, env).writes == s.writes
  {
  }

  /** SetBpm stores and echoes the tempo; QueryDevice reports the device name and the stored tempo. */
  lemma ReportEffect(s: State, bpm: real, env: Env)
    ensures StepSpec(s, SetBpm(bpm), env) == s.(currentBpm := bpm, events := s.events + [Bpm(bpm)])
    ensures StepSpec(s, QueryDevice, env) == s.(events := s.events + [Artist("Digitakt"), Bpm(s.currentBpm)])
  {
  }

  /** A step only appends to the logs: what was written or reported before stays, in order. */
  lemma StepExtendsLogs(s: State, cmd: Command, env: Env)
    requires Encodable(cmd)
    ensures var r := StepSpec(s, cmd, env);
            && |s.writes| <= |r.writes| && r.writes[..|s.writes|] == s.writes
            && |s.events| <= |r.events| && r.events[..|s.events|] == s.events
            && s.opens <= r.opens
  {
    var r := StepSpec(s, cmd, env);
    if cmd.Start? && s.conn.Some? {
      StartOnWire(s, env);
    }
  }

  // ---------------------------------------------------------------------------
  // A stream of commands.

  lemma {:induction false} RunExtendsLogs(s: State, cmds: seq<Command>, env: Env)
    requires AllEncodable(cmds)
    ensures var r := RunSpec(s, cmds, env);
            && |s.writes| <= |r.writes| && r.writes[..|s.writes|] == s.writes
            && |s.events| <= |r.events| && r.events[..|s.events|] == s.events
    decreases |cmds|
  {
    if cmds != [] && !cmds[0].Quit? {
      var t := StepSpec(s, cmds[0], env);
      StepExtendsLogs(s, cmds[0], env);
      RunExtendsLogs(t, cmds[1..], env);
      var r := RunSpec(t, cmds[1..], env);
      assert r.writes[..|s.writes|] == r.writes[..|t.writes|][..|s.writes|];
      assert r.events[..|s.events|] == r.events[..|t.events|][..|s.events|];
    }
  }

  /** Running `a` and then `b` is running `a + b`, when `a` holds no Quit. */
  lemma {:induction false} RunAppend(s: State, a: seq<Command>, b: seq<Command>, env: Env)
    requires AllEncodable(a) && AllEncodable(b)
    requires forall i :: 0 <= i < |a| ==> !a[i].Quit?
    ensures AllEncodable(a + b)
    ensures RunSpec(s, a + b, env) == RunSpec(RunSpec(s, a, env), b, env)
    decreases |a|
  {
    assert AllEncodable(a + b) by {
      forall i | 0 <= i < |a + b| ensures Encodable((a + b)[i]) {
        if i < |a| { assert (a + b)[i] == a[i]; } else { assert (a + b)[i] == b[i - |a|]; }
      }
    }
    if a == [] {
      assert a + b == b;
    } else {
      var t := StepSpec(s, a[0], env);
      assert (a + b)[0] == a[0];
      assert (a + b)[1..] == a[1..] + b;
      RunAppend(t, a[1..], b, env);
      assert RunSpec(s, a, env) == RunSpec(t, a[1..], env);
      assert RunSpec(s, a + b, env) == RunSpec(t, a[1..] + b, env);
    }
  }

  /** Nothing after the first Quit has any effect: not a byte, a report or a state change. */
  lemma {:induction false} RunStopsAtQuit(s: State, a: seq<Command>, b: seq<Command>, env: Env)
    requires AllEncodable(a) && AllEncodable(b)
    requires forall i :: 0 <= i < |a| ==> !a[i].Quit?
    ensures AllEncodable(a + [Quit] + b)
    ensures RunSpec(s, a + [Quit] + b, env) == RunSpec(s, a, env)
    decreases |a|
  {
    assert AllEncodable([Quit] + b) by {
      forall i | 0 <= i < |[Quit] + b| ensures Encodable(([Quit] + b)[i]) {
        if i > 0 { assert ([Quit] + b)[i] == b[i - 1]; }
      }
    }
    RunAppend(s, a, [Quit] + b, env);
    assert a + [Quit] + b == a + ([Quit] + b);
  }

  /**
   * Commands are applied in the order received: every byte the commands of `a` write
   * precedes every byte the commands of `b` write.
   */
  lemma RunOrdersWrites(s: State, a: seq<Command>, b: seq<Command>, env: Env)
    requires AllEncodable(a) && AllEncodable(b)
    requires forall i :: 0 <= i < |a| ==> !a[i].Quit?
    ensures AllEncodable(a + b)
    ensures var ra := RunSpec(s, a, env);
            var rab := RunSpec(s, a + b, env);
            |ra.writes| <= |rab.writes| && rab.writes[..|ra.writes|] == ra.writes
  {
    RunAppend(s, a, b, env);
    RunExtendsLogs(RunSpec(s, a, env), b, env);
  }
  // ---------------------------------------------------------------------------
  // Scenarios, in a world where every open and every write succeeds.

  function AllOk(): Env {
    Env((serial: nat, port: nat) => true, (n: nat) => true)
  }

  /** Connecting to port 0 on channel 1 and sending controller 74 = 100 puts B0 4A 64 on the wire. */
  lemma ConnectThenControlChange()
    ensures var r := RunSpec(Initial(1), [Connect(Some(0), 1), SendCC(1, 74, 100)], AllOk());
            && r.writes == [Write(Handle(0, 0), [0xB0, 74, 100], true)]
            && r.events == [Artist("Digitakt"), Bpm(120.0)]
  {
    var s1 := StepSpec(Initial(1), Connect(Some(0), 1), AllOk());
    SendCcOnWire(s1, 1, 74, 100, AllOk());
  }

  /** After a reconnect, output goes to the newly opened connection, and the device is reported twice. */
  lemma ReconnectRedirectsOutput()
    ensures var r := RunSpec(Initial(1), [Connect(Some(0), 1), Connect(Some(1), 2), Stop], AllOk());
            && r.conn == Some(Handle(1, 1)) && r.currentChannel == 2
            && r.writes == [Write(Handle(1, 1), [0xFC], true)]
            && r.events == Report(120.0) + Report(120.0)
  {
  }

  /** A Control Change queued behind a Quit is never written. */
  lemma QuitDropsLaterCommands()
    ensures RunSpec(Initial(1), [Connect(Some(0), 1), Quit, SendCC(1, 74, 100)], AllOk()).writes == []
  {
  }
}
