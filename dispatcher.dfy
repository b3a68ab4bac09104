/**
 * The dispatcher worker as the source writes it: a loop over received commands
 * that updates its locals in place and writes to the open connection. Every
 * method is proved to do what the value model in module `Dispatch` says.
 */
module DispatchWorker {
  import opened Wrappers
  import MidiWire
  import opened Dispatch

  class Dispatcher {
    var conn: Option<Handle>
    var currentPort: Option<nat>
    var currentChannel: bv8
    var currentBpm: real
    /** How many times a port open was attempted. */
    var opens: nat
    /** Every write attempted on a connection, in order. */
    var writes: seq<Write>
    /** Every device-state report sent to the display, in order. */
    var events: seq<DeviceState>
    /** The outcomes of opens and writes. */
    const env: Env

    function Snapshot(): State
      reads this
    {
      State(conn, currentPort, currentChannel, currentBpm, opens, writes, events)
    }

    /** The worker's locals before the first command. */
    constructor (initialChannel: bv8, env: Env)
      ensures Snapshot() == Initial(initialChannel)
      ensures this.env == env
    {
      conn := None;
      currentPort := None;
      currentChannel := initialChannel;
      currentBpm := DefaultBpm;
      opens := 0;
      writes := [];
      events := [];
      this.env := env;
    }

    /** `open_output`: one open attempt on `port`, succeeding as the oracle says. */
    method OpenOutput(port: nat) returns (h: Option<Handle>)
      modifies this`opens
      ensures opens == old(opens) + 1
      ensures h == if env.openOk(old(opens), port) then Some(Handle(port, old(opens))) else None
    {
      if env.openOk(opens, port) {
        h := Some(Handle(port, opens));
      } else {
        h := None;
      }
      opens := opens + 1;
    }

    /** `conn.send`: one write attempt on the open connection. */
    method Transmit(bytes: seq<bv8>) returns (ok: bool)
      requires conn.Some?
      modifies this`writes
      ensures (Snapshot(), ok) == Send(old(Snapshot()), bytes, env)
    {
      ok := env.sendOk(|writes|);
      writes := writes + [Write(conn.value, bytes, ok)];
    }

    /** `send_realtime`: a one-byte message. */
    method SendRealtime(b: bv8) returns (ok: bool)
      requires conn.Some?
      modifies this`writes
      ensures (Snapshot(), ok) == Send(old(Snapshot()), MidiWire.RealtimeMessage(b), env)
    {
      ok := Transmit([b]);
    }

    /** `send_cc`: the status byte for `channel`, then controller and value. */
    method SendCc(channel: bv8, controller: bv8, value: bv8) returns (ok: bool)
      requires conn.Some? && channel != 0
      modifies this`writes
      ensures (Snapshot(), ok) == Send(old(Snapshot()), MidiWire.CcMessage(channel, controller, value), env)
    {
      var status := MidiWire.CcStatus(channel);
      ok := Transmit([status, controller, value]);
    }

    /**
     * `send_timing_clock`: up to `ticks` clock pulses, returning at the first failed
     * write. `bpm` only sets the pause between pulses, which is not modelled.
     */
    method SendTimingClock(bpm: real, ticks: nat) returns (ok: bool)
      requires conn.Some?
      modifies this`writes
      ensures (Snapshot(), ok) == TimingClock(old(Snapshot()), ticks, env)
    {
      ghost var s0 := Snapshot();
      for i := 0 to ticks
        invariant conn == s0.conn
        invariant (Snapshot(), true) == TimingClock(s0, i, env)
      {
        var sent := SendRealtime(MidiWire.ClockByte);
        if !sent {
          TimingClockStopsAtFailure(s0, i + 1, ticks, env);
          return false;
        }
      }
      return true;
    }

    /** One arm of the worker's `match cmd`. */
    method Step(cmd: Command)
      requires conn.Some? ==> Encodable(cmd)
      modifies this
      ensures Snapshot() == StepSpec(old(Snapshot()), cmd, env)
    {
      match cmd
      case Connect(port, ch) =>
        currentChannel := ch;
        if port.Some? {
          var h := OpenOutput(port.value);
          if h.Some? {
            conn := h;
            currentPort := port;
            events := events + Report(currentBpm);
          }
        }
      case Disconnect =>
        conn := None;
        currentPort := None;
      case SendCC(ch, controller, value) =>
        if conn.Some? {
          var _ := SendCc(ch, controller, value);
        }
      case Start =>
        if conn.Some? {
          var started := SendRealtime(MidiWire.StartByte);
          if started {
            ghost var s1 := Snapshot();
            for i := 0 to StartBurst
              invariant conn == s1.conn
              invariant Snapshot() == Ticks(s1, i, env)
            {
              var _ := SendRealtime(MidiWire.ClockByte);
            }
          }
        }
      case Stop =>
        if conn.Some? {
          var _ := SendRealtime(MidiWire.StopByte);
        }
      case Continue =>
        if conn.Some? {
          var _ := SendRealtime(MidiWire.ContinueByte);
        }
      case QueryDevice =>
        events := events + Report(currentBpm);
      case SetBpm(bpm) =>
        currentBpm := bpm;
        events := events + [Bpm(bpm)];
      case Quit =>
    }

    /** The worker's `for cmd in rx` loop: commands in order, leaving at the first Quit. */
    method Run(cmds: seq<Command>)
      requires AllEncodable(cmds)
      modifies this
      ensures Snapshot() == RunSpec(old(Snapshot()), cmds, env)
    {
      ghost var s0 := Snapshot();
      var i := 0;
      while i < |cmds|
        invariant 0 <= i <= |cmds|
        invariant RunSpec(s0, cmds, env) == RunSpec(Snapshot(), cmds[i..], env)
        decreases |cmds| - i
      {
        if cmds[i].Quit? {
          break;
        }
        assert cmds[i..][1..] == cmds[i + 1..];
        Step(cmds[i]);
        i := i + 1;
      }
    }
  }
}
