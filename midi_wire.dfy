/**
 * The byte side of the controller's MIDI output: the Control Change message and
 * the one-byte system real-time messages, laid out as MIDI 1.0 requires.
 */
module MidiWire {
  import opened Wrappers

  /** A MIDI status byte's upper nibble for Control Change; the lower nibble is the channel. */
  const ControlChangeStatus: bv8 := 0xB0

  /** The system real-time bytes the controller sends. */
  const ClockByte: bv8 := 0xF8
  const StartByte: bv8 := 0xFA
  const ContinueByte: bv8 := 0xFB
  const StopByte: bv8 := 0xFC

  /** `send_realtime`: the message written for real-time byte `b` is `b` alone. */
  function RealtimeMessage(b: bv8): (msg: seq<bv8>)
    ensures |msg| == 1 && msg[0] == b
  {
    [b]
  }

  /**
   * The status byte `send_cc` computes: 0xB0 with the channel's nibble, where the
   * channel is 1-based. The source subtracts 1 from an unsigned byte, so channel 0
   * is outside what it handles; channels above 16 wrap through the 0x0F mask.
   */
  function CcStatus(channel: bv8): (status: bv8)
    requires channel != 0
    ensures status & 0xF0 == ControlChangeStatus
    ensures status & 0x0F == (channel - 1) & 0x0F
  {
    ControlChangeStatus | ((channel - 1) & 0x0F)
  }

  /** `send_cc`: status, controller, value. Controller and value are sent as given, unmasked. */
  function CcMessage(channel: bv8, controller: bv8, value: bv8): (msg: seq<bv8>)
    requires channel != 0
    ensures |msg| == 3 && msg[0] & 0xF0 == ControlChangeStatus
  {
    [CcStatus(channel), controller, value]
  }

  /** Reads a three-byte Control Change message back as (1-based channel, controller, value). */
  function ParseCc(msg: seq<bv8>): (r: Option<(bv8, bv8, bv8)>)
    ensures r.Some? ==> 1 <= r.value.0 <= 16
  {
    if |msg| == 3 && msg[0] & 0xF0 == ControlChangeStatus then
      Some(((msg[0] & 0x0F) + 1, msg[1], msg[2]))
    else
      None
  }

  /** For a channel in 1..16 the message is exactly [0xB0 | (channel - 1), controller, value]. */
  lemma CcMessageLayout(channel: bv8, controller: bv8, value: bv8)
    requires 1 <= channel <= 16
    ensures CcMessage(channel, controller, value) == [0xB0 | (channel - 1), controller, value]
    ensures 0xB0 <= CcMessage(channel, controller, value)[0] <= 0xBF
  {
  }

  /** A Control Change on channel 1..16 reads back as the channel, controller and value it was made from. */
  lemma CcRoundTrip(channel: bv8, controller: bv8, value: bv8)
    requires 1 <= channel <= 16
    ensures ParseCc(CcMessage(channel, controller, value)) == Some((channel, controller, value))
  {
  }

  /** Channels above 16 are not rejected: they alias the channel with the same low nibble. */
  lemma CcChannelWraps(channel: bv8, controller: bv8, value: bv8)
    requires channel > 16
    ensures CcMessage(channel, controller, value) == CcMessage(channel - 16, controller, value)
  {
  }
}
