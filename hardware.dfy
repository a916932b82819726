/**
 * Abstract stand-ins for the digital-channel and serial-channel managers the
 * controllers call through `digital_channels[...]` and `serial_channels[...]`.
 * Their internals (GPIO and pyserial calls) are not part of this model: only
 * the state a caller can observe is kept.
 */
module Hardware {
  import opened Common

  /** One `write(level)` issued to a digital channel. */
  datatype ChannelWrite = ChannelWrite(channel: int, level: int)

  /** The channel levels after a sequence of writes, in order. */
  function ApplyWrites(levels: map<int, int>, ws: seq<ChannelWrite>): (r: map<int, int>)
    ensures r.Keys == levels.Keys + set w | w in ws :: w.channel
    ensures forall ch :: ch in levels && (forall w :: w in ws ==> w.channel != ch) ==> r[ch] == levels[ch]
    decreases |ws|
  {
    if ws == [] then levels
    else ApplyWrites(levels[ws[0].channel := ws[0].level], ws[1..])
  }

  /** Applying one more write updates that one channel. */
  lemma {:induction false} ApplyWritesAppend(levels: map<int, int>, ws: seq<ChannelWrite>, w: ChannelWrite)
    ensures ApplyWrites(levels, ws + [w]) == ApplyWrites(levels, ws)[w.channel := w.level]
    decreases |ws|
  {
    if ws != [] {
      assert (ws + [w])[1..] == ws[1..] + [w];
      ApplyWritesAppend(levels[ws[0].channel := ws[0].level], ws[1..], w);
    }
  }

  /**
   * The digital channels: the level each line shows (for inputs, the level
   * the outside world presents; for outputs, the last level written), the
   * live PWM duty of each channel, and the log of every write.
   */
  class DigitalBank {
    var levels: map<int, int>
    var duty: map<int, int>
    var writes: seq<ChannelWrite>

    constructor (initialDuty: map<int, int>)
      ensures levels == map ch | ch in initialDuty :: 0
      ensures duty == initialDuty && writes == []
    {
      levels := map ch | ch in initialDuty :: 0;
      duty := initialDuty;
      writes := [];
    }

    predicate Has(ch: int)
      reads this
    {
      ch in levels && ch in duty
    }

    method Read(ch: int) returns (level: int)
      requires ch in levels
      ensures level == levels[ch]
    {
      level := levels[ch];
    }

    method Write(ch: int, level: int)
      requires ch in levels
      modifies this
      ensures levels == old(levels)[ch := level]
      ensures writes == old(writes) + [ChannelWrite(ch, level)]
      ensures duty == old(duty)
    {
      levels := levels[ch := level];
      writes := writes + [ChannelWrite(ch, level)];
    }

    /** `change_setting('pwm', value)`: the new live duty of a PWM channel. */
    method ChangePwm(ch: int, value: int)
      requires ch in duty
      modifies this
      ensures duty == old(duty)[ch := value]
      ensures levels == old(levels) && writes == old(writes)
    {
      duty := duty[ch := value];
    }

    /** The outside world changes the level on an input line (a door opens, a key turns). */
    method Present(ch: int, level: int)
      requires ch in levels
      modifies this
      ensures levels == old(levels)[ch := level]
      ensures duty == old(duty) && writes == old(writes)
    {
      levels := levels[ch := level];
    }
  }

  /** The command payloads a legacy driver writes to its own serial port (decoded from base64). */
  datatype Payload = ReadTempPayload | ReadLaserPayload | LaserOnPayload | LaserOffPayload

  /** One cached poll result: the message name and the bytes it returned. */
  datatype Listened = Listened(name: string, value: seq<Byte>)

  /** One on-demand `api_command(item, tag)` sent to a serial device. */
  datatype ApiCommandSent = ApiCommandSent(item: string, tag: string)

  /**
   * A serial device as the controllers see it: the latest value the poll loop
   * cached for every passive message, the on-demand commands sent so far, and
   * the last poll interval requested of it.
   */
  class SerialChannel {
    var listenerValues: seq<Listened>
    var sent: seq<ApiCommandSent>
    var pollInterval: int

    constructor (pollInterval: int)
      ensures listenerValues == [] && sent == [] && this.pollInterval == pollInterval
    {
      listenerValues := [];
      sent := [];
      this.pollInterval := pollInterval;
    }

    method ApiCommand(item: string, tag: string)
      modifies this
      ensures sent == old(sent) + [ApiCommandSent(item, tag)]
      ensures listenerValues == old(listenerValues) && pollInterval == old(pollInterval)
    {
      sent := sent + [ApiCommandSent(item, tag)];
    }

    method ChangePollInterval(seconds: int)
      modifies this
      ensures pollInterval == seconds
      ensures listenerValues == old(listenerValues) && sent == old(sent)
    {
      pollInterval := seconds;
    }

    /** The poll loop caches a new set of values. */
    method Poll(values: seq<Listened>)
      modifies this
      ensures listenerValues == values
      ensures sent == old(sent) && pollInterval == old(pollInterval)
    {
      listenerValues := values;
    }
  }
}
