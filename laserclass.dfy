/**
 * The first-generation laser controller of laserclass.py: `LaserClass`, which
 * only tracks the firing flag and stores power and timeout in the settings
 * without any bound check; its own serial `PyroClass`, which keeps a raw
 * maximum from 0; and the `parsecontrol` entry point. One-shot `Timer`
 * threads are deadlines in a sequence, fired by an explicit tick.
 */
module LegacyLaser {
  import opened Common
  import opened Hardware
  import opened Telemetry
  import opened AppControl

  /** The GPIO pin the off branch of `laser` drives low. */
  const EnablePin := 16
  /** The seconds the rangefinder stays on before its timer switches it off. */
  const RangefinderTimeout := 60

  /** The deadlines of one-shot timers that have not fired by `now`, in order. */
  function Pending(timers: seq<int>, now: int): (r: seq<int>)
    ensures forall d :: d in r <==> d in timers && now < d
    ensures |r| <= |timers|
    decreases |timers|
  {
    if timers == [] then []
    else Pending(timers[..|timers| - 1], now) + (if now < timers[|timers| - 1] then [timers[|timers| - 1]] else [])
  }

  /** How many one-shot timers fire by `now`. */
  function DueCount(timers: seq<int>, now: int): (k: nat)
    ensures k + |Pending(timers, now)| == |timers|
    ensures k > 0 <==> exists i :: 0 <= i < |timers| && timers[i] <= now
    decreases |timers|
  {
    if timers == [] then 0
    else DueCount(timers[..|timers| - 1], now) + (if now < timers[|timers| - 1] then 0 else 1)
  }

  /** The record `laserstatus()` returns. */
  datatype LegacyStatus = LegacyStatus(laser: int, power: Value)

  class LaserClass {
    const settings: SettingsStore
    var frequency: Value
    var dutyCycle: Value
    var laserState: int
    /** Every `GPIO.output` call, as (pin, level). */
    var gpioWrites: seq<ChannelWrite>
    /** The deadlines of the pending `laser(2)` timers. */
    var offTimers: seq<int>

    ghost predicate Valid()
      reads this, settings
    {
      && "power" in settings.values && "maxtime" in settings.values
      && (laserState == 0 || laserState == 1)
    }

    constructor (settings: SettingsStore)
      requires "frequency" in settings.values && "power" in settings.values && "maxtime" in settings.values
      ensures Valid()
      ensures this.settings == settings
      ensures frequency == settings.values["frequency"] && dutyCycle == settings.values["power"]
      ensures laserState == 0 && gpioWrites == [] && offTimers == []
    {
      this.settings := settings;
      frequency := settings.values["frequency"];
      dutyCycle := settings.values["power"];
      laserState := 0;
      gpioWrites := [];
      offTimers := [];
    }

    /**
     * `laser(state)`: 1 switches on and schedules `laser(2)` after
     * `settings['maxtime']` seconds; 2 (the timer's own call) switches off;
     * anything else switches off and drives the enable pin low.
     */
    method Laser(state: int, now: int)
      requires Valid()
      modifies this`laserState, this`offTimers, this`gpioWrites
      ensures Valid()
      ensures laserState == if state == 1 then 1 else 0
      ensures offTimers == old(offTimers) + if state == 1 then OptionToSeq(MaxTimeDeadline(now, settings.values)) else []
      ensures gpioWrites == old(gpioWrites) + if state == 1 || state == 2 then [] else [ChannelWrite(EnablePin, 0)]
    {
      if state == 1 {
        laserState := 1;
        offTimers := offTimers + OptionToSeq(MaxTimeDeadline(now, settings.values));
      } else if state == 2 {
        laserState := 0;
      } else {
        laserState := 0;
        gpioWrites := gpioWrites + [ChannelWrite(EnablePin, 0)];
      }
    }

    /**
     * Every pending timer due by `now` fires `laser(2)`. A timer left over from
     * an earlier firing period switches off a later one just the same.
     */
    method TimerTick(now: int) returns (fired: bool)
      requires Valid()
      modifies this`laserState, this`offTimers, this`gpioWrites
      ensures Valid()
      ensures fired <==> exists i :: 0 <= i < |old(offTimers)| && old(offTimers)[i] <= now
      ensures laserState == if fired then 0 else old(laserState)
      ensures offTimers == Pending(old(offTimers), now)
      ensures forall d :: d in offTimers ==> now < d
      ensures gpioWrites == old(gpioWrites)
    {
      fired := DueCount(offTimers, now) > 0;
      offTimers := Pending(offTimers, now);
      if fired {
        Laser(2, now);
      }
    }

    /** `setpower`: the value is stored unchecked as the duty cycle and the 'power' setting, then saved at `stamp`. */
    method SetPower(laserPower: Value, stamp: string)
      requires Valid()
      modifies this`dutyCycle, settings
      ensures Valid()
      ensures dutyCycle == laserPower
      ensures settings.values == Stamped(old(settings.values)["power" := laserPower], stamp)
      ensures settings.saves == old(settings.saves) + 1
    {
      dutyCycle := laserPower;
      settings.Set("power", laserPower);
      settings.WriteSettings(stamp);
    }

    /** `setmaxtimeout`: the value is stored unchecked as the 'maxtime' setting, then saved at `stamp`. */
    method SetMaxTimeout(maxTime: Value, stamp: string)
      requires Valid()
      modifies settings
      ensures Valid()
      ensures settings.values == Stamped(old(settings.values)["maxtime" := maxTime], stamp)
      ensures settings.saves == old(settings.saves) + 1
    {
      settings.Set("maxtime", maxTime);
      settings.WriteSettings(stamp);
    }

    /** `laserstatus()`: the firing flag and the stored power setting, nothing else. */
    function LaserStatus(): (s: LegacyStatus)
      reads this, settings
      requires Valid()
      ensures s.laser == laserState && s.power == settings.values["power"]
      ensures s.laser == 0 || s.laser == 1
    {
      LegacyStatus(laserState, settings.values["power"])
    }
  }

  /** The timers a `Timer(settings['maxtime'], ...)` call adds: one with a deadline, none without. */
  function OptionToSeq(o: Option<int>): seq<int> {
    match o
    case None => []
    case Some(x) => [x]
  }

  /** The dictionary `temperature()` returns. */
  datatype RangefinderReading = RangefinderReading(temperature: real, laser: int, maxTemp: real)

  /**
   * The serial pyrometer of laserclass.py. Its read loop ends after its first
   * pass: the debug line after the read names an attribute the class lacks,
   * and the exception handler names it again, so the error escapes the thread.
   */
  class PyroClass {
    var portReady: int
    var readerAlive: bool
    var value: real
    var laser: int
    var maxTemp: real
    /** Every payload written to the port, in order. */
    var written: seq<Payload>
    /** The deadlines of the pending `laseroff` timers. */
    var offTimers: seq<int>

    ghost predicate Valid()
      reads this
    {
      0.0 <= maxTemp
    }

    /** `PyroClass(...)`: `portOpened` says whether `port.open()` succeeded; the reader starts only then. */
    constructor (portOpened: bool)
      ensures Valid()
      ensures portReady == (if portOpened then 1 else 0) && readerAlive == portOpened
      ensures value == 0.0 && laser == 0 && maxTemp == 0.0
      ensures written == [] && offTimers == []
    {
      portReady := if portOpened then 1 else 0;
      readerAlive := portOpened;
      value, laser, maxTemp := 0.0, 0, 0.0;
      written := [];
      offTimers := [];
    }

    method Close()
      modifies this`portReady
      ensures portReady == 0
    {
      portReady := 0;
    }

    /**
     * The one pass of `readtimer` that runs, given the replies to the two
     * read payloads. An empty reply zeroes value and laser; a one-byte reply
     * fails on decoding and, since the handler fails too, leaves every reading
     * as it was; two bytes or more set the value, raise the maximum and take the
     * laser flag from the second reply when it is not empty. The reader then ends.
     */
    method ReadIteration(reply1: seq<Byte>, reply2: seq<Byte>) returns (ran: bool)
      requires Valid()
      modifies this`readerAlive, this`value, this`laser, this`maxTemp, this`written
      ensures Valid()
      ensures ran <==> old(portReady) == 1 && old(readerAlive)
      ensures !readerAlive
      ensures !ran ==> value == old(value) && laser == old(laser) && maxTemp == old(maxTemp) && written == old(written)
      ensures ran && reply1 == [] ==>
        value == 0.0 && laser == 0 && maxTemp == old(maxTemp) && written == old(written) + [ReadTempPayload]
      ensures ran && |reply1| == 1 ==>
        value == old(value) && laser == old(laser) && maxTemp == old(maxTemp) && written == old(written) + [ReadTempPayload]
      ensures ran && |reply1| >= 2 ==>
        && value == DecodeTemperature(reply1[0], reply1[1])
        && maxTemp == Max(old(maxTemp), value)
        && laser == (if reply2 != [] then reply2[0] else old(laser))
        && written == old(written) + [ReadTempPayload, ReadLaserPayload]
    {
      ran := portReady == 1 && readerAlive;
      readerAlive := false;
      if !ran {
        return;
      }
      written := written + [ReadTempPayload];
      if reply1 == [] {
        value := 0.0;
        laser := 0;
      } else if |reply1| >= 2 {
        value := DecodeTemperature(reply1[0], reply1[1]);
        if maxTemp < value {
          maxTemp := value;
        }
        written := written + [ReadLaserPayload];
        if reply2 != [] {
          laser := reply2[0];
        }
      }
    }

    /** `resetmax`: the maximum goes back to 0. */
    method ResetMax()
      modifies this`maxTemp
      ensures Valid()
      ensures maxTemp == 0.0
    {
      maxTemp := 0.0;
    }

    /** `laseron`: with the port ready, write the on payload, set the flag and start a 60-second timer. */
    method LaserOn(now: int)
      modifies this`written, this`laser, this`offTimers
      ensures old(portReady) != 1 ==> unchanged(this)
      ensures old(portReady) == 1 ==>
        && written == old(written) + [LaserOnPayload]
        && laser == 1
        && offTimers == old(offTimers) + [now + RangefinderTimeout]
    {
      if portReady == 1 {
        written := written + [LaserOnPayload];
        laser := 1;
        offTimers := offTimers + [now + RangefinderTimeout];
      }
    }

    /** `laseroff`: with the port ready, write the off payload and clear the flag. */
    method LaserOff()
      modifies this`written, this`laser
      ensures old(portReady) != 1 ==> unchanged(this)
      ensures old(portReady) == 1 ==> written == old(written) + [LaserOffPayload] && laser == 0
    {
      if portReady == 1 {
        written := written + [LaserOffPayload];
        laser := 0;
      }
    }

    /** Every pending timer due by `now` calls `laseroff` once, in deadline order of creation. */
    method TimerTick(now: int)
      modifies this`written, this`laser, this`offTimers
      ensures offTimers == Pending(old(offTimers), now)
      ensures portReady != 1 ==> written == old(written) && laser == old(laser)
      ensures portReady == 1 ==>
        && written == old(written) + seq(DueCount(old(offTimers), now), _ => LaserOffPayload)
        && laser == if DueCount(old(offTimers), now) > 0 then 0 else old(laser)
    {
      var timers := offTimers;
      var i := 0;
      while i < |timers|
        invariant 0 <= i <= |timers|
        invariant portReady == old(portReady)
        invariant portReady != 1 ==> written == old(written) && laser == old(laser)
        invariant portReady == 1 ==>
          && written == old(written) + seq(DueCount(timers[..i], now), _ => LaserOffPayload)
          && laser == if DueCount(timers[..i], now) > 0 then 0 else old(laser)
      {
        assert timers[..i + 1][..i] == timers[..i];
        if timers[i] <= now {
          LaserOff();
        }
        i := i + 1;
      }
      assert timers[..i] == timers;
      offTimers := Pending(timers, now);
    }

    /** `temperature()`: the last value, the flag and the maximum, which is never negative. */
    function Temperature(): (r: RangefinderReading)
      reads this
      requires Valid()
      ensures r == RangefinderReading(value, laser, maxTemp)
      ensures 0.0 <= r.maxTemp
    {
      RangefinderReading(value, laser, maxTemp)
    }
  }

  /** What `parsecontrol` hands back. */
  datatype ControlReply =
    | Status(status: LegacyStatus)
    | MaxTime(maxTime: Value)
      /** 'laseralarm' calls a method `LaserClass` does not have; the error escapes. */
    | Raised

  /**
   * `parsecontrol(item, command)` at time `now` (`stamp` is that time as a
   * settings time stamp). `reboot` says whether the
   * system reboot was requested (it is issued at once, before the status is
   * returned).
   */
  method ParseControl(laser: LaserClass, item: string, command: Value, now: int, stamp: string) returns (reply: ControlReply, reboot: bool)
    requires laser.Valid()
    modifies laser, laser.settings
    ensures laser.Valid()
    ensures reboot <==> item == "restart" && command == Str("pi")
    ensures item == "laser" ==>
      && laser.laserState == (if command == Str("on") then 1 else 0)
      && laser.offTimers == old(laser.offTimers) +
           (if command == Str("on") then OptionToSeq(MaxTimeDeadline(now, laser.settings.values)) else [])
      && laser.gpioWrites == old(laser.gpioWrites) + (if command == Str("on") then [] else [ChannelWrite(EnablePin, 0)])
      && laser.dutyCycle == old(laser.dutyCycle) && laser.frequency == old(laser.frequency)
      && unchanged(laser.settings)
      && reply == Status(laser.LaserStatus())
    ensures item == "setlaserpower" ==>
      && laser.dutyCycle == command
      && laser.settings.values == Stamped(old(laser.settings.values)["power" := command], stamp)
      && laser.settings.saves == old(laser.settings.saves) + 1
      && laser.laserState == old(laser.laserState) && laser.offTimers == old(laser.offTimers)
      && laser.gpioWrites == old(laser.gpioWrites) && laser.frequency == old(laser.frequency)
      && reply == Status(LegacyStatus(old(laser.laserState), command))
    ensures item == "setlasertimeout" ==>
      && laser.settings.values == Stamped(old(laser.settings.values)["maxtime" := command], stamp)
      && laser.settings.saves == old(laser.settings.saves) + 1
      && laser.laserState == old(laser.laserState) && laser.offTimers == old(laser.offTimers)
      && laser.gpioWrites == old(laser.gpioWrites)
      && laser.dutyCycle == old(laser.dutyCycle) && laser.frequency == old(laser.frequency)
      && reply == MaxTime(command)
    ensures item == "laseralarm" ==> reply == Raised && unchanged(laser, laser.settings)
    ensures item !in ["laser", "setlaserpower", "setlasertimeout", "laseralarm"] ==>
      && reply == Status(old(laser.LaserStatus()))
      && unchanged(laser, laser.settings)
  {
    reboot := false;
    if item == "laser" {
      if command == Str("on") {
        laser.Laser(1, now);
        return Status(laser.LaserStatus()), false;
      }
      laser.Laser(0, now);
      return Status(laser.LaserStatus()), false;
    }
    if item == "setlaserpower" {
      laser.SetPower(command, stamp);
      return Status(laser.LaserStatus()), false;
    }
    if item == "laseralarm" {
      return Raised, false;
    }
    if item == "laserstatus" {
      return Status(laser.LaserStatus()), false;
    }
    if item == "setlasertimeout" {
      laser.SetMaxTimeout(command, stamp);
      return MaxTime(laser.settings.values["maxtime"]), false;
    }
    if item == "restart" {
      if command == Str("pi") {
        reboot := true;
        return Status(laser.LaserStatus()), true;
      }
    }
    reply := Status(laser.LaserStatus());
  }
}
