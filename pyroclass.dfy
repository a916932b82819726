/**
 * The first-generation pyrometer driver (`PyroClass` of pyroclass.py). It
 * talks to the serial port itself: every read cycle writes the read-temperature
 * payload, decodes the reply, updates the maxima and an integer-truncated
 * moving average, then writes the read-laser payload and takes the laser flag
 * from the second reply. Every port action is gated on `portReady`. The port
 * is abstracted as the log of payloads written to it; the replies are inputs.
 */
module LegacyPyro {
  import opened Common
  import opened Telemetry
  import opened Hardware
  import opened AppControl

  /** The dictionary `temperature()` returns. */
  datatype LegacyReading = LegacyReading(
    temperature: real,
    averageTemp: int,
    pyroLaser: int,
    maxTemp: real,
    averageMaxTemp: real)

  class PyroClass {
    /** `settings['pyro-min-temp']`. */
    const floor: int
    /** `settings['pyro-running-average']`. */
    const n: nat
    const settings: SettingsStore

    var portReady: int
    var value: real
    var averageTemp: int
    var maxTemp: real
    var averageMaxTemp: real
    var laser: int
    var tempSeq: seq<real>
    /** Every payload written to the port, in order. */
    var written: seq<Payload>
    /** The deadline of every live off-timer thread that has one. */
    var offTimers: seq<int>

    ghost predicate Valid()
      reads this
    {
      && n > 0 && |tempSeq| == n
      && AllAtLeast(tempSeq, floor as real)
      && averageTemp == Trunc(Mean(tempSeq))
      && floor as real <= maxTemp
      && floor as real <= averageMaxTemp
    }

    /** `PyroClass(...)`: `portOpened` says whether `port.open()` succeeded. */
    constructor (floor: int, n: nat, settings: SettingsStore, portOpened: bool)
      requires n > 0
      ensures Valid()
      ensures this.floor == floor && this.n == n && this.settings == settings
      ensures portReady == if portOpened then 1 else 0
      ensures value == maxTemp == averageMaxTemp == floor as real && averageTemp == floor
      ensures tempSeq == Repeat(floor as real, n)
      ensures laser == 0 && written == [] && offTimers == []
    {
      this.floor := floor;
      this.n := n;
      this.settings := settings;
      value, maxTemp, averageMaxTemp := floor as real, floor as real, floor as real;
      averageTemp := floor;
      laser := 0;
      tempSeq := Repeat(floor as real, n);
      written := [];
      offTimers := [];
      portReady := if portOpened then 1 else 0;
      new;
      MeanRepeat(floor as real, n);
    }

    /** `close`: the port is released and every later port action is skipped. */
    method Close()
      modifies this`portReady
      ensures portReady == 0
    {
      portReady := 0;
    }

    /**
     * `setaverage`: the window rule chosen by `value` against the previous
     * integer average, then the truncated mean and the raised average maximum.
     */
    method SetAverage()
      requires Valid()
      modifies this`tempSeq, this`averageTemp, this`averageMaxTemp
      ensures Valid()
      ensures tempSeq == NextWindow(old(tempSeq), value, old(averageTemp) as real, floor as real, n)
      ensures averageTemp == Trunc(Mean(tempSeq))
      ensures averageMaxTemp == Max(averageTemp as real, old(averageMaxTemp))
      ensures floor <= averageTemp
      ensures match RuleFor(value, old(averageTemp) as real, floor as real)
        case ResetToFloor => averageTemp == floor
        case FastConverge => averageTemp == Trunc(value)
        case Slide => tempSeq == old(tempSeq)[1..] + [value]
    {
      if value <= floor as real {
        tempSeq := Repeat(floor as real, n);
      } else if value > averageTemp as real + 20.0 {
        tempSeq := Repeat(value, n);
      } else {
        tempSeq := tempSeq + [value];
        tempSeq := tempSeq[1..];
      }
      NextMean(old(tempSeq), value, old(averageTemp) as real, floor as real, n);
      MeanAtLeast(tempSeq, floor as real);
      averageTemp := Trunc(Mean(tempSeq));
      TruncAtLeast(Mean(tempSeq), floor);
      averageMaxTemp := Max(averageTemp as real, averageMaxTemp);
    }

    /**
     * One iteration of `readtimer`, given the replies to the read-temperature
     * and read-laser payloads. It runs only while the port is ready. An empty
     * first reply zeroes value and laser. A one-byte reply fails on decoding
     * and zeroes the value alone. Otherwise the decoded value raises the
     * maximum and feeds the average before the laser is read; an empty second
     * reply then fails and zeroes the value, although the maximum and the
     * window already hold the decoded sample.
     */
    method ReadIteration(reply1: seq<Byte>, reply2: seq<Byte>) returns (ran: bool)
      requires Valid()
      modifies this`value, this`laser, this`maxTemp, this`tempSeq, this`averageTemp, this`averageMaxTemp, this`written
      ensures Valid()
      ensures ran <==> old(portReady) == 1
      ensures !ran ==> unchanged(this)
      ensures ran && |reply1| < 2 ==>
        && value == 0.0
        && laser == (if reply1 == [] then 0 else old(laser))
        && written == old(written) + [ReadTempPayload]
        && maxTemp == old(maxTemp) && averageMaxTemp == old(averageMaxTemp)
        && tempSeq == old(tempSeq) && averageTemp == old(averageTemp)
      ensures ran && |reply1| >= 2 ==>
        var sample := DecodeTemperature(reply1[0], reply1[1]);
        && maxTemp == Max(sample, old(maxTemp))
        && tempSeq == NextWindow(old(tempSeq), sample, old(averageTemp) as real, floor as real, n)
        && averageTemp == Trunc(Mean(tempSeq))
        && averageMaxTemp == Max(averageTemp as real, old(averageMaxTemp))
        && written == old(written) + [ReadTempPayload, ReadLaserPayload]
        && (reply2 != [] ==> value == sample && laser == reply2[0])
        && (reply2 == [] ==> value == 0.0 && laser == old(laser))
    {
      if portReady != 1 {
        return false;
      }
      ran := true;
      written := written + [ReadTempPayload];
      if reply1 == [] {
        value := 0.0;
        laser := 0;
      } else if |reply1| < 2 {
        value := 0.0;
      } else {
        value := DecodeTemperature(reply1[0], reply1[1]);
        maxTemp := Max(value, maxTemp);
        SetAverage();
        written := written + [ReadLaserPayload];
        if reply2 == [] {
          value := 0.0;
        } else {
          laser := reply2[0];
        }
      }
    }

    /** `temperature()`: the five readings; the maxima never fall below the floor. */
    function Temperature(): (r: LegacyReading)
      reads this
      requires Valid()
      ensures r == LegacyReading(value, averageTemp, laser, maxTemp, averageMaxTemp)
      ensures floor <= r.averageTemp
      ensures floor as real <= r.maxTemp && floor as real <= r.averageMaxTemp
    {
      MeanAtLeast(tempSeq, floor as real);
      TruncAtLeast(Mean(tempSeq), floor);
      LegacyReading(value, averageTemp, laser, maxTemp, averageMaxTemp)
    }

    /** `resetmax`: both maxima back to the floor, then the readings. */
    method ResetMax() returns (r: LegacyReading)
      requires Valid()
      modifies this`maxTemp, this`averageMaxTemp
      ensures Valid()
      ensures maxTemp == floor as real && averageMaxTemp == floor as real
      ensures r == Temperature()
    {
      maxTemp := floor as real;
      averageMaxTemp := floor as real;
      r := Temperature();
    }

    /**
     * `laseron`: with the port ready, write the on payload, set the flag and
     * start an off timer, whose deadline comes from `settings['maxtime']`.
     */
    method LaserOn(now: int)
      modifies this`written, this`laser, this`offTimers
      ensures old(portReady) != 1 ==> unchanged(this)
      ensures old(portReady) == 1 ==>
        && written == old(written) + [LaserOnPayload]
        && laser == 1
        && offTimers == old(offTimers) + match MaxTimeDeadline(now, settings.values)
             case Some(d) => [d]
             case None => []
    {
      if portReady == 1 {
        written := written + [LaserOnPayload];
        laser := 1;
        match MaxTimeDeadline(now, settings.values)
        case Some(d) => offTimers := offTimers + [d];
        case None =>
      }
    }

    /** `laseroff`: with the port ready, write the off payload and clear the flag. */
    method LaserOff()
      modifies this`written, this`laser
      ensures old(portReady) != 1 ==> unchanged(this)
      ensures old(portReady) == 1 ==> written == old(written) + [LaserOffPayload] && laser == 0
    {
      if portReady == 1 {
        written := written + [LaserOffPayload];
        laser := 0;
      }
    }

    /**
     * One wake of every live off timer at time `now`. While the flag is 1 a
     * passed deadline calls `laseroff`; on a closed port that changes nothing
     * and the timers keep running. Once the flag is not 1 every timer ends.
     */
    method LaserOffTimerTick(now: int) returns (running: bool)
      modifies this`written, this`laser, this`offTimers
      ensures var fire := old(laser) == 1 && old(portReady) == 1
                          && exists i :: 0 <= i < |old(offTimers)| && now > old(offTimers)[i];
        && (fire ==> laser == 0 && written == old(written) + [LaserOffPayload])
        && (!fire ==> laser == old(laser) && written == old(written))
      ensures laser == 1 ==> offTimers == old(offTimers)
      ensures laser != 1 ==> offTimers == []
      ensures running <==> laser == 1
    {
      if laser == 1 && exists i :: 0 <= i < |offTimers| && now > offTimers[i] {
        LaserOff();
      }
      if laser != 1 {
        offTimers := [];
      }
      running := laser == 1;
    }
  }
}
