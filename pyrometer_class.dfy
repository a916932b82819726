/**
 * The current pyrometer engine (`PyrometerObject`): it decodes the values the
 * serial poll loop cached, keeps the moving-average window and the running
 * maxima, switches the rangefinder laser with its own auto-off countdown and
 * manages its poll interval. The updater thread and the countdown threads are
 * stepped explicitly (`UpdaterCycle`, `LaserOffTimerTick`).
 */
module Pyrometer {
  import opened Common
  import opened Hardware
  import opened Telemetry
  import CustomSettings

  const DefaultPollInterval := 5
  const TemperatureName := "temperature"
  const LaserName := "pyrometer laser"
  const LaserOnTag := "pyrolaser-on"
  const LaserOffTag := "pyrolaser-off"

  /** The fields `get_temperatures` reports. */
  datatype Temperatures = Temperatures(
    temperature: real,
    averageTemp: real,
    maxTemp: real,
    averageMaxTemp: real,
    pyroLaser: int)

  datatype TemperatureReply = TemperatureReply(item: string, command: int, values: Temperatures)

  /** What `read_pyrometer_data` updates: the current temperature and the rangefinder flag. */
  datatype Reading = Reading(temperature: real, laser: int)

  /**
   * The effect of one cached entry. A 'temperature' entry with two bytes or
   * more sets the decoded temperature and a shorter one the floor; a
   * 'pyrometer laser' entry sets the flag to its first byte, or 0 when empty.
   * Names are compared exactly; any other entry changes nothing.
   */
  function ApplyEntry(r: Reading, e: Listened, floor: real): (next: Reading)
    ensures e.name == TemperatureName && |e.value| >= 2 ==> next.temperature == DecodeTemperature(e.value[0], e.value[1])
    ensures e.name == TemperatureName && |e.value| < 2 ==> next.temperature == floor
    ensures e.name != TemperatureName ==> next.temperature == r.temperature
    ensures e.name == LaserName && |e.value| >= 1 ==> next.laser == e.value[0]
    ensures e.name == LaserName && |e.value| == 0 ==> next.laser == 0
    ensures e.name != LaserName ==> next.laser == r.laser
  {
    var temperature :=
      if e.name != TemperatureName then r.temperature
      else if |e.value| >= 2 then DecodeTemperature(e.value[0], e.value[1])
      else floor;
    var laser :=
      if e.name != LaserName then r.laser
      else if |e.value| >= 1 then e.value[0]
      else 0;
    Reading(temperature, laser)
  }

  /** The reading after applying the entries in order. */
  function ReadEntries(r: Reading, entries: seq<Listened>, floor: real): Reading
    decreases |entries|
  {
    if entries == [] then r
    else ApplyEntry(ReadEntries(r, entries[..|entries| - 1], floor), entries[|entries| - 1], floor)
  }

  /** The temperature a 'temperature' entry sets. */
  function EntryTemperature(e: Listened, floor: real): real {
    if |e.value| >= 2 then DecodeTemperature(e.value[0], e.value[1]) else floor
  }

  /** The last 'temperature' entry decides the temperature; without one it is unchanged. */
  lemma {:induction false} LastTemperatureEntryWins(r: Reading, entries: seq<Listened>, floor: real, j: int)
    requires -1 <= j < |entries|
    requires j >= 0 ==> entries[j].name == TemperatureName
    requires forall k :: j < k < |entries| ==> entries[k].name != TemperatureName
    ensures ReadEntries(r, entries, floor).temperature ==
      if j >= 0 then EntryTemperature(entries[j], floor) else r.temperature
    decreases |entries|
  {
    if entries != [] {
      var init := entries[..|entries| - 1];
      if j < |entries| - 1 {
        LastTemperatureEntryWins(r, init, floor, j);
      }
    }
  }

  /** Without an entry named exactly 'pyrometer laser' the flag is never changed. */
  lemma {:induction false} LaserFlagNeedsExactName(r: Reading, entries: seq<Listened>, floor: real)
    requires forall k :: 0 <= k < |entries| ==> entries[k].name != LaserName
    ensures ReadEntries(r, entries, floor).laser == r.laser
    decreases |entries|
  {
    if entries != [] {
      LaserFlagNeedsExactName(r, entries[..|entries| - 1], floor);
    }
  }

  /**
   * With the configured message table the poll loop caches 'Pyrometer laser'
   * (capital P), so polling never updates the rangefinder flag.
   */
  lemma ConfiguredTableNeverSetsLaserFlag(r: Reading, entries: seq<Listened>, floor: real)
    requires forall k :: 0 <= k < |entries| ==>
      entries[k].name in CustomSettings.PassiveNames(CustomSettings.Settings().serialChannels[0].messages)
    ensures ReadEntries(r, entries, floor).laser == r.laser
  {
    CustomSettings.PyrometerPassiveMessages();
    LaserFlagNeedsExactName(r, entries, floor);
  }

  /** A worked decoding example: a cached 0x27 0x10 temperature entry reads 900 degrees. */
  lemma DecodedExampleEntry(r: Reading, floor: real)
    ensures ReadEntries(r, [Listened(TemperatureName, [0x27, 0x10])], floor).temperature == 900.0
  {
    assert [Listened(TemperatureName, [0x27, 0x10])][..0] == [];
    DecodeExample();
  }

  class PyrometerObject {
    const serial: SerialChannel
    /** `settings['pyro-min-temp']`, the no-target floor. */
    const floor: real
    /** `settings['pyro-running-average']`, the window length. */
    const n: nat
    /** `settings['laser-maxtime']`, also the rangefinder's timeout. */
    const laserMaxTime: int

    var currentTemp: real
    var averageTemp: real
    var maxTemp: real
    var averageMaxTemp: real
    var window: seq<real>
    var laserState: int
    var pollInterval: int
    /** The deadline of every live rangefinder countdown thread. */
    var offTimers: seq<int>

    ghost predicate Valid()
      reads this
    {
      && n > 0 && |window| == n
      && AllAtLeast(window, floor)
      && averageTemp == Mean(window)
      && floor <= averageMaxTemp
      && floor <= maxTemp
    }

    constructor (serial: SerialChannel, floor: real, n: nat, laserMaxTime: int)
      requires n > 0
      ensures Valid()
      ensures this.serial == serial && this.floor == floor && this.n == n && this.laserMaxTime == laserMaxTime
      ensures window == Repeat(floor, n)
      ensures currentTemp == averageTemp == maxTemp == averageMaxTemp == floor
      ensures laserState == 0 && pollInterval == DefaultPollInterval && offTimers == []
    {
      this.serial := serial;
      this.floor := floor;
      this.n := n;
      this.laserMaxTime := laserMaxTime;
      averageTemp, maxTemp, averageMaxTemp, currentTemp := floor, floor, floor, floor;
      window := Repeat(floor, n);
      laserState := 0;
      pollInterval := DefaultPollInterval;
      offTimers := [];
      new;
      MeanRepeat(floor, n);
    }

    /** `read_pyrometer_data`: apply every cached entry in order. */
    method ReadPyrometerData()
      requires Valid()
      modifies this`currentTemp, this`laserState
      ensures Valid()
      ensures Reading(currentTemp, laserState) ==
        ReadEntries(Reading(old(currentTemp), old(laserState)), serial.listenerValues, floor)
    {
      var values := serial.listenerValues;
      var i := 0;
      while i < |values|
        invariant 0 <= i <= |values|
        invariant Reading(currentTemp, laserState) ==
          ReadEntries(Reading(old(currentTemp), old(laserState)), values[..i], floor)
      {
        var entry := values[i];
        if entry.name == TemperatureName {
          if |entry.value| >= 2 {
            currentTemp := DecodeTemperature(entry.value[0], entry.value[1]);
          } else {
            currentTemp := floor;
          }
        }
        if entry.name == LaserName {
          if |entry.value| >= 1 {
            laserState := entry.value[0];
          } else {
            laserState := 0;
          }
        }
        assert values[..i + 1][..i] == values[..i];
        i := i + 1;
      }
      assert values[..i] == values;
    }

    /**
     * `update_moving_average`: raise the sample maximum, apply the window rule
     * chosen by the sample against the previous average, recompute the mean and
     * raise the average maximum.
     */
    method UpdateMovingAverage()
      requires Valid()
      modifies this`maxTemp, this`window, this`averageTemp, this`averageMaxTemp
      ensures Valid()
      ensures maxTemp == Max(old(maxTemp), currentTemp)
      ensures window == NextWindow(old(window), currentTemp, old(averageTemp), floor, n)
      ensures averageTemp == Mean(window)
      ensures averageMaxTemp == Max(averageTemp, old(averageMaxTemp))
      ensures floor <= averageTemp <= averageMaxTemp
      ensures match RuleFor(currentTemp, old(averageTemp), floor)
        case ResetToFloor => averageTemp == floor
        case FastConverge => averageTemp == currentTemp
        case Slide => window == old(window)[1..] + [currentTemp]
    {
      maxTemp := Max(maxTemp, currentTemp);
      if currentTemp <= floor {
        window := Repeat(floor, n);
      } else if currentTemp > averageTemp + 20.0 {
        window := Repeat(currentTemp, n);
      } else {
        window := window + [currentTemp];
        window := window[1..];
      }
      NextMean(old(window), currentTemp, old(averageTemp), floor, n);
      averageTemp := Mean(window);
      averageMaxTemp := Max(averageTemp, averageMaxTemp);
      MeanAtLeast(window, floor);
    }

    /** `reset_max`: both maxima back to the floor; readings and window untouched. */
    method ResetMax(item: string, command: int) returns (r: TemperatureReply)
      requires Valid()
      modifies this`maxTemp, this`averageMaxTemp
      ensures Valid()
      ensures maxTemp == floor && averageMaxTemp == floor
      ensures r == GetTemperatures(item, command)
    {
      MeanAtLeast(window, floor);
      maxTemp := floor;
      averageMaxTemp := floor;
      r := GetTemperatures(item, command);
    }

    /**
     * `laser_on_off`: command 1 sends 'pyrolaser-on', sets the flag and starts a
     * countdown to `now + laserMaxTime`; anything else sends 'pyrolaser-off'
     * and clears the flag.
     */
    method LaserOnOff(item: string, command: int, now: int) returns (r: TemperatureReply)
      requires Valid()
      modifies this`laserState, this`offTimers, serial
      ensures Valid()
      ensures serial.sent == old(serial.sent) + [ApiCommandSent(item, if command == 1 then LaserOnTag else LaserOffTag)]
      ensures serial.listenerValues == old(serial.listenerValues) && serial.pollInterval == old(serial.pollInterval)
      ensures laserState == if command == 1 then 1 else 0
      ensures offTimers == if command == 1 then old(offTimers) + [now + laserMaxTime] else old(offTimers)
      ensures r == GetTemperatures(item, command)
    {
      if command == 1 {
        serial.ApiCommand(item, LaserOnTag);
        laserState := 1;
        offTimers := offTimers + [now + laserMaxTime];
      } else {
        serial.ApiCommand(item, LaserOffTag);
        laserState := 0;
      }
      r := GetTemperatures(item, command);
    }

    /**
     * One wake of every live rangefinder countdown at time `now`: while the
     * flag is 1, a passed deadline forces the off command and ends every
     * countdown; once the flag is not 1 the countdowns end without side effects.
     */
    method LaserOffTimerTick(now: int) returns (running: bool)
      requires Valid()
      modifies this`laserState, this`offTimers, serial
      ensures Valid()
      ensures var expired := old(laserState) == 1 && exists i :: 0 <= i < |old(offTimers)| && now > old(offTimers)[i];
        && (expired ==> laserState == 0 && serial.sent == old(serial.sent) + [ApiCommandSent("autolaseroff", LaserOffTag)])
        && (!expired ==> laserState == old(laserState) && serial.sent == old(serial.sent))
      ensures laserState == 1 ==> offTimers == old(offTimers)
      ensures laserState != 1 ==> offTimers == []
      ensures running <==> laserState == 1
      ensures serial.listenerValues == old(serial.listenerValues) && serial.pollInterval == old(serial.pollInterval)
    {
      if laserState == 1 && exists i :: 0 <= i < |offTimers| && now > offTimers[i] {
        var _ := LaserOnOff("autolaseroff", 0, now);
      }
      if laserState != 1 {
        offTimers := [];
      }
      running := laserState == 1;
    }

    /** `get_temperatures`: the current readings, none of them below the floor except the sample itself. */
    function GetTemperatures(item: string, command: int): (r: TemperatureReply)
      reads this
      requires Valid()
      ensures r.item == item && r.command == command
      ensures r.values == Temperatures(currentTemp, averageTemp, maxTemp, averageMaxTemp, laserState)
      ensures floor <= r.values.averageTemp && floor <= r.values.averageMaxTemp && floor <= r.values.maxTemp
    {
      MeanAtLeast(window, floor);
      TemperatureReply(item, command, Temperatures(currentTemp, averageTemp, maxTemp, averageMaxTemp, laserState))
    }

    /** `change_poll_interval`: a positive value is taken, anything else restores the default. */
    method ChangePollInterval(value: int)
      modifies this`pollInterval
      ensures pollInterval == if value > 0 then value else DefaultPollInterval
      ensures pollInterval > 0
    {
      if value > 0 {
        pollInterval := value;
      } else {
        pollInterval := DefaultPollInterval;
      }
    }

    /**
     * One cycle of `pyrometer_updater`: read the cached values, update the
     * average, then sleep one second at a time until the poll interval is
     * reached; `slept` counts those seconds.
     */
    method UpdaterCycle() returns (slept: nat)
      requires Valid()
      modifies this`currentTemp, this`laserState, this`maxTemp, this`window, this`averageTemp, this`averageMaxTemp
      ensures Valid()
      ensures Reading(currentTemp, laserState) ==
        ReadEntries(Reading(old(currentTemp), old(laserState)), serial.listenerValues, floor)
      ensures window == NextWindow(old(window), currentTemp, old(averageTemp), floor, n)
      ensures maxTemp == Max(old(maxTemp), currentTemp)
      ensures averageTemp == Mean(window)
      ensures averageMaxTemp == Max(averageTemp, old(averageMaxTemp))
      ensures floor <= averageTemp <= averageMaxTemp
      ensures slept == if pollInterval > 0 then pollInterval else 0
    {
      ReadPyrometerData();
      UpdateMovingAverage();
      var sleepCounter := 0;
      while sleepCounter < pollInterval
        invariant 0 <= sleepCounter
        invariant pollInterval > 0 ==> sleepCounter <= pollInterval
        invariant pollInterval <= 0 ==> sleepCounter == 0
      {
        sleepCounter := sleepCounter + 1;
      }
      slept := sleepCounter;
    }
  }
}
