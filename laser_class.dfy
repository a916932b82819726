/**
 * The current laser controller (`LaserObject`): the door and key interlock,
 * the hardware enable line, the PWM-driven laser with its warning light, the
 * clamped power and timeout settings, the auto-off countdown and the status
 * records. The interlock-monitor thread and the countdown threads are stepped
 * explicitly: `InterlockStep` is one pass of the monitor loop and
 * `OffTimerTick` one wake of every live countdown, with the clock passed in.
 */
module LaserController {
  import opened Common
  import opened Hardware
  import opened AppControl
  import opened CustomSettings

  const KeyOffOrDoorOpen := "Key off or door open"

  /** The cached key state: the key-switch reading inverted, `int(not reading)`. */
  function KeyFromReading(reading: int): (key: int)
    ensures key == 0 || key == 1
    ensures key == 1 <==> reading == 0
  {
    if reading == 0 then 1 else 0
  }

  /** The bound check of the setters: above `hi` becomes `hi`, below `lo` becomes `lo`. */
  function Clamp(value: int, lo: int, hi: int): (r: int)
    requires lo <= hi
    ensures lo <= r <= hi
    ensures lo <= value <= hi ==> r == value
    ensures value > hi ==> r == hi
    ensures value < lo ==> r == lo
  {
    if value > hi then hi else if value < lo then lo else value
  }

  lemma ClampIdempotent(value: int, lo: int, hi: int)
    requires lo <= hi
    ensures Clamp(Clamp(value, lo, hi), lo, hi) == Clamp(value, lo, hi)
  {
  }

  /** The interlock enables the laser when door and key states are both 0. */
  predicate InterlockEnables(door: int, key: int) {
    door + key == 0
  }

  /** `laser_on_off(1)` starts firing only when door and key states add up to 2. */
  predicate FiringAllowed(door: int, key: int) {
    door + key == 2
  }

  /**
   * The two gates disagree: for 0/1 readings, firing is allowed exactly when
   * the door switch reads 1 (shown as 'Open') and the key switch reads 0 (key
   * state 1, shown as 'Key off'), and never when the interlock enables the
   * laser.
   */
  lemma FiringGateExcludesEnable(doorReading: int, keyReading: int)
    requires doorReading == 0 || doorReading == 1
    requires keyReading == 0 || keyReading == 1
    ensures FiringAllowed(doorReading, KeyFromReading(keyReading)) <==> doorReading == 1 && keyReading == 0
    ensures FiringAllowed(doorReading, KeyFromReading(keyReading)) ==>
      !InterlockEnables(doorReading, KeyFromReading(keyReading))
      && DoorLabel(doorReading) == "Open" && KeyLabel(KeyFromReading(keyReading)) == "Key off"
  {
    if keyReading == 0 {
      assert KeyFromReading(keyReading) == 1;
    } else {
      assert KeyFromReading(keyReading) == 0;
    }
  }

  /** The door LED write `check_door_state` issues: only when the cached state changes. */
  function DoorLedWrites(cached: int, reading: int): (ws: seq<ChannelWrite>)
    ensures |ws| <= 1
    ensures ws != [] <==> cached != reading
    ensures forall w :: w in ws ==> w == ChannelWrite(DoorLedCh, reading)
  {
    if cached != reading then [ChannelWrite(DoorLedCh, reading)] else []
  }

  /** The enable-line write of the monitor loop: only on an edge, carrying the new flag. */
  function EnableWrites(before: int, after: int): (ws: seq<ChannelWrite>)
    ensures |ws| <= 1
    ensures ws != [] <==> before != after
    ensures forall w :: w in ws ==> w == ChannelWrite(LaserEnableCh, after)
  {
    if before != after then [ChannelWrite(LaserEnableCh, after)] else []
  }

  /** The laser driver and the warning light both switched to `level`. */
  function LaserWrites(level: int): seq<ChannelWrite> {
    [ChannelWrite(LaserPwmCh, level), ChannelWrite(LaserWarningCh, level)]
  }

  function KeyLabel(key: int): (text: string)
    ensures text == "Key on" <==> key == 0
    ensures text == "Key off" <==> key != 0
  {
    if key == 0 then "Key on" else "Key off"
  }

  function DoorLabel(door: int): (text: string)
    ensures text == "Closed" <==> door == 0
    ensures text == "Open" <==> door != 0
  {
    if door == 0 then "Closed" else "Open"
  }

  function LaserLabel(enabled: int, state: int): (text: string)
    ensures text == "Firing" <==> enabled == 1 && state == 1
    ensures text == "Standby" <==> enabled == 1 && state != 1
    ensures text == "Power off" <==> enabled != 1
  {
    if enabled == 1 then (if state == 1 then "Firing" else "Standby") else "Power off"
  }

  function DigitString(n: nat): string
    decreases n
  {
    var d := [(n % 10) as char + '0' as char];
    if n < 10 then d else DigitString(n / 10) + d
  }

  /** Python's `'%s' % n` for an integer. */
  function IntString(n: int): string {
    if n < 0 then "-" + DigitString(-n) else DigitString(n)
  }

  /** The record `laser_status` returns; `exception` is only present when one was given. */
  datatype StatusRecord = StatusRecord(
    item: string,
    command: int,
    exception: Option<string>,
    laser: int,
    laserEnabled: int,
    power: int,
    door: int,
    key: int,
    laserMaxTime: int)

  /** One labelled entry of the status page. */
  datatype Indicator = Indicator(name: string, direction: string, value: string, enabled: bool)

  datatype HttpStatus = HttpStatus(
    item: string,
    command: int,
    key: Indicator,
    door: Indicator,
    laser: Indicator,
    power: Indicator)

  class LaserObject {
    const bank: DigitalBank
    const pyroSerial: SerialChannel
    const settings: SettingsStore
    /** `settings['digital_on_command']` and `settings['digital_off_command']`. */
    const onCommand: int
    const offCommand: int

    var doorState: int
    var keyState: int
    var laserEnabled: int
    var laserState: int
    var laserMaxTime: int
    /** The deadline of every live auto-off countdown thread. */
    var offTimers: seq<int>

    ghost predicate Valid()
      reads this, bank
    {
      && bank.Has(LaserPwmCh) && bank.Has(DoorLedCh) && bank.Has(LaserWarningCh)
      && bank.Has(KeySwitchCh) && bank.Has(DoorSwitchCh) && bank.Has(LaserEnableCh)
      && (laserEnabled == 0 || laserEnabled == 1)
      && (laserState == 0 || laserState == 1)
      && (laserState == 1 ==> |offTimers| > 0)
    }

    /**
     * The safety invariant of the auto-off countdown: whenever the driver
     * channel shows the on command, firing is on and a countdown is alive
     * (`Valid` keeps one alive while firing), so some countdown will end it.
     */
    ghost predicate DriverCovered()
      reads this, bank
      requires Valid()
    {
      bank.levels[LaserPwmCh] == onCommand ==> laserState == 1
    }

    constructor (bank: DigitalBank, pyroSerial: SerialChannel, settings: SettingsStore,
                 maxTime: int, onCommand: int, offCommand: int)
      requires bank.Has(LaserPwmCh) && bank.Has(DoorLedCh) && bank.Has(LaserWarningCh)
      requires bank.Has(KeySwitchCh) && bank.Has(DoorSwitchCh) && bank.Has(LaserEnableCh)
      ensures Valid()
      ensures this.bank == bank && this.pyroSerial == pyroSerial && this.settings == settings
      ensures this.onCommand == onCommand && this.offCommand == offCommand
      ensures doorState == 0 && keyState == 0 && laserEnabled == 0 && laserState == 0
      ensures laserMaxTime == maxTime && offTimers == []
      ensures DriverCovered() <==> bank.levels[LaserPwmCh] != onCommand
    {
      this.bank := bank;
      this.pyroSerial := pyroSerial;
      this.settings := settings;
      this.onCommand := onCommand;
      this.offCommand := offCommand;
      doorState, keyState, laserEnabled, laserState := 0, 0, 0, 0;
      laserMaxTime := maxTime;
      offTimers := [];
    }

    /** `check_door_state`: cache the door switch and mirror a change on the door LED. */
    method CheckDoorState() returns (door: int)
      requires Valid()
      modifies this`doorState, bank
      ensures Valid()
      ensures door == doorState == old(bank.levels[DoorSwitchCh])
      ensures bank.writes == old(bank.writes) + DoorLedWrites(old(doorState), door)
      ensures bank.levels == ApplyWrites(old(bank.levels), DoorLedWrites(old(doorState), door))
      ensures bank.duty == old(bank.duty)
      ensures old(DriverCovered()) ==> DriverCovered()
    {
      var reading := bank.Read(DoorSwitchCh);
      if doorState != reading {
        doorState := reading;
        bank.Write(DoorLedCh, doorState);
      }
      door := doorState;
    }

    /** `check_key_state`: cache the inverted key switch; nothing is written. */
    method CheckKeyState() returns (key: int)
      requires Valid()
      modifies this`keyState
      ensures Valid()
      ensures key == keyState == KeyFromReading(bank.levels[KeySwitchCh])
      ensures old(DriverCovered()) ==> DriverCovered()
    {
      var reading := bank.Read(KeySwitchCh);
      var k := KeyFromReading(reading);
      if keyState != k {
        keyState := k;
      }
      key := keyState;
    }

    /** One pass of `interlock_monitor`. */
    method InterlockStep()
      requires Valid()
      modifies this`doorState, this`keyState, this`laserEnabled, bank
      ensures Valid()
      ensures doorState == old(bank.levels[DoorSwitchCh])
      ensures keyState == KeyFromReading(old(bank.levels[KeySwitchCh]))
      ensures laserEnabled == 1 <==> InterlockEnables(doorState, keyState)
      ensures bank.writes == old(bank.writes) + DoorLedWrites(old(doorState), doorState)
                                              + EnableWrites(old(laserEnabled), laserEnabled)
      ensures bank.levels == ApplyWrites(old(bank.levels), DoorLedWrites(old(doorState), doorState)
                                                         + EnableWrites(old(laserEnabled), laserEnabled))
      ensures bank.duty == old(bank.duty)
      ensures old(DriverCovered()) ==> DriverCovered()
    {
      ghost var levels0 := bank.levels;
      ghost var writes0 := bank.writes;
      var door := CheckDoorState();
      var key := CheckKeyState();
      ghost var ledWrites := DoorLedWrites(old(doorState), door);
      if door + key == 0 {
        if laserEnabled == 0 {
          laserEnabled := 1;
          bank.Write(LaserEnableCh, laserEnabled);
          ApplyWritesAppend(levels0, ledWrites, ChannelWrite(LaserEnableCh, 1));
        }
      } else {
        if laserEnabled == 1 {
          laserEnabled := 0;
          bank.Write(LaserEnableCh, laserEnabled);
          ApplyWritesAppend(levels0, ledWrites, ChannelWrite(LaserEnableCh, 0));
        }
      }
      assert ledWrites + [] == ledWrites;
    }

    /** `laser_status`: a snapshot of the cached states, the driver level and its duty. */
    function LaserStatus(item: string, command: int, exception: Option<string>): (s: StatusRecord)
      reads this, bank
      requires bank.Has(LaserPwmCh)
      ensures s.exception.Some? <==> exception.Some? && exception.value != ""
      ensures s.exception.Some? ==> s.exception == exception
      ensures s.item == item && s.command == command
      ensures s.laser == bank.levels[LaserPwmCh] && s.power == bank.duty[LaserPwmCh]
      ensures s.laserEnabled == laserEnabled && s.door == doorState && s.key == keyState
      ensures s.laserMaxTime == laserMaxTime
    {
      var shown := if exception.Some? && exception.value != "" then exception else None;
      StatusRecord(item, command, shown, bank.levels[LaserPwmCh], laserEnabled,
                  bank.duty[LaserPwmCh], doorState, keyState, laserMaxTime)
    }

    /** `set_laser_power`: the clamped value becomes the driver's duty; firing state is untouched. */
    method SetLaserPower(item: string, command: int) returns (r: StatusRecord)
      requires Valid()
      modifies bank
      ensures Valid()
      ensures bank.duty == old(bank.duty)[LaserPwmCh := Clamp(command, 0, 100)]
      ensures bank.levels == old(bank.levels) && bank.writes == old(bank.writes)
      ensures laserState == old(laserState) && laserEnabled == old(laserEnabled)
      ensures r == LaserStatus(item, Clamp(command, 0, 100), None)
      ensures old(DriverCovered()) ==> DriverCovered()
    {
      var power := command;
      if power > 100 {
        power := 100;
      } else if power < 0 {
        power := 0;
      }
      bank.ChangePwm(LaserPwmCh, power);
      r := LaserStatus(item, power, None);
    }

    /** `laser_set_maxtime`: the clamped timeout is cached, stored in the settings and saved at `stamp`. */
    method LaserSetMaxtime(item: string, command: int, stamp: string) returns (r: StatusRecord)
      requires Valid()
      modifies this`laserMaxTime, settings
      ensures Valid()
      ensures laserMaxTime == Clamp(command, 60, 900)
      ensures settings.values == Stamped(old(settings.values)["laser-maxtime" := Int(laserMaxTime)], stamp)
      ensures settings.saves == old(settings.saves) + 1
      ensures r == LaserStatus(item, laserMaxTime, None)
      ensures old(DriverCovered()) ==> DriverCovered()
    {
      var maxTime := command;
      if maxTime > 900 {
        maxTime := 900;
      } else if maxTime < 60 {
        maxTime := 60;
      }
      laserMaxTime := maxTime;
      settings.Set("laser-maxtime", Int(maxTime));
      settings.WriteSettings(stamp);
      r := LaserStatus(item, maxTime, None);
    }

    /** The off branch of `laser_on_off`: default poll rate, state 0, driver and warning light off. */
    method SwitchOff()
      requires Valid()
      modifies this`laserState, bank, pyroSerial
      ensures Valid()
      ensures laserState == 0
      ensures pyroSerial.pollInterval == 0 && pyroSerial.sent == old(pyroSerial.sent)
      ensures pyroSerial.listenerValues == old(pyroSerial.listenerValues)
      ensures bank.writes == old(bank.writes) + LaserWrites(offCommand)
      ensures bank.levels == old(bank.levels)[LaserPwmCh := offCommand][LaserWarningCh := offCommand]
      ensures bank.duty == old(bank.duty)
      ensures onCommand != offCommand ==> DriverCovered()
    {
      pyroSerial.ChangePollInterval(0);
      laserState := 0;
      bank.Write(LaserPwmCh, offCommand);
      bank.Write(LaserWarningCh, offCommand);
    }

    /** The on branch of `laser_on_off` once the interlock check has passed. */
    method SwitchOn(now: int)
      requires Valid()
      modifies this`laserState, this`offTimers, bank, pyroSerial
      ensures Valid()
      ensures laserState == 1 && offTimers == old(offTimers) + [now + laserMaxTime]
      ensures pyroSerial.pollInterval == 1 && pyroSerial.sent == old(pyroSerial.sent)
      ensures pyroSerial.listenerValues == old(pyroSerial.listenerValues)
      ensures bank.writes == old(bank.writes) + LaserWrites(onCommand)
      ensures bank.levels == old(bank.levels)[LaserPwmCh := onCommand][LaserWarningCh := onCommand]
      ensures bank.duty == old(bank.duty)
      ensures DriverCovered()
    {
      pyroSerial.ChangePollInterval(1);
      bank.Write(LaserPwmCh, onCommand);
      bank.Write(LaserWarningCh, onCommand);
      laserState := 1;
      offTimers := offTimers + [now + laserMaxTime];
    }

    /**
     * `laser_on_off`. Command 1 re-reads door and key: unless they add up to 2
     * the request is refused with an exception and firing stays off; otherwise
     * the pyrometer is asked to poll every second, driver and warning light are
     * switched on, and a countdown to `now + laserMaxTime` starts. Any other
     * command switches off. A refusal while firing clears the firing flag but
     * leaves the driver on, and the countdown then ends without switching it
     * off (`StrandedDriver`); `SafeLaserOnOff` is the corrected operation.
     */
    method LaserOnOff(item: string, command: int, now: int) returns (r: StatusRecord)
      requires Valid()
      modifies this`doorState, this`keyState, this`laserState, this`offTimers, bank, pyroSerial
      ensures Valid()
      ensures laserEnabled == old(laserEnabled) && laserMaxTime == old(laserMaxTime)
      ensures bank.duty == old(bank.duty)
      ensures pyroSerial.sent == old(pyroSerial.sent)
      ensures pyroSerial.listenerValues == old(pyroSerial.listenerValues)
      ensures r == LaserStatus(item, command, if command == 1 && laserState == 0 then Some(KeyOffOrDoorOpen) else None)
      ensures command == 1 ==>
        && doorState == old(bank.levels[DoorSwitchCh])
        && keyState == KeyFromReading(old(bank.levels[KeySwitchCh]))
        && (laserState == 1 <==> FiringAllowed(doorState, keyState))
      ensures command == 1 && laserState == 0 ==>
        && offTimers == old(offTimers)
        && pyroSerial.pollInterval == old(pyroSerial.pollInterval)
        && bank.writes == old(bank.writes) + DoorLedWrites(old(doorState), doorState)
        && bank.levels == ApplyWrites(old(bank.levels), DoorLedWrites(old(doorState), doorState))
      ensures command == 1 && laserState == 1 ==>
        && offTimers == old(offTimers) + [now + laserMaxTime]
        && pyroSerial.pollInterval == 1
        && bank.writes == old(bank.writes) + DoorLedWrites(old(doorState), doorState) + LaserWrites(onCommand)
        && bank.levels == ApplyWrites(old(bank.levels), DoorLedWrites(old(doorState), doorState))
                            [LaserPwmCh := onCommand][LaserWarningCh := onCommand]
      ensures command != 1 ==>
        && laserState == 0
        && doorState == old(doorState) && keyState == old(keyState) && offTimers == old(offTimers)
        && pyroSerial.pollInterval == 0
        && bank.writes == old(bank.writes) + LaserWrites(offCommand)
        && bank.levels == old(bank.levels)[LaserPwmCh := offCommand][LaserWarningCh := offCommand]
    {
      if command == 1 {
        var door := CheckDoorState();
        var key := CheckKeyState();
        if door + key != 2 {
          laserState := 0;
          r := LaserStatus(item, command, Some(KeyOffOrDoorOpen));
          return;
        }
        SwitchOn(now);
      } else {
        SwitchOff();
      }
      r := LaserStatus(item, command, None);
    }

    /**
     * `laser_on_off` with the refusal corrected: a refused command 1 takes the
     * off path, so the driver never shows the on command while firing is off.
     * Everything else is as in `LaserOnOff`.
     */
    method SafeLaserOnOff(item: string, command: int, now: int) returns (r: StatusRecord)
      requires Valid()
      modifies this`doorState, this`keyState, this`laserState, this`offTimers, bank, pyroSerial
      ensures Valid()
      ensures laserEnabled == old(laserEnabled) && laserMaxTime == old(laserMaxTime)
      ensures bank.duty == old(bank.duty)
      ensures pyroSerial.sent == old(pyroSerial.sent)
      ensures pyroSerial.listenerValues == old(pyroSerial.listenerValues)
      ensures r == LaserStatus(item, command, if command == 1 && laserState == 0 then Some(KeyOffOrDoorOpen) else None)
      ensures command == 1 ==>
        && doorState == old(bank.levels[DoorSwitchCh])
        && keyState == KeyFromReading(old(bank.levels[KeySwitchCh]))
        && (laserState == 1 <==> FiringAllowed(doorState, keyState))
      ensures command == 1 && laserState == 0 ==>
        && offTimers == old(offTimers)
        && pyroSerial.pollInterval == 0
        && bank.writes == old(bank.writes) + DoorLedWrites(old(doorState), doorState) + LaserWrites(offCommand)
        && bank.levels == ApplyWrites(old(bank.levels), DoorLedWrites(old(doorState), doorState))
                            [LaserPwmCh := offCommand][LaserWarningCh := offCommand]
      ensures command == 1 && laserState == 1 ==>
        && offTimers == old(offTimers) + [now + laserMaxTime]
        && pyroSerial.pollInterval == 1
        && bank.writes == old(bank.writes) + DoorLedWrites(old(doorState), doorState) + LaserWrites(onCommand)
        && bank.levels == ApplyWrites(old(bank.levels), DoorLedWrites(old(doorState), doorState))
                            [LaserPwmCh := onCommand][LaserWarningCh := onCommand]
      ensures command != 1 ==>
        && laserState == 0
        && doorState == old(doorState) && keyState == old(keyState) && offTimers == old(offTimers)
        && pyroSerial.pollInterval == 0
        && bank.writes == old(bank.writes) + LaserWrites(offCommand)
        && bank.levels == old(bank.levels)[LaserPwmCh := offCommand][LaserWarningCh := offCommand]
      ensures onCommand != offCommand ==> DriverCovered()
    {
      if command == 1 {
        var door := CheckDoorState();
        var key := CheckKeyState();
        if door + key != 2 {
          SwitchOff();
          r := LaserStatus(item, command, Some(KeyOffOrDoorOpen));
          return;
        }
        SwitchOn(now);
      } else {
        SwitchOff();
      }
      r := LaserStatus(item, command, None);
    }

    /**
     * One wake of every live `laser_off_timer` thread at time `now`. While
     * firing, a countdown whose deadline has passed forces the off branch and
     * every countdown then ends; once firing is off the countdowns end without
     * side effects. `running` says whether any countdown is still alive.
     */
    method OffTimerTick(now: int) returns (running: bool)
      requires Valid()
      modifies this`laserState, this`offTimers, bank, pyroSerial
      ensures Valid()
      ensures var expired := old(laserState) == 1 && exists i :: 0 <= i < |old(offTimers)| && now > old(offTimers)[i];
        && (expired ==>
              && laserState == 0
              && pyroSerial.pollInterval == 0
              && bank.writes == old(bank.writes) + LaserWrites(offCommand)
              && bank.levels == old(bank.levels)[LaserPwmCh := offCommand][LaserWarningCh := offCommand])
        && (!expired ==>
              && laserState == old(laserState)
              && pyroSerial.pollInterval == old(pyroSerial.pollInterval)
              && bank.writes == old(bank.writes) && bank.levels == old(bank.levels))
      ensures laserState == 1 ==> offTimers == old(offTimers)
      ensures laserState == 0 ==> offTimers == []
      ensures running <==> laserState == 1
      ensures bank.duty == old(bank.duty)
      ensures pyroSerial.sent == old(pyroSerial.sent)
      ensures pyroSerial.listenerValues == old(pyroSerial.listenerValues)
      ensures onCommand != offCommand && old(DriverCovered()) ==> DriverCovered()
      ensures onCommand != offCommand && old(DriverCovered()) && (forall d :: d in old(offTimers) ==> now > d) ==>
        bank.levels[LaserPwmCh] != onCommand
    {
      if laserState == 1 {
        assert offTimers[0] in offTimers;
      }
      if laserState == 1 && exists i :: 0 <= i < |offTimers| && now > offTimers[i] {
        SwitchOff();
      }
      if laserState != 1 {
        offTimers := [];
      }
      running := laserState == 1;
    }

    /** `http_status_data`: the labelled key, door, laser and power entries of the status page. */
    function HttpStatusData(item: string, command: int): (h: HttpStatus)
      reads this, bank
      requires bank.Has(LaserPwmCh)
      ensures h.item == item && h.command == command
      ensures h.key.value == "Key on" <==> keyState == 0
      ensures h.door.value == "Closed" <==> doorState == 0
      ensures h.laser.value == "Firing" <==> laserEnabled == 1 && laserState == 1
      ensures h.laser.value == "Standby" <==> laserEnabled == 1 && laserState != 1
      ensures h.laser.value == "Power off" <==> laserEnabled != 1
      ensures h.laser.direction == "output pwm" <==> h.laser.value == "Firing"
      ensures h.power.value == IntString(bank.duty[LaserPwmCh]) + " %"
    {
      var shown := LaserLabel(laserEnabled, laserState);
      HttpStatus(
        item, command,
        Indicator("Key", "input", KeyLabel(keyState), true),
        Indicator("Door", "input", DoorLabel(doorState), true),
        Indicator("Laser", if shown == "Firing" then "output pwm" else "output", shown, true),
        Indicator("Laser Power", "setting", IntString(bank.duty[LaserPwmCh]) + " %", true))
    }
  }

  /**
   * The refusal of `LaserOnOff` strands the driver. Fire with the door open and
   * the key off, close the door, then ask to fire again: the refusal clears the
   * firing flag without writing the off command, the next countdown wake ends
   * every countdown, and channel 9 keeps the on command with nothing left to
   * switch it off.
   */
  method StrandedDriver() returns (level: int, running: bool, timers: seq<int>)
    ensures level == 1 && !running && timers == []
  {
    ConfiguredDuties();
    var bank := new DigitalBank(InitialDuty(Settings()));
    var serial := new SerialChannel(5);
    var settings := new SettingsStore();
    var laser := new LaserObject(bank, serial, settings, 300, 1, 0);
    bank.Present(DoorSwitchCh, 1);
    var fired := laser.LaserOnOff("laser", 1, 0);
    bank.Present(DoorSwitchCh, 0);
    var refused := laser.LaserOnOff("laser", 1, 10);
    running := laser.OffTimerTick(11);
    level, timers := bank.levels[LaserPwmCh], laser.offTimers;
  }

  /** The same requests through `SafeLaserOnOff`: the refusal switches the driver off. */
  method SafeRefusal() returns (level: int, running: bool, timers: seq<int>)
    ensures level == 0 && !running && timers == []
  {
    ConfiguredDuties();
    var bank := new DigitalBank(InitialDuty(Settings()));
    var serial := new SerialChannel(5);
    var settings := new SettingsStore();
    var laser := new LaserObject(bank, serial, settings, 300, 1, 0);
    bank.Present(DoorSwitchCh, 1);
    var fired := laser.SafeLaserOnOff("laser", 1, 0);
    bank.Present(DoorSwitchCh, 0);
    var refused := laser.SafeLaserOnOff("laser", 1, 10);
    running := laser.OffTimerTick(11);
    level, timers := bank.levels[LaserPwmCh], laser.offTimers;
  }
}
