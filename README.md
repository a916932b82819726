# Oxide Laser Controller — a Dafny model of the laser and pyrometer core

The Oxide Laser Controller runs on a Raspberry Pi and drives a line laser used
to heat samples. It watches a door switch and a key switch. It drives the laser
through a PWM channel, a warning light and a hardware enable line. It also reads
an infrared pyrometer over a serial line, and that pyrometer has a small
rangefinder laser of its own. A web API reaches all of this through named items.

This project models the code in two generations:

* The current generation:
  * `LaserObject` (`laser_class.py`): the door and key interlock, firing, the
    clamped power and timeout setters, the auto-off countdown and the status
    records.
  * `PyrometerObject` (`pyrometer_class.py`): decoding of the cached serial
    values, the moving-average window, the running maxima, the rangefinder
    laser and the poll interval.
  * The `custom_parser` dispatcher (`custom_api.py`).
  * The `custom_settings` configuration (`custom_settings.py`).
* The first generation:
  * `PyroClass` (`pyroclass.py`).
  * `LaserClass`, its own `PyroClass` and `parsecontrol` (`laserclass.py`).
* The settings dictionary of `app_control.py`, shared by both generations:
  defaults, the merge of the settings file at start-up, API-key generation and
  the save counter.

Hardware is reached through objects this model does not contain, so the model
keeps only the state a caller can observe:

* `Hardware.DigitalBank` holds, for each digital channel, its level and its PWM
  duty, plus a log of every write.
* `Hardware.SerialChannel` holds the values the poll loop cached, the on-demand
  commands sent and the last poll interval requested.
* The legacy drivers own their serial port. It is modelled as the log of
  payloads written to it, and the replies it returns are inputs.

Threads are stepped explicitly, and the clock is a parameter:

* `InterlockStep` is one pass of the interlock monitor.
* `UpdaterCycle` is one cycle of the pyrometer updater.
* `ReadIteration` is one pass of a legacy read loop.
* Each `...Tick(now)` method is one wake of every live countdown thread.
  Countdowns are kept as a sequence of deadlines.

Temperatures are exact rationals (`real`). Python's `int()` is truncation
toward zero (`Telemetry.Trunc`).

Modules:

* `Common`: bytes, `Option`, JSON-like values and `Max`.
* `Telemetry`: the temperature decoding and the moving-average window. All three
  pyrometer drivers share it.
* `Hardware`: the two hardware stand-ins described above.
* `CustomSettings`: the configuration records.
* `AppControl`: the settings dictionary.
* `LaserController`: the current laser controller.
* `Pyrometer`: the current pyrometer engine.
* `CustomApi`: the dispatcher.
* `LegacyPyro`: the first-generation pyrometer driver of `pyroclass.py`.
* `LegacyLaser`: the first-generation controller of `laserclass.py`.

Two behaviours of the code are modelled as written:

* The interlock monitor enables the laser when door and key states add up to
  0. `laser_on_off(1)` fires only when they add up to 2.
  `LaserController.FiringGateExcludesEnable` proves that the readings that let
  firing start (door open, key off) are readings under which the next monitor
  pass disables the laser. The enable flag shown at that moment is whatever
  the last monitor pass cached, so it can still be 1.
* The pyrometer's configured passive message is named 'Pyrometer laser', but
  the decoder matches 'pyrometer laser'. `Pyrometer.ConfiguredTableNeverSetsLaserFlag`
  proves that polling therefore never updates the rangefinder flag.

Where the code and its own descriptions differ, the model follows the code:

* `laserclass.py`'s `PyroClass.readtimer` names an attribute (`self.name`) that
  the class lacks. It does so both in its debug line and in its exception
  handler. So the reader thread ends after one pass, and a one-byte reply leaves
  the value as it was instead of zeroing it.
* The module description of `laser_class.py` promises that the laser is
  switched off after the timeout if nothing else shuts it down. A refused
  `laser_on_off(1)` while firing breaks this: it clears the firing flag
  without writing the off command, so the countdown loop ends and the driver
  keeps the on command (see "## Findings"). The dispatcher in this model calls
  the operation as written, as `custom_api.py` does; `SafeLaserOnOff` is the
  corrected operation beside it.

## Model

| member | source | states |
|---|---|---|
| Common.Max | pyrometer_class.py:91 | `max(a, b)`: at least both arguments and equal to one of them |
| Telemetry.Raw | pyrometer_class.py:73 | the big-endian 16-bit raw count `b0*256+b1`, below 65536, whose high and low bytes are the two inputs |
| Telemetry.DecodeTemperature | pyrometer_class.py:73 | the decoded degrees are a multiple of 0.1 in [-100, 6453.5] and ten times them plus 1000 is the raw count |
| Telemetry.EncodeTemperature | pyrometer_class.py:73 | the two bytes whose raw count is ten times the temperature plus 1000 |
| Telemetry.DecodeEncode | pyrometer_class.py:73 | decoding the encoding of a representable temperature gives it back |
| Telemetry.EncodeDecode | pyrometer_class.py:73 | encoding a decoded temperature gives back the original two bytes |
| Telemetry.DecodeMonotonic | pyrometer_class.py:73 | a larger raw count always decodes to a higher temperature, and conversely |
| Telemetry.DecodeExample | pyrometer_class.py:73 | [0x27, 0x10] decodes to 900 degrees and [0x03, 0xE8] to 0 |
| Telemetry.Repeat | pyrometer_class.py:41 | `[x] * n`: n entries, all equal to x |
| Telemetry.RuleFor | pyrometer_class.py:92-98 | the rule a sample picks: reset iff at or below the floor; fast-converge iff above the floor and more than 20 above the average; slide otherwise |
| Telemetry.NextWindow | pyrometer_class.py:92-98 | the window after one sample keeps its length n and keeps every entry at or above the floor |
| Telemetry.SumRepeat | pyrometer_class.py:99 | the sum of n copies of x is n times x |
| Telemetry.MeanRepeat | pyrometer_class.py:92-95 | the mean of a window of n copies of x is x |
| Telemetry.SumAppend | pyrometer_class.py:97 | appending a sample adds it to the sum |
| Telemetry.SumAtLeast | pyrometer_class.py:99 | a window with every entry at or above the floor sums to at least n times the floor |
| Telemetry.MeanAtLeast | pyrometer_class.py:99 | the mean of such a window is at least the floor |
| Telemetry.NextMean | pyrometer_class.py:92-99 | after a reset the mean is the floor; after fast-converge it is the sample; after a slide the window is the old one minus its oldest entry plus the sample, and the mean is (old sum - oldest + sample) / n |
| Telemetry.Trunc | pyroclass.py:167 | Python `int()` of a real: truncation toward zero |
| Telemetry.TruncAtLeast | pyroclass.py:167 | truncating a value at or above an integer k gives at least k |
| Hardware.ApplyWrites | laser_class.py:61 | the levels after a sequence of channel writes: every written channel is present and an unwritten channel keeps its level |
| Hardware.ApplyWritesAppend | laser_class.py:85 | one more write updates exactly that channel |
| Hardware.DigitalBank.constructor | laser_class.py:40-45 | every configured channel starts at level 0 with its configured duty and no writes |
| Hardware.DigitalBank.Read | laser_class.py:58 | `read()` returns the channel's level |
| Hardware.DigitalBank.Write | laser_class.py:61 | `write(level)` sets that channel's level and logs the write; duties are untouched |
| Hardware.DigitalBank.ChangePwm | laser_class.py:112 | `change_setting('pwm', v)` sets that channel's duty; levels and the write log are untouched |
| Hardware.DigitalBank.Present | laser_class.py:58 | the outside world changing an input line changes only that level |
| Hardware.SerialChannel.constructor | custom_settings.py:160-202 | a device with nothing cached, nothing sent and the given poll interval |
| Hardware.SerialChannel.ApiCommand | pyrometer_class.py:122 | `api_command(item, tag)` appends the command to the sent log and changes nothing else |
| Hardware.SerialChannel.ChangePollInterval | laser_class.py:157 | `change_poll_interval(s)` records s as the requested interval |
| Hardware.SerialChannel.Poll | pyrometer_class.py:68 | a poll replaces the cached values |
| CustomSettings.InitialDuty | custom_settings.py:15-158 | every configured channel has a live duty, and that duty is the channel's configured pwm |
| CustomSettings.ConfiguredDuties | custom_settings.py:15-158 | the configured table gives channels 1..16 a live duty, 5 on the laser driver and 25 on the warning light |
| CustomSettings.PassiveNames | custom_settings.py:164-197 | exactly the names of the messages with an empty api-command |
| CustomSettings.CommandTags | custom_settings.py:164-197 | exactly the non-empty api-command tags |
| CustomSettings.LaserChannelDirections | custom_settings.py:87-158 | channels 9 and 12 are 'output pwm', 11 and 16 'output', 13 and 14 'input', and all six are enabled |
| CustomSettings.PwmDefaultsInRange | custom_settings.py:15-158 | every channel's default pwm lies in [0, 100] and every frequency is positive |
| CustomSettings.DistinctGpioPins | custom_settings.py:15-158 | the ids are exactly 1..16 and no two channels share a GPIO pin |
| CustomSettings.PyrometerCommandTags | custom_settings.py:174-184 | the pyrometer's on-demand tags are exactly 'pyrolaser-off' and 'pyrolaser-on', which differ |
| CustomSettings.PyrometerPassiveMessages | custom_settings.py:166-192 | the passive messages are 'Pyrometer laser' and 'temperature', so not 'pyrometer laser' |
| CustomSettings.NumericLimits | custom_settings.py:230-232 | pyro-running-average is 5, laser-maxtime 300 lies in the [60, 900] clamp, pyro-min-temp is 385 |
| AppControl.Defaults | app_control.py:41-86 | the default dictionary holds the placeholder api-key 'change-me' |
| AppControl.DefaultKeys | app_control.py:41-86 | every key the legacy drivers read is a default, with window length 3 and maxtime 500; the keys the current laser controller reads are not |
| AppControl.MaxTimeDeadline | pyroclass.py:225 | a timer started at now gets the deadline now + settings['maxtime'] when that setting is an integer, now + 1 or now + 0 when it is a boolean, and none otherwise |
| AppControl.DefaultMaxTimeDeadline | laserclass.py:58 | with the defaults, a timer runs for 500 seconds |
| AppControl.ReadSettings | app_control.py:103-111 | the file's dictionary, or `{}` when the file is missing |
| AppControl.Merge | app_control.py:120-125 | the key set of the current settings is kept; a key the file has takes the file's value, any other keeps its own |
| AppControl.MergeIdempotent | app_control.py:120-125 | merging the same file twice gives the same settings as merging once |
| AppControl.MergeIgnoresExtraKeys | app_control.py:120-125 | keys only the file has make no difference |
| AppControl.MissingFileKeepsDefaults | app_control.py:103-125 | without a file every key keeps its current value |
| AppControl.Stamped | app_control.py:98 | the dictionary `writesettings()` persists: 'LastSave' is the formatted clock and every other key is unchanged |
| AppControl.GenerateApiKey | app_control.py:90-93 | exactly n characters, each from the allowed alphabet |
| AppControl.SettingsStore.constructor | app_control.py:133 | the settings start as the defaults, never saved |
| AppControl.SettingsStore.WriteSettings | app_control.py:96-100 | 'LastSave' is stamped with the clock and one more save is counted |
| AppControl.SettingsStore.Set | laser_class.py:123 | `settings[key] = value` |
| AppControl.SettingsStore.LoadSettings | app_control.py:114-130 | the key set is kept (plus 'LastSave' when saving); every other key is the merge; a placeholder api-key becomes a fresh 128-character key from the alphabet, any other is the file's or the default; a save, stamped, happens exactly when a key was missing from the file or the key was replaced |
| LaserController.KeyFromReading | laser_class.py:67 | the key state is 1 exactly when the key-switch reading is 0 (`int(not reading)`) |
| LaserController.Clamp | laser_class.py:108-111 | the result lies in [lo, hi], equals the value inside it, hi above and lo below |
| LaserController.ClampIdempotent | laser_class.py:108-111 | clamping twice is clamping once |
| LaserController.FiringGateExcludesEnable | laser_class.py:81-152 | for 0/1 readings, `laser_on_off(1)` may fire exactly when the door reads 1 and the key reads 0; on those readings the monitor's condition disables the laser, and the page shows 'Open' and 'Key off' |
| LaserController.DoorLedWrites | laser_class.py:59-61 | at most one door-LED write, present exactly when the cached state changes, carrying the new reading |
| LaserController.EnableWrites | laser_class.py:82-90 | at most one enable-line write, present exactly on an edge, carrying the new flag |
| LaserController.KeyLabel | laser_class.py:176-179 | 'Key on' exactly when the key state is 0, else 'Key off' |
| LaserController.DoorLabel | laser_class.py:180-183 | 'Closed' exactly when the door state is 0, else 'Open' |
| LaserController.LaserLabel | laser_class.py:184-190 | 'Firing' iff enabled and on; 'Standby' iff enabled and off; 'Power off' iff not enabled |
| LaserController.LaserObject.constructor | laser_class.py:40-50 | all four states start at 0, no countdown, the given timeout; the driver is covered by a countdown exactly when it does not show the on command |
| LaserController.LaserObject.CheckDoorState | laser_class.py:55-63 | caches and returns the channel-14 reading; the door LED (channel 11) is written only when the cached value changes |
| LaserController.LaserObject.CheckKeyState | laser_class.py:65-71 | caches and returns the inverted channel-13 reading and writes nothing |
| LaserController.LaserObject.InterlockStep | laser_class.py:80-91 | after one pass the enable flag is 1 iff door + key == 0; the writes are the door-LED write (if the door changed) then the enable-line write (only on an edge, with the new flag) |
| LaserController.LaserObject.LaserStatus | laser_class.py:93-104 | the status record of the cached states, driver level, duty and timeout; the exception is present exactly when a non-empty one was given |
| LaserController.LaserObject.SetLaserPower | laser_class.py:106-114 | the duty of channel 9 becomes the argument clamped to [0, 100]; levels, firing and enable flags are untouched; the status carries the clamped value |
| LaserController.LaserObject.LaserSetMaxtime | laser_class.py:116-126 | the cached timeout and settings['laser-maxtime'] both become the argument clamped to [60, 900], and the settings are saved |
| LaserController.LaserObject.SwitchOff | laser_class.py:165-170 | poll interval 0, state 0, and the off command written to channels 9 then 12; the driver is then covered when the on and off commands differ |
| LaserController.LaserObject.SwitchOn | laser_class.py:156-164 | poll interval 1, the on command written to channels 9 then 12, state 1, and a countdown to now + timeout, so the driver is covered |
| LaserController.LaserObject.LaserOnOff | laser_class.py:143-171 | as written: command 1 re-reads door and key and fires iff they add up to 2; a refusal clears the firing flag but writes neither laser channel, starts no countdown and reports 'Key off or door open'; any other command takes the off path |
| LaserController.LaserObject.SafeLaserOnOff | laser_class.py:143-171 | as `laser_on_off`, except that a refusal takes the off path; afterwards the driver is covered whenever the on and off commands differ |
| LaserController.StrandedDriver | laser_class.py:151-155 | firing with the door open and key off, closing the door and asking to fire again leaves channel 9 at the on command with no countdown alive |
| LaserController.SafeRefusal | laser_class.py:151-155 | the same requests through the corrected operation leave channel 9 at the off command |
| LaserController.LaserObject.OffTimerTick | laser_class.py:128-141 | while firing, a passed deadline forces the off path and every countdown ends; if not firing, the countdowns end with no side effect; a covered driver stays covered, and once every deadline has passed it no longer shows the on command |
| LaserController.LaserObject.HttpStatusData | laser_class.py:173-193 | the key, door and laser labels as above, 'output pwm' only for 'Firing', and the power shown as the duty followed by ' %' |
| Pyrometer.ApplyEntry | pyrometer_class.py:70-81 | a 'temperature' entry with at least two bytes sets the decoded temperature, a shorter one the floor; a 'pyrometer laser' entry sets the flag to its first byte or 0; other names change nothing |
| Pyrometer.LastTemperatureEntryWins | pyrometer_class.py:69-75 | after a poll, the temperature is the one set by the last 'temperature' entry, or is unchanged without one |
| Pyrometer.LaserFlagNeedsExactName | pyrometer_class.py:76 | without an entry named exactly 'pyrometer laser' the flag never changes |
| Pyrometer.ConfiguredTableNeverSetsLaserFlag | custom_settings.py:168 | with the configured message names, polling never changes the rangefinder flag |
| Pyrometer.DecodedExampleEntry | pyrometer_class.py:70-73 | a poll holding 'temperature' = [0x27, 0x10] yields 900 degrees |
| Pyrometer.PyrometerObject.constructor | pyrometer_class.py:28-45 | all readings at the floor, a window of n floor entries, flag 0, poll interval 5 |
| Pyrometer.PyrometerObject.ReadPyrometerData | pyrometer_class.py:62-81 | temperature and flag are the fold of the entry rule over the cached values, in order |
| Pyrometer.PyrometerObject.UpdateMovingAverage | pyrometer_class.py:83-100 | max_temp is raised to the sample; the window follows the rule the sample picks and keeps n entries, all at or above the floor; the average is its mean (the floor after a reset, the sample after fast-converge); the average maximum is raised to the new average |
| Pyrometer.PyrometerObject.ResetMax | pyrometer_class.py:102-113 | both maxima become the floor; readings and window are untouched; the current readings are returned |
| Pyrometer.PyrometerObject.LaserOnOff | pyrometer_class.py:115-132 | command 1 sends 'pyrolaser-on', sets the flag to 1 and starts a countdown; any other sends 'pyrolaser-off' and sets it to 0 |
| Pyrometer.PyrometerObject.LaserOffTimerTick | pyrometer_class.py:134-147 | while the flag is 1, a passed deadline sends 'pyrolaser-off' (item 'autolaseroff') and ends every countdown; otherwise the countdowns end silently |
| Pyrometer.PyrometerObject.GetTemperatures | pyrometer_class.py:149-160 | the five readings with item and command, the average and both maxima never below the floor |
| Pyrometer.PyrometerObject.ChangePollInterval | pyrometer_class.py:162-169 | the interval becomes v when v > 0 and the default 5 otherwise |
| Pyrometer.PyrometerObject.UpdaterCycle | pyrometer_class.py:50-60 | one cycle reads the cached values (the fold of the entry rule), updates maximum, window, average (their mean) and average maximum (raised to the average), and sleeps max(interval, 0) one-second steps |
| CustomApi.RouteOf | custom_api.py:19-28 | 'laser', 'laserstatus', 'setlaserpower', 'setlasertimeout' and 'digitalstatus' each route to their own handler |
| CustomApi.WhitelistAndRoutes | custom_api.py:14-30 | every routed item is whitelisted; the whitelisted items without a handler are exactly 'gettemperature', 'resetmax' and 'pyrolaser' |
| CustomApi.FailureReply | custom_api.py:31-36 | a ValueError gives the bad-value error and an IndexError the bad-index error, neither being the unknown-command error |
| CustomApi.CustomParser | custom_api.py:16-30 | each routed item gets its handler's reply and its full state change (channel writes and levels, poll interval, countdowns, settings), everything else unchanged, with item and command passed unchanged; 'laser' goes to `LaserOnOff` as written, so a refusal writes only the door LED and keeps channels 9 and 12, the poll interval and the countdowns; an unrouted item gets 'unknown custom api command' and changes nothing |
| LegacyPyro.PyroClass.constructor | pyroclass.py:54-84 | all readings at the floor, a window of n floor entries, laser 0; port ready iff the port opened |
| LegacyPyro.PyroClass.Close | pyroclass.py:86-101 | the port is no longer ready |
| LegacyPyro.PyroClass.SetAverage | pyroclass.py:148-168 | the window follows the rule the value picks against the integer average and keeps n entries at or above the floor; the average is the truncated mean (the floor after a reset); the average maximum is raised to it |
| LegacyPyro.PyroClass.ReadIteration | pyroclass.py:124-146 | runs only while the port is ready; an empty reply zeroes value and laser; a one-byte reply zeroes the value only; otherwise max and window take the decoded sample, and the laser flag is the second reply's first byte, or, with an empty second reply, value 0 |
| LegacyPyro.PyroClass.Temperature | pyroclass.py:231-251 | the five readings, the integer average and both maxima never below the floor |
| LegacyPyro.PyroClass.ResetMax | pyroclass.py:170-181 | both maxima become the floor and the readings are returned |
| LegacyPyro.PyroClass.LaserOn | pyroclass.py:183-195 | nothing happens unless the port is ready; then the on payload is written, the flag set, and a timer with the settings['maxtime'] deadline started |
| LegacyPyro.PyroClass.LaserOff | pyroclass.py:197-208 | nothing happens unless the port is ready; then the off payload is written and the flag cleared |
| LegacyPyro.PyroClass.LaserOffTimerTick | pyroclass.py:210-229 | while the flag is 1 and the port ready, a passed deadline switches the rangefinder off; timers end once the flag is not 1 |
| LegacyLaser.Pending | laserclass.py:58-60 | exactly the timers whose deadline is still ahead |
| LegacyLaser.DueCount | laserclass.py:58-60 | the number of timers that fire, positive exactly when one deadline has passed |
| LegacyLaser.LaserClass.constructor | laserclass.py:17-26 | frequency and duty cycle from the settings, laser off |
| LegacyLaser.LaserClass.Laser | laserclass.py:51-68 | state 1 switches on and schedules a `laser(2)` timer; 2 switches off; anything else switches off and drives GPIO 16 low |
| LegacyLaser.LaserClass.TimerTick | laserclass.py:58-63 | every due timer fires `laser(2)`, switching the laser off even when it was switched on again later |
| LegacyLaser.LaserClass.SetPower | laserclass.py:34-38 | the unclamped value becomes the duty cycle and settings['power'], and the settings are saved |
| LegacyLaser.LaserClass.SetMaxTimeout | laserclass.py:40-44 | the unclamped value becomes settings['maxtime'], and the settings are saved |
| LegacyLaser.LaserClass.LaserStatus | laserclass.py:47-49 | exactly the firing flag and settings['power'] |
| LegacyLaser.PyroClass.constructor | laserclass.py:75-101 | value, laser and maximum at 0; port ready and reader started iff the port opened |
| LegacyLaser.PyroClass.Close | laserclass.py:103-106 | the port is no longer ready |
| LegacyLaser.PyroClass.ReadIteration | laserclass.py:108-132 | runs once if the port is ready; an empty reply zeroes value and laser; a one-byte reply changes no reading; two bytes set the value, raise the maximum and take the laser byte when there is one; the reader then ends |
| LegacyLaser.PyroClass.ResetMax | laserclass.py:134-136 | the maximum becomes 0 |
| LegacyLaser.PyroClass.LaserOn | laserclass.py:138-145 | only with the port ready: the on payload, flag 1, and a 60-second timer |
| LegacyLaser.PyroClass.LaserOff | laserclass.py:147-152 | only with the port ready: the off payload and flag 0 |
| LegacyLaser.PyroClass.TimerTick | laserclass.py:144-152 | each due timer calls `laseroff` once: with the port ready, one off payload per timer and flag 0 |
| LegacyLaser.PyroClass.Temperature | laserclass.py:154-164 | the value, flag and maximum, the maximum never negative |
| LegacyLaser.ParseControl | laserclass.py:173-202 | 'laser' with 'on' switches on and schedules the off timer, any other command switches off and drives GPIO 16 low; 'setlaserpower' and 'setlasertimeout' store unclamped values and save, leaving firing, timers and GPIO writes as they were; 'laseralarm' raises; a reboot is requested exactly for 'restart' with 'pi'; any other item returns the status unchanged |

## Left out

- The `app_control.py` defaults have no 'laser-maxtime', 'digital_on_command' or 'digital_off_command' key, though `laser_class.py` (lines 50, 158 and 169) and `pyrometer_class.py` (line 45) read them; with those defaults the code raises a KeyError at construction or when switching. The model does not follow that path: the current-generation constructors take these values as parameters (`custom_settings.py` supplies 'laser-maxtime' 300), and the KeyError is not modelled.
- Threads, `Timer`, `sleep` and `time()` are not modelled. Each loop is one explicit step with the clock as a parameter. Interleavings between the threads are not modelled, and neither are the 0.5-second and 1-second cadences or the 0.5-second start delay of `pyroclass.py`'s off timer. The tick methods treat every live countdown as waking at the same instant.
- GPIO, pyserial, the hidden `digital_channels`/`serial_channels` managers, base64 decoding of payloads and the serial poll loop are abstract state only. They are not part of this model.
- Logging, the Flask routes, cameras and the web-page helpers `httpstatus` of `laserclass.py` are left out, because they are I/O or page rendering. `PyroClass.read`/`readmax` of `laserclass.py` are folded into `Temperature`.
- The JSON file and the clock behind `writesettings()`/`readsettings()` are left out. The file is an optional map and the formatted time is a string parameter. The random choice in `generate_api_key` is a nondeterministic choice.
- Temperatures, which Python computes in floating point, are exact rationals. Other values have no floating-point form: `Common.Value` has no float, and the current generation's `command` is an integer.
- LaserController.LaserObject.SetLaserPower: a JSON float command such as 40.5 is clamped and stored as the duty as is in Python, and a string raises a TypeError; the model takes integer commands only.
- LaserController.LaserObject.LaserSetMaxtime: likewise, a float timeout is stored as is and a string raises a TypeError; only integer commands are modelled.
- LaserController.LaserObject.LaserOnOff: a float command equal to 1 fires in Python; only integer commands are modelled. SafeLaserOnOff has the same restriction.
- CustomApi.CustomParser: the command is an integer. A string command to 'setlaserpower' or 'setlasertimeout' raises a TypeError that `custom_parser` does not catch, and that path is not modelled.
- AppControl.MaxTimeDeadline: a float 'maxtime' gives a fractional deadline in Python; `Common.Value` has no float, so that case is not modelled.
- Hardware.SerialChannel.ApiCommand: the manager's `api_command` also refreshes the cached entry for that message. The model leaves the cache unchanged, because no modelled operation reads that entry back.
- CustomApi.FailureReply: only the mapping from the caught exception to its error reply is modelled. The handlers in the model raise nothing, because the ValueError and IndexError the parser catches could only come from the hidden hardware managers.
- LegacyLaser.ParseControl: its `except ValueError` branch is not modelled, because no handler in the model raises a ValueError. The reboot itself (`os.system`) is a flag.
- LegacyLaser.LaserClass.Laser: requires 'maxtime' to be present in the settings, as the defaults guarantee. A missing key would raise after the state was set, and that path is not modelled.
- LegacyPyro.PyroClass.constructor: requires a positive window length. The source would divide by zero in `setaverage` for a length of 0 and then zero the value through its catch-all handler; that path is not modelled.
- Pyrometer.PyrometerObject.constructor: requires a positive window length for the same reason.
- LegacyPyro.PyroClass.ReadIteration: the inner re-check of `portready` inside the loop body only differs from the loop test when `close` runs concurrently, so it is not modelled.
- The GPIO setup calls in `LaserClass.__init__` and the serial port settings (baud, parity) are not modelled.

## Findings

| source | as written | input that shows it | evidently intended | confidence | as-written member | corrected member |
|---|---|---|---|---|---|---|
| laser_class.py:151-155 | a refused `laser_on_off(1)` sets `_laser_state = 0` without writing the off command to channels 9 and 12; the countdown loop of laser_class.py:137 then ends | door reading 1, key reading 0: `laser_on_off(1)` fires; the door closes; `laser_on_off(1)` again is refused; channel 9 keeps `digital_on_command` and no countdown is left | a refusal leaves the driver off: whenever channel 9 shows the on command, firing is on and a countdown is alive | high, not executed | LaserController.StrandedDriver | LaserController.LaserObject.SafeLaserOnOff |
