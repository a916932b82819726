/**
 * The site configuration `custom_settings`: sixteen digital channels, the
 * pyrometer's serial message table and the numeric limits the controllers
 * use, as typed records. The camera sections are not part of this model.
 */
module CustomSettings {

  /** A channel's `direction`: 'input', 'output' or 'output pwm'. */
  datatype Direction = Input | Output | OutputPwm

  datatype DigitalChannelConfig = DigitalChannelConfig(
    name: string,
    gpio: int,
    direction: Direction,
    enabled: bool,
    excluded: string,
    pwm: int,
    frequency: int)

  /**
   * One entry of a serial device's message table. An empty `apiCommand` marks
   * a passive message the poll loop sends on every cycle; a non-empty one is a
   * command sent on demand. `string1` and `string2` are base64 text.
   */
  datatype MessageDef = MessageDef(
    apiCommand: string,
    length: nat,
    name: string,
    start: nat,
    string1: string,
    string2: string)

  datatype SerialDeviceConfig = SerialDeviceConfig(
    apiName: string,
    baud: int,
    messages: seq<MessageDef>,
    mode: string,
    pollInterval: int,
    port: string)

  datatype Config = Config(
    digitalChannels: map<int, DigitalChannelConfig>,
    serialChannels: seq<SerialDeviceConfig>,
    runningAverage: int,
    minTemp: int,
    laserMaxTime: int,
    appName: string)

  // Channel ids the laser controller drives or reads.
  const LaserPwmCh := 9
  const DoorLedCh := 11
  const LaserWarningCh := 12
  const KeySwitchCh := 13
  const DoorSwitchCh := 14
  const LaserEnableCh := 16

  function Unused(gpio: int, direction: Direction): DigitalChannelConfig {
    DigitalChannelConfig("not configured", gpio, direction, false, "0", 50, 500)
  }

  function DigitalChannels(): map<int, DigitalChannelConfig> {
    map[
      1 := Unused(26, Input),
      2 := Unused(19, Input),
      3 := Unused(13, Input),
      4 := Unused(11, Input),
      5 := Unused(9, Input),
      6 := Unused(22, Input),
      7 := Unused(27, Input),
      8 := Unused(17, Input),
      9 := DigitalChannelConfig("Laser Driver", 18, OutputPwm, true, "0", 5, 500),
      10 := Unused(23, Output),
      11 := DigitalChannelConfig("Door LED", 24, Output, true, "0", 50, 500),
      12 := DigitalChannelConfig("Laser Warning LED", 25, OutputPwm, true, "0", 25, 2),
      13 := DigitalChannelConfig("Key Switch", 12, Input, true, "0", 50, 500),
      14 := DigitalChannelConfig("Door Switch", 16, Input, true, "0", 50, 500),
      15 := Unused(20, Input),
      16 := DigitalChannelConfig("Laser Enable", 21, Output, true, "0", 50, 500)
    ]
  }

  function PyrometerMessages(): seq<MessageDef> {
    [
      MessageDef("", 0, "Pyrometer laser", 0, "JQ==", ""),
      MessageDef("pyrolaser-off", 0, "pyrometer laser off", 0, "pQCl", ""),
      MessageDef("pyrolaser-on", 0, "pyro laser off", 0, "pQGk", ""),
      MessageDef("", 0, "temperature", 0, "AQ==", "")
    ]
  }

  function Settings(): Config {
    Config(
      DigitalChannels(),
      [SerialDeviceConfig("pyrometer", 115200, PyrometerMessages(), "interactive", 5, "/dev/ttyUSB0")],
      5,
      385,
      300,
      "Laser Controller")
  }

  /** The live PWM duty each configured channel starts with. */
  function InitialDuty(c: Config): (d: map<int, int>)
    ensures d.Keys == c.digitalChannels.Keys
    ensures forall ch :: ch in d ==> d[ch] == c.digitalChannels[ch].pwm
  {
    map ch | ch in c.digitalChannels :: c.digitalChannels[ch].pwm
  }

  /**
   * The configured table gives every channel 1..16 a live duty: 5 % on the
   * laser driver and 25 % on the warning light.
   */
  lemma ConfiguredDuties()
    ensures forall ch :: ch in InitialDuty(Settings()) <==> 1 <= ch <= 16
    ensures InitialDuty(Settings())[LaserPwmCh] == 5 && InitialDuty(Settings())[LaserWarningCh] == 25
  {
  }

  /** The names of the passive messages of a message table. */
  function PassiveNames(messages: seq<MessageDef>): (names: set<string>)
    ensures forall m :: m in messages && m.apiCommand == "" ==> m.name in names
    ensures forall x :: x in names ==> exists m :: m in messages && m.apiCommand == "" && m.name == x
  {
    set m | m in messages && m.apiCommand == "" :: m.name
  }

  /** The non-empty api-command tags of a message table. */
  function CommandTags(messages: seq<MessageDef>): (tags: set<string>)
    ensures forall m :: m in messages && m.apiCommand != "" ==> m.apiCommand in tags
    ensures forall x :: x in tags ==> x != "" && exists m :: m in messages && m.apiCommand == x
  {
    set m | m in messages && m.apiCommand != "" :: m.apiCommand
  }

  /** The channels the laser controller uses exist, are enabled and have the direction it relies on. */
  lemma LaserChannelDirections()
    ensures var chs := Settings().digitalChannels;
      && {LaserPwmCh, DoorLedCh, LaserWarningCh, KeySwitchCh, DoorSwitchCh, LaserEnableCh} <= chs.Keys
      && chs[LaserPwmCh].direction == OutputPwm && chs[LaserWarningCh].direction == OutputPwm
      && chs[DoorLedCh].direction == Output && chs[LaserEnableCh].direction == Output
      && chs[KeySwitchCh].direction == Input && chs[DoorSwitchCh].direction == Input
      && chs[LaserPwmCh].enabled && chs[LaserWarningCh].enabled && chs[DoorLedCh].enabled
      && chs[LaserEnableCh].enabled && chs[KeySwitchCh].enabled && chs[DoorSwitchCh].enabled
  {
  }

  /** Every channel's default duty is a percentage and every frequency is positive. */
  lemma PwmDefaultsInRange()
    ensures forall ch :: ch in Settings().digitalChannels ==>
      0 <= Settings().digitalChannels[ch].pwm <= 100 && Settings().digitalChannels[ch].frequency > 0
  {
  }

  /** The channel id wired to each configured GPIO pin (0 for a pin no channel uses). */
  function ChannelOfPin(gpio: int): int {
    match gpio
    case 26 => 1 case 19 => 2 case 13 => 3 case 11 => 4
    case 9 => 5 case 22 => 6 case 27 => 7 case 17 => 8
    case 18 => 9 case 23 => 10 case 24 => 11 case 25 => 12
    case 12 => 13 case 16 => 14 case 20 => 15 case 21 => 16
    case _ => 0
  }

  /** No two of the sixteen channels share a GPIO pin. */
  lemma DistinctGpioPins()
    ensures forall id :: id in Settings().digitalChannels <==> 1 <= id <= 16
    ensures forall i, j :: i in Settings().digitalChannels && j in Settings().digitalChannels && i != j ==>
      Settings().digitalChannels[i].gpio != Settings().digitalChannels[j].gpio
  {
    var chs := Settings().digitalChannels;
    forall id | id in chs
      ensures ChannelOfPin(chs[id].gpio) == id
    {
    }
  }

  /** The on-demand tags of the pyrometer are exactly the two rangefinder commands. */
  lemma PyrometerCommandTags()
    ensures Settings().serialChannels[0].apiName == "pyrometer"
    ensures CommandTags(Settings().serialChannels[0].messages) == {"pyrolaser-off", "pyrolaser-on"}
    ensures "pyrolaser-off" != "pyrolaser-on"
  {
  }

  /** The pyrometer's passive messages are 'Pyrometer laser' (capital P) and 'temperature'. */
  lemma PyrometerPassiveMessages()
    ensures PassiveNames(Settings().serialChannels[0].messages) == {"Pyrometer laser", "temperature"}
    ensures "pyrometer laser" !in PassiveNames(Settings().serialChannels[0].messages)
  {
  }

  /** The window length is positive and the stored laser timeout lies inside the 60..900 s clamp. */
  lemma NumericLimits()
    ensures Settings().runningAverage == 5 > 0
    ensures 60 <= Settings().laserMaxTime == 300 <= 900
    ensures Settings().minTemp == 385
  {
  }
}
