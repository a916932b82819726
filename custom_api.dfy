/**
 * The custom API dispatcher: the whitelist of item names the web layer lets
 * through, and `custom_parser`, which routes an item to the laser controller
 * or answers with an error record.
 */
module CustomApi {
  import opened Common
  import opened Hardware
  import opened AppControl
  import opened CustomSettings
  import opened LaserController

  /** The `custom_api` list: the items the web layer hands to `CustomParser`. */
  const CustomApiItems := ["digitalstatus", "laserstatus", "laser", "setlaserpower", "setlasertimeout",
                           "gettemperature", "resetmax", "pyrolaser"]

  const UnknownCommand := "unknown custom api command"
  const BadValue := "bad value in json message custom api"
  const BadIndex := "Bad index in json message custom api"

  /** The laser-controller operation an item is routed to. */
  datatype Route = LaserOnOffRoute | LaserStatusRoute | SetPowerRoute | SetTimeoutRoute | DigitalStatusRoute | NoRoute

  function RouteOf(item: string): (r: Route)
    ensures r == LaserOnOffRoute <==> item == "laser"
    ensures r == LaserStatusRoute <==> item == "laserstatus"
    ensures r == SetPowerRoute <==> item == "setlaserpower"
    ensures r == SetTimeoutRoute <==> item == "setlasertimeout"
    ensures r == DigitalStatusRoute <==> item == "digitalstatus"
  {
    if item == "laser" then LaserOnOffRoute
    else if item == "laserstatus" then LaserStatusRoute
    else if item == "setlaserpower" then SetPowerRoute
    else if item == "setlasertimeout" then SetTimeoutRoute
    else if item == "digitalstatus" then DigitalStatusRoute
    else NoRoute
  }

  /**
   * Every routed item is on the whitelist, but three whitelisted items
   * ('gettemperature', 'resetmax', 'pyrolaser') reach no handler and are
   * answered as unknown.
   */
  lemma WhitelistAndRoutes()
    ensures forall item :: RouteOf(item) != NoRoute ==> item in CustomApiItems
    ensures forall item :: item in CustomApiItems && RouteOf(item) == NoRoute <==>
      item in ["gettemperature", "resetmax", "pyrolaser"]
  {
  }

  /** What `custom_parser` returns: a status record, the status-page record, or an error. */
  datatype ApiReply = Status(status: StatusRecord) | Page(page: HttpStatus) | Error(message: string)

  /** The two exceptions a handler may raise that `custom_parser` turns into replies. */
  datatype HandlerFailure = ValueFailure | IndexFailure

  /** The error reply for a caught exception. */
  function FailureReply(f: HandlerFailure): (reply: ApiReply)
    ensures reply.Error?
    ensures reply.message != UnknownCommand
    ensures f.ValueFailure? <==> reply.message == BadValue
    ensures f.IndexFailure? <==> reply.message == BadIndex
  {
    match f
    case ValueFailure => Error(BadValue)
    case IndexFailure => Error(BadIndex)
  }

  /**
   * `custom_parser(item, command)` at time `now` (the clock the countdown of
   * the 'laser' item reads; `stamp` is the same time as a settings time
   * stamp). Each route's state change is the handler's own, the 'laser' item
   * going to `LaserOnOff` as written; items without a route change nothing.
   */
  method CustomParser(laser: LaserObject, item: string, command: int, now: int, stamp: string) returns (reply: ApiReply)
    requires laser.Valid()
    modifies laser, laser.bank, laser.pyroSerial, laser.settings
    ensures laser.Valid()
    ensures RouteOf(item) == NoRoute ==>
      && reply == Error(UnknownCommand)
      && unchanged(laser, laser.bank, laser.pyroSerial, laser.settings)
    ensures RouteOf(item) == LaserStatusRoute ==>
      && reply == Status(old(laser.LaserStatus(item, command, None)))
      && unchanged(laser, laser.bank, laser.pyroSerial, laser.settings)
    ensures RouteOf(item) == DigitalStatusRoute ==>
      && reply == Page(old(laser.HttpStatusData(item, command)))
      && unchanged(laser, laser.bank, laser.pyroSerial, laser.settings)
    ensures RouteOf(item) == SetPowerRoute ==>
      && laser.bank.duty == old(laser.bank.duty)[LaserPwmCh := Clamp(command, 0, 100)]
      && laser.bank.levels == old(laser.bank.levels) && laser.bank.writes == old(laser.bank.writes)
      && unchanged(laser, laser.pyroSerial, laser.settings)
      && reply == Status(laser.LaserStatus(item, Clamp(command, 0, 100), None))
    ensures RouteOf(item) == SetTimeoutRoute ==>
      && laser.laserMaxTime == Clamp(command, 60, 900)
      && laser.settings.values == Stamped(old(laser.settings.values)["laser-maxtime" := Int(Clamp(command, 60, 900))], stamp)
      && laser.settings.saves == old(laser.settings.saves) + 1
      && laser.doorState == old(laser.doorState) && laser.keyState == old(laser.keyState)
      && laser.laserEnabled == old(laser.laserEnabled) && laser.laserState == old(laser.laserState)
      && laser.offTimers == old(laser.offTimers)
      && unchanged(laser.bank, laser.pyroSerial)
      && reply == Status(laser.LaserStatus(item, Clamp(command, 60, 900), None))
    ensures RouteOf(item) == LaserOnOffRoute ==>
      && laser.laserEnabled == old(laser.laserEnabled) && laser.laserMaxTime == old(laser.laserMaxTime)
      && unchanged(laser.settings)
      && laser.bank.duty == old(laser.bank.duty)
      && laser.pyroSerial.sent == old(laser.pyroSerial.sent)
      && laser.pyroSerial.listenerValues == old(laser.pyroSerial.listenerValues)
      && reply == Status(laser.LaserStatus(item, command,
                           if command == 1 && laser.laserState == 0 then Some(KeyOffOrDoorOpen) else None))
    ensures RouteOf(item) == LaserOnOffRoute && command == 1 ==>
      && laser.doorState == old(laser.bank.levels[DoorSwitchCh])
      && laser.keyState == KeyFromReading(old(laser.bank.levels[KeySwitchCh]))
      && (laser.laserState == 1 <==> FiringAllowed(laser.doorState, laser.keyState))
    ensures RouteOf(item) == LaserOnOffRoute && command == 1 && laser.laserState == 0 ==>
      && laser.offTimers == old(laser.offTimers)
      && laser.pyroSerial.pollInterval == old(laser.pyroSerial.pollInterval)
      && laser.bank.writes == old(laser.bank.writes) + DoorLedWrites(old(laser.doorState), laser.doorState)
      && laser.bank.levels == ApplyWrites(old(laser.bank.levels), DoorLedWrites(old(laser.doorState), laser.doorState))
    ensures RouteOf(item) == LaserOnOffRoute && command == 1 && laser.laserState == 1 ==>
      && laser.offTimers == old(laser.offTimers) + [now + laser.laserMaxTime]
      && laser.pyroSerial.pollInterval == 1
      && laser.bank.writes == old(laser.bank.writes) + DoorLedWrites(old(laser.doorState), laser.doorState)
                              + LaserWrites(laser.onCommand)
      && laser.bank.levels == ApplyWrites(old(laser.bank.levels), DoorLedWrites(old(laser.doorState), laser.doorState))
                                [LaserPwmCh := laser.onCommand][LaserWarningCh := laser.onCommand]
    ensures RouteOf(item) == LaserOnOffRoute && command != 1 ==>
      && laser.laserState == 0
      && laser.doorState == old(laser.doorState) && laser.keyState == old(laser.keyState)
      && laser.offTimers == old(laser.offTimers)
      && laser.pyroSerial.pollInterval == 0
      && laser.bank.writes == old(laser.bank.writes) + LaserWrites(laser.offCommand)
      && laser.bank.levels == old(laser.bank.levels)[LaserPwmCh := laser.offCommand][LaserWarningCh := laser.offCommand]
  {
    if item == "laser" {
      var r := laser.LaserOnOff(item, command, now);
      return Status(r);
    }
    if item == "laserstatus" {
      return Status(laser.LaserStatus(item, command, None));
    }
    if item == "setlaserpower" {
      var r := laser.SetLaserPower(item, command);
      return Status(r);
    }
    if item == "setlasertimeout" {
      var r := laser.LaserSetMaxtime(item, command, stamp);
      return Status(r);
    }
    if item == "digitalstatus" {
      return Page(laser.HttpStatusData(item, command));
    }
    reply := Error(UnknownCommand);
  }
}
