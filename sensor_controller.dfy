/**
  The acquisition state machine of the LiDAR sensor (src/controllers/sensor_controller.py,
  class `SensorController`).

  The serial handler is an oracle: each call that waits for an answer takes that answer as a
  parameter (`Option<string>`, None for a timeout), and the outcome of opening or closing the
  port is a boolean parameter. What the controller writes to the link is kept in a log of
  `Wire` events and every Qt signal it emits in a log of `Signal`s. A tick of the polling timer
  is one call of `ReadContinuousData`.

  `Sensor` is the controller's whole state as a value, and each operation is first written as
  a function on it; the class `SensorController` holds the same state in fields, updates them
  step by step as the source does, and its methods are proved to end in the state the functions
  describe. The lemmas state the rules of the source about those functions.
*/
module SensorControl {
  import opened Wrappers
  import Settings
  import ReplyParser

  /** The continuous mode actually running: `'fast'` or `'slow'`. */
  datatype Mode = Fast | Slow

  /** What the controller hands to the serial handler: a command, or a bare read of whatever the
      sensor has buffered (`send_command(None, …)`). */
  datatype Wire = Send(command: string) | Read

  /** Which guarded action was refused for want of a connection. */
  datatype Action = ToggleAction | MeasureAction | StartAction

  /** The payloads of `error_occurred`. */
  datatype UiError =
    | ConnectionFailed
    | DisconnectionFailed
    | LaserControlFailed(reply: Option<string>)
    | StatusReadFailed
    | StatusRejected(message: string)
    | DistanceRejected(error: ReplyParser.ReplyError)
    | NotConnected(action: Action)
    | StopContinuousFirst
    | UnsupportedMode(mode: string)
    | TooManyErrors(limit: nat)

  /** The Qt signals of the controller, with their payloads. */
  datatype Signal =
    | ConnectionChanged(up: bool)
    | StatusUpdated(temperature: ReplyParser.Decimal, voltage: ReplyParser.Decimal)
    | MeasurementTaken(distance: ReplyParser.Decimal, quality: nat)
    | ErrorOccurred(error: UiError)
    | LaserStateChanged(on: bool)

  /** The settings the controller reads: the error threshold, whether the laser is switched
      off before disconnecting, and the command that stops continuous measurement. */
  datatype Config = Config(maxErrors: nat, autoLaserOff: bool, stopCommand: string)

  /** The controller's state: the handler's `is_connected` (`linkOpen`), `_is_connected`,
      `_is_measuring_continuous`, `_laser_state`, `_current_continuous_mode`,
      `consecutive_errors`, and the logs of what was written and emitted. */
  datatype Sensor = Sensor(
    linkOpen: bool,
    connected: bool,
    measuring: bool,
    laserOn: bool,
    mode: Option<Mode>,
    errors: nat,
    sent: seq<Wire>,
    signals: seq<Signal>)

  const Initial: Sensor := Sensor(false, false, false, false, None, 0, [], [])

  /** The `is_connected` property: the controller's flag and the handler's. */
  predicate IsConnected(s: Sensor) {
    s.connected && s.linkOpen
  }

  /** The invariant the operations keep: a mode is recorded exactly while measuring, measuring
      and the laser need the connection, and while measuring the counter is below the
      threshold (or zero, when the threshold is zero). */
  predicate Inv(cfg: Config, s: Sensor) {
    && (s.measuring <==> s.mode.Some?)
    && (s.measuring ==> IsConnected(s))
    && (s.laserOn ==> IsConnected(s))
    && (s.measuring ==> s.errors == 0 || s.errors < cfg.maxErrors)
  }

  function Emit(s: Sensor, signal: Signal): Sensor {
    s.(signals := s.signals + [signal])
  }

  function Write(s: Sensor, w: Wire): Sensor {
    s.(sent := s.sent + [w])
  }

  /** ASCII lower-casing, as `str.lower` does on the letters A-Z. */
  function Lower(m: string): (r: string)
    ensures |r| == |m|
    ensures forall i :: 0 <= i < |m| ==> r[i] == if 'A' <= m[i] <= 'Z' then (m[i] as int + 32) as char else m[i]
  {
    seq(|m|, i requires 0 <= i < |m| => if 'A' <= m[i] <= 'Z' then (m[i] as int + 32) as char else m[i])
  }

  /** Lower-casing leaves no capital letter, turns each capital into a small letter, keeps every
      other character, and doing it twice is doing it once. */
  lemma LowerFolds(m: string)
    ensures Lower(Lower(m)) == Lower(m)
    ensures forall i :: 0 <= i < |m| ==> !('A' <= Lower(m)[i] <= 'Z')
    ensures forall i :: 0 <= i < |m| && 'A' <= m[i] <= 'Z' ==> 'a' <= Lower(m)[i] <= 'z'
    ensures forall i :: 0 <= i < |m| && !('A' <= m[i] <= 'Z') ==> Lower(m)[i] == m[i]
  {
    var r := Lower(m);
    assert forall i :: 0 <= i < |m| ==> Lower(r)[i] == r[i];
  }

  /** The mode and command of a (lower-cased) continuous mode name; `'auto'` runs as `'slow'`. */
  function ModeCommand(m: string): Option<(Mode, string)> {
    if m == "fast" then Some((Fast, Settings.FastMeasure))
    else if m == "slow" || m == "auto" then Some((Slow, Settings.SlowMeasure))
    else None
  }

  // ---------------------------------------------------------------------------------------
  // The operations, as functions on the state

  /** `get_sensor_status`. */
  function ReadStatus(s: Sensor, reply: Option<string>): Sensor {
    if !IsConnected(s) then s
    else
      var s1 := Write(s, Send(Settings.ReadStatus));
      if reply.None? || reply.value == "" then Emit(s1, ErrorOccurred(StatusReadFailed))
      else match ReplyParser.ParseStatus(reply)
        case StatusError(message) => Emit(s1, ErrorOccurred(StatusRejected(message)))
        case Status(t, v) => Emit(s1, StatusUpdated(t, v))
  }

  /** `connect_sensor`, where `accepted` is what the handler's `connect` returned. */
  function Connect(s: Sensor, accepted: bool, statusReply: Option<string>): (Sensor, bool) {
    if IsConnected(s) then (s, true)
    else if accepted then
      var s1 := Emit(s.(connected := true, linkOpen := true), ConnectionChanged(true));
      var s2 := ReadStatus(s1, statusReply);
      (Emit(s2.(laserOn := false), LaserStateChanged(false)), true)
    else
      var s1 := s.(connected := false, linkOpen := false);
      (Emit(Emit(s1, ErrorOccurred(ConnectionFailed)), ConnectionChanged(false)), false)
  }

  /** `_send_laser_command`. */
  function SendLaser(s: Sensor, turnOn: bool, reply: Option<string>): (Sensor, bool) {
    if !IsConnected(s) then (s, false)
    else
      var s1 := Write(s, Send(if turnOn then Settings.LaserOn else Settings.LaserOff));
      if reply.Some? && ReplyParser.Contains(reply.value, ",OK!") then
        (Emit(s1.(laserOn := turnOn), LaserStateChanged(turnOn)), true)
      else
        (Emit(s1, ErrorOccurred(LaserControlFailed(reply))), false)
  }

  /** `toggle_laser`. */
  function Toggle(s: Sensor, reply: Option<string>): Sensor {
    if !IsConnected(s) then Emit(Emit(s, ErrorOccurred(NotConnected(ToggleAction))), LaserStateChanged(s.laserOn))
    else SendLaser(s, !s.laserOn, reply).0
  }

  /** `stop_continuous_measurement` (it always returns True). */
  function Stop(cfg: Config, s: Sensor): Sensor {
    if !s.measuring then s
    else
      var s1 := s.(measuring := false, mode := None);
      if IsConnected(s1) then Write(s1, Send(cfg.stopCommand)) else s1
  }

  /** The first half of `disconnect_sensor`: stop a running measurement, then switch a lit
      laser off when so configured. */
  function Shutdown(cfg: Config, s: Sensor, laserReply: Option<string>): Sensor {
    var s1 := if s.measuring then Stop(cfg, s) else s;
    if s1.laserOn && cfg.autoLaserOff then SendLaser(s1, false, laserReply).0 else s1
  }

  /** `disconnect_sensor`, where `closedOk` is what the handler's `disconnect` returned. */
  function Disconnect(cfg: Config, s: Sensor, laserReply: Option<string>, closedOk: bool): (Sensor, bool) {
    if !IsConnected(s) then (s, true)
    else
      var s2 := Shutdown(cfg, s, laserReply);
      var s3 := s2.(linkOpen := s2.linkOpen && !closedOk, connected := false, measuring := false, laserOn := false);
      var s4 := if s2.connected then Emit(s3, ConnectionChanged(false)) else s3;
      if closedOk then (s4, true) else (Emit(s4, ErrorOccurred(DisconnectionFailed)), false)
  }

  /** `_process_measurement_response`: true exactly when a distance was read. */
  function ProcessMeasurement(s: Sensor, reply: Option<string>): (Sensor, bool) {
    if reply.None? then (s, false)
    else match ReplyParser.ParseDistance(reply)
      case DistanceError(e) => (Emit(s, ErrorOccurred(DistanceRejected(e))), false)
      case Measured(d, q) => (Emit(s, MeasurementTaken(d, q)), true)
  }

  /** `get_single_measurement`. */
  function SingleMeasurement(s: Sensor, reply: Option<string>): (Sensor, bool) {
    if !IsConnected(s) then (Emit(s, ErrorOccurred(NotConnected(MeasureAction))), false)
    else if s.measuring then (Emit(s, ErrorOccurred(StopContinuousFirst)), false)
    else ProcessMeasurement(Write(s, Send(Settings.AutoMeasure)), reply)
  }

  /** `start_continuous_measurement`. */
  function StartContinuous(s: Sensor, mode: string): (Sensor, bool) {
    if !IsConnected(s) then (Emit(s, ErrorOccurred(NotConnected(StartAction))), false)
    else if s.measuring then (s, true)
    else match ModeCommand(Lower(mode))
      case None => (Emit(s, ErrorOccurred(UnsupportedMode(Lower(mode)))), false)
      case Some((m, command)) => (Write(s, Send(command)).(measuring := true, mode := Some(m), errors := 0), true)
  }

  /** `_read_continuous_data`: one tick of the polling timer. */
  function ReadContinuous(cfg: Config, s: Sensor, reply: Option<string>): Sensor {
    if !s.measuring || !IsConnected(s) then Stop(cfg, s)
    else
      var (s1, success) := ProcessMeasurement(Write(s, Read), reply);
      if !success && reply.Some? then
        var s2 := s1.(errors := s1.errors + 1);
        if s2.errors >= cfg.maxErrors then Stop(cfg, Emit(s2, ErrorOccurred(TooManyErrors(cfg.maxErrors))))
        else s2
      else if success then s1.(errors := 0)
      else s1
  }

  /** Successive ticks, one per reply. */
  function Ticks(cfg: Config, s: Sensor, replies: seq<Option<string>>): Sensor
    decreases |replies|
  {
    if replies == [] then s else Ticks(cfg, ReadContinuous(cfg, s, replies[0]), replies[1..])
  }

  /** A reply that arrived but carries no distance. */
  predicate Failing(reply: Option<string>) {
    reply.Some? && !ReplyParser.ParseDistance(reply).Measured?
  }

  // ---------------------------------------------------------------------------------------
  // Connecting and disconnecting

  /** Connecting while connected succeeds and touches nothing. */
  lemma ConnectWhenConnected(s: Sensor, accepted: bool, statusReply: Option<string>)
    requires IsConnected(s)
    ensures Connect(s, accepted, statusReply) == (s, true)
  {
  }

  /** A connect the handler accepts connects, asks for the status, and clears the laser flag;
      one it refuses leaves the controller disconnected and writes nothing. */
  lemma ConnectOutcome(s: Sensor, accepted: bool, statusReply: Option<string>)
    requires !IsConnected(s)
    ensures var (t, ok) := Connect(s, accepted, statusReply);
      && ok == accepted
      && IsConnected(t) == accepted
      && t.sent == s.sent + (if accepted then [Send(Settings.ReadStatus)] else [])
      && (accepted ==> !t.laserOn && t.signals[|s.signals|] == ConnectionChanged(true)
                       && t.signals[|t.signals| - 1] == LaserStateChanged(false))
      && (!accepted ==> t.laserOn == s.laserOn
                        && t.signals == s.signals + [ErrorOccurred(ConnectionFailed), ConnectionChanged(false)])
      && t.measuring == s.measuring && t.mode == s.mode && t.errors == s.errors
  {
    if accepted {
      var s1 := Emit(s.(connected := true, linkOpen := true), ConnectionChanged(true));
      assert ReadStatus(s1, statusReply).signals[|s.signals|] == ConnectionChanged(true);
    }
  }

  /** Disconnecting when not connected succeeds and touches nothing. */
  lemma DisconnectWhenDisconnected(cfg: Config, s: Sensor, laserReply: Option<string>, closedOk: bool)
    requires !IsConnected(s)
    ensures Disconnect(cfg, s, laserReply, closedOk) == (s, true)
  {
  }

  /** A disconnect stops a running measurement (sending the stop command), switches a lit laser
      off when so configured, and then leaves the connection, measurement and laser flags all
      false, whatever the handler's close returned; only a successful close closes the link. */
  lemma DisconnectClears(cfg: Config, s: Sensor, laserReply: Option<string>, closedOk: bool)
    requires IsConnected(s) && Inv(cfg, s)
    ensures var (t, ok) := Disconnect(cfg, s, laserReply, closedOk);
      && ok == closedOk
      && !t.connected && !t.measuring && !t.laserOn && t.mode == None
      && t.linkOpen == !closedOk
      && t.sent == s.sent + (if s.measuring then [Send(cfg.stopCommand)] else [])
                          + (if s.laserOn && cfg.autoLaserOff then [Send(Settings.LaserOff)] else [])
      && ConnectionChanged(false) in t.signals[|s.signals|..]
      && (ErrorOccurred(DisconnectionFailed) in t.signals[|s.signals|..] <==> !closedOk)
  {
    var s2 := Shutdown(cfg, s, laserReply);
    ShutdownSteps(cfg, s, laserReply);
    var t := Disconnect(cfg, s, laserReply, closedOk).0;
    var tail := if closedOk then [ConnectionChanged(false)] else [ConnectionChanged(false), ErrorOccurred(DisconnectionFailed)];
    assert t.signals == s2.signals + tail;
    assert t.signals[|s.signals|..] == s2.signals[|s.signals|..] + tail;
  }

  /** What the first half of a disconnect does: the stop command if measuring, then the
      laser-off command if the laser is lit and so configured, with at most a laser signal. */
  lemma ShutdownSteps(cfg: Config, s: Sensor, laserReply: Option<string>)
    requires IsConnected(s) && Inv(cfg, s)
    ensures var s2 := Shutdown(cfg, s, laserReply);
      && IsConnected(s2) && !s2.measuring && s2.mode == None
      && s2.sent == s.sent + (if s.measuring then [Send(cfg.stopCommand)] else [])
                           + (if s.laserOn && cfg.autoLaserOff then [Send(Settings.LaserOff)] else [])
      && |s2.signals| >= |s.signals|
      && ErrorOccurred(DisconnectionFailed) !in s2.signals[|s.signals|..]
  {
    var s1 := if s.measuring then Stop(cfg, s) else s;
    assert s1.signals == s.signals && s1.laserOn == s.laserOn && IsConnected(s1);
    assert s1.sent == s.sent + (if s.measuring then [Send(cfg.stopCommand)] else []);
    var s2 := Shutdown(cfg, s, laserReply);
    assert s2.signals[|s.signals|..] == [] || s2.signals[|s.signals|..] == [LaserStateChanged(false)]
      || s2.signals[|s.signals|..] == [ErrorOccurred(LaserControlFailed(laserReply))];
  }

  // ---------------------------------------------------------------------------------------
  // The laser

  /** The laser command succeeds exactly when connected and the reply holds ",OK!"; only then
      does the laser flag change, to the requested state. */
  lemma LaserFlagOnlyOnOk(s: Sensor, turnOn: bool, reply: Option<string>)
    ensures var (t, ok) := SendLaser(s, turnOn, reply);
      && (ok <==> IsConnected(s) && reply.Some? && ReplyParser.Contains(reply.value, ",OK!"))
      && t.laserOn == (if ok then turnOn else s.laserOn)
      && t.sent == s.sent + (if IsConnected(s) then [Send(if turnOn then "O" else "C")] else [])
  {
  }

  /** Toggling asks for the opposite of the current laser state; without a connection it only
      reports the current state. */
  lemma ToggleAsksOpposite(s: Sensor, reply: Option<string>)
    ensures IsConnected(s) ==> Toggle(s, reply) == SendLaser(s, !s.laserOn, reply).0
    ensures !IsConnected(s) ==> Toggle(s, reply).laserOn == s.laserOn
                                && Toggle(s, reply).sent == s.sent
                                && Toggle(s, reply).signals[|s.signals| + 1] == LaserStateChanged(s.laserOn)
  {
  }

  // ---------------------------------------------------------------------------------------
  // Measurements

  /** A single measurement is refused, writing nothing, while disconnected or while continuous
      measurement runs; otherwise it sends AUTO_MEASURE and succeeds exactly when the reply
      yields a distance. */
  lemma SingleMeasurementRules(s: Sensor, reply: Option<string>)
    ensures var (t, ok) := SingleMeasurement(s, reply);
      && (!IsConnected(s) || s.measuring ==> !ok && t.sent == s.sent && t.signals == s.signals + [t.signals[|s.signals|]])
      && (IsConnected(s) && !s.measuring ==>
            t.sent == s.sent + [Send("D")]
            && (ok <==> reply.Some? && ReplyParser.ParseDistance(reply).Measured?))
      && t.measuring == s.measuring && t.laserOn == s.laserOn && t.errors == s.errors
  {
  }

  /** Processing a reply succeeds exactly for a reply carrying a distance, which it emits. */
  lemma ProcessMeasurementRules(s: Sensor, reply: Option<string>)
    ensures var (t, ok) := ProcessMeasurement(s, reply);
      && (ok <==> reply.Some? && ReplyParser.ParseDistance(reply).Measured?)
      && (ok ==> t.signals == s.signals + [MeasurementTaken(ReplyParser.ParseDistance(reply).distance,
                                                               ReplyParser.ParseDistance(reply).quality)])
      && (reply.None? ==> t == s)
      && t.(signals := s.signals) == s
  {
  }

  // ---------------------------------------------------------------------------------------
  // Continuous measurement

  /** Mode names are case-insensitive; 'fast' and 'slow' select their commands and 'auto' runs
      as 'slow'; every other name is refused. */
  lemma ModeNames(mode: string)
    ensures ModeCommand(Lower(mode)).Some? <==> Lower(mode) in {"fast", "slow", "auto"}
    ensures Lower(mode) == "fast" ==> ModeCommand(Lower(mode)) == Some((Fast, "F"))
    ensures Lower(mode) in {"slow", "auto"} ==> ModeCommand(Lower(mode)) == Some((Slow, "M"))
  {
  }

  /** Mode names in any case start the same measurement as in lower case. */
  lemma MixedCaseModes(s: Sensor)
    ensures StartContinuous(s, "FAST") == StartContinuous(s, "Fast") == StartContinuous(s, "fast")
    ensures StartContinuous(s, "SLOW") == StartContinuous(s, "slow")
    ensures StartContinuous(s, "Auto") == StartContinuous(s, "slow")
  {
    assert Lower("FAST") == "fast" && Lower("Fast") == "fast" && Lower("fast") == "fast";
    assert Lower("SLOW") == "slow" && Lower("slow") == "slow" && Lower("Auto") == "auto";
  }

  /** 'auto' is an alias of 'slow'. */
  lemma AutoIsSlow(s: Sensor, mode: string)
    requires Lower(mode) == "auto"
    ensures StartContinuous(s, mode) == StartContinuous(s, "slow")
  {
    assert Lower("slow") == "slow";
  }

  /** Starting is refused while disconnected (writing nothing), is a successful no-op while
      already measuring, and is refused for an unknown mode with the state unchanged. */
  lemma StartGuards(s: Sensor, mode: string)
    ensures !IsConnected(s) ==> var (t, ok) := StartContinuous(s, mode);
      !ok && t.(signals := s.signals) == s
    ensures IsConnected(s) && s.measuring ==> StartContinuous(s, mode) == (s, true)
    ensures IsConnected(s) && !s.measuring && ModeCommand(Lower(mode)).None? ==> var (t, ok) := StartContinuous(s, mode);
      !ok && t.(signals := s.signals) == s && t.signals == s.signals + [ErrorOccurred(UnsupportedMode(Lower(mode)))]
  {
  }

  /** A fresh start sends the mode's command, records the mode actually run and resets the error
      counter. */
  lemma StartFresh(s: Sensor, mode: string, m: Mode, command: string)
    requires IsConnected(s) && !s.measuring && ModeCommand(Lower(mode)) == Some((m, command))
    ensures var (t, ok) := StartContinuous(s, mode);
      ok && t.measuring && t.mode == Some(m) && t.errors == 0 && t.sent == s.sent + [Send(command)]
      && t.signals == s.signals && t.laserOn == s.laserOn && IsConnected(t)
  {
  }

  /** Stopping is idempotent, and a stop while not measuring changes nothing. */
  lemma StopIdempotent(cfg: Config, s: Sensor)
    ensures !s.measuring ==> Stop(cfg, s) == s
    ensures Stop(cfg, Stop(cfg, s)) == Stop(cfg, s)
    ensures !Stop(cfg, s).measuring && Stop(cfg, s).mode.None? == (s.measuring || s.mode.None?)
  {
  }

  /** On a tick while measuring, a timeout leaves the counter alone, a reply without a
      distance increments it and stops the run at the threshold, and a distance resets it. */
  lemma TickCounter(cfg: Config, s: Sensor, reply: Option<string>)
    requires s.measuring && IsConnected(s)
    ensures var t := ReadContinuous(cfg, s, reply);
      && (reply.None? ==> t.errors == s.errors && t.measuring && t.sent == s.sent + [Read] && t.signals == s.signals)
      && (Failing(reply) ==> t.errors == s.errors + 1 && (t.measuring <==> s.errors + 1 < cfg.maxErrors))
      && (!Failing(reply) && reply.Some? ==> t.errors == 0 && t.measuring)
      && IsConnected(t) && t.laserOn == s.laserOn
  {
  }

  /** A run of failing replies keeps continuous measurement going while the counter stays below
      the threshold, and counts every one of them. */
  lemma {:induction false} FailingRun(cfg: Config, s: Sensor, replies: seq<Option<string>>)
    requires s.measuring && IsConnected(s) && s.errors + |replies| < cfg.maxErrors
    requires forall i :: 0 <= i < |replies| ==> Failing(replies[i])
    ensures Ticks(cfg, s, replies).measuring && IsConnected(Ticks(cfg, s, replies))
    ensures Ticks(cfg, s, replies).errors == s.errors + |replies|
    decreases |replies|
  {
    if replies != [] {
      TickCounter(cfg, s, replies[0]);
      FailingRun(cfg, ReadContinuous(cfg, s, replies[0]), replies[1..]);
    }
  }

  /** From a fresh start, exactly `maxErrors` failing replies in a row stop continuous
      measurement: one fewer does not. */
  lemma FailuresStopAtThreshold(cfg: Config, s: Sensor, replies: seq<Option<string>>)
    requires s.measuring && IsConnected(s) && s.errors == 0
    requires 1 <= cfg.maxErrors == |replies|
    requires forall i :: 0 <= i < |replies| ==> Failing(replies[i])
    ensures Ticks(cfg, s, replies[..|replies| - 1]).measuring
    ensures !Ticks(cfg, s, replies).measuring && Ticks(cfg, s, replies).mode.None?
  {
    var front := replies[..|replies| - 1];
    FailingRun(cfg, s, front);
    TicksAppend(cfg, s, front, replies[|replies| - 1]);
    assert front + [replies[|replies| - 1]] == replies;
    TickCounter(cfg, Ticks(cfg, s, front), replies[|replies| - 1]);
  }

  /** One more reply is one more tick. */
  lemma {:induction false} TicksAppend(cfg: Config, s: Sensor, replies: seq<Option<string>>, last: Option<string>)
    ensures Ticks(cfg, s, replies + [last]) == ReadContinuous(cfg, Ticks(cfg, s, replies), last)
    decreases |replies|
  {
    if replies == [] {
      assert [] + [last] == [last];
    } else {
      assert (replies + [last])[1..] == replies[1..] + [last];
      TicksAppend(cfg, ReadContinuous(cfg, s, replies[0]), replies[1..], last);
    }
  }

  /** Timeouts alone never stop continuous measurement. */
  lemma {:induction false} TimeoutsNeverStop(cfg: Config, s: Sensor, replies: seq<Option<string>>)
    requires s.measuring && IsConnected(s)
    requires forall i :: 0 <= i < |replies| ==> replies[i].None?
    ensures Ticks(cfg, s, replies).measuring && Ticks(cfg, s, replies).errors == s.errors
    ensures Ticks(cfg, s, replies).sent == s.sent + seq(|replies|, i => Read)
    decreases |replies|
  {
    if replies != [] {
      var t := ReadContinuous(cfg, s, replies[0]);
      TickCounter(cfg, s, replies[0]);
      TimeoutsNeverStop(cfg, t, replies[1..]);
      assert s.sent + seq(|replies|, i => Read) == t.sent + seq(|replies| - 1, i => Read);
    }
  }

  // ---------------------------------------------------------------------------------------
  // The invariant

  lemma InitialInv(cfg: Config)
    ensures Inv(cfg, Initial) && !IsConnected(Initial)
  {
  }

  lemma ConnectKeepsInv(cfg: Config, s: Sensor, accepted: bool, statusReply: Option<string>)
    requires Inv(cfg, s)
    ensures Inv(cfg, Connect(s, accepted, statusReply).0)
  {
  }

  lemma DisconnectKeepsInv(cfg: Config, s: Sensor, laserReply: Option<string>, closedOk: bool)
    requires Inv(cfg, s)
    ensures Inv(cfg, Disconnect(cfg, s, laserReply, closedOk).0)
  {
    if IsConnected(s) {
      DisconnectClears(cfg, s, laserReply, closedOk);
    }
  }

  lemma LaserKeepsInv(cfg: Config, s: Sensor, reply: Option<string>)
    requires Inv(cfg, s)
    ensures Inv(cfg, Toggle(s, reply))
  {
  }

  lemma MeasurementKeepsInv(cfg: Config, s: Sensor, reply: Option<string>, mode: string)
    requires Inv(cfg, s)
    ensures Inv(cfg, SingleMeasurement(s, reply).0)
    ensures Inv(cfg, StartContinuous(s, mode).0)
    ensures Inv(cfg, Stop(cfg, s))
  {
  }

  lemma TickKeepsInv(cfg: Config, s: Sensor, reply: Option<string>)
    requires Inv(cfg, s)
    ensures Inv(cfg, ReadContinuous(cfg, s, reply))
  {
  }

  // ---------------------------------------------------------------------------------------
  // The controller object

  class SensorController {
    const cfg: Config
    var linkOpen: bool
    var connected: bool
    var measuring: bool
    var laserOn: bool
    var mode: Option<Mode>
    var consecutiveErrors: nat
    var sent: seq<Wire>
    var signals: seq<Signal>

    function State(): Sensor
      reads this
    {
      Sensor(linkOpen, connected, measuring, laserOn, mode, consecutiveErrors, sent, signals)
    }

    predicate Valid()
      reads this
    {
      Inv(cfg, State())
    }

    constructor (cfg: Config)
      ensures this.cfg == cfg && State() == Initial && Valid()
    {
      this.cfg := cfg;
      linkOpen, connected, measuring, laserOn := false, false, false, false;
      mode := None;
      consecutiveErrors := 0;
      sent, signals := [], [];
    }

    method EmitSignal(signal: Signal)
      modifies this
      ensures State() == Emit(old(State()), signal)
    {
      signals := signals + [signal];
    }

    method WriteWire(w: Wire)
      modifies this
      ensures State() == Write(old(State()), w)
    {
      sent := sent + [w];
    }

    method GetSensorStatus(reply: Option<string>)
      modifies this
      ensures State() == ReadStatus(old(State()), reply)
    {
      if !(connected && linkOpen) {
        return;
      }
      WriteWire(Send(Settings.ReadStatus));
      if reply.None? || reply.value == "" {
        EmitSignal(ErrorOccurred(StatusReadFailed));
      } else {
        match ReplyParser.ParseStatus(reply)
        case StatusError(message) => EmitSignal(ErrorOccurred(StatusRejected(message)));
        case Status(t, v) => EmitSignal(StatusUpdated(t, v));
      }
    }

    method ConnectSensor(accepted: bool, statusReply: Option<string>) returns (ok: bool)
      requires Valid()
      modifies this
      ensures (State(), ok) == Connect(old(State()), accepted, statusReply) && Valid()
    {
      ConnectKeepsInv(cfg, State(), accepted, statusReply);
      if connected && linkOpen {
        return true;
      }
      linkOpen := accepted;
      if accepted {
        connected := true;
        EmitSignal(ConnectionChanged(true));
        GetSensorStatus(statusReply);
        laserOn := false;
        EmitSignal(LaserStateChanged(false));
        ok := true;
      } else {
        connected := false;
        EmitSignal(ErrorOccurred(ConnectionFailed));
        EmitSignal(ConnectionChanged(false));
        ok := false;
      }
    }

    method SendLaserCommand(turnOn: bool, reply: Option<string>) returns (ok: bool)
      modifies this
      ensures (State(), ok) == SendLaser(old(State()), turnOn, reply)
    {
      if !(connected && linkOpen) {
        return false;
      }
      WriteWire(Send(if turnOn then Settings.LaserOn else Settings.LaserOff));
      if reply.Some? && ReplyParser.Contains(reply.value, ",OK!") {
        laserOn := turnOn;
        EmitSignal(LaserStateChanged(turnOn));
        ok := true;
      } else {
        EmitSignal(ErrorOccurred(LaserControlFailed(reply)));
        ok := false;
      }
    }

    method ToggleLaser(reply: Option<string>)
      requires Valid()
      modifies this
      ensures State() == Toggle(old(State()), reply) && Valid()
    {
      LaserKeepsInv(cfg, State(), reply);
      if !(connected && linkOpen) {
        EmitSignal(ErrorOccurred(NotConnected(ToggleAction)));
        EmitSignal(LaserStateChanged(laserOn));
        return;
      }
      var _ := SendLaserCommand(!laserOn, reply);
    }

    method StopContinuousMeasurement() returns (ok: bool)
      modifies this
      ensures State() == Stop(cfg, old(State())) && ok
      ensures old(Valid()) ==> Valid()
    {
      if Valid() {
        MeasurementKeepsInv(cfg, State(), None, "");
      }
      ok := true;
      if !measuring {
        return;
      }
      measuring := false;
      mode := None;
      if connected && linkOpen {
        WriteWire(Send(cfg.stopCommand));
      }
    }

    method DisconnectSensor(laserReply: Option<string>, closedOk: bool) returns (ok: bool)
      requires Valid()
      modifies this
      ensures (State(), ok) == Disconnect(cfg, old(State()), laserReply, closedOk) && Valid()
    {
      DisconnectKeepsInv(cfg, State(), laserReply, closedOk);
      if !(connected && linkOpen) {
        return true;
      }
      if measuring {
        var _ := StopContinuousMeasurement();
      }
      if laserOn && cfg.autoLaserOff {
        var _ := SendLaserCommand(false, laserReply);
      }
      var wasConnected := connected;
      linkOpen := linkOpen && !closedOk;
      connected, measuring, laserOn := false, false, false;
      if wasConnected {
        EmitSignal(ConnectionChanged(false));
      }
      if closedOk {
        ok := true;
      } else {
        EmitSignal(ErrorOccurred(DisconnectionFailed));
        ok := false;
      }
    }

    method ProcessMeasurementResponse(reply: Option<string>) returns (ok: bool)
      modifies this
      ensures (State(), ok) == ProcessMeasurement(old(State()), reply)
    {
      if reply.None? {
        return false;
      }
      match ReplyParser.ParseDistance(reply)
      case DistanceError(e) =>
        EmitSignal(ErrorOccurred(DistanceRejected(e)));
        ok := false;
      case Measured(d, q) =>
        EmitSignal(MeasurementTaken(d, q));
        ok := true;
    }

    method GetSingleMeasurement(reply: Option<string>) returns (ok: bool)
      requires Valid()
      modifies this
      ensures (State(), ok) == SingleMeasurement(old(State()), reply) && Valid()
    {
      MeasurementKeepsInv(cfg, State(), reply, "");
      if !(connected && linkOpen) {
        EmitSignal(ErrorOccurred(NotConnected(MeasureAction)));
        return false;
      }
      if measuring {
        EmitSignal(ErrorOccurred(StopContinuousFirst));
        return false;
      }
      WriteWire(Send(Settings.AutoMeasure));
      ok := ProcessMeasurementResponse(reply);
    }

    method StartContinuousMeasurement(name: string) returns (ok: bool)
      requires Valid()
      modifies this
      ensures (State(), ok) == StartContinuous(old(State()), name) && Valid()
    {
      MeasurementKeepsInv(cfg, State(), None, name);
      if !(connected && linkOpen) {
        EmitSignal(ErrorOccurred(NotConnected(StartAction)));
        return false;
      }
      if measuring {
        return true;
      }
      var m := Lower(name);
      var command: string;
      if m == "fast" {
        command := Settings.FastMeasure;
        mode := Some(Fast);
      } else if m == "slow" || m == "auto" {
        command := Settings.SlowMeasure;
        mode := Some(Slow);
      } else {
        EmitSignal(ErrorOccurred(UnsupportedMode(m)));
        return false;
      }
      WriteWire(Send(command));
      measuring := true;
      consecutiveErrors := 0;
      ok := true;
    }

    method ReadContinuousData(reply: Option<string>)
      requires Valid()
      modifies this
      ensures State() == ReadContinuous(cfg, old(State()), reply) && Valid()
    {
      TickKeepsInv(cfg, State(), reply);
      if !measuring || !(connected && linkOpen) {
        var _ := StopContinuousMeasurement();
        return;
      }
      WriteWire(Read);
      var success := ProcessMeasurementResponse(reply);
      if !success && reply.Some? {
        consecutiveErrors := consecutiveErrors + 1;
        if consecutiveErrors >= cfg.maxErrors {
          EmitSignal(ErrorOccurred(TooManyErrors(cfg.maxErrors)));
          var _ := StopContinuousMeasurement();
        }
      } else if success {
        consecutiveErrors := 0;
      }
    }
  }
}
