# LiDAR and acousto-optic deflector control core, in Dafny

This project models the control core of a desktop application. The application drives two
instruments. The first is a LiDAR range finder on a serial line, which takes single-character
ASCII commands and answers with ASCII replies. The second is an acousto-optic deflector (AOD):
the application sends it binary frames, each checked by a CRC-8, to set a frequency and so a
beam angle.

The model covers these parts:

- **Settings**: the serial settings, the command letters, the fault codes and their
  messages, and the statistics settings.
- **Deflector**: the AOD driver.
  - Frames are built as preamble, length, type, payload and CRC-8.
  - Frequency and amplitude fields are 16-bit little-endian.
  - An out-of-range field makes the driver stop the amplifiers and close the port.
  - The class `Port` keeps the log of frames written and whether the port is closed.
- **ReplyParser**: classifies the LiDAR's replies as `parse_distance_response` and
  `parse_status_response` do.
  - It checks the reply for fault tokens `Er01`…`Er15` in table order.
  - It refuses status-shaped replies.
  - It then searches for `: D.Dm,Q`, and failing that for `D.Dm,Q`. The search is leftmost, as
    `re.search` is.
  - Status replies use the same scanning.
- **SensorControl**: the acquisition state machine of the LiDAR controller.
  - It covers connecting and disconnecting, the laser, single measurements and the statuses.
  - Continuous measurement covers mode names, the polling tick and the consecutive-error
    threshold.
  - The whole state is a value `Sensor` and each operation is a function on it. The class
    `SensorController` updates the same state field by field, and each of its methods is proved
    to end in the state its function gives.
- **AodHandling**: the deflector handler.
  - It covers connecting, start, set_angle and set_amplitude.
  - Scans run on a worker thread. The point worker sets one angle and returns. The line and
    square workers go round their plans, checking a stop flag before each setpoint. They return
    only once they find the flag raised, or they raise: without a plan, or in their first pause
    when it is negative. The point, line and square workers are modelled, and a worker can be
    run on in stages.
  - `numpy.linspace` is modelled exactly, and so are the square's points and the pauses.
  - `stop_scanning` is modelled as written: it acts only while the worker thread is alive.
    Disconnecting and the controller's stop use it. The intended stop, which ends any scan
    reported as running, is modelled beside it (see "## Findings").
  - The class `AodHandler` works in place on the same state.
- **ScanPatterns**: the registry of built-in and user scan patterns.
- **AodControl**: the controller between the user interface and the handler, with the signals
  it emits.
- **Measurements**: the in-memory measurement log and its "last n entries" query.
- **Statistics**: the statistics module.
  - Basic statistics; outlier detection by the two-standard-deviation rule; trailing moving
    averages; rates of change.

Floating-point values are modelled as exact reals. Every reply, every result of opening a port
and every calibration lookup is a parameter, so the model holds for whatever the hardware answers.

## Model

| member | source | states |
|---|---|---|
| Settings.CommandTable | src/config/settings.py:13-22 | the command table has exactly its eight names; each maps to its single letter and no two share one; there is no STOP_MEASURE entry |
| Settings.ErrorCodeTable | src/config/settings.py:25-41 | there are fifteen fault codes, the n-th token is `Er` followed by n in two digits, and Er05 means "Target out of measurement range" |
| Settings.ErrorTokensDistinct | src/config/settings.py:25-41 | no two fault tokens are equal |
| Deflector.Crc8CheckValue | AOD/UTCDeflectorDemo.py:36-37 | the CRC-8 with polynomial 0x31 and initial value 0xFF maps "123456789" to 0xF7 |
| Deflector.Crc8FromAppend | AOD/UTCDeflectorDemo.py:36-37 | the CRC of a concatenation continues from the CRC register after the first part |
| Deflector.Crc8FromInjective | AOD/UTCDeflectorDemo.py:36-37 | over the same bytes, two different starting registers end in different CRCs |
| Deflector.SingleByteChangesCrc | AOD/UTCDeflectorDemo.py:36-37 | changing any single byte of the data changes its CRC |
| Deflector.MakeCommand | AOD/UTCDeflectorDemo.py:27-30 | a frame is four bytes longer than its payload: preamble 0xAA, payload length, type, the payload, then the CRC of everything before it |
| Deflector.MakeCommandRoundTrip | AOD/UTCDeflectorDemo.py:27-30 | every built frame is well formed, and its type and payload read back as given |
| Deflector.WellFormedIsMadeCommand | AOD/UTCDeflectorDemo.py:27-30 | every well-formed frame is the frame built from its own type and payload |
| Deflector.SingleByteCorruptionDetected | AOD/UTCDeflectorDemo.py:27-30 | altering any one byte of a well-formed frame makes it ill-formed |
| Deflector.TruncToInt | AOD/UTCDeflectorDemo.py:47 | `int()` truncates toward zero: the result is within one of the value on the zero side |
| Deflector.Le16RoundTrip | AOD/UTCDeflectorDemo.py:47 | reading back the two little-endian bytes gives the 16-bit value |
| Deflector.Le16Injective | AOD/UTCDeflectorDemo.py:47 | different 16-bit values have different byte pairs |
| Deflector.StartStopBytes | AOD/UTCDeflectorDemo.py:39-43 | the start frames are AA 01 A2 01 1C and AA 01 A3 01 E8; the stop frames are AA 01 A2 00 2D and AA 01 A3 00 D9 |
| Deflector.StartStopFramesWellFormed | AOD/UTCDeflectorDemo.py:67-71 | every start and stop frame is well formed |
| Deflector.SetFrameCarriesField | AOD/UTCDeflectorDemo.py:45-49 | a frequency or amplitude frame is well formed, has its type, and carries the field's low and high bytes |
| Deflector.AfterSendField | AOD/UTCDeflectorDemo.py:45-52 | sending a field succeeds exactly when the port is open; the frames only grow; the port is closed afterwards exactly when the field did not fit 16 bits |
| Deflector.AfterSetAngle | AOD/UTCDeflectorDemo.py:54-56 | setting an angle succeeds exactly when calibration gives a frequency and the port is open; otherwise the port is unchanged |
| Deflector.AfterSetAmpl | AOD/UTCDeflectorDemo.py:58-65 | setting the amplitude succeeds exactly when the port is open, and the frames only grow |
| Deflector.Port.constructor | AOD/UTCDeflectorDemo.py:23-25 | a new port is open and has written nothing |
| Deflector.Port.Start | AOD/UTCDeflectorDemo.py:39-43 | an open port writes the preamplifier-on and amplifier-on frames |
| Deflector.Port.Stop | AOD/UTCDeflectorDemo.py:67-71 | an open port writes the two amplifier-off frames |
| Deflector.Port.Close | AOD/UTCDeflectorDemo.py:73-74 | the port is closed and the frames are kept |
| Deflector.Port.SetFreq | AOD/UTCDeflectorDemo.py:45-52 | writes the frame of `int(freq * 100)`; a value that does not fit 16 bits writes the stop frames and closes the port instead |
| Deflector.Port.SetAmpl | AOD/UTCDeflectorDemo.py:58-65 | writes the frame of `int(ampl * 10)`, with the same recovery as the frequency |
| Deflector.Port.SetAngle | AOD/UTCDeflectorDemo.py:54-56 | looks up the angle's frequency and sets it; writes nothing without a frequency |
| ReplyParser.FirstFault | src/utils/serial_handler.py:90-92 | gives the lowest fault code whose token occurs in the reply, or none exactly when no token occurs |
| ReplyParser.NoTokenWithoutE | src/utils/serial_handler.py:90-92 | a reply without an 'E' carries no fault token |
| ReplyParser.FirstFaultIs | src/utils/serial_handler.py:90-92 | the first fault found is the first token, in table order, that occurs |
| ReplyParser.ErrorTokenWins | src/utils/serial_handler.py:89-92 | a reply that holds a fault token is that fault, whatever else it holds |
| ReplyParser.EmptyReplyIsNoResponse | src/utils/serial_handler.py:86-87 | a missing or empty reply is "No response from sensor" |
| ReplyParser.StatusShapedIsRefused | src/utils/serial_handler.py:95-97 | a fault-free reply holding both `'C` and `V` is refused as a status reply |
| ReplyParser.PatternsDecide | src/utils/serial_handler.py:99-115 | any other non-empty fault-free reply is decided by the distance patterns alone |
| ReplyParser.Find | src/utils/serial_handler.py:102 | gives the leftmost position where the pattern matches, or none exactly when it matches nowhere |
| ReplyParser.Search | src/utils/serial_handler.py:109 | `re.search` gives the groups of the leftmost match, and nothing exactly when no position matches |
| ReplyParser.ColonMatchRead | src/utils/serial_handler.py:102-106 | a `: D.Dm,Q` match gives its number and quality |
| ReplyParser.BareMatchRead | src/utils/serial_handler.py:109-113 | without a colon match, the leftmost `D.Dm,Q` match gives the reading |
| ReplyParser.NoShapeUnparseable | src/utils/serial_handler.py:115 | a reply with no `D.Dm,Q` shape anywhere gives "Could not extract distance" |
| ReplyParser.ShapeIsMatch | src/utils/serial_handler.py:109 | digits, a dot, digits, `m,` and digits form a match of the bare pattern, with those groups |
| ReplyParser.MatchIsShape | src/utils/serial_handler.py:109 | every match of the bare pattern has that shape |
| ReplyParser.ColonMatchIsBareMatch | src/utils/serial_handler.py:102-113 | a colon match at p is the bare match at p + 2, with the same groups |
| ReplyParser.MatchGroups | src/utils/serial_handler.py:102-113 | a distance match has digits on both sides of the dot and a non-empty quality |
| ReplyParser.DigitRun | src/utils/serial_handler.py:102 | the greedy `\d+` run is all digits, and is followed by the end or by a non-digit |
| ReplyParser.ReadDistanceShapes | src/utils/serial_handler.py:99-115 | a pattern reading has a well-formed decimal; any error is "no distance" |
| ReplyParser.DistanceReplyShapes | src/utils/serial_handler.py:84-117 | every reading is a well-formed decimal, and every fault is a table code |
| ReplyParser.WholeReplyDistance | src/utils/serial_handler.py:109-113 | a reply that is just `D.Dm,Q` reads as that distance and quality |
| ReplyParser.TrailingColonDistance | src/utils/serial_handler.py:102-106 | text up to the first `: ` then `D.Dm,Q` reads as that distance and quality |
| ReplyParser.ParseDistanceExample | src/utils/serial_handler.py:109-113 | "35.2m,180" reads as 35.2 m with quality 180 |
| ReplyParser.ParseDistanceFaultExample | src/utils/serial_handler.py:90-92 | "Er05" is fault 5, "Target out of measurement range" |
| ReplyParser.NoDotNoDistance | src/utils/serial_handler.py:115 | a non-empty reply with no 'E', no 'V' and no dot has no distance |
| ReplyParser.ParseDistanceGarbageExample | src/utils/serial_handler.py:115 | "garbage" has no distance |
| ReplyParser.StatusReplyCases | src/utils/serial_handler.py:124-143 | a status reply fails exactly when no temperature matches anywhere; it prefers the `S: ` temperature; its voltage is the leftmost match, or 3.0 exactly when none |
| ReplyParser.EmptyStatusReply | src/utils/serial_handler.py:121-122 | a missing or empty status reply is "No status response" |
| ReplyParser.StatusFromMatches | src/utils/serial_handler.py:126-141 | the prefixed temperature match and the leftmost voltage match give the status |
| ReplyParser.ParseStatusExample | src/utils/serial_handler.py:126-143 | "S: 23.4'C  3.10V" reads as 23.4 °C and 3.10 V |
| ReplyParser.ExampleValues | src/utils/serial_handler.py:104-105 | `float` and `int` of the matched digit strings give 35.2, 23.4, 3.1 and 180 |
| SensorControl.LowerFolds | src/controllers/sensor_controller.py:222 | `lower()` is idempotent, leaves no capital A to Z, lowers each capital and keeps every other character |
| SensorControl.MixedCaseModes | src/controllers/sensor_controller.py:222-236 | "FAST", "Fast" and "fast" start the same measurement, and so do "SLOW" and "slow"; "Auto" starts the slow one |
| SensorControl.ConnectWhenConnected | src/controllers/sensor_controller.py:74-77 | connecting while connected succeeds and changes nothing |
| SensorControl.ConnectOutcome | src/controllers/sensor_controller.py:78-97 | an accepted connect connects, asks for the status and reports the laser off; a refused one reports the failure and writes nothing |
| SensorControl.DisconnectWhenDisconnected | src/controllers/sensor_controller.py:99-102 | disconnecting while disconnected succeeds and changes nothing |
| SensorControl.DisconnectClears | src/controllers/sensor_controller.py:103-132 | stops a running measurement, switches a lit laser off when so configured, and clears every flag; it succeeds and closes the link exactly when the close does |
| SensorControl.ShutdownSteps | src/controllers/sensor_controller.py:106-121 | the first half of a disconnect sends the stop command if measuring, then the laser-off command if lit and so configured |
| SensorControl.LaserFlagOnlyOnOk | src/controllers/sensor_controller.py:134-153 | the laser command succeeds exactly when connected and the reply holds ",OK!"; only then does the laser flag take the requested value |
| SensorControl.ToggleAsksOpposite | src/controllers/sensor_controller.py:155-164 | toggling asks for the opposite state; without a connection it only reports the current state |
| SensorControl.SingleMeasurementRules | src/controllers/sensor_controller.py:190-204 | refused without writing while disconnected or while measuring continuously; otherwise sends D and succeeds exactly when the reply has a distance |
| SensorControl.ProcessMeasurementRules | src/controllers/sensor_controller.py:280-298 | succeeds exactly for a reply with a distance, emits that reading, and changes nothing but the signals |
| SensorControl.ModeNames | src/controllers/sensor_controller.py:222-239 | mode names ignore case; fast selects F; slow and auto select M; every other name is refused |
| SensorControl.AutoIsSlow | src/controllers/sensor_controller.py:233-239 | starting in auto is starting in slow |
| SensorControl.StartGuards | src/controllers/sensor_controller.py:206-231 | refused while disconnected; a successful no-op while already measuring; an unknown mode is refused with an error and nothing else changes |
| SensorControl.StartFresh | src/controllers/sensor_controller.py:241-255 | a fresh start sends the mode's command, records the mode and resets the error counter |
| SensorControl.StopIdempotent | src/controllers/sensor_controller.py:300-323 | stopping when not measuring changes nothing, and stopping twice is stopping once |
| SensorControl.TickCounter | src/controllers/sensor_controller.py:257-278 | on a tick, a timeout leaves the counter; a reply without a distance increments it and stops at the threshold; a distance resets it |
| SensorControl.FailingRun | src/controllers/sensor_controller.py:268-276 | below the threshold, failing replies keep the run going and are all counted |
| SensorControl.FailuresStopAtThreshold | src/controllers/sensor_controller.py:268-276 | exactly the threshold-th consecutive failure stops continuous measurement |
| SensorControl.TicksAppend | src/controllers/sensor_controller.py:257-278 | a run of ticks is one tick after the run before it |
| SensorControl.TimeoutsNeverStop | src/controllers/sensor_controller.py:263-266 | timeouts alone never stop the run nor count as errors; each tick issues one read |
| SensorControl.InitialInv | src/controllers/sensor_controller.py:44-58 | the initial controller is disconnected and meets the invariant: a mode is recorded exactly while measuring, measuring and a lit laser need the connection, and while measuring the error counter is below the threshold |
| SensorControl.ConnectKeepsInv | src/controllers/sensor_controller.py:74-97 | connecting keeps that invariant |
| SensorControl.DisconnectKeepsInv | src/controllers/sensor_controller.py:99-132 | disconnecting keeps the invariant |
| SensorControl.LaserKeepsInv | src/controllers/sensor_controller.py:155-164 | toggling the laser keeps the invariant |
| SensorControl.MeasurementKeepsInv | src/controllers/sensor_controller.py:190-255 | measuring, starting and stopping keep the invariant |
| SensorControl.TickKeepsInv | src/controllers/sensor_controller.py:257-278 | a polling tick keeps the invariant |
| SensorControl.SensorController.constructor | src/controllers/sensor_controller.py:44-58 | the controller starts disconnected with every flag false |
| SensorControl.SensorController.GetSensorStatus | src/controllers/sensor_controller.py:166-188 | asks for the status and emits it, or the error |
| SensorControl.SensorController.ConnectSensor | src/controllers/sensor_controller.py:74-97 | ends in the state `Connect` gives |
| SensorControl.SensorController.SendLaserCommand | src/controllers/sensor_controller.py:134-153 | ends in the state `SendLaser` gives |
| SensorControl.SensorController.ToggleLaser | src/controllers/sensor_controller.py:155-164 | ends in the state `Toggle` gives |
| SensorControl.SensorController.StopContinuousMeasurement | src/controllers/sensor_controller.py:300-323 | ends in the state `Stop` gives and returns true |
| SensorControl.SensorController.DisconnectSensor | src/controllers/sensor_controller.py:99-132 | ends in the state `Disconnect` gives |
| SensorControl.SensorController.ProcessMeasurementResponse | src/controllers/sensor_controller.py:280-298 | ends in the state `ProcessMeasurement` gives |
| SensorControl.SensorController.GetSingleMeasurement | src/controllers/sensor_controller.py:190-204 | ends in the state `SingleMeasurement` gives |
| SensorControl.SensorController.StartContinuousMeasurement | src/controllers/sensor_controller.py:206-255 | ends in the state `StartContinuous` gives |
| SensorControl.SensorController.ReadContinuousData | src/controllers/sensor_controller.py:257-278 | ends in the state `ReadContinuous` gives |
| AodHandling.ReversedInvolution | src/utils/aod_handler.py:161 | reversing twice gives back the values |
| AodHandling.ReversedPermutation | src/utils/aod_handler.py:161 | reversing keeps the same values with the same multiplicities |
| AodHandling.Linspace | src/utils/aod_handler.py:151 | `numpy.linspace` gives exactly the number of values asked for |
| AodHandling.LinspaceEnds | src/utils/aod_handler.py:151 | the first value is the start, and with two or more values the last is the end |
| AodHandling.LinspaceSpacing | src/utils/aod_handler.py:151 | consecutive values are (end - start) / (n - 1) apart |
| AodHandling.LinspaceWithin | src/utils/aod_handler.py:151 | every value lies between the two ends |
| AodHandling.LinspaceReversed | src/utils/aod_handler.py:161 | walking the values backwards is the spacing from end to start |
| AodHandling.SquarePoints | src/utils/aod_handler.py:174-177 | the square pattern builds exactly `steps` points |
| AodHandling.SquareIsLinspace | src/utils/aod_handler.py:174-177 | the square's points are the even spacing from -size to size |
| AodHandling.Repeat | src/utils/aod_handler.py:154-165 | a worker going round its cycle issues the number of setpoints asked for |
| AodHandling.IssuedCount | src/utils/aod_handler.py:154-165 | a worker issues at most one setpoint per clear check of the stop flag, and exactly that many with a non-empty cycle and a non-negative pause |
| AodHandling.Issued | src/utils/aod_handler.py:154-165 | a worker that raises before its first setpoint issues none, and no worker issues more than it looked |
| AodHandling.DefaultLine | src/utils/aod_handler.py:146-152 | by default the line goes from -0.5 to 0.5 in 20 steps and back, with a pause of 0.5 s |
| AodHandling.DefaultSquare | src/utils/aod_handler.py:170-179 | by default the square steps across [-0.5, 0.5] in 10 points and back, with a pause of 1 s |
| AodHandling.OneStepSquare | src/utils/aod_handler.py:177 | a square with one step per side divides by zero before its first setpoint |
| AodHandling.LinePassTime | src/utils/aod_handler.py:152 | steps times the pause is the pass length divided by the speed |
| AodHandling.SquarePassTime | src/utils/aod_handler.py:179 | steps times the pause is the side 2·size divided by the speed |
| AodHandling.LineSetpointsWithin | src/utils/aod_handler.py:144-165 | every line setpoint lies between the start and end angles |
| AodHandling.SquareSetpointsWithin | src/utils/aod_handler.py:167-194 | every square setpoint lies within size of the centre |
| AodHandling.RepeatRound | src/utils/aod_handler.py:154-165 | one full round of setpoints is the cycle itself |
| AodHandling.RepeatPeriodic | src/utils/aod_handler.py:154-165 | after one full round the setpoints start the cycle over again |
| AodHandling.LineRound | src/utils/aod_handler.py:154-165 | a line's first round goes from start to end and back, the way back being the spacing from end to start |
| AodHandling.AfterAngles | src/utils/aod_handler.py:77-89 | every angle asked for is recorded, and the connection and scan state are untouched |
| AodHandling.AngleOutcome | src/utils/aod_handler.py:77-89 | set_angle succeeds exactly when connected, the port is open and calibration gives a frequency; only then is the angle the last angle |
| AodHandling.AnglesLast | src/utils/aod_handler.py:77-89 | after a series of angles, the last angle is the one before or one of the angles asked for |
| AodHandling.AnglesFramesGrow | src/utils/aod_handler.py:77-89 | the frames written only grow |
| AodHandling.AnglesIgnoredWhenClosed | src/utils/aod_handler.py:77-89 | once disconnected or closed, angles are recorded and nothing else changes |
| AodHandling.LineWorkerWithin | src/utils/aod_handler.py:144-165 | however long a line worker runs on, the last angle lies between the line's ends, unless no setpoint took |
| AodHandling.IssuedGrows | src/utils/aod_handler.py:154-165 | a worker that runs longer has issued the same setpoints and then more |
| AodHandling.IssuedFrom | src/utils/aod_handler.py:154-165 | the setpoints of a later stretch are exactly those that follow the setpoints already issued |
| AodHandling.IssuedInStages | src/utils/aod_handler.py:154-165 | a worker's setpoints over two stretches in turn are its setpoints over both at once |
| AodHandling.AnglesAppend | src/utils/aod_handler.py:77-89 | setting two series of angles in turn is setting them as one series |
| AodHandling.AnglesIgnoreScan | src/utils/aod_handler.py:77-89 | setting angles neither reads nor changes the scan state |
| AodHandling.Pause | src/utils/aod_handler.py:152 | the pause exists exactly when steps × speed is non-zero, and then the pause times steps × speed is the distance |
| AodHandling.LoopingWorker | src/utils/aod_handler.py:144-194 | a line or square worker with the stop flag clear asks for the next setpoints of its plan after those already issued, and is still alive unless it has raised |
| AodHandling.WorkerInStages | src/utils/aod_handler.py:144-194 | a worker still alive after one stretch, run on for a second, ends where it would after both at once |
| AodHandling.LineScanStoppable | src/utils/aod_handler.py:104-165 | a started line scan with a non-negative pause is still running after any number of setpoints; stop_scanning as written then stops it, its worker returns without another setpoint, and a new scan can start |
| AodHandling.StoppedWorkerIsSilent | src/utils/aod_handler.py:154-157 | a looping worker that finds the stop flag raised issues nothing and ends |
| AodHandling.ConnectThenStart | src/utils/aod_handler.py:36-75 | connecting and starting writes exactly the start frames to the new port |
| AodHandling.DisconnectTwice | src/utils/aod_handler.py:49-62 | disconnecting an open deflector stops it and closes it; a scan stays reported running exactly when its worker had already ended; a second disconnect fails |
| AodHandling.StartScanningOutcome | src/utils/aod_handler.py:104-125 | start_scanning succeeds exactly when idle, connected and the pattern is known; the worker then starts with the stop flag cleared |
| AodHandling.KnownPatterns | src/utils/aod_handler.py:16-34 | point, line and square are among the handler's patterns |
| AodHandling.PointScanStrandsScanning | src/utils/aod_handler.py:127-136 | as written, a finished point scan cannot be stopped and blocks every later scan |
| AodHandling.PointScanStops | src/utils/aod_handler.py:127-136 | stopping on the reported state stops a finished point scan, and a new scan can start |
| AodHandling.StopAsWrittenOutcome | src/utils/aod_handler.py:127-136 | stopping succeeds exactly when a scan is reported running and its worker is alive, and then no scan is running; otherwise nothing changes |
| AodHandling.StopScanningOutcome | src/utils/aod_handler.py:127-136 | the stop as intended: it succeeds exactly when a scan is reported running, and afterwards none is |
| AodHandling.AodHandler.constructor | src/utils/aod_handler.py:16-34 | the handler starts disconnected, with no deflector and no scan |
| AodHandling.AodHandler.Connect | src/utils/aod_handler.py:36-47 | ends in the state `AfterConnect` gives, with a fresh deflector when one is built |
| AodHandling.AodHandler.Start | src/utils/aod_handler.py:64-75 | ends in the state `AfterStart` gives |
| AodHandling.AodHandler.SetAngle | src/utils/aod_handler.py:77-89 | ends in the state `AfterAngle` gives |
| AodHandling.AodHandler.SetAmplitude | src/utils/aod_handler.py:91-102 | ends in the state `AfterAmplitude` gives |
| AodHandling.AodHandler.StartScanning | src/utils/aod_handler.py:104-125 | ends in the state `AfterStartScanning` gives |
| AodHandling.AodHandler.StopScanningAsWritten | src/utils/aod_handler.py:127-136 | ends in the state the code as written gives, which acts only on a live worker |
| AodHandling.AodHandler.StopScanning | src/utils/aod_handler.py:127-136 | the stop as intended: ends in the state `AfterStopScanning` gives |
| AodHandling.AodHandler.Disconnect | src/utils/aod_handler.py:49-62 | ends in the state `AfterDisconnect` gives, after the stop as written |
| AodHandling.AodHandler.Sweep | src/utils/aod_handler.py:154-165 | setting the angles `from` up to `to` of the endless round through the cycle asks for exactly that stretch of the round, in turn |
| AodHandling.AodHandler.Resume | src/utils/aod_handler.py:154-165 | going on round a plan asks for exactly the setpoints that follow those already issued |
| AodHandling.AodHandler.Loop | src/utils/aod_handler.py:144-194 | a looping worker asks for the next setpoints of its plan, counts the checks, and stays alive exactly when it has not raised |
| AodHandling.AodHandler.LineScan | src/utils/aod_handler.py:144-165 | the line worker, run on with the flag clear, ends in the state `AfterWorker` gives, which `LoopingWorker` and `LineScanStoppable` describe |
| AodHandling.AodHandler.SquareScan | src/utils/aod_handler.py:167-194 | the square worker, run on with the flag clear, ends in the state `AfterWorker` gives, which `LoopingWorker` describes |
| AodHandling.AodHandler.RunWorker | src/utils/aod_handler.py:139-194 | the current job's worker runs on to the state `AfterWorker` gives: the point worker ends after one setpoint, the others only once they find the stop flag raised or raise |
| AodHandling.MakeLinePlan | src/utils/aod_handler.py:146-152 | the line worker's set-up gives `LinePlan`, or nothing when `linspace` or the pause raises |
| AodHandling.MakeSquarePlan | src/utils/aod_handler.py:169-179 | the square worker's set-up, building its points one by one, gives `SquarePlan`, or nothing when it raises |
| AodHandling.BuildSquarePoints | src/utils/aod_handler.py:174-177 | one step per side fails with a division by zero; otherwise the loop builds the square's points |
| ScanPatterns.Lookup | src/models/scan_pattern_model.py:59-65 | a pattern is found exactly when it is built in or saved by the user |
| ScanPatterns.BuiltinIds | src/models/scan_pattern_model.py:9-54 | the built-in ids are exactly the pattern names the handler runs |
| ScanPatterns.BuiltinDefaultsAgree | src/models/scan_pattern_model.py:9-54 | the built-in point, line and square defaults give the same scans as the handler's own fallbacks |
| ScanPatterns.BuiltinShadowsCustom | src/models/scan_pattern_model.py:59-65 | a user pattern saved under a built-in id is never returned |
| ScanPatterns.SaveThenLookup | src/models/scan_pattern_model.py:74-78 | after saving, lookup returns the saved pattern unless the id is built in, and other ids are unaffected |
| ScanPatterns.DeleteThenLookup | src/models/scan_pattern_model.py:80-86 | after deleting, lookup of that id finds only a built-in pattern, and other ids are unaffected |
| ScanPatterns.ListingPrecedence | src/models/scan_pattern_model.py:67-72 | where both tables have an id, the listing shows the user pattern while lookup returns the built-in one |
| ScanPatterns.ScanPatternModel.constructor | src/models/scan_pattern_model.py:56-57 | the user patterns are what the file loaded, or empty when loading fails |
| ScanPatterns.ScanPatternModel.GetPattern | src/models/scan_pattern_model.py:59-65 | returns what `Lookup` gives |
| ScanPatterns.ScanPatternModel.GetAllPatterns | src/models/scan_pattern_model.py:67-72 | the listing has both tables' ids, with user patterns taking precedence |
| ScanPatterns.ScanPatternModel.SaveCustomPattern | src/models/scan_pattern_model.py:74-78 | stores the pattern and writes the new table out |
| ScanPatterns.ScanPatternModel.DeleteCustomPattern | src/models/scan_pattern_model.py:80-86 | succeeds exactly when the id is a user pattern, then removes it and writes the table; otherwise changes nothing |
| AodControl.MergeParams | src/controllers/aod_controller.py:69-71 | the merged parameters have both key sets, with given values overriding the defaults |
| AodControl.ConnectAodOutcome | src/controllers/aod_controller.py:21-33 | a deflector that opens is started and reported up; one that fails is reported down and nothing is sent |
| AodControl.DisconnectAodOutcome | src/controllers/aod_controller.py:35-43 | a disconnect reports the connection down; a second one fails and reports it up |
| AodControl.SetAngleAodOutcome | src/controllers/aod_controller.py:45-54 | angle_changed is emitted, with the angle, exactly when the angle was set |
| AodControl.StartPatternRefusals | src/controllers/aod_controller.py:58-66 | starting while disconnected, or a pattern the registry lacks, changes nothing and emits one error |
| AodControl.StartBuiltinPattern | src/controllers/aod_controller.py:56-80 | a built-in pattern on a connected, idle handler runs with merged parameters and emits scan_started |
| AodControl.CustomPatternNeverRuns | src/controllers/aod_controller.py:56-80 | a user pattern passes the lookup but the handler refuses it, and no signal is emitted |
| AodControl.ScanSignalsOnlyOnSuccess | src/controllers/aod_controller.py:74-91 | scan_started and scan_stopped are emitted exactly on success; stopping succeeds exactly while a scan is reported running and its worker is alive |
| AodControl.AodController.constructor | src/controllers/aod_controller.py:14-19 | builds a fresh handler and registry, with no signals |
| AodControl.AodController.ConnectAod | src/controllers/aod_controller.py:21-33 | ends in the handler state and signals `OnConnect` gives |
| AodControl.AodController.DisconnectAod | src/controllers/aod_controller.py:35-43 | ends in the handler state and signals `OnDisconnect` gives, after the stop as written |
| AodControl.AodController.SetAngle | src/controllers/aod_controller.py:45-54 | ends in the handler state and signals `OnSetAngle` gives |
| AodControl.AodController.StartPattern | src/controllers/aod_controller.py:56-80 | ends in the handler state and signals `OnStartPattern` gives |
| AodControl.AodController.StopPattern | src/controllers/aod_controller.py:82-91 | ends in the handler state and signals `OnStopPattern` gives, with the stop as written |
| Measurements.RecentPositive | src/models/measurement_model.py:47-49 | a positive count gives the last min(count, n) entries in order |
| Measurements.RecentZero | src/models/measurement_model.py:47-49 | a count of zero gives the whole list |
| Measurements.RecentNegative | src/models/measurement_model.py:47-49 | a negative count -k drops the first k entries instead |
| Measurements.LatestIsLastAdded | src/models/measurement_model.py:31-49 | right after an entry is added, the most recent entry is that entry |
| Measurements.MeasurementModel.constructor | src/models/measurement_model.py:15-16 | the log starts empty |
| Measurements.MeasurementModel.AddMeasurement | src/models/measurement_model.py:31-33 | appends the entry and returns the new length |
| Measurements.MeasurementModel.GetMeasurements | src/models/measurement_model.py:47-49 | returns what `Recent` gives |
| Measurements.MeasurementModel.GetDistances | src/models/measurement_model.py:61-62 | the distances of the recent entries, in order |
| Measurements.MeasurementModel.GetQualityValues | src/models/measurement_model.py:74-75 | the qualities of the recent entries, in order |
| Measurements.MeasurementModel.ClearMeasurements | src/models/measurement_model.py:79 | empties the log |
| Statistics.Minimum | src/utils/statistics.py:22 | the minimum is an element and no element is smaller |
| Statistics.Maximum | src/utils/statistics.py:23 | the maximum is an element and no element is larger |
| Statistics.SumBounds | src/utils/statistics.py:24 | a sum of n values within [lo, hi] lies within n·lo and n·hi |
| Statistics.MeanBounds | src/utils/statistics.py:24 | a mean of values within [lo, hi] lies within [lo, hi] |
| Statistics.MeanBetween | src/utils/statistics.py:22-24 | the mean lies between the minimum and the maximum |
| Statistics.BasicStats | src/utils/statistics.py:7-27 | the count is the length, and min, max and mean are absent exactly for an empty list |
| Statistics.BasicStatsOrdered | src/utils/statistics.py:19-27 | for a non-empty list, min ≤ mean ≤ max, and min and max are elements |
| Statistics.FarNearPartition | src/utils/statistics.py:40-44 | the outliers and the cleaned data together are the input, as a multiset |
| Statistics.FarNearSides | src/utils/statistics.py:40-44 | outliers are farther than the threshold from the mean; cleaned values are not |
| Statistics.FarNearDeviation | src/utils/statistics.py:40-44 | the squared deviations of the two parts add up to the whole |
| Statistics.FarDeviation | src/utils/statistics.py:40-41 | each outlier adds at least the threshold squared to the squared deviation |
| Statistics.FewOutliers | src/utils/statistics.py:30-46 | at most a quarter of three or more values are outliers at two standard deviations; constant data has none |
| Statistics.MovingAverage | src/utils/statistics.py:49-58 | an empty list averages to an empty list; otherwise there is one average per value |
| Statistics.MovingAverageWithinWindow | src/utils/statistics.py:57-58 | each average lies between the smallest and largest value of its trailing window |
| Statistics.MovingAverageOfOne | src/utils/statistics.py:57-58 | a window of one returns the values themselves |
| Statistics.Rates | src/utils/statistics.py:61-75 | one rate per interval, and none when the lengths do not fit |
| Statistics.RateOfChange | src/utils/statistics.py:61-75 | the loop computes exactly `Rates` |
| Statistics.RatesUpToAt | src/utils/statistics.py:67-73 | rate i is the i-th change over the i-th interval, or 0 for a non-positive interval |
| Statistics.RateRecoversChange | src/utils/statistics.py:67-73 | a rate times its positive interval gives back the change; a non-positive interval gives 0 |
| Statistics.TravelTelescope | src/utils/statistics.py:66-75 | summing rate × interval over the steps telescopes to the total change |
| Statistics.RatesTelescope | src/utils/statistics.py:61-75 | with positive intervals, the rates times the intervals add up to last minus first |

## Left out

- Floating point: every float is an exact real. numpy's rounding in `linspace`, in means and in divisions is not modelled.
- Serial and USB I/O: each reply of the sensor is a parameter (`None` is a timeout). Opening or closing a port is a boolean parameter. Sleeps, buffer flushes and logging are dropped.
- Threads: a scan worker runs in stages, each one call of `RunWorker(seen)`, where `seen` counts how often it finds the stop flag clear in that stage and the field `progress` counts them over all stages. A caller may act between stages. The join timeout of `stop_scanning`, and races within a stage between the worker and the caller, are not modelled.
- Qt: the polling timer is one call of `ReadContinuousData` per tick. Signals are appended to a log.
- The calibration file reader (`DevReader`, interpolation over a table of angle and frequency) is the oracle `freqOf`. A `None` from it stands for the reader raising.
- Whether the `Deflector` constructor succeeds, given the calibration file and the serial port, is the parameter `built`.
- AodHandling.WorkerSetpoints: the circle and zigzag workers are given no setpoints. They need sines, and the zigzag needs a clock.
- AodHandling.WorkerRuns: the circle and zigzag workers run until they find the stop flag raised. Two ways they end are not modelled. The circle raises when steps × speed is zero, or in its first pause when that pause is negative. The zigzag ends after its duration, which it reads from a clock.
- The scan-pattern file is read and written as whole tables. Its JSON encoding is not modelled: `loaded` is what reading gives, and `written` logs every table handed to the writer.
- User patterns are assumed to have the same name, description and parameters shape as built-in ones.
- SensorControl.Config: the sensor controller reads `SENSOR_SETTINGS`, `UI_ERROR_MESSAGES` and `COMMANDS['STOP_MEASURE']`, which src/config/settings.py does not define. The error threshold, the auto-laser-off switch and the stop command are therefore configuration parameters, and the UI messages are the `UiError` values.
- The sensor controller calls `send_command` with arguments the serial handler's signature does not accept. The model takes the controller's intent: a command written, or a bare read.
- SensorControl.Lower: case folding is ASCII only.
- ReplyParser.IsDigit: only the ASCII digits 0 to 9 count. Python's `\d` also takes other Unicode decimal digits, such as Arabic-Indic ones, which the source would parse and the model rejects.
- ReplyParser.DigitRun: a run of digits is ASCII only, as for `IsDigit`.
- ReplyParser.ParseDistance: the `except` branch of `parse_response` ("Error parsing response", src/utils/serial_handler.py:116-117) is not modelled. It is reachable even though the regular expressions match: Python's `int` refuses a digit string longer than 4300 digits, so a reply such as "1.0m," followed by 4301 digits ends in that branch, while the model reports a reading for it.
- SensorControl.Disconnect / SensorControl.Stop: the controller reads `serial_handler.serial_port`, but `SerialHandler` only has `serial` (src/utils/serial_handler.py:8). The model reads `serial`. As written, `disconnect_sensor` raises `AttributeError` at src/controllers/sensor_controller.py:114, before the port is closed. `stop_continuous_measurement` raises at lines 313-315, after the flags are cleared.
- SensorControl.DisconnectClears: states the intended disconnect. As written it raises `AttributeError` at src/controllers/sensor_controller.py:114 whenever it gets that far.
- SensorControl.SensorController.DisconnectSensor: the intended disconnect, as for `DisconnectClears`. The `AttributeError` at line 114 is not modelled.
- SensorControl.SensorController.StopContinuousMeasurement: returns true. While connected, the source raises at src/controllers/sensor_controller.py:313-315 after clearing the flags: first on the missing `STOP_MEASURE` command and the unsupported `wait_for_response` argument, and then on `serial_port`. The new state is the one the source leaves.
- Deflector.AfterSendField: a write to an open port always succeeds. A write error from the serial driver, after which the demo's recovery calls `stop()` on the same port, is not modelled. The same holds for `Deflector.Port.SendField` and the angle and amplitude setters built on it.
- ReplyParser: error messages are the `ReplyError` values. `Message` gives their text for the distance parser.
- ReplyParser.ParseStatus: the `°` alternative and the optional quote in the temperature patterns are modelled as characters. Numbers stay as digit strings, and `DecimalValue` gives their value.
- Statistics.BasicStats: the median and the standard deviation are not modelled. `DetectOutliers` takes the standard deviation as a parameter, required to be the square root of the population variance.
- Statistics.MovingAverage: pandas' behaviour for a non-integer window is not modelled.
- Measurements.MeasurementModel.GetMeasurements: without a count the source returns the list itself, so callers could change it. The model returns a value and has no aliasing.
- The serial handler's port listing, the data controller, the widgets and the plotting are outside this model.

## Findings

| source | as written | input that shows it | evidently intended | confidence | as-written member | corrected member |
|---|---|---|---|---|---|---|
| src/utils/aod_handler.py:127-136 | `stop_scanning` acts only while the worker thread is alive, but the point worker sets one angle and returns at once | start_scanning("point", {}) on a connected handler, the worker finishing, then stop_scanning(): it returns False, `scanning` stays True, and every later start_scanning is refused | stop any scan reported as running, whether or not its worker is still alive | not executed | AodHandling.PointScanStrandsScanning | AodHandling.PointScanStops |
