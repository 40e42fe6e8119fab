/** The deflector controller behind the user interface: it forwards requests to the handler,
    looks patterns up in the registry, merges parameters, and emits a signal for each outcome. */
module AodControl {
  import opened Wrappers
  import opened AodHandling
  import ScanPatterns

  /** Why `start_pattern` refused before reaching the handler. */
  datatype Failure = NotConnected | PatternMissing(id: string)

  /** The signals the controller emits. */
  datatype Signal =
    | ConnectionChanged(up: bool)
    | AngleChanged(angle: real)
    | ScanStarted(id: string)
    | ScanStopped
    | ErrorOccurred(failure: Failure)

  /** The text of an error signal. */
  function Message(f: Failure): string {
    match f
    case NotConnected => "АОЯ не подключена"
    case PatternMissing(id) => "Шаблон " + id + " не найден"
  }

  /** The pattern's defaults overridden key by key by the given parameters (a copy: the stored
      defaults are left as they are). */
  function MergeParams(defaults: Params, given: Option<Params>): (r: Params)
    ensures r.Keys == defaults.Keys + (if given.Some? then given.value.Keys else {})
    ensures forall k :: k in r ==> r[k] == (if given.Some? && k in given.value then given.value[k] else defaults[k])
  {
    if given.Some? then defaults + given.value else defaults
  }

  /** The handler after a request, the signals emitted, and the result returned. */
  datatype Outcome = Outcome(handler: Handler, emitted: seq<Signal>, ok: bool)

  /** `connect_aod`: connects, starts the deflector only when connecting succeeded, and reports
      the combined result. */
  function OnConnect(h: Handler, built: bool): Outcome {
    var (h1, connected) := AfterConnect(h, built);
    if !connected then Outcome(h1, [ConnectionChanged(false)], false)
    else
      var (h2, started) := AfterStart(h1);
      Outcome(h2, [ConnectionChanged(started)], started)
  }

  /** `disconnect_aod`: reports the connection as up exactly when disconnecting failed. */
  function OnDisconnect(h: Handler): Outcome {
    var (h1, ok) := AfterDisconnect(h);
    Outcome(h1, [ConnectionChanged(!ok)], ok)
  }

  function OnSetAngle(freqOf: real -> Option<real>, h: Handler, angle: real): Outcome {
    var (h1, ok) := AfterAngle(freqOf, h, angle);
    Outcome(h1, if ok then [AngleChanged(angle)] else [], ok)
  }

  /** `start_pattern`: refused with an error signal when the handler is not connected or the
      registry has no such pattern; otherwise the handler is asked to scan with the merged
      parameters, and `scan_started` follows only its success. */
  function OnStartPattern(h: Handler, custom: ScanPatterns.Table, id: string, given: Option<Params>): Outcome {
    if !h.connected then Outcome(h, [ErrorOccurred(NotConnected)], false)
    else match ScanPatterns.Lookup(custom, id)
      case None => Outcome(h, [ErrorOccurred(PatternMissing(id))], false)
      case Some(pattern) =>
        var (h1, ok) := AfterStartScanning(h, id, MergeParams(pattern.params, given));
        Outcome(h1, if ok then [ScanStarted(id)] else [], ok)
  }

  /** `stop_pattern`: the handler's `stop_scanning` as written, and `scan_stopped` on success. */
  function OnStopPattern(h: Handler): Outcome {
    var (h1, ok) := AfterStopAsWritten(h);
    Outcome(h1, if ok then [ScanStopped] else [], ok)
  }

  // ---------------------------------------------------------------------------------------
  // Properties

  /** Connecting a deflector that opens starts it: the new port holds exactly the start frames
      and the connection is reported up; one that fails to open is reported down and nothing is
      sent. */
  lemma ConnectAodOutcome(h: Handler, built: bool)
    ensures var o := OnConnect(h, built);
      o.ok == built && o.emitted == [ConnectionChanged(built)] && o.handler.connected == built
      && (built ==> o.handler.port == Deflector.Link(Deflector.StartFrames(), false))
      && (!built ==> o.handler.port == h.port)
  {
  }

  /** A successful disconnect reports the connection down; a failed one (the port was already
      closed, say by an earlier disconnect) reports it up although the handler may already be
      disconnected. */
  lemma DisconnectAodOutcome(h: Handler)
    requires h.hasPort && !h.port.closed
    ensures var o := OnDisconnect(h);
      o.ok && o.emitted == [ConnectionChanged(false)] && !o.handler.connected
      && var o2 := OnDisconnect(o.handler);
        !o2.ok && o2.emitted == [ConnectionChanged(true)] && !o2.handler.connected
  {
  }

  /** `angle_changed` is emitted exactly when the angle was set, and carries that angle. */
  lemma SetAngleAodOutcome(freqOf: real -> Option<real>, h: Handler, angle: real)
    ensures var o := OnSetAngle(freqOf, h, angle);
      (o.emitted == [AngleChanged(angle)] <==> o.ok) && (!o.ok ==> o.emitted == [])
      && (o.ok ==> o.handler.lastAngle == angle)
  {
  }

  /** Starting a pattern while disconnected, or one the registry lacks, changes nothing and
      emits one error. */
  lemma StartPatternRefusals(h: Handler, custom: ScanPatterns.Table, id: string, given: Option<Params>)
    requires !h.connected || ScanPatterns.Lookup(custom, id).None?
    ensures var o := OnStartPattern(h, custom, id, given);
      !o.ok && o.handler == h && |o.emitted| == 1 && o.emitted[0].ErrorOccurred?
  {
  }

  /** A built-in pattern started on a connected, idle handler runs with its defaults overridden
      by the given parameters, and `scan_started` is emitted. */
  lemma StartBuiltinPattern(h: Handler, custom: ScanPatterns.Table, id: string, given: Option<Params>)
    requires h.connected && !h.scan.scanning && id in ScanPatterns.Builtin()
    ensures var o := OnStartPattern(h, custom, id, given);
      o.ok && o.emitted == [ScanStarted(id)] && o.handler.scan.scanning
      && o.handler.job == Job(id, MergeParams(ScanPatterns.Builtin()[id].params, given))
  {
    ScanPatterns.BuiltinIds();
  }

  /** A user pattern passes the registry lookup but the handler runs only its five built-in
      names, so it is refused without any signal at all. */
  lemma CustomPatternNeverRuns(h: Handler, custom: ScanPatterns.Table, id: string, given: Option<Params>)
    requires h.connected && id in custom && id !in ScanPatterns.Builtin()
    ensures var o := OnStartPattern(h, custom, id, given);
      !o.ok && o.handler == h && o.emitted == []
  {
    ScanPatterns.BuiltinIds();
  }

  /** `scan_started` and `scan_stopped` are emitted exactly on success; stopping succeeds exactly
      while a scan is reported running and its worker is still alive. */
  lemma ScanSignalsOnlyOnSuccess(h: Handler, custom: ScanPatterns.Table, id: string, given: Option<Params>)
    ensures var o := OnStartPattern(h, custom, id, given);
      (ScanStarted(id) in o.emitted <==> o.ok)
    ensures var o := OnStopPattern(h);
      (o.emitted == [ScanStopped] <==> o.ok) && (o.ok <==> h.scan.scanning && h.scan.workerAlive)
  {
  }

  // ---------------------------------------------------------------------------------------
  // The controller object

  class AodController {
    const handler: AodHandler
    const model: ScanPatterns.ScanPatternModel
    var signals: seq<Signal>

    ghost predicate Valid()
      reads this, handler, handler.deflector
    {
      handler.Valid()
    }

    constructor (freqOf: real -> Option<real>, loaded: Option<ScanPatterns.Table>)
      ensures Valid() && fresh(handler) && fresh(model)
      ensures handler.State() == Initial && model.custom == (if loaded.Some? then loaded.value else map[])
      ensures signals == []
    {
      handler := new AodHandler(freqOf);
      model := new ScanPatterns.ScanPatternModel(loaded);
      signals := [];
    }

    method ConnectAod(built: bool) returns (ok: bool)
      requires Valid()
      modifies this, handler
      ensures Valid()
      ensures var o := OnConnect(old(handler.State()), built);
        handler.State() == o.handler && signals == old(signals) + o.emitted && ok == o.ok
    {
      ok := handler.Connect(built);
      if ok {
        ok := handler.Start();
      }
      signals := signals + [ConnectionChanged(ok)];
    }

    method DisconnectAod() returns (ok: bool)
      requires Valid()
      modifies this, handler, handler.deflector
      ensures Valid() && handler.deflector == old(handler.deflector)
      ensures var o := OnDisconnect(old(handler.State()));
        handler.State() == o.handler && signals == old(signals) + o.emitted && ok == o.ok
    {
      ok := handler.Disconnect();
      signals := signals + [ConnectionChanged(!ok)];
    }

    method SetAngle(angle: real) returns (ok: bool)
      requires Valid()
      modifies this, handler, handler.deflector
      ensures Valid() && handler.deflector == old(handler.deflector)
      ensures var o := OnSetAngle(handler.freqOf, old(handler.State()), angle);
        handler.State() == o.handler && signals == old(signals) + o.emitted && ok == o.ok
    {
      ok := handler.SetAngle(angle);
      if ok {
        signals := signals + [AngleChanged(angle)];
      }
    }

    method StartPattern(id: string, given: Option<Params>) returns (ok: bool)
      requires Valid()
      modifies this, handler
      ensures Valid() && handler.deflector == old(handler.deflector)
      ensures var o := OnStartPattern(old(handler.State()), model.custom, id, given);
        handler.State() == o.handler && signals == old(signals) + o.emitted && ok == o.ok
    {
      if !handler.connected {
        signals := signals + [ErrorOccurred(NotConnected)];
        return false;
      }
      var pattern := model.GetPattern(id);
      if pattern.None? {
        signals := signals + [ErrorOccurred(PatternMissing(id))];
        return false;
      }
      var scanParams := pattern.value.params;
      if given.Some? {
        scanParams := scanParams + given.value;
      }
      ok := handler.StartScanning(id, scanParams);
      if ok {
        signals := signals + [ScanStarted(id)];
      }
    }

    method StopPattern() returns (ok: bool)
      requires Valid()
      modifies this, handler
      ensures Valid() && handler.deflector == old(handler.deflector)
      ensures var o := OnStopPattern(old(handler.State()));
        handler.State() == o.handler && signals == old(signals) + o.emitted && ok == o.ok
    {
      ok := handler.StopScanningAsWritten();
      if ok {
        signals := signals + [ScanStopped];
      }
    }
  }
}
