/** The acousto-optic deflector handler of the application: it opens a `Deflector`, forwards
    single setpoints to it, and runs scan patterns on a worker thread that issues setpoints until
    a stop flag is raised. The handler's state is a `Handler` value, each operation a function on
    it, and the class `AodHandler` carries out the same operations in place. */
module AodHandling {
  import opened Wrappers
  import Deflector

  type Link = Deflector.Link

  // ---------------------------------------------------------------------------------------
  // Scan parameters

  /** A numeric parameter as it arrives in a pattern's parameter dictionary. */
  datatype Num = Int(i: int) | Float(r: real)

  function Value(n: Num): real {
    match n
    case Int(i) => i as real
    case Float(r) => r
  }

  type Params = map<string, Num>

  /** `params.get(key, default)`. */
  function Get(p: Params, key: string, default: Num): Num {
    if key in p then p[key] else default
  }

  function PointAngle(p: Params): real { Value(Get(p, "angle", Float(0.0))) }
  function StartAngle(p: Params): real { Value(Get(p, "start_angle", Float(-0.5))) }
  function EndAngle(p: Params): real { Value(Get(p, "end_angle", Float(0.5))) }
  function Speed(p: Params): real { Value(Get(p, "speed", Float(0.1))) }
  function LineSteps(p: Params): Num { Get(p, "steps", Int(20)) }
  function HalfSide(p: Params): real { Value(Get(p, "size", Float(0.5))) }
  function SideSteps(p: Params): Num { Get(p, "steps", Int(10)) }

  /** The pattern names the handler dispatches on. */
  const Patterns: set<string> := {"point", "line", "square", "circle", "zigzag"}

  function Abs(x: real): real { if x < 0.0 then -x else x }
  function Min(x: real, y: real): real { if x <= y then x else y }
  function Max(x: real, y: real): real { if x <= y then y else x }

  // ---------------------------------------------------------------------------------------
  // Setpoint sequences

  function Reversed(s: seq<real>): (r: seq<real>)
    ensures |r| == |s| && forall i :: 0 <= i < |s| ==> r[i] == s[|s| - 1 - i]
  {
    seq(|s|, i requires 0 <= i < |s| => s[|s| - 1 - i])
  }

  /** Reversing twice gives the sequence back. */
  lemma ReversedInvolution(s: seq<real>)
    ensures Reversed(Reversed(s)) == s
  {
    assert forall i :: 0 <= i < |s| ==> Reversed(Reversed(s))[i] == s[i];
  }

  /** A reversed sequence starts with the last value, followed by the rest reversed. */
  lemma ReversedFront(s: seq<real>)
    requires |s| > 0
    ensures Reversed(s) == [s[|s| - 1]] + Reversed(s[..|s| - 1])
  {
    assert forall i :: 0 <= i < |s| ==> Reversed(s)[i] == ([s[|s| - 1]] + Reversed(s[..|s| - 1]))[i];
  }

  /** Reversing only reorders: it keeps every value as often as it occurs. */
  lemma {:induction false} ReversedPermutation(s: seq<real>)
    ensures multiset(Reversed(s)) == multiset(s)
    decreases |s|
  {
    if |s| > 0 {
      ReversedFront(s);
      ReversedPermutation(s[..|s| - 1]);
      assert s == s[..|s| - 1] + [s[|s| - 1]];
    }
  }

  /** The point `i / m` of the way from `a` to `b`. */
  function Lerp(a: real, b: real, m: int, i: int): real
    requires m != 0
  {
    a + (i as real) * (b - a) / (m as real)
  }

  /** `numpy.linspace(a, b, n)`: `n` values from `a` to `b` inclusive, evenly spaced (just `a`
      when `n` is 1). */
  function Linspace(a: real, b: real, n: nat): (r: seq<real>)
    ensures |r| == n
  {
    if n == 1 then [a]
    else seq(n, i requires 0 <= i < n => Lerp(a, b, n - 1, i))
  }

  /** The square pattern's `i`-th point for `m + 1` steps, `-size + i * 2 * size / m`. */
  function SquarePoint(size: real, m: int, i: int): real
    requires m != 0
  {
    -size + (i as real) * 2.0 * size / (m as real)
  }

  /** The square pattern's points for `n` steps (one step divides by zero). */
  function SquarePoints(size: real, n: nat): (r: seq<real>)
    requires n != 1
    ensures |r| == n
  {
    seq(n, i requires 0 <= i < n => SquarePoint(size, n - 1, i))
  }

  /** `i / m` of the way from `a` to `b` lies between them. */
  lemma LerpBetween(a: real, b: real, m: int, i: int)
    requires 0 <= i <= m && 0 < m
    ensures Min(a, b) <= Lerp(a, b, m, i) <= Max(a, b)
  {
    var t := (i as real) / (m as real);
    var d := b - a;
    assert 0.0 <= t <= 1.0;
    assert (i as real) * d / (m as real) == t * d;
    assert Lerp(a, b, m, i) == a + t * d;
    if d >= 0.0 {
      assert 0.0 <= t * d <= 1.0 * d;
    } else {
      assert 1.0 * d <= t * d <= 0.0;
    }
  }

  /** Counting `i` steps back from `b` reaches the point `m - i` steps on from `a`. */
  lemma Reflect(a: real, b: real, m: int, i: int)
    requires 0 <= i <= m && 0 < m
    ensures Lerp(a, b, m, m - i) == Lerp(b, a, m, i)
  {
    var d := (b - a) / (m as real);
    ScaledQuotient((m - i) as real, b - a, m as real);
    ScaledQuotient(i as real, a - b, m as real);
    assert (a - b) / (m as real) == -d;
    assert (m as real) * d == b - a;
    assert ((m - i) as real) * d == (m as real) * d - (i as real) * d;
  }

  /** Scaling before or after the division gives the same quotient. */
  lemma ScaledQuotient(x: real, y: real, m: real)
    requires m != 0.0
    ensures x * y / m == x * (y / m)
  {
  }

  lemma LinspaceEnds(a: real, b: real, n: nat)
    requires n >= 1
    ensures Linspace(a, b, n)[0] == a
    ensures n >= 2 ==> Linspace(a, b, n)[n - 1] == b
  {
    if n >= 2 {
      var m := (n - 1) as real;
      assert Linspace(a, b, n)[n - 1] == a + m * (b - a) / m;
      assert m * (b - a) / m == b - a;
    }
  }

  /** One more step adds `(b - a) / m`. */
  lemma LerpStep(a: real, b: real, m: int, i: int)
    requires m != 0
    ensures Lerp(a, b, m, i + 1) - Lerp(a, b, m, i) == (b - a) / (m as real)
  {
    var x := ((i + 1) as real) * (b - a);
    var y := (i as real) * (b - a);
    assert x - y == b - a;
    assert x / (m as real) - y / (m as real) == (x - y) / (m as real);
  }

  /** Consecutive values are one `(b - a) / (n - 1)` apart. */
  lemma LinspaceSpacing(a: real, b: real, n: nat, i: nat)
    requires n >= 2 && i + 1 < n
    ensures Linspace(a, b, n)[i + 1] - Linspace(a, b, n)[i] == (b - a) / ((n - 1) as real)
  {
    assert Linspace(a, b, n)[i + 1] == Lerp(a, b, n - 1, i + 1);
    assert Linspace(a, b, n)[i] == Lerp(a, b, n - 1, i);
    LerpStep(a, b, n - 1, i);
  }

  /** Every value lies between the two ends. */
  lemma LinspaceWithin(a: real, b: real, n: nat, i: nat)
    requires i < n
    ensures Min(a, b) <= Linspace(a, b, n)[i] <= Max(a, b)
  {
    if n >= 2 {
      LerpBetween(a, b, n - 1, i);
    }
  }

  /** Walking the points backwards is the spacing from `b` to `a` (for any count but one). */
  lemma LinspaceReversed(a: real, b: real, n: nat)
    requires n != 1
    ensures Reversed(Linspace(a, b, n)) == Linspace(b, a, n)
  {
    var r := Reversed(Linspace(a, b, n));
    forall i | 0 <= i < n
      ensures r[i] == Linspace(b, a, n)[i]
    {
      assert r[i] == Lerp(a, b, n - 1, n - 1 - i);
      Reflect(a, b, n - 1, i);
    }
  }

  /** The square's points are the spacing from `-size` to `size`. */
  lemma SquareIsLinspace(size: real, n: nat)
    requires n != 1
    ensures SquarePoints(size, n) == Linspace(-size, size, n)
  {
    forall i | 0 <= i < n
      ensures SquarePoints(size, n)[i] == Linspace(-size, size, n)[i]
    {
      assert (i as real) * 2.0 * size == (i as real) * (size - -size);
    }
  }

  // ---------------------------------------------------------------------------------------
  // Scan plans

  /** What a looping scan worker repeats, forward then backward, and its pause after each
      setpoint. */
  datatype Plan = Plan(cycle: seq<real>, delay: real)

  /** The line worker: `steps` values from the start to the end angle and a pause of
      `|end - start| / (steps * speed)`; `None` when it raises before its first setpoint
      (`linspace` refuses a non-integer or negative count, and the pause divides by zero). */
  function LinePlan(p: Params): (r: Option<Plan>)
  {
    var steps := LineSteps(p);
    if !steps.Int? || steps.i < 0 then None
    else
      var pause := Pause(Abs(EndAngle(p) - StartAngle(p)), steps.i, Speed(p));
      if pause.None? then None
      else
        var angles := Linspace(StartAngle(p), EndAngle(p), steps.i);
        Some(Plan(angles + Reversed(angles), pause.value))
  }

  /** The pause between setpoints, `dist / (steps * speed)`; `None` when the product is zero and
      the division raises. */
  function Pause(dist: real, steps: int, speed: real): (r: Option<real>)
    ensures r.Some? <==> (steps as real) * speed != 0.0
    ensures r.Some? ==> r.value * ((steps as real) * speed) == dist
  {
    var rate := (steps as real) * speed;
    if rate == 0.0 then None else Some(dist / rate)
  }

  /** The square worker: `steps` points across `[-size, size]` and a pause of
      `2 * size / (steps * speed)`; `None` when it raises first (`range` refuses a non-integer,
      one step divides by zero in the points, no steps in the pause). */
  function SquarePlan(p: Params): (r: Option<Plan>)
  {
    var steps := SideSteps(p);
    if !steps.Int? || steps.i == 1 then None
    else
      var pause := Pause(2.0 * HalfSide(p), steps.i, Speed(p));
      if pause.None? then None
      else
        var points := SquarePoints(HalfSide(p), if steps.i < 0 then 0 else steps.i);
        Some(Plan(points + Reversed(points), pause.value))
  }

  /** The first `k` setpoints of a worker going round `cycle`. */
  function Repeat(cycle: seq<real>, k: nat): (r: seq<real>)
    requires |cycle| > 0
    ensures |r| == k
  {
    seq(k, i requires 0 <= i < k => cycle[i % |cycle|])
  }

  /** How many setpoints a worker issues before it finds the stop flag raised, when it finds it
      clear `seen` times first: none for an empty cycle (it only spins on the flag), and at most
      one when the pause is negative (the first `sleep` raises). */
  function IssuedCount(plan: Plan, seen: nat): (n: nat)
    ensures n <= seen && (|plan.cycle| > 0 && plan.delay >= 0.0 ==> n == seen)
  {
    if |plan.cycle| == 0 then 0 else if plan.delay < 0.0 && seen > 1 then 1 else seen
  }

  /** The setpoints a looping worker issues. */
  function Issued(plan: Option<Plan>, seen: nat): (r: seq<real>)
    ensures plan.None? ==> r == []
    ensures |r| <= seen
  {
    if plan.None? || |plan.value.cycle| == 0 then []
    else Repeat(plan.value.cycle, IssuedCount(plan.value, seen))
  }

  /** A worker that runs longer issues more of the same setpoints. */
  lemma IssuedGrows(plan: Option<Plan>, m: nat, n: nat)
    requires m <= n
    ensures Issued(plan, m) <= Issued(plan, n)
  {
    if plan.Some? && |plan.value.cycle| > 0 {
      var cycle := plan.value.cycle;
      var short, long := Issued(plan, m), Issued(plan, n);
      assert |short| <= |long|;
      forall i | 0 <= i < |short| ensures short[i] == long[i] {
        assert short[i] == cycle[i % |cycle|];
      }
    }
  }

  /** The setpoints a looping worker issues while it finds the stop flag clear `seen` more
      times, after `done` times. */
  function IssuedFrom(plan: Option<Plan>, done: nat, seen: nat): (r: seq<real>)
    ensures Issued(plan, done) + r == Issued(plan, done + seen)
  {
    IssuedGrows(plan, done, done + seen);
    Issued(plan, done + seen)[|Issued(plan, done)|..]
  }

  /** With the defaults the line sweeps from -0.5 to 0.5 degrees in 20 steps, half a second
      apart. */
  lemma DefaultLine()
    ensures LinePlan(map[]) == Some(Plan(Linspace(-0.5, 0.5, 20) + Linspace(0.5, -0.5, 20), 0.5))
  {
    LinspaceReversed(-0.5, 0.5, 20);
  }

  /** With the defaults the square steps across [-0.5, 0.5] in 10 points, a second apart. */
  lemma DefaultSquare()
    ensures SquarePlan(map[]) == Some(Plan(Linspace(-0.5, 0.5, 10) + Linspace(0.5, -0.5, 10), 1.0))
  {
    SquareIsLinspace(0.5, 10);
    LinspaceReversed(-0.5, 0.5, 10);
  }

  /** A square of one step per side never issues a setpoint. */
  lemma OneStepSquare(p: Params)
    requires SideSteps(p) == Int(1)
    ensures Issued(SquarePlan(p), 1) == []
  {
  }

  /** The pause is chosen so that one pass takes `|end - start| / speed` seconds. */
  lemma LinePassTime(p: Params)
    requires LinePlan(p).Some?
    ensures LineSteps(p).Int? && (LineSteps(p).i as real) * LinePlan(p).value.delay == Abs(EndAngle(p) - StartAngle(p)) / Speed(p)
  {
    var n := LineSteps(p).i as real;
    var v := Speed(p);
    var x := Abs(EndAngle(p) - StartAngle(p));
    assert n != 0.0 && v != 0.0;
    assert n * (x / (n * v)) == x / v;
  }

  /** The pause is chosen so that one pass along a side of `2 * size` takes `2 * size / speed`. */
  lemma SquarePassTime(p: Params)
    requires SquarePlan(p).Some?
    ensures SideSteps(p).Int? && (SideSteps(p).i as real) * SquarePlan(p).value.delay == 2.0 * HalfSide(p) / Speed(p)
  {
    var n := SideSteps(p).i as real;
    var v := Speed(p);
    var x := 2.0 * HalfSide(p);
    assert n != 0.0 && v != 0.0;
    assert n * (x / (n * v)) == x / v;
  }

  /** Every setpoint of a line scan lies between its start and end angles. */
  lemma LineSetpointsWithin(p: Params, seen: nat)
    ensures forall i :: 0 <= i < |Issued(LinePlan(p), seen)| ==>
      Min(StartAngle(p), EndAngle(p)) <= Issued(LinePlan(p), seen)[i] <= Max(StartAngle(p), EndAngle(p))
  {
    var r := Issued(LinePlan(p), seen);
    if LinePlan(p).Some? && |LinePlan(p).value.cycle| > 0 {
      var n := LineSteps(p).i;
      var angles := Linspace(StartAngle(p), EndAngle(p), n);
      var cycle := LinePlan(p).value.cycle;
      assert cycle == angles + Reversed(angles);
      forall i | 0 <= i < |r|
        ensures Min(StartAngle(p), EndAngle(p)) <= r[i] <= Max(StartAngle(p), EndAngle(p))
      {
        var j := i % |cycle|;
        assert r[i] == cycle[j];
        if j < n {
          LinspaceWithin(StartAngle(p), EndAngle(p), n, j);
        } else {
          LinspaceWithin(StartAngle(p), EndAngle(p), n, n - 1 - (j - n));
        }
      }
    }
  }

  /** Every setpoint of a square scan lies within `size` of the centre. */
  lemma SquareSetpointsWithin(p: Params, seen: nat)
    ensures forall i :: 0 <= i < |Issued(SquarePlan(p), seen)| ==>
      -Abs(HalfSide(p)) <= Issued(SquarePlan(p), seen)[i] <= Abs(HalfSide(p))
  {
    var r := Issued(SquarePlan(p), seen);
    if SquarePlan(p).Some? && |SquarePlan(p).value.cycle| > 0 {
      var size := HalfSide(p);
      var n := SideSteps(p).i;
      assert n >= 2;
      var points := SquarePoints(size, n);
      SquareIsLinspace(size, n);
      var cycle := SquarePlan(p).value.cycle;
      assert cycle == points + Reversed(points);
      forall i | 0 <= i < |r|
        ensures -Abs(size) <= r[i] <= Abs(size)
      {
        var j := i % |cycle|;
        assert r[i] == cycle[j];
        if j < n {
          LinspaceWithin(-size, size, n, j);
        } else {
          LinspaceWithin(-size, size, n, n - 1 - (j - n));
        }
      }
    }
  }

  /** Adding `n` to a position does not change its remainder modulo `n`. */
  lemma ModShift(j: nat, n: nat)
    requires n > 0
    ensures (j + n) % n == j % n
  {
    var q, r := j / n, j % n;
    var q2, r2 := (j + n) / n, (j + n) % n;
    var d := q + 1 - q2;
    assert d * n == (q + 1) * n - q2 * n;
    assert d * n == r2 - r;
    if d >= 1 {
      MulAtLeast(d, n);
      assert false;
    } else if d <= -1 {
      MulAtLeast(-d, n);
      assert false;
    }
  }

  lemma MulAtLeast(d: int, n: int)
    requires d >= 1 && n > 0
    ensures d * n >= n
  {
  }

  /** A worker goes round its cycle again and again: one more round of setpoints is the cycle
      followed by the setpoints before it. */
  lemma RepeatPeriodic(cycle: seq<real>, k: nat)
    requires |cycle| > 0
    ensures Repeat(cycle, k + |cycle|) == cycle + Repeat(cycle, k)
  {
    var n := |cycle|;
    var long, short := Repeat(cycle, k + n), Repeat(cycle, k);
    forall i | 0 <= i < k + n
      ensures long[i] == (cycle + short)[i]
    {
      if i < n {
        ModSmall(i, n);
      } else {
        var j := i - n;
        ModShift(j, n);
        assert long[i] == cycle[(j + n) % n];
        assert short[j] == cycle[j % n];
      }
    }
    assert long == cycle + short;
  }

  /** One full round of setpoints is the cycle itself. */
  lemma RepeatRound(cycle: seq<real>)
    requires |cycle| > 0
    ensures Repeat(cycle, |cycle|) == cycle
  {
    var n := |cycle|;
    var r := Repeat(cycle, n);
    forall i | 0 <= i < n
      ensures r[i] == cycle[i]
    {
      ModSmall(i, n);
    }
    assert r == cycle;
  }

  lemma ModSmall(i: nat, n: nat)
    requires i < n
    ensures i % n == i
  {
    var q := i / n;
    assert q * n + i % n == i;
    if q >= 1 {
      MulAtLeast(q, n);
      assert false;
    }
  }

  /** The first round of a line scan with a non-negative pause goes from start to end and back
      through the same angles. */
  lemma LineRound(p: Params)
    requires LinePlan(p).Some? && LinePlan(p).value.delay >= 0.0 && LineSteps(p).i >= 2
    ensures Issued(LinePlan(p), 2 * LineSteps(p).i)
      == Linspace(StartAngle(p), EndAngle(p), LineSteps(p).i) + Linspace(EndAngle(p), StartAngle(p), LineSteps(p).i)
  {
    var n := LineSteps(p).i;
    var a, b := StartAngle(p), EndAngle(p);
    var plan := LinePlan(p).value;
    var angles := Linspace(a, b, n);
    assert plan.cycle == angles + Reversed(angles);
    LinspaceReversed(a, b, n);
    assert IssuedCount(plan, 2 * n) == |plan.cycle|;
    RepeatRound(plan.cycle);
  }

  // ---------------------------------------------------------------------------------------
  // The handler as a value

  /** The scan flags: whether a scan is reported running, whether its worker thread is alive, the
      stop flag the worker polls, the current pattern's name, and how many times the current
      worker has found the stop flag clear so far. */
  datatype Scan = Scan(scanning: bool, workerAlive: bool, stopScan: bool, current: Option<string>,
                       progress: nat)

  /** The pattern and parameters the most recent worker thread was started with. */
  datatype Job = Job(pattern: string, params: Params)

  /** The handler: whether it is connected, whether it holds a deflector and that port's state,
      the scan flags and job, the last angle set, and every angle asked of `set_angle`. */
  datatype Handler = Handler(connected: bool, hasPort: bool, port: Link, scan: Scan, job: Job,
                             lastAngle: real, requested: seq<real>)

  const Initial := Handler(false, false, Deflector.Link([], false), Scan(false, false, false, None, 0),
                           Job([], map[]), 0.0, [])

  /** `connect`: a new `Deflector` replaces any earlier one; when its constructor raises
      (`built` false: the calibration file or the serial port cannot be built) only the
      connected flag changes. */
  function AfterConnect(h: Handler, built: bool): (Handler, bool) {
    if built then (h.(connected := true, hasPort := true, port := Deflector.Link([], false)), true)
    else (h.(connected := false), false)
  }

  /** `start`: switches the amplifiers on; fails when not connected or when the port is closed. */
  function AfterStart(h: Handler): (Handler, bool) {
    if !h.connected || !h.hasPort || h.port.closed then (h, false)
    else (h.(port := Deflector.Link(h.port.frames + Deflector.StartFrames(), false)), true)
  }

  /** `set_angle`: the angle is passed on to the deflector, and becomes the last angle only when
      the deflector accepts it. */
  function AfterAngle(freqOf: real -> Option<real>, h: Handler, angle: real): (Handler, bool) {
    var h1 := h.(requested := h.requested + [angle]);
    if !h.connected || !h.hasPort then (h1, false)
    else
      var r := Deflector.AfterSetAngle(freqOf, h.port, angle);
      (h1.(port := r.0, lastAngle := if r.1 then angle else h.lastAngle), r.1)
  }

  /** `set_amplitude`. */
  function AfterAmplitude(h: Handler, ampl: real): (Handler, bool) {
    if !h.connected || !h.hasPort then (h, false)
    else
      var r := Deflector.AfterSetAmpl(h.port, ampl);
      (h.(port := r.0), r.1)
  }

  /** `set_angle` called for each angle in turn. */
  function AfterAngles(freqOf: real -> Option<real>, h: Handler, angles: seq<real>): (r: Handler)
    ensures r.requested == h.requested + angles
    ensures r.connected == h.connected && r.hasPort == h.hasPort && r.scan == h.scan && r.job == h.job
    decreases |angles|
  {
    if |angles| == 0 then h
    else
      assert angles == angles[..|angles| - 1] + [angles[|angles| - 1]];
      AfterAngle(freqOf, AfterAngles(freqOf, h, angles[..|angles| - 1]), angles[|angles| - 1]).0
  }

  /** `start_scanning`: refused while a scan is reported running, when not connected, and for an
      unknown pattern; otherwise a worker starts with the stop flag cleared. */
  function AfterStartScanning(h: Handler, name: string, p: Params): (Handler, bool) {
    if h.scan.scanning || !h.connected || name !in Patterns then (h, false)
    else (h.(scan := Scan(true, true, false, Some(name), 0), job := Job(name, p)), true)
  }

  /** `stop_scanning` as written: it acts only while the worker thread is still alive. */
  function AfterStopAsWritten(h: Handler): (Handler, bool) {
    if h.scan.scanning && h.scan.workerAlive then
      (h.(scan := h.scan.(scanning := false, stopScan := true, current := None)), true)
    else (h, false)
  }

  /** `stop_scanning` as intended: it stops any scan that is reported running. */
  function AfterStopScanning(h: Handler): (Handler, bool) {
    if h.scan.scanning then (h.(scan := h.scan.(scanning := false, stopScan := true, current := None)), true)
    else (h, false)
  }

  /** `disconnect`: calls `stop_scanning` as written (which acts only on a live worker), then
      stops and closes the deflector; stopping an already closed port raises, which the handler
      reports as failure. Without a deflector there is nothing to do. */
  function AfterDisconnect(h: Handler): (Handler, bool) {
    if !h.hasPort then (h, true)
    else
      var h1 := AfterStopAsWritten(h).0;
      if h.port.closed then (h1, false)
      else (h1.(port := Deflector.Link(h.port.frames + Deflector.StopFrames(), true), connected := false), true)
  }

  /** Whether a looping worker has raised once it has found the stop flag clear `total` times:
      at once when it has no plan, and in its first pause when that pause is negative. */
  predicate PlanRaises(plan: Option<Plan>, total: nat) {
    plan.None? || (|plan.value.cycle| > 0 && plan.value.delay < 0.0 && total >= 1)
  }

  /** Whether the worker thread is still alive after finding the stop flag clear `total` times:
      the point worker returns after its one setpoint, every other worker returns once it finds
      the flag raised, and the line and square workers also end when they raise. */
  predicate WorkerRuns(job: Job, stopped: bool, total: nat) {
    job.pattern != "point" && !stopped
    && (job.pattern == "line" ==> !PlanRaises(LinePlan(job.params), total))
    && (job.pattern == "square" ==> !PlanRaises(SquarePlan(job.params), total))
  }

  /** The setpoints the current worker issues while it finds the stop flag clear `seen` more
      times, after `done` times: the point worker sets its angle once; the line and square
      workers go on round their plans, issuing nothing once the stop flag is raised; the circle
      and zigzag workers' setpoints are not modelled. */
  function WorkerSetpoints(job: Job, stopped: bool, done: nat, seen: nat): seq<real> {
    if job.pattern == "point" then [PointAngle(job.params)]
    else if stopped then []
    else if job.pattern == "line" then IssuedFrom(LinePlan(job.params), done, seen)
    else if job.pattern == "square" then IssuedFrom(SquarePlan(job.params), done, seen)
    else []
  }

  /** The worker thread runs on until it has found the stop flag clear `seen` more times (none
      once the flag is raised); it is then still running, or it has returned or raised. */
  function AfterWorker(freqOf: real -> Option<real>, h: Handler, seen: nat): Handler {
    if !h.scan.workerAlive then h
    else
      var n := if h.scan.stopScan then 0 else seen;
      var h1 := AfterAngles(freqOf, h, WorkerSetpoints(h.job, h.scan.stopScan, h.scan.progress, n));
      h1.(scan := h1.scan.(workerAlive := WorkerRuns(h.job, h.scan.stopScan, h.scan.progress + n),
                           progress := h.scan.progress + n))
  }

  // ---------------------------------------------------------------------------------------
  // Properties of the handler

  /** `set_angle` succeeds exactly when connected, the port is open and the calibration has the
      angle; only then does the last angle move, and then to that angle. */
  lemma AngleOutcome(freqOf: real -> Option<real>, h: Handler, angle: real)
    ensures var (h1, ok) := AfterAngle(freqOf, h, angle);
      (ok <==> h.connected && h.hasPort && !h.port.closed && freqOf(angle).Some?)
      && h1.lastAngle == (if ok then angle else h.lastAngle)
      && (!ok ==> h1.port == h.port)
      && h.port.frames <= h1.port.frames
  {
  }

  /** The last angle is the one before or one of the angles asked for. */
  lemma {:induction false} AnglesLast(freqOf: real -> Option<real>, h: Handler, angles: seq<real>)
    ensures var r := AfterAngles(freqOf, h, angles);
      r.lastAngle == h.lastAngle || r.lastAngle in angles
    decreases |angles|
  {
    if |angles| > 0 {
      var front := angles[..|angles| - 1];
      AnglesLast(freqOf, h, front);
      assert forall x :: x in front ==> x in angles;
    }
  }

  /** The port's frames only grow. */
  lemma {:induction false} AnglesFramesGrow(freqOf: real -> Option<real>, h: Handler, angles: seq<real>)
    ensures h.port.frames <= AfterAngles(freqOf, h, angles).port.frames
    decreases |angles|
  {
    if |angles| > 0 {
      AnglesFramesGrow(freqOf, h, angles[..|angles| - 1]);
    }
  }

  /** Once the port is closed (an angle whose frequency did not fit shut it down) or the handler is
      disconnected, setpoints change nothing but the record of requests. */
  lemma {:induction false} AnglesIgnoredWhenClosed(freqOf: real -> Option<real>, h: Handler, angles: seq<real>)
    requires !h.connected || !h.hasPort || h.port.closed
    ensures AfterAngles(freqOf, h, angles) == h.(requested := h.requested + angles)
    decreases |angles|
  {
    if |angles| > 0 {
      AnglesIgnoredWhenClosed(freqOf, h, angles[..|angles| - 1]);
    }
  }

  /** A line worker leaves the last angle between the line's ends, unless no setpoint took. */
  lemma LineWorkerWithin(freqOf: real -> Option<real>, h: Handler, seen: nat)
    requires h.scan.workerAlive && h.job.pattern == "line"
    ensures var r := AfterWorker(freqOf, h, seen);
      r.lastAngle == h.lastAngle
      || Min(StartAngle(h.job.params), EndAngle(h.job.params)) <= r.lastAngle <= Max(StartAngle(h.job.params), EndAngle(h.job.params))
  {
    var p := h.job.params;
    var d := h.scan.progress;
    var n := if h.scan.stopScan then 0 else seen;
    var lo, hi := Min(StartAngle(p), EndAngle(p)), Max(StartAngle(p), EndAngle(p));
    AnglesLast(freqOf, h, WorkerSetpoints(h.job, h.scan.stopScan, d, n));
    LineSetpointsWithin(p, d + n);
    IssuedFromWithin(LinePlan(p), d, n, Issued(LinePlan(p), d + n), lo, hi);
  }

  /** Bounds on all the setpoints a worker issues hold for those of any stage. */
  lemma IssuedFromWithin(plan: Option<Plan>, d: nat, n: nat, all: seq<real>, lo: real, hi: real)
    requires all == Issued(plan, d + n)
    requires forall i :: 0 <= i < |all| ==> lo <= all[i] <= hi
    ensures forall x :: x in IssuedFrom(plan, d, n) ==> lo <= x <= hi
  {
    var before, s := Issued(plan, d), IssuedFrom(plan, d, n);
    forall x | x in s
      ensures lo <= x <= hi
    {
      var i :| 0 <= i < |s| && s[i] == x;
      assert all[|before| + i] == x;
    }
  }

  /** Running a live worker in two stages is running it once for both: the worker resumes where
      it left off. */
  lemma WorkerInStages(freqOf: real -> Option<real>, h: Handler, a: nat, b: nat)
    requires h.scan.workerAlive && AfterWorker(freqOf, h, a).scan.workerAlive
    ensures AfterWorker(freqOf, AfterWorker(freqOf, h, a), b) == AfterWorker(freqOf, h, a + b)
  {
    var d := h.scan.progress;
    assert h.job.pattern != "point" && !h.scan.stopScan;
    var s1, s2 := WorkerSetpoints(h.job, false, d, a), WorkerSetpoints(h.job, false, d + a, b);
    AliveWorker(freqOf, h, a);
    var g := AfterAngles(freqOf, h, s1);
    var sc := g.scan.(workerAlive := true, progress := d + a);
    AliveWorker(freqOf, g.(scan := sc), b);
    AliveWorker(freqOf, h, a + b);
    SetpointsInStages(h.job, d, a, b);
    AnglesIgnoreScan(freqOf, g, sc, s2);
    AnglesAppend(freqOf, h, s1, s2);
  }

  /** A live worker whose stop flag is clear issues its next setpoints and records the checks. */
  lemma AliveWorker(freqOf: real -> Option<real>, h: Handler, n: nat)
    requires h.scan.workerAlive && !h.scan.stopScan
    ensures AfterWorker(freqOf, h, n)
         == AfterAngles(freqOf, h, WorkerSetpoints(h.job, false, h.scan.progress, n))
              .(scan := h.scan.(workerAlive := WorkerRuns(h.job, false, h.scan.progress + n),
                                progress := h.scan.progress + n))
  {
  }

  /** A worker's setpoints in two stages are its setpoints over both. */
  lemma SetpointsInStages(job: Job, d: nat, a: nat, b: nat)
    ensures job.pattern != "point" ==>
      WorkerSetpoints(job, false, d, a) + WorkerSetpoints(job, false, d + a, b) == WorkerSetpoints(job, false, d, a + b)
  {
    if job.pattern == "line" {
      IssuedInStages(LinePlan(job.params), d, a, b);
    } else if job.pattern == "square" {
      IssuedInStages(SquarePlan(job.params), d, a, b);
    }
  }

  lemma IssuedInStages(plan: Option<Plan>, d: nat, a: nat, b: nat)
    ensures IssuedFrom(plan, d, a) + IssuedFrom(plan, d + a, b) == IssuedFrom(plan, d, a + b)
  {
    StagesCancel(Issued(plan, d), IssuedFrom(plan, d, a), IssuedFrom(plan, d + a, b), IssuedFrom(plan, d, a + b),
                 Issued(plan, d + a), Issued(plan, d + a + b));
  }

  /** What is added in two stages is what is added over both. */
  lemma StagesCancel(b: seq<real>, x: seq<real>, y: seq<real>, z: seq<real>, mid: seq<real>, all: seq<real>)
    requires b + x == mid && mid + y == all && b + z == all
    ensures x + y == z
  {
    assert b + (x + y) == all;
    assert x + y == (b + (x + y))[|b|..];
    assert z == (b + z)[|b|..];
  }

  /** Setting angles neither reads nor changes the scan flags. */
  lemma {:induction false} AnglesIgnoreScan(freqOf: real -> Option<real>, h: Handler, sc: Scan, s: seq<real>)
    ensures AfterAngles(freqOf, h.(scan := sc), s) == AfterAngles(freqOf, h, s).(scan := sc)
    decreases |s|
  {
    if |s| > 0 {
      AnglesIgnoreScan(freqOf, h, sc, s[..|s| - 1]);
    }
  }

  /** Setting angles one list after another is setting them all in turn. */
  lemma {:induction false} AnglesAppend(freqOf: real -> Option<real>, h: Handler, s: seq<real>, t: seq<real>)
    ensures AfterAngles(freqOf, AfterAngles(freqOf, h, s), t) == AfterAngles(freqOf, h, s + t)
    decreases |t|
  {
    if |t| > 0 {
      var front := t[..|t| - 1];
      AnglesAppend(freqOf, h, s, front);
      assert (s + t)[..|s + t| - 1] == s + front;
    } else {
      assert s + t == s;
    }
  }

  /** A line scan with a non-negative pause keeps running as long as the stop flag is clear:
      after any number of setpoints `stop_scanning`, as written, stops it, its worker then
      returns without another setpoint, and a new scan can start. */
  lemma LineScanStoppable(freqOf: real -> Option<real>, h: Handler, p: Params, k: nat, m: nat,
                          name: string, q: Params)
    requires h.connected && !h.scan.scanning && name in Patterns
    requires LinePlan(p).Some? && LinePlan(p).value.delay >= 0.0
    ensures AfterStartScanning(h, "line", p).1
    ensures var h2 := AfterWorker(freqOf, AfterStartScanning(h, "line", p).0, k);
      h2.requested == h.requested + Issued(LinePlan(p), k) && h2.scan.scanning && h2.scan.workerAlive
      && var (h3, ok) := AfterStopAsWritten(h2);
      ok && !h3.scan.scanning
      && AfterWorker(freqOf, h3, m) == h3.(scan := h3.scan.(workerAlive := false))
      && AfterStartScanning(AfterWorker(freqOf, h3, m), name, q).1
  {
    var h1 := AfterStartScanning(h, "line", p).0;
    assert h1.scan.progress == 0 && h1.job == Job("line", p);
    assert IssuedFrom(LinePlan(p), 0, k) == Issued(LinePlan(p), k);
  }

  /** A line or square worker with the stop flag clear goes on round its plan, and is still
      alive unless it has raised. */
  lemma LoopingWorker(freqOf: real -> Option<real>, h: Handler, seen: nat, plan: Option<Plan>)
    requires h.scan.workerAlive && !h.scan.stopScan
    requires (h.job.pattern == "line" && plan == LinePlan(h.job.params))
          || (h.job.pattern == "square" && plan == SquarePlan(h.job.params))
    ensures AfterWorker(freqOf, h, seen)
      == AfterAngles(freqOf, h, IssuedFrom(plan, h.scan.progress, seen))
           .(scan := h.scan.(workerAlive := !PlanRaises(plan, h.scan.progress + seen), progress := h.scan.progress + seen))
  {
    var s := IssuedFrom(plan, h.scan.progress, seen);
    assert WorkerSetpoints(h.job, false, h.scan.progress, seen) == s;
    AnglesIgnoreScan(freqOf, h, h.scan, s);
  }

  /** A worker that finds the stop flag already raised returns without a setpoint (the point
      worker, which never looks at the flag, aside). */
  lemma StoppedWorkerIsSilent(freqOf: real -> Option<real>, h: Handler, seen: nat)
    requires h.scan.workerAlive && h.scan.stopScan && h.job.pattern != "point"
    ensures AfterWorker(freqOf, h, seen) == h.(scan := h.scan.(workerAlive := false))
  {
  }

  /** Connecting and starting writes exactly the start frames to the new port. */
  lemma ConnectThenStart(h: Handler)
    ensures AfterStart(AfterConnect(h, true).0).1
    ensures AfterStart(AfterConnect(h, true).0).0.port == Deflector.Link(Deflector.StartFrames(), false)
  {
  }

  /** Disconnecting an open deflector stops a scan whose worker is alive, sends the stop frames
      and closes the port; a scan whose worker has already ended stays reported as running. A
      second disconnect then fails, because the closed port cannot send the stop frames again. */
  lemma DisconnectTwice(h: Handler)
    requires h.hasPort && !h.port.closed
    ensures var (h1, ok) := AfterDisconnect(h);
      ok && !h1.connected && h1.port.closed
      && (h1.scan.scanning <==> h.scan.scanning && !h.scan.workerAlive)
      && h1.port.frames == h.port.frames + Deflector.StopFrames()
      && AfterDisconnect(h1) == (h1, false)
  {
  }

  /** `start_scanning` succeeds exactly when no scan is reported running, the handler is
      connected and the pattern is known. */
  lemma StartScanningOutcome(h: Handler, name: string, p: Params)
    ensures var (h1, ok) := AfterStartScanning(h, name, p);
      (ok <==> !h.scan.scanning && h.connected && name in Patterns)
      && (ok ==> h1.scan.scanning && h1.scan.workerAlive && !h1.scan.stopScan && h1.scan.current == Some(name))
      && (!ok ==> h1 == h)
  {
  }

  /** The point, line and square patterns are the ones whose setpoints are modelled. */
  lemma KnownPatterns()
    ensures "point" in Patterns && "line" in Patterns && "square" in Patterns
  {
    assert Patterns == {"point", "line", "square", "circle", "zigzag"};
  }

  /** As written, a point scan cannot be stopped: its worker sets one angle and ends at once, so
      `stop_scanning` finds no live thread and declines, the scan stays reported as running,
      and no other scan can ever be started. */
  lemma PointScanStrandsScanning(freqOf: real -> Option<real>, h: Handler, p: Params, seen: nat,
                                 name: string, q: Params)
    requires h.connected && !h.scan.scanning
    ensures AfterStartScanning(h, "point", p).1
    ensures var h2 := AfterWorker(freqOf, AfterStartScanning(h, "point", p).0, seen);
      AfterStopAsWritten(h2) == (h2, false) && h2.scan.scanning && !AfterStartScanning(h2, name, q).1
  {
    KnownPatterns();
  }

  /** With `stop_scanning` acting on the reported state, a finished point scan stops, and any
      known pattern can be started next. */
  lemma PointScanStops(freqOf: real -> Option<real>, h: Handler, p: Params, seen: nat,
                       name: string, q: Params)
    requires h.connected && !h.scan.scanning && name in Patterns
    ensures AfterStartScanning(h, "point", p).1
    ensures var h2 := AfterWorker(freqOf, AfterStartScanning(h, "point", p).0, seen);
      var (h3, ok) := AfterStopScanning(h2);
      ok && !h3.scan.scanning && h3.scan.current.None? && AfterStartScanning(h3, name, q).1
  {
    KnownPatterns();
  }

  /** `stop_scanning` as written succeeds exactly when a scan is reported running and its worker
      is alive; it then raises the stop flag and clears the scan, and otherwise changes nothing. */
  lemma StopAsWrittenOutcome(h: Handler)
    ensures var (h1, ok) := AfterStopAsWritten(h);
      (ok <==> h.scan.scanning && h.scan.workerAlive)
      && (ok ==> !h1.scan.scanning && h1.scan.stopScan && h1.scan.current.None? && h1.job == h.job)
      && (!ok ==> h1 == h)
  {
  }

  /** Stopping as intended succeeds exactly when a scan is reported running, and afterwards none
      is; stopping twice fails the second time. */
  lemma StopScanningOutcome(h: Handler)
    ensures var (h1, ok) := AfterStopScanning(h);
      (ok <==> h.scan.scanning) && !h1.scan.scanning && (ok ==> h1.scan.stopScan)
      && AfterStopScanning(h1) == (h1, false)
  {
  }

  // ---------------------------------------------------------------------------------------
  // The handler object

  class AodHandler {
    /** The calibration every deflector this handler opens uses. */
    const freqOf: real -> Option<real>
    var deflector: Deflector.Port?
    var connected: bool
    var scanning: bool
    var workerAlive: bool
    var stopScan: bool
    var currentPattern: Option<string>
    var progress: nat
    var job: Job
    var lastAngle: real
    var requested: seq<real>

    ghost predicate Valid()
      reads this, deflector
    {
      (connected ==> deflector != null) && (deflector != null ==> deflector.freqOf == freqOf)
    }

    function State(): Handler
      reads this, deflector
    {
      Handler(connected, deflector != null,
              if deflector == null then Deflector.Link([], false) else deflector.State(),
              Scan(scanning, workerAlive, stopScan, currentPattern, progress), job, lastAngle, requested)
    }

    constructor (freqOf: real -> Option<real>)
      ensures Valid() && State() == Initial && this.freqOf == freqOf
    {
      this.freqOf := freqOf;
      deflector := null;
      connected := false;
      scanning := false;
      workerAlive := false;
      stopScan := false;
      currentPattern := None;
      progress := 0;
      job := Job([], map[]);
      lastAngle := 0.0;
      requested := [];
    }

    /** `built` says whether the `Deflector` constructor returns (the calibration file is read
        and the serial port opens) or raises. */
    method Connect(built: bool) returns (ok: bool)
      requires Valid()
      modifies this
      ensures Valid() && (State(), ok) == AfterConnect(old(State()), built)
      ensures built ==> fresh(deflector)
      ensures !built ==> deflector == old(deflector)
    {
      if built {
        var d := new Deflector.Port(freqOf);
        deflector := d;
        connected := true;
        ok := true;
      } else {
        connected := false;
        ok := false;
      }
    }

    method Start() returns (ok: bool)
      requires Valid()
      modifies this, deflector
      ensures Valid() && deflector == old(deflector) && (State(), ok) == AfterStart(old(State()))
    {
      if !connected || deflector == null {
        return false;
      }
      ok := deflector.Start();
    }

    method SetAngle(angle: real) returns (ok: bool)
      requires Valid()
      modifies this, deflector
      ensures Valid() && deflector == old(deflector) && (State(), ok) == AfterAngle(freqOf, old(State()), angle)
    {
      requested := requested + [angle];
      if !connected || deflector == null {
        return false;
      }
      ok := deflector.SetAngle(angle);
      if ok {
        lastAngle := angle;
      }
    }

    method SetAmplitude(ampl: real) returns (ok: bool)
      requires Valid()
      modifies this, deflector
      ensures Valid() && deflector == old(deflector) && (State(), ok) == AfterAmplitude(old(State()), ampl)
    {
      if !connected || deflector == null {
        return false;
      }
      ok := deflector.SetAmpl(ampl);
    }

    /** Starting the worker thread is modelled by marking it alive with its job; `RunWorker`
        then carries it out. */
    method StartScanning(name: string, params: Params) returns (ok: bool)
      requires Valid()
      modifies this
      ensures Valid() && deflector == old(deflector) && (State(), ok) == AfterStartScanning(old(State()), name, params)
    {
      if scanning || !connected {
        return false;
      }
      if name !in Patterns {
        return false;
      }
      stopScan := false;
      currentPattern := Some(name);
      progress := 0;
      job := Job(name, params);
      workerAlive := true;
      scanning := true;
      ok := true;
    }

    /** `stop_scanning` as the source writes it; the join's timeout is not modelled, the worker
        ends when `RunWorker` next runs it. */
    method StopScanningAsWritten() returns (ok: bool)
      requires Valid()
      modifies this
      ensures Valid() && deflector == old(deflector) && (State(), ok) == AfterStopAsWritten(old(State()))
    {
      if scanning && workerAlive {
        stopScan := true;
        scanning := false;
        currentPattern := None;
        return true;
      }
      ok := false;
    }

    method StopScanning() returns (ok: bool)
      requires Valid()
      modifies this
      ensures Valid() && deflector == old(deflector) && (State(), ok) == AfterStopScanning(old(State()))
    {
      if scanning {
        stopScan := true;
        scanning := false;
        currentPattern := None;
        return true;
      }
      ok := false;
    }

    method Disconnect() returns (ok: bool)
      requires Valid()
      modifies this, deflector
      ensures Valid() && deflector == old(deflector) && (State(), ok) == AfterDisconnect(old(State()))
    {
      if deflector == null {
        return true;
      }
      var stopped := StopScanningAsWritten();
      var sent := deflector.Stop();
      if !sent {
        return false;
      }
      deflector.Close();
      connected := false;
      ok := true;
    }

    /** Sets the angles `from` up to `to` of the endless round through `cycle`. */
    method Sweep(cycle: seq<real>, from: nat, to: nat)
      requires Valid() && |cycle| > 0 && from <= to
      modifies this, deflector
      ensures Valid() && deflector == old(deflector)
      ensures State() == AfterAngles(freqOf, old(State()), Repeat(cycle, to)[from..])
    {
      var i := from;
      while i < to
        invariant from <= i <= to
        invariant Valid() && deflector == old(deflector)
        invariant State() == AfterAngles(freqOf, old(State()), Repeat(cycle, i)[from..])
      {
        var angle := cycle[i % |cycle|];
        var ok := SetAngle(angle);
        assert Repeat(cycle, i + 1)[from..] == Repeat(cycle, i)[from..] + [angle];
        i := i + 1;
      }
    }

    /** Goes on round `plan` from where the worker left off, while it finds the stop flag clear
        `seen` more times. */
    method Resume(plan: Plan, seen: nat)
      requires Valid()
      modifies this, deflector
      ensures Valid() && deflector == old(deflector)
      ensures State() == AfterAngles(freqOf, old(State()), IssuedFrom(Some(plan), progress, seen))
    {
      if |plan.cycle| == 0 {
        return;
      }
      var from := IssuedCount(plan, progress);
      var to := IssuedCount(plan, progress + seen);
      assert IssuedFrom(Some(plan), progress, seen) == Repeat(plan.cycle, to)[from..];
      Sweep(plan.cycle, from, to);
    }

    /** The line worker: its angles come from `linspace`, and it goes round them forward then
        backward from where it left off, checking the stop flag before each setpoint, until it
        has found the flag clear `seen` more times; it raises without a plan. */
    method LineScan(seen: nat)
      requires Valid() && workerAlive && !stopScan && job.pattern == "line"
      modifies this, deflector
      ensures Valid() && deflector == old(deflector) && State() == AfterWorker(freqOf, old(State()), seen)
    {
      ghost var h := State();
      var plan := MakeLinePlan(job.params);
      Loop(plan, seen);
      LoopingWorker(freqOf, h, seen, plan);
    }

    /** The square worker: its points are built one by one, then it goes round them like the
        line worker. */
    method SquareScan(seen: nat)
      requires Valid() && workerAlive && !stopScan && job.pattern == "square"
      modifies this, deflector
      ensures Valid() && deflector == old(deflector) && State() == AfterWorker(freqOf, old(State()), seen)
    {
      ghost var h := State();
      var plan := MakeSquarePlan(job.params);
      Loop(plan, seen);
      LoopingWorker(freqOf, h, seen, plan);
    }

    /** A looping worker goes on round its plan, then is marked ended once it has raised. */
    method Loop(plan: Option<Plan>, seen: nat)
      requires Valid()
      modifies this, deflector
      ensures Valid() && deflector == old(deflector)
      ensures State() == AfterAngles(freqOf, old(State()), IssuedFrom(plan, old(progress), seen))
                           .(scan := old(State()).scan.(workerAlive := !PlanRaises(plan, old(progress) + seen),
                                                        progress := old(progress) + seen))
    {
      ghost var h := State();
      if plan.Some? {
        Resume(plan.value, seen);
      }
      ghost var g := State();
      assert g == AfterAngles(freqOf, h, IssuedFrom(plan, progress, seen));
      workerAlive := !(plan.None? || (|plan.value.cycle| > 0 && plan.value.delay < 0.0 && progress + seen >= 1));
      progress := progress + seen;
    }

    /** The worker thread of the current job runs on until it has found the stop flag clear
        `seen` more times, or returns or raises first. */
    method RunWorker(seen: nat)
      requires Valid()
      modifies this, deflector
      ensures Valid() && deflector == old(deflector) && State() == AfterWorker(freqOf, old(State()), seen)
    {
      if !workerAlive {
        return;
      }
      if job.pattern == "point" {
        var angle := PointAngle(job.params);
        ghost var h := State();
        var ok := SetAngle(angle);
        assert [angle][..0] == [];
        assert State() == AfterAngles(freqOf, h, [angle]);
        workerAlive := false;
        progress := progress + if stopScan then 0 else seen;
      } else if stopScan {
        // every other worker checks the flag first and returns
        workerAlive := false;
      } else if job.pattern == "line" {
        LineScan(seen);
      } else if job.pattern == "square" {
        SquareScan(seen);
      } else {
        // the circle and zigzag workers run on, with no modelled setpoints
        progress := progress + seen;
      }
    }
  }

  /** The line worker's set-up: `linspace` and the pause; `None` when it raises. */
  method MakeLinePlan(p: Params) returns (plan: Option<Plan>)
    ensures plan == LinePlan(p)
  {
    var steps := LineSteps(p);
    if !steps.Int? || steps.i < 0 {
      return None;
    }
    var pause := Pause(Abs(EndAngle(p) - StartAngle(p)), steps.i, Speed(p));
    if pause.None? {
      return None;
    }
    var angles := Linspace(StartAngle(p), EndAngle(p), steps.i);
    plan := Some(Plan(angles + Reversed(angles), pause.value));
  }

  /** The square worker's set-up: the points built one by one and the pause; `None` when it
      raises. */
  method MakeSquarePlan(p: Params) returns (plan: Option<Plan>)
    ensures plan == SquarePlan(p)
  {
    var steps := SideSteps(p);
    if !steps.Int? {
      return None;
    }
    var built := BuildSquarePoints(HalfSide(p), steps.i);
    if built.None? {
      return None;
    }
    var pause := Pause(2.0 * HalfSide(p), steps.i, Speed(p));
    if pause.None? {
      return None;
    }
    plan := Some(Plan(built.value + Reversed(built.value), pause.value));
  }

  /** The square pattern's points, appended one at a time; `None` when the division by
      `steps - 1` fails. */
  method BuildSquarePoints(size: real, steps: int) returns (points: Option<seq<real>>)
    ensures steps == 1 <==> points.None?
    ensures steps != 1 ==> points == Some(SquarePoints(size, if steps < 0 then 0 else steps))
  {
    if steps == 1 {
      // the first point, i = 0, already divides by steps - 1 = 0
      return None;
    }
    var n: nat := if steps < 0 then 0 else steps;  // range(steps) is empty for a negative count
    var acc: seq<real> := [];
    var i := 0;
    while i < n
      invariant 0 <= i <= n
      invariant |acc| == i && forall k :: 0 <= k < i ==> acc[k] == SquarePoint(size, steps - 1, k)
    {
      acc := acc + [SquarePoint(size, steps - 1, i)];
      i := i + 1;
    }
    assert acc == SquarePoints(size, n);
    points := Some(acc);
  }
}
