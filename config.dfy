/** Device configuration as data: every configuration operation of the driver
    is a list of register steps run in order, stopping at the first step that
    fails. The driver's methods perform these steps one call at a time; the
    functions here say what the whole list does to the register bank. */
module Config {
  import opened Registers
  import opened Bus

  /** One register step: a plain write, a masked read-modify-write of a bit
      field, or setMode's read-modify-write of ENABLE. */
  datatype Step =
    | Put(reg: Addr, val: bv8)
    | SetBits(field: Field, val: bv8)
    | Mode(mode: bv8, enable: bv8)

  /** The register a step writes. */
  function Target(s: Step): Addr {
    match s
    case Put(reg, _) => reg
    case SetBits(f, _) => f.reg
    case Mode(_, _) => ENABLE
  }

  /** Whether a step meets an unreadable or unwritable register. */
  predicate Faulty(s: Step, env: Env) {
    match s
    case Put(reg, _) => reg in env.writeFails
    case SetBits(f, _) => f.reg in env.readFails || f.reg in env.writeFails
    case Mode(_, _) => ENABLE in env.readFails || ENABLE in env.writeFails
  }

  /** Write `v` to `reg` unless the write fails. */
  function Store(regs: seq<bv8>, env: Env, reg: Addr, v: bv8): (res: (seq<bv8>, Status))
    requires |regs| == 256
  {
    if reg in env.writeFails then (regs, Err(WriteFailed(reg))) else (regs[reg := v], Ok)
  }

  /** What one step does: the new register bank and the step's status. A
      setter whose read fails reports ControlUnreadable; setMode reports the
      transport's error when ENABLE cannot be read and DeviceNotEnabled when
      it reads 0xFF. */
  function Exec(s: Step, regs: seq<bv8>, env: Env): (res: (seq<bv8>, Status))
    requires |regs| == 256
    ensures |res.0| == 256
    ensures res.1.Err? ==> res.0 == regs
    ensures res.1.Ok? ==> res.0 == regs[Target(s) := res.0[Target(s)]]
    ensures res.1.Ok? <==> env.connected && !Faulty(s, env) && !(s.Mode? && regs[ENABLE] == ERROR)
  {
    if !env.connected then (regs, Err(ConnectionNotAvailable))
    else
      match s
      case Put(reg, v) => Store(regs, env, reg, v)
      case SetBits(f, v) =>
        if f.reg in env.readFails then (regs, Err(ControlUnreadable))
        else Store(regs, env, f.reg, Insert(regs[f.reg], f, v))
      case Mode(m, e) =>
        if ENABLE in env.readFails then (regs, Err(ReadFailed(ENABLE)))
        else if regs[ENABLE] == ERROR then (regs, Err(DeviceNotEnabled))
        else Store(regs, env, ENABLE, ModeByte(regs[ENABLE], m, e))
  }

  /** A field setter's outcome, case by case. */
  lemma ExecSetBits(f: Field, val: bv8, regs: seq<bv8>, env: Env)
    requires |regs| == 256
    ensures Exec(SetBits(f, val), regs, env) ==
      if !env.connected then (regs, Err(ConnectionNotAvailable))
      else if f.reg in env.readFails then (regs, Err(ControlUnreadable))
      else if f.reg in env.writeFails then (regs, Err(WriteFailed(f.reg)))
      else (regs[f.reg := Insert(regs[f.reg], f, val)], Ok)
  {
  }

  /** Steps k.. of a list, run in order; the first failing step ends the run
      with its error and the bank as that step left it. */
  function Run(steps: seq<Step>, k: nat, regs: seq<bv8>, env: Env): (res: (seq<bv8>, Status))
    requires |regs| == 256 && k <= |steps|
    ensures |res.0| == 256
    decreases |steps| - k
  {
    if k == |steps| then (regs, Ok)
    else
      var next := Exec(steps[k], regs, env);
      if next.1.Err? then next else Run(steps, k + 1, next.0, env)
  }

  /** A run that succeeds from step k has step k succeed and continues from
      the bank that step leaves. */
  lemma RunOkStep(steps: seq<Step>, k: nat, regs: seq<bv8>, env: Env)
    requires |regs| == 256 && k < |steps|
    requires Run(steps, k, regs, env).1.Ok?
    ensures Exec(steps[k], regs, env).1.Ok?
    ensures Run(steps, k, regs, env) == Run(steps, k + 1, Exec(steps[k], regs, env).0, env)
  {
  }

  /** A successful setMode(m, 1) with a single-bit mode sets bit m of ENABLE. */
  lemma ModeOn(regs: seq<bv8>, env: Env, m: bv8)
    requires |regs| == 256 && m <= 6
    requires Exec(Mode(m, 1), regs, env).1.Ok?
    ensures Exec(Mode(m, 1), regs, env).0[ENABLE] == regs[ENABLE] | (1 << m)
  {
  }

  /** A successful setMode(m, 0) with a single-bit mode clears bit m of ENABLE. */
  lemma ModeOff(regs: seq<bv8>, env: Env, m: bv8)
    requires |regs| == 256 && m <= 6
    requires Exec(Mode(m, 0), regs, env).1.Ok?
    ensures Exec(Mode(m, 0), regs, env).0[ENABLE] == regs[ENABLE] & !(1 << m)
  {
  }

  /** A successful field setter leaves the field reading back the value
      written, changes no other bit of its register, and no other register. */
  lemma SetBitsThenGet(f: Field, v: bv8, regs: seq<bv8>, env: Env)
    requires |regs| == 256 && Exact(f)
    requires Exec(SetBits(f, v), regs, env).1.Ok?
    ensures var after := Exec(SetBits(f, v), regs, env).0;
      && Read(after, env, f.reg) == (after[f.reg], Ok)
      && Extract(after[f.reg], f) == v & f.mask
      && after[f.reg] & f.clear == regs[f.reg] & f.clear
      && forall a: Addr :: a != f.reg ==> after[a] == regs[a]
  {
    FieldRoundTrip(regs[f.reg], f, v);
  }

  /** Running two lists back to back is running the first and, only if it
      succeeded, the second from where the first left the bank. */
  lemma {:induction false} RunAppend(s1: seq<Step>, s2: seq<Step>, k: nat, regs: seq<bv8>, env: Env)
    requires |regs| == 256 && k <= |s1|
    ensures Run(s1 + s2, k, regs, env) ==
      var first := Run(s1, k, regs, env);
      if first.1.Err? then first else Run(s2, 0, first.0, env)
    decreases |s1| - k
  {
    if k == |s1| {
      RunShift(s1, s2, 0, regs, env);
    } else {
      assert (s1 + s2)[k] == s1[k];
      var next := Exec(s1[k], regs, env);
      if next.1.Ok? {
        RunAppend(s1, s2, k + 1, next.0, env);
      }
    }
  }

  /** Running s1 + s2 from position |s1| + k is running s2 from k. */
  lemma {:induction false} RunShift(s1: seq<Step>, s2: seq<Step>, k: nat, regs: seq<bv8>, env: Env)
    requires |regs| == 256 && k <= |s2|
    ensures Run(s1 + s2, |s1| + k, regs, env) == Run(s2, k, regs, env)
    decreases |s2| - k
  {
    if k < |s2| {
      assert (s1 + s2)[|s1| + k] == s2[k];
      var next := Exec(s2[k], regs, env);
      if next.1.Ok? {
        RunShift(s1, s2, k + 1, next.0, env);
      }
    }
  }

  /** A register that no remaining step writes keeps its value, whatever the
      run's outcome. */
  lemma {:induction false} RunFrame(steps: seq<Step>, k: nat, regs: seq<bv8>, env: Env, a: Addr)
    requires |regs| == 256 && k <= |steps|
    requires forall j :: k <= j < |steps| ==> Target(steps[j]) != a
    ensures Run(steps, k, regs, env).0[a] == regs[a]
    decreases |steps| - k
  {
    if k < |steps| {
      var next := Exec(steps[k], regs, env);
      if next.1.Ok? {
        RunFrame(steps, k + 1, next.0, env, a);
      }
    }
  }

  /** A list without setMode steps succeeds exactly when the connection exists
      and none of its steps meets a failing register. */
  lemma {:induction false} RunSucceedsIffNoFault(steps: seq<Step>, k: nat, regs: seq<bv8>, env: Env)
    requires |regs| == 256 && k <= |steps|
    requires forall j :: k <= j < |steps| ==> !steps[j].Mode?
    ensures Run(steps, k, regs, env).1.Ok? <==>
      (k == |steps| || env.connected) && forall j :: k <= j < |steps| ==> !Faulty(steps[j], env)
    decreases |steps| - k
  {
    if k < |steps| {
      var next := Exec(steps[k], regs, env);
      if next.1.Ok? {
        RunSucceedsIffNoFault(steps, k + 1, next.0, env);
      }
    }
  }

  /** Start's first phase: all functions off, then the timing, pulse,
      offset and configuration registers. */
  const StartTimings: seq<Step> := [
    Mode(ALL, 0),
    Put(ATIME, DEFAULT_ATIME),
    Put(WTIME, DEFAULT_WTIME),
    Put(PPULSE, DEFAULT_PROX_PPULSE),
    Put(POFFSET_UR, DEFAULT_POFFSET_UR),
    Put(POFFSET_DL, DEFAULT_POFFSET_DL),
    Put(CONFIG1, DEFAULT_CONFIG1)
  ]

  /** Start's second phase: LED drive, gains and the proximity and light
      interrupt thresholds (the light ones as their two big-endian bytes). */
  const StartSensing: seq<Step> := [
    SetBits(LedDrive, DEFAULT_LDRIVE),
    SetBits(ProximityGain, DEFAULT_PGAIN),
    SetBits(AmbientLightGain, DEFAULT_AGAIN),
    Put(PILT, DEFAULT_PILT),
    Put(PIHT, DEFAULT_PIHT)
  ] + ThresholdSteps(AILTL, AILTH, DEFAULT_AILT) + ThresholdSteps(AIHTL, AIHTH, DEFAULT_AIHT)

  /** From its sixth step on, the second phase is the two light threshold
      writes one after the other. */
  lemma StartSensingThresholds(regs: seq<bv8>, env: Env)
    requires |regs| == 256
    ensures Run(StartSensing, 5, regs, env) ==
      Then(Run(ThresholdSteps(AILTL, AILTH, DEFAULT_AILT), 0, regs, env), ThresholdSteps(AIHTL, AIHTH, DEFAULT_AIHT), env)
  {
    var low := ThresholdSteps(AILTL, AILTH, DEFAULT_AILT);
    var head := StartSensing[..5];
    assert StartSensing == head + low + ThresholdSteps(AIHTL, AIHTH, DEFAULT_AIHT);
    RunAppend(head + low, ThresholdSteps(AIHTL, AIHTH, DEFAULT_AIHT), 5, regs, env);
    RunShift(head, low, 0, regs, env);
  }

  /** Start's third phase: persistence, configuration and the gesture
      entry and exit thresholds. */
  const StartControls: seq<Step> := [
    Put(PERS, DEFAULT_PERS),
    Put(CONFIG2, DEFAULT_CONFIG2),
    Put(CONFIG3, DEFAULT_CONFIG3),
    Put(GPENTH, DEFAULT_GPENTH),
    Put(GEXTH, DEFAULT_GEXTH),
    Put(CONFIG1, DEFAULT_CONFIG1)
  ]

  /** Start's last phase: the gesture engine's gain, drive, wait time,
      offsets, pulses, dimension selection and interrupt enable. */
  const StartGestureSetup: seq<Step> := [
    SetBits(GestureGain, DEFAULT_GGAIN),
    SetBits(GestureLedDrive, DEFAULT_GLDRIVE),
    SetBits(GestureWaitTime, DEFAULT_GWTIME),
    Put(GOFFSET_U, DEFAULT_GOFFSET),
    Put(GOFFSET_D, DEFAULT_GOFFSET),
    Put(GOFFSET_L, DEFAULT_GOFFSET),
    Put(GOFFSET_R, DEFAULT_GOFFSET),
    Put(GPULSE, DEFAULT_GPULSE),
    Put(GCONF3, DEFAULT_GCONF3),
    SetBits(GestureIntEnable, DEFAULT_GIEN)
  ]

  /** Start's programming sequence after the identity check. */
  const StartSteps: seq<Step> := StartTimings + StartSensing + StartControls + StartGestureSetup

  /** Continue a run that has so far ended in `prev` with further steps. */
  function Then(prev: (seq<bv8>, Status), steps: seq<Step>, env: Env): (res: (seq<bv8>, Status))
    requires |prev.0| == 256
    ensures |res.0| == 256
    ensures prev.1.Err? ==> res == prev
  {
    if prev.1.Err? then prev else Run(steps, 0, prev.0, env)
  }

  /** Running a concatenation is running its parts one after the other. */
  lemma RunConcat(s1: seq<Step>, s2: seq<Step>, regs: seq<bv8>, env: Env)
    requires |regs| == 256
    ensures Run(s1 + s2, 0, regs, env) == Then(Run(s1, 0, regs, env), s2, env)
  {
    RunAppend(s1, s2, 0, regs, env);
  }

  /** Start's sequence runs as its four phases in order. */
  lemma StartInPhases(regs: seq<bv8>, env: Env)
    requires |regs| == 256
    ensures Run(StartSteps, 0, regs, env) ==
      Then(Then(Then(Run(StartTimings, 0, regs, env), StartSensing, env), StartControls, env), StartGestureSetup, env)
  {
    RunConcat(StartTimings + StartSensing + StartControls, StartGestureSetup, regs, env);
    RunConcat(StartTimings + StartSensing, StartControls, regs, env);
    RunConcat(StartTimings, StartSensing, regs, env);
  }

  /** Start: no connection, or an ID other than the two accepted ones (a
      failed ID read delivers 0), ends with nothing written; otherwise the
      programming sequence runs. */
  function StartSpec(regs: seq<bv8>, env: Env): (res: (seq<bv8>, Status))
    requires |regs| == 256
    ensures |res.0| == 256
  {
    if !env.connected then (regs, Err(ConnectionNotAvailable))
    else
      var id := Read(regs, env, ID).0;
      if id != ID_1 && id != ID_2 then (regs, Err(NotApds9960))
      else Run(StartSteps, 0, regs, env)
  }

  /** A device whose ID register is unreadable or holds a foreign ID is
      rejected before any register is written. */
  lemma StartRejectsForeignDevice(regs: seq<bv8>, env: Env)
    requires |regs| == 256 && env.connected
    requires ID in env.readFails || (regs[ID] != ID_1 && regs[ID] != ID_2)
    ensures StartSpec(regs, env) == (regs, Err(NotApds9960))
  {
  }

  /** With an accepted ID, Start succeeds exactly when ENABLE does not read
      0xFF and no register of the sequence fails; registers outside the
      sequence are never touched. */
  lemma StartOutcome(regs: seq<bv8>, env: Env)
    requires |regs| == 256 && env.connected
    requires ID !in env.readFails && (regs[ID] == ID_1 || regs[ID] == ID_2)
    ensures StartSpec(regs, env).1.Ok? <==>
      && regs[ENABLE] != ERROR
      && forall j :: 0 <= j < |StartSteps| ==> !Faulty(StartSteps[j], env)
    ensures forall a: Addr :: (forall j :: 0 <= j < |StartSteps| ==> Target(StartSteps[j]) != a) ==>
      StartSpec(regs, env).0[a] == regs[a]
  {
    var first := Exec(StartSteps[0], regs, env);
    if first.1.Ok? {
      RunSucceedsIffNoFault(StartSteps, 1, first.0, env);
    }
    forall a: Addr | forall j :: 0 <= j < |StartSteps| ==> Target(StartSteps[j]) != a
      ensures StartSpec(regs, env).0[a] == regs[a]
    {
      RunFrame(StartSteps, 0, regs, env, a);
    }
  }

  /** setLightIntLowThreshold / setLightIntHighThreshold: the big-endian bytes
      of x, the first to the `...L` register and the second to `...H`. */
  function ThresholdSteps(low: Addr, high: Addr, x: bv16): seq<Step> {
    [Put(low, BigEndianFirst(x)), Put(high, BigEndianSecond(x))]
  }

  /** A 16-bit value read from a low and a high register, as the light
      threshold getters and the colour readers form it: `L + (H << 8)`. The
      first failed read ends it with what has been assembled so far, which
      is 0 when the low read fails and the low byte when the high one does. */
  function PairRead(regs: seq<bv8>, env: Env, low: Addr, high: Addr): (res: (bv16, Status))
    requires |regs| == 256
    ensures res.1.Ok? <==> env.connected && low !in env.readFails && high !in env.readFails
    ensures res.1.Ok? ==> res.0 & 0xFF == regs[low] as bv16 && res.0 >> 8 == regs[high] as bv16
    ensures res.1.Err? ==> res.0 == if env.connected && low !in env.readFails then regs[low] as bv16 else 0
  {
    var (lo, st1) := Read(regs, env, low);
    if st1.Err? then (0, st1)
    else
      var (hi, st2) := Read(regs, env, high);
      if st2.Err? then (lo as bv16, st2) else (Combine(lo, hi), Ok)
  }

  /** Reading a light threshold back after setting it to x gives x with its
      bytes swapped, provided the registers can be read. */
  lemma ThresholdRoundTrip(regs: seq<bv8>, env: Env, low: Addr, high: Addr, x: bv16)
    requires |regs| == 256 && low != high
    requires low !in env.readFails && high !in env.readFails
    requires Run(ThresholdSteps(low, high, x), 0, regs, env).1.Ok?
    ensures PairRead(Run(ThresholdSteps(low, high, x), 0, regs, env).0, env, low, high) == (Swap(x), Ok)
  {
    var steps := ThresholdSteps(low, high, x);
    RunOkStep(steps, 0, regs, env);
    var r1 := Exec(steps[0], regs, env);
    RunOkStep(steps, 1, r1.0, env);
    var r2 := Exec(steps[1], r1.0, env);
    assert Run(steps, 0, regs, env) == r2;
    assert r2.0[low] == BigEndianFirst(x) && r2.0[high] == BigEndianSecond(x);
    ThresholdReadBack(x);
  }

  /** EnableLightSensor: ambient gain, ambient interrupt enable, power, ALS. */
  function EnableLightSteps(interrupts: bool): seq<Step> {
    [ SetBits(AmbientLightGain, DEFAULT_AGAIN),
      SetBits(AmbientLightIntEnable, if interrupts then 1 else 0),
      Mode(POWER, 1),
      Mode(AMBIENT_LIGHT, 1) ]
  }

  /** disableLightSensor: ambient interrupt off, ALS off. */
  const DisableLightSteps: seq<Step> := [SetBits(AmbientLightIntEnable, 0), Mode(AMBIENT_LIGHT, 0)]

  /** EnableProximitySensor: proximity gain, LED drive, proximity interrupt
      enable, power, proximity. */
  function EnableProximitySteps(interrupts: bool): seq<Step> {
    [ SetBits(ProximityGain, DEFAULT_PGAIN),
      SetBits(LedDrive, DEFAULT_LDRIVE),
      SetBits(ProximityIntEnable, if interrupts then 1 else 0),
      Mode(POWER, 1),
      Mode(PROXIMITY, 1) ]
  }

  /** disableProximitySensor: proximity interrupt off, proximity off. */
  const DisableProximitySteps: seq<Step> := [SetBits(ProximityIntEnable, 0), Mode(PROXIMITY, 0)]

  /** EnableGestureSensor after resetting the gesture state: maximum wait
      time, gesture pulse count, LED boost 300%, gesture interrupt enable,
      gesture mode, power, then the wait, proximity and gesture bits. */
  function EnableGestureSteps(interrupts: bool): seq<Step> {
    GesturePrep(interrupts) + GestureModesOn
  }

  /** EnableGestureSensor's first phase: the gesture configuration. */
  function GesturePrep(interrupts: bool): seq<Step> {
    [ Put(WTIME, 0xFF),
      Put(PPULSE, DEFAULT_GESTURE_PPULSE),
      SetBits(LedBoost, LED_BOOST_300),
      SetBits(GestureIntEnable, if interrupts then 1 else 0),
      SetBits(GestureMode, 1) ]
  }

  /** EnableGestureSensor's second phase: power, wait, proximity and gesture on. */
  const GestureModesOn: seq<Step> := [Mode(POWER, 1), Mode(WAIT, 1), Mode(PROXIMITY, 1), Mode(GESTURE, 1)]

  /** disableGestureSensor: gesture interrupt off, gesture mode off, gesture bit off. */
  const DisableGestureSteps: seq<Step> := [SetBits(GestureIntEnable, 0), SetBits(GestureMode, 0), Mode(GESTURE, 0)]

  /** A successful EnableGestureSensor leaves the wait time at its maximum,
      the gesture pulse count at its default, the LED boost at 300%, the
      gesture interrupt enable as requested and gesture mode on, and ENABLE
      with power, wait, proximity and gesture (0x4D) set over the old byte. */
  lemma EnableGestureOutcome(regs: seq<bv8>, env: Env, interrupts: bool)
    requires |regs| == 256
    requires Run(EnableGestureSteps(interrupts), 0, regs, env).1.Ok?
    ensures var after := Run(EnableGestureSteps(interrupts), 0, regs, env).0;
      && after[WTIME] == 0xFF
      && after[PPULSE] == DEFAULT_GESTURE_PPULSE
      && Extract(after[GCONF2], LedBoost) == LED_BOOST_300
      && Extract(after[GCONF4], GestureIntEnable) == (if interrupts then 1 else 0)
      && Extract(after[GCONF4], GestureMode) == 1
      && after[ENABLE] == regs[ENABLE] | 0x4D
  {
    var s := EnableGestureSteps(interrupts);
    RunOkStep(s, 0, regs, env);
    var r1 := Exec(s[0], regs, env).0;
    RunOkStep(s, 1, r1, env);
    var r2 := Exec(s[1], r1, env).0;
    RunOkStep(s, 2, r2, env);
    var r3 := Exec(s[2], r2, env).0;
    RunOkStep(s, 3, r3, env);
    var r4 := Exec(s[3], r3, env).0;
    RunOkStep(s, 4, r4, env);
    var r5 := Exec(s[4], r4, env).0;
    assert r5[ENABLE] == regs[ENABLE];
    assert r5[GCONF4] == Insert(Insert(r3[GCONF4], GestureIntEnable, if interrupts then 1 else 0), GestureMode, 1);
    RunOkStep(s, 5, r5, env);
    ModeOn(r5, env, POWER);
    var r6 := Exec(s[5], r5, env).0;
    RunOkStep(s, 6, r6, env);
    ModeOn(r6, env, WAIT);
    var r7 := Exec(s[6], r6, env).0;
    RunOkStep(s, 7, r7, env);
    ModeOn(r7, env, PROXIMITY);
    var r8 := Exec(s[7], r7, env).0;
    RunOkStep(s, 8, r8, env);
    ModeOn(r8, env, GESTURE);
    var r9 := Exec(s[8], r8, env).0;
    assert Run(s, 0, regs, env).0 == r9;
    assert r9[ENABLE] == ((((regs[ENABLE] | 1) | 8) | 4) | 64);
    assert r9[WTIME] == r1[WTIME] && r9[PPULSE] == r2[PPULSE];
    assert r9[GCONF2] == r3[GCONF2] && r9[GCONF4] == r5[GCONF4];
  }

  /** A successful EnableLightSensor leaves the ambient light gain at its
      default, and ENABLE with power and the ambient light function on and
      the ambient light interrupt bit as requested. */
  lemma EnableLightOutcome(regs: seq<bv8>, env: Env, interrupts: bool)
    requires |regs| == 256
    requires Run(EnableLightSteps(interrupts), 0, regs, env).1.Ok?
    ensures var after := Run(EnableLightSteps(interrupts), 0, regs, env).0;
      && after[ENABLE] == (regs[ENABLE] & 0xEF) | (if interrupts then 0x10 else 0) | 0x03
      && Extract(after[CONTROL], AmbientLightGain) == DEFAULT_AGAIN
  {
    var s := EnableLightSteps(interrupts);
    RunOkStep(s, 0, regs, env);
    var r1 := Exec(s[0], regs, env).0;
    RunOkStep(s, 1, r1, env);
    var r2 := Exec(s[1], r1, env).0;
    RunOkStep(s, 2, r2, env);
    ModeOn(r2, env, POWER);
    var r3 := Exec(s[2], r2, env).0;
    RunOkStep(s, 3, r3, env);
    ModeOn(r3, env, AMBIENT_LIGHT);
    var r4 := Exec(s[3], r3, env).0;
    assert Run(s, 0, regs, env).0 == r4;
    assert r4[CONTROL] == r1[CONTROL];
  }

  /** A successful disableLightSensor clears the ambient light interrupt bit
      and the ambient light function bit of ENABLE. */
  lemma DisableLightOutcome(regs: seq<bv8>, env: Env)
    requires |regs| == 256
    requires Run(DisableLightSteps, 0, regs, env).1.Ok?
    ensures Run(DisableLightSteps, 0, regs, env).0[ENABLE] == regs[ENABLE] & 0xED
  {
    var s := DisableLightSteps;
    RunOkStep(s, 0, regs, env);
    var r1 := Exec(s[0], regs, env).0;
    RunOkStep(s, 1, r1, env);
    ModeOff(r1, env, AMBIENT_LIGHT);
    var r2 := Exec(s[1], r1, env).0;
    assert Run(s, 0, regs, env).0 == r2;
  }

  /** A successful EnableProximitySensor leaves the proximity gain and the LED
      drive at their defaults, and ENABLE with power and proximity on and the
      proximity interrupt bit as requested. */
  lemma EnableProximityOutcome(regs: seq<bv8>, env: Env, interrupts: bool)
    requires |regs| == 256
    requires Run(EnableProximitySteps(interrupts), 0, regs, env).1.Ok?
    ensures var after := Run(EnableProximitySteps(interrupts), 0, regs, env).0;
      && after[ENABLE] == (regs[ENABLE] & 0xDF) | (if interrupts then 0x20 else 0) | 0x05
      && Extract(after[CONTROL], ProximityGain) == DEFAULT_PGAIN
      && Extract(after[CONTROL], LedDrive) == DEFAULT_LDRIVE
  {
    var s := EnableProximitySteps(interrupts);
    RunOkStep(s, 0, regs, env);
    var r1 := Exec(s[0], regs, env).0;
    RunOkStep(s, 1, r1, env);
    var r2 := Exec(s[1], r1, env).0;
    RunOkStep(s, 2, r2, env);
    var r3 := Exec(s[2], r2, env).0;
    RunOkStep(s, 3, r3, env);
    ModeOn(r3, env, POWER);
    var r4 := Exec(s[3], r3, env).0;
    RunOkStep(s, 4, r4, env);
    ModeOn(r4, env, PROXIMITY);
    var r5 := Exec(s[4], r4, env).0;
    assert Run(s, 0, regs, env).0 == r5;
    assert r5[CONTROL] == r2[CONTROL];
    assert r3[ENABLE] == Insert(regs[ENABLE], ProximityIntEnable, if interrupts then 1 else 0);
  }

  /** A successful disableProximitySensor clears the proximity interrupt bit
      and the proximity function bit of ENABLE. */
  lemma DisableProximityOutcome(regs: seq<bv8>, env: Env)
    requires |regs| == 256
    requires Run(DisableProximitySteps, 0, regs, env).1.Ok?
    ensures Run(DisableProximitySteps, 0, regs, env).0[ENABLE] == regs[ENABLE] & 0xDB
  {
    var s := DisableProximitySteps;
    RunOkStep(s, 0, regs, env);
    var r1 := Exec(s[0], regs, env).0;
    RunOkStep(s, 1, r1, env);
    ModeOff(r1, env, PROXIMITY);
    var r2 := Exec(s[1], r1, env).0;
    assert Run(s, 0, regs, env).0 == r2;
  }

  /** A successful disableGestureSensor clears the gesture interrupt enable
      and gesture mode bits of GCONF4 and the gesture function bit of ENABLE. */
  lemma DisableGestureOutcome(regs: seq<bv8>, env: Env)
    requires |regs| == 256
    requires Run(DisableGestureSteps, 0, regs, env).1.Ok?
    ensures var after := Run(DisableGestureSteps, 0, regs, env).0;
      && after[GCONF4] & 0x03 == 0
      && after[GCONF4] & 0xFC == regs[GCONF4] & 0xFC
      && after[ENABLE] == regs[ENABLE] & 0xBF
  {
    var s := DisableGestureSteps;
    RunOkStep(s, 0, regs, env);
    var r1 := Exec(s[0], regs, env).0;
    RunOkStep(s, 1, r1, env);
    var r2 := Exec(s[1], r1, env).0;
    RunOkStep(s, 2, r2, env);
    ModeOff(r2, env, GESTURE);
    var r3 := Exec(s[2], r2, env).0;
    assert Run(s, 0, regs, env).0 == r3;
    assert r3[GCONF4] == r2[GCONF4];
  }
}
