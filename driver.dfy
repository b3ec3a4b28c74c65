/** The APDS-9960 driver: an object owning the connection to the chip's
    register bank and the gesture sampling state, with the accessor,
    configuration, measurement and gesture operations. */
module Apds {
  import opened Registers
  import opened Bus
  import opened Config
  import opened Gesture
  import opened Fifo

  /** What the device presents at one iteration of the gesture polling loop:
      the GSTATUS read, the GFLVL read (None when the transfer fails), and the
      outcome of the FIFO block read. */
  datatype Poll = Poll(gstatus: Option<bv8>, level: Option<bv8>, selectOk: bool, chunks: seq<Chunk>)

  /** The poll that ends a session: GVALID clear. */
  const SessionEnd := Poll(Some(0), None, false, [])

  /** What one iteration of the polling loop does. */
  datatype Kind =
    | Failure               // a failed transfer or a block of the wrong length
    | Skip                  // a FIFO level of 0 or above 32
    | Drain(data: seq<bv8>, groups: nat)
    | End                   // GVALID clear

  /** The value ReadGesture returns for a failure. */
  const READ_ERROR: int := 0xFF

  datatype Outcome = Continue | Done(result: int)

  /** The iteration's kind for what the device presents. */
  function Classify(p: Poll): (k: Kind)
    ensures k.Drain? ==> 1 <= k.groups <= 32 && |k.data| == 4 * k.groups
  {
    match p.gstatus
    case None => Failure
    case Some(g) =>
      if g & GVALID != GVALID then End
      else
        match p.level
        case None => Failure
        case Some(level) =>
          if !(0 < level <= 32) then Skip
          else
            var blk := ReadBlock(4 * level as int, p.selectOk, p.chunks);
            if blk.failed || blk.bytesRead > 128 || blk.bytesRead != 4 * level as int then Failure
            else if blk.bytesRead >= 4 then Drain(blk.data, level as nat)
            else Skip
  }

  /** An iteration drains the FIFO exactly when GVALID is set, the level is
      between 1 and 32, and selecting the FIFO and every transfer succeed. */
  lemma ClassifyDrain(p: Poll)
    ensures Classify(p).Drain? <==>
      && p.gstatus.Some? && p.gstatus.value & GVALID == GVALID
      && p.level.Some? && 0 < p.level.value <= 32
      && p.selectOk
      && AllFull(p.chunks, 4 * p.level.value as int)
  {
    if p.level.Some? {
      ReadBlockComplete(4 * p.level.value as int, p.selectOk, p.chunks);
    }
  }

  /** The reads of one iteration of ReadGesture's polling loop: GSTATUS,
      then, while GVALID is set, GFLVL and the FIFO block of 4 bytes per
      level. */
  method FetchKind(p: Poll) returns (k: Kind)
    ensures k == Classify(p)
  {
    if p.gstatus.None? {
      return Failure;
    }
    var gstatus := p.gstatus.value;
    if gstatus & GVALID != GVALID {
      return End;
    }
    if p.level.None? {
      return Failure;
    }
    var fifoLevel := p.level.value;
    if !(fifoLevel > 0 && fifoLevel <= 32) {
      return Skip;
    }
    var blk := WireReadBlock(4 * fifoLevel as int, p.selectOk, p.chunks);
    if blk.failed {
      return Failure;
    }
    var bytesRead := blk.bytesRead;
    if bytesRead > 128 || bytesRead != 4 * fifoLevel as int {
      return Failure;
    }
    if bytesRead >= 4 {
      return Drain(blk.data, fifoLevel as nat);
    }
    return Skip;
  }

  /** The upward search of processGestureData: the first usable group's
      four samples, or zeros when there is none. */
  method FindFirst(u: seq<bv8>, d: seq<bv8>, l: seq<bv8>, r: seq<bv8>, n: nat)
    returns (uF: bv8, dF: bv8, lF: bv8, rF: bv8, ghost first: nat)
    requires n <= |u| && |u| == |d| == |l| == |r|
    ensures First(u, d, l, r, 0, n).None? ==> uF == 0 && dF == 0 && lF == 0 && rF == 0
    ensures First(u, d, l, r, 0, n).Some? ==>
      && first == First(u, d, l, r, 0, n).value
      && uF == u[first] && dF == d[first] && lF == l[first] && rF == r[first]
  {
    uF, dF, lF, rF, first := 0, 0, 0, 0, 0;
    var i := 0;
    while i < n
      invariant 0 <= i <= n
      invariant First(u, d, l, r, 0, n) == First(u, d, l, r, i, n)
    {
      if u[i] as int > THRESHOLD_OUT && d[i] as int > THRESHOLD_OUT
        && l[i] as int > THRESHOLD_OUT && r[i] as int > THRESHOLD_OUT {
        uF, dF, lF, rF, first := u[i], d[i], l[i], r[i], i;
        return;
      }
      i := i + 1;
    }
  }

  /** The downward search of processGestureData: the last usable group's
      four samples, or zeros when there is none. */
  method FindLast(u: seq<bv8>, d: seq<bv8>, l: seq<bv8>, r: seq<bv8>, n: nat)
    returns (uL: bv8, dL: bv8, lL: bv8, rL: bv8, ghost last: nat)
    requires n <= |u| && |u| == |d| == |l| == |r|
    ensures Last(u, d, l, r, n).None? ==> uL == 0 && dL == 0 && lL == 0 && rL == 0
    ensures Last(u, d, l, r, n).Some? ==>
      && last == Last(u, d, l, r, n).value
      && uL == u[last] && dL == d[last] && lL == l[last] && rL == r[last]
  {
    uL, dL, lL, rL, last := 0, 0, 0, 0, 0;
    var j: int := n - 1;
    while j >= 0
      invariant -1 <= j < n
      invariant Last(u, d, l, r, n) == Last(u, d, l, r, j + 1)
    {
      if u[j] as int > THRESHOLD_OUT && d[j] as int > THRESHOLD_OUT
        && l[j] as int > THRESHOLD_OUT && r[j] as int > THRESHOLD_OUT {
        uL, dL, lL, rL, last := u[j], d[j], l[j], r[j], j;
        return;
      }
      j := j - 1;
    }
  }

  /** Sample lane `lane` of the first n groups of a drained block written over
      a 32-entry array. */
  function Spread(orig: seq<bv8>, data: seq<bv8>, lane: nat, n: nat): (s: seq<bv8>)
    requires |orig| == 32 && n <= 32 && lane < 4 && 4 * n <= |data|
    ensures |s| == 32
    ensures forall k :: 0 <= k < 32 ==> s[k] == if k < n then data[4 * k + lane] else orig[k]
  {
    seq(32, k requires 0 <= k < 32 => if k < n then data[4 * k + lane] else orig[k])
  }

  /** Storing group k extends the spread by one entry. */
  lemma SpreadStep(orig: seq<bv8>, data: seq<bv8>, lane: nat, k: nat)
    requires |orig| == 32 && k < 32 && lane < 4 && 4 * (k + 1) <= |data|
    ensures Spread(orig, data, lane, k + 1) == Spread(orig, data, lane, k)[k := data[4 * k + lane]]
  {
  }

  /** GVALID as IsGestureAvailable sees it. */
  predicate GestureAvailable(regs: seq<bv8>, env: Env)
    requires |regs| == 256
  {
    env.connected && GSTATUS !in env.readFails && regs[GSTATUS] & GVALID == 1
  }

  /** What ReadGesture's polling loop does from poll i on, starting from the
      classifier state and the four sample lanes: the value it returns and
      the state and lanes it leaves. A failure returns 0xFF and keeps what the
      earlier drains left; a level outside 1..32 polls again; GVALID clear, or
      running out of polls, decodes, resets and returns the reset motion; a
      drain stores its groups, then processes and decodes them. */
  function Session(a: Aux, u: seq<bv8>, d: seq<bv8>, l: seq<bv8>, r: seq<bv8>, polls: seq<Poll>, i: nat)
    : (res: (int, Aux, seq<bv8>, seq<bv8>, seq<bv8>, seq<bv8>))
    requires |u| == 32 && |d| == 32 && |l| == 32 && |r| == 32 && i <= |polls|
    ensures res.0 == READ_ERROR || (res.0 == DIR_NONE && res.1 == ZeroAux)
    ensures |res.2| == 32 && |res.3| == 32 && |res.4| == 32 && |res.5| == 32
    decreases |polls| - i
  {
    if i == |polls| then (DIR_NONE, ZeroAux, u, d, l, r)
    else
      match Classify(polls[i])
      case Failure => (READ_ERROR, a, u, d, l, r)
      case Skip => Session(a, u, d, l, r, polls, i + 1)
      case End => (DIR_NONE, ZeroAux, u, d, l, r)
      case Drain(data, n) =>
        var u', d', l', r' := Spread(u, data, 0, n), Spread(d, data, 1, n), Spread(l, data, 2, n), Spread(r, data, 3, n);
        Session(Decode(Process(a, u', d', l', r', n)), u', d', l', r', polls, i + 1)
  }

  /** Polls i until j all carry on the session (for a skip or a drain). */
  predicate CarriesOn(polls: seq<Poll>, i: nat, j: nat)
    requires j <= |polls|
  {
    forall k :: i <= k < j ==> Classify(polls[k]).Skip? || Classify(polls[k]).Drain?
  }

  /** A session returns 0xFF exactly when the first poll that does not carry
      it on is a failure; otherwise it returns NONE with the classifier state
      reset. */
  lemma {:induction false} SessionFails(a: Aux, u: seq<bv8>, d: seq<bv8>, l: seq<bv8>, r: seq<bv8>, polls: seq<Poll>, i: nat)
    requires |u| == 32 && |d| == 32 && |l| == 32 && |r| == 32 && i <= |polls|
    ensures Session(a, u, d, l, r, polls, i).0 == READ_ERROR <==>
      exists j :: i <= j < |polls| && Classify(polls[j]).Failure? && CarriesOn(polls, i, j)
    decreases |polls| - i
  {
    if i < |polls| {
      match Classify(polls[i])
      case Failure =>
        assert CarriesOn(polls, i, i);
      case End =>
        forall j | i <= j < |polls| && Classify(polls[j]).Failure?
          ensures !CarriesOn(polls, i, j)
        {
          assert j != i;
        }
      case Skip =>
        SessionFails(a, u, d, l, r, polls, i + 1);
        CarriesOnStep(polls, i);
      case Drain(data, n) =>
        var u', d', l', r' := Spread(u, data, 0, n), Spread(d, data, 1, n), Spread(l, data, 2, n), Spread(r, data, 3, n);
        SessionFails(Decode(Process(a, u', d', l', r', n)), u', d', l', r', polls, i + 1);
        CarriesOnStep(polls, i);
    }
  }

  /** When poll i carries the session on, polls i..j carry it on exactly when
      polls i+1..j do. */
  lemma CarriesOnStep(polls: seq<Poll>, i: nat)
    requires i < |polls| && (Classify(polls[i]).Skip? || Classify(polls[i]).Drain?)
    ensures forall j :: i < j <= |polls| ==> (CarriesOn(polls, i, j) <==> CarriesOn(polls, i + 1, j))
  {
  }

  /** A session without polls, or whose first poll has GVALID clear, ends at
      once: NONE, the classifier state reset, the samples kept. */
  lemma SessionEndsAtOnce(a: Aux, u: seq<bv8>, d: seq<bv8>, l: seq<bv8>, r: seq<bv8>, polls: seq<Poll>)
    requires |u| == 32 && |d| == 32 && |l| == 32 && |r| == 32
    requires polls == [] || Classify(polls[0]).End?
    ensures Session(a, u, d, l, r, polls, 0) == (DIR_NONE, ZeroAux, u, d, l, r)
  {
  }

  class Driver {
    const bus: RegisterBank
    const u: array<bv8>
    const d: array<bv8>
    const l: array<bv8>
    const r: array<bv8>
    var index: nat
    var totalGestures: nat
    var aux: Aux

    /** The bank has its 256 registers and the four sample arrays hold 32
        entries each and are distinct. */
    ghost predicate Shape()
      reads this, bus
    {
      && bus.Valid()
      && u.Length == 32 && d.Length == 32 && l.Length == 32 && r.Length == 32
      && u != d && u != l && u != r && d != l && d != r && l != r
    }

    /** Between operations the sample counters are zero and the classifier
        state holds values the classifier produces. */
    ghost predicate Valid()
      reads this, bus
    {
      Shape() && index == 0 && totalGestures == 0 && AuxOk(aux)
    }

    function Env(): Env {
      bus.BusEnv()
    }

    constructor (b: RegisterBank)
      requires b.Valid()
      ensures Valid() && bus == b && aux == ZeroAux
      ensures fresh(u) && fresh(d) && fresh(l) && fresh(r)
    {
      bus := b;
      u := new bv8[32](_ => 0);
      d := new bv8[32](_ => 0);
      l := new bv8[32](_ => 0);
      r := new bv8[32](_ => 0);
      index, totalGestures, aux := 0, 0, ZeroAux;
    }

    // ---------------------------------------------------------------------
    // Register access shared by the accessors

    /** A whole-register getter. */
    method ReadRegister(reg: Addr) returns (v: bv8, st: Status)
      requires Valid()
      ensures (v, st) == Read(bus.regs, Env(), reg)
    {
      if !bus.connected {
        return 0, Err(ConnectionNotAvailable);
      }
      v, st := bus.ReadByteData(reg);
    }

    /** A whole-register setter. */
    method WriteRegister(reg: Addr, v: bv8) returns (st: Status)
      requires Valid()
      modifies bus
      ensures Valid()
      ensures (bus.regs, st) == Exec(Put(reg, v), old(bus.regs), Env())
    {
      if !bus.connected {
        return Err(ConnectionNotAvailable);
      }
      st := bus.WriteByteData(reg, v);
    }

    /** A bit-field getter: the field's bits of the byte read, 0 when there is
        no connection or the read fails. */
    method GetField(f: Field) returns (v: bv8, st: Status)
      requires Valid()
      ensures st == Read(bus.regs, Env(), f.reg).1
      ensures v == Extract(Read(bus.regs, Env(), f.reg).0, f)
      ensures v & !f.mask == 0
    {
      if !bus.connected {
        return 0, Err(ConnectionNotAvailable);
      }
      var b;
      b, st := bus.ReadByteData(f.reg);
      v := Extract(b, f);
      ExtractWithinMask(b, f);
    }

    /** A bit-field setter: read, clear the field, OR in the shifted value,
        write back; a failed read ends it with ControlUnreadable. */
    method SetField(f: Field, val: bv8) returns (st: Status)
      requires Valid()
      modifies bus
      ensures Valid()
      ensures (bus.regs, st) == Exec(SetBits(f, val), old(bus.regs), Env())
    {
      ExecSetBits(f, val, bus.regs, Env());
      if !bus.connected {
        return Err(ConnectionNotAvailable);
      }
      var b, readSt := bus.ReadByteData(f.reg);
      if readSt.Err? {
        return Err(ControlUnreadable);
      }
      b := Insert(b, f, val);
      st := bus.WriteByteData(f.reg, b);
    }

    /** A 16-bit getter over a low/high register pair. */
    method ReadPair(low: Addr, high: Addr) returns (w: bv16, st: Status)
      requires Valid()
      ensures (w, st) == PairRead(bus.regs, Env(), low, high)
    {
      if !bus.connected {
        return 0, Err(ConnectionNotAvailable);
      }
      var lo, hi;
      lo, st := bus.ReadByteData(low);
      if st.Err? {
        return 0, st;
      }
      w := lo as bv16;
      hi, st := bus.ReadByteData(high);
      if st.Err? {
        return;
      }
      w := Combine(lo, hi);
    }

    /** A 16-bit setter over a low/high register pair: the big-endian bytes of
        x, the first to `low` and the second to `high`. */
    method WritePair(low: Addr, high: Addr, x: bv16) returns (st: Status)
      requires Valid()
      modifies bus
      ensures Valid()
      ensures (bus.regs, st) == Run(ThresholdSteps(low, high, x), 0, old(bus.regs), Env())
    {
      var buf0, buf1 := BigEndianFirst(x), BigEndianSecond(x);
      if !bus.connected {
        return Err(ConnectionNotAvailable);
      }
      ghost var steps := ThresholdSteps(low, high, x);
      ghost var goal := Run(steps, 0, bus.regs, Env());
      st := bus.WriteByteData(low, buf0);
      if st.Err? {
        return;
      }
      assert Run(steps, 1, bus.regs, Env()) == goal;
      st := bus.WriteByteData(high, buf1);
      if st.Err? {
        return;
      }
      assert Run(steps, 2, bus.regs, Env()) == goal;
    }

    // ---------------------------------------------------------------------
    // ENABLE

    method GetMode() returns (mode: bv8, st: Status)
      requires Valid()
      ensures (mode, st) == Read(bus.regs, Env(), ENABLE)
    {
      if !bus.connected {
        return 0, Err(ConnectionNotAvailable);
      }
      mode, st := bus.ReadByteData(ENABLE);
    }

    /** Read ENABLE, refuse a device reading 0xFF, set or clear one feature
        bit (or all of them for ALL), write ENABLE back. */
    method SetMode(mode: bv8, enable: bv8) returns (st: Status)
      requires Valid()
      modifies bus
      ensures Valid()
      ensures (bus.regs, st) == Exec(Mode(mode, enable), old(bus.regs), Env())
    {
      var regVal;
      regVal, st := GetMode();
      if st.Err? {
        return;
      }
      if regVal == ERROR {
        return Err(DeviceNotEnabled);
      }
      regVal := ModeByte(regVal, mode, enable);
      st := bus.WriteByteData(ENABLE, regVal);
    }

    method EnablePower() returns (st: Status)
      requires Valid()
      modifies bus
      ensures Valid()
      ensures (bus.regs, st) == Exec(Mode(POWER, 1), old(bus.regs), Env())
    {
      st := SetMode(POWER, 1);
    }

    method DisablePower() returns (st: Status)
      requires Valid()
      modifies bus
      ensures Valid()
      ensures (bus.regs, st) == Exec(Mode(POWER, 0), old(bus.regs), Env())
    {
      st := SetMode(POWER, 0);
    }

    // ---------------------------------------------------------------------
    // Field accessors

    method GetLedDrive() returns (v: bv8, st: Status)
      requires Valid()
      ensures (v, st) == (Extract(Read(bus.regs, Env(), CONTROL).0, LedDrive), Read(bus.regs, Env(), CONTROL).1)
    {
      v, st := GetField(LedDrive);
    }

    method SetLedDrive(drive: bv8) returns (st: Status)
      requires Valid()
      modifies bus
      ensures Valid()
      ensures (bus.regs, st) == Exec(SetBits(LedDrive, drive), old(bus.regs), Env())
    {
      st := SetField(LedDrive, drive);
    }

    method GetGestureIntEnable() returns (v: bv8, st: Status)
      requires Valid()
      ensures (v, st) == (Extract(Read(bus.regs, Env(), GCONF4).0, GestureIntEnable), Read(bus.regs, Env(), GCONF4).1)
    {
      v, st := GetField(GestureIntEnable);
    }

    method SetGestureIntEnable(enable: bv8) returns (st: Status)
      requires Valid()
      modifies bus
      ensures Valid()
      ensures (bus.regs, st) == Exec(SetBits(GestureIntEnable, enable), old(bus.regs), Env())
    {
      st := SetField(GestureIntEnable, enable);
    }

    method GetProximityGain() returns (v: bv8, st: Status)
      requires Valid()
      ensures (v, st) == (Extract(Read(bus.regs, Env(), CONTROL).0, ProximityGain), Read(bus.regs, Env(), CONTROL).1)
    {
      v, st := GetField(ProximityGain);
    }

    method SetProximityGain(gain: bv8) returns (st: Status)
      requires Valid()
      modifies bus
      ensures Valid()
      ensures (bus.regs, st) == Exec(SetBits(ProximityGain, gain), old(bus.regs), Env())
    {
      st := SetField(ProximityGain, gain);
    }

    method GetAmbientLightGain() returns (v: bv8, st: Status)
      requires Valid()
      ensures (v, st) == (Extract(Read(bus.regs, Env(), CONTROL).0, AmbientLightGain), Read(bus.regs, Env(), CONTROL).1)
    {
      v, st := GetField(AmbientLightGain);
    }

    method SetAmbientLightGain(gain: bv8) returns (st: Status)
      requires Valid()
      modifies bus
      ensures Valid()
      ensures (bus.regs, st) == Exec(SetBits(AmbientLightGain, gain), old(bus.regs), Env())
    {
      st := SetField(AmbientLightGain, gain);
    }

    method GetGestureGain() returns (v: bv8, st: Status)
      requires Valid()
      ensures (v, st) == (Extract(Read(bus.regs, Env(), GCONF2).0, GestureGain), Read(bus.regs, Env(), GCONF2).1)
    {
      v, st := GetField(GestureGain);
    }

    method SetGestureGain(gain: bv8) returns (st: Status)
      requires Valid()
      modifies bus
      ensures Valid()
      ensures (bus.regs, st) == Exec(SetBits(GestureGain, gain), old(bus.regs), Env())
    {
      st := SetField(GestureGain, gain);
    }

    method GetGestureLedDrive() returns (v: bv8, st: Status)
      requires Valid()
      ensures (v, st) == (Extract(Read(bus.regs, Env(), GCONF2).0, GestureLedDrive), Read(bus.regs, Env(), GCONF2).1)
    {
      v, st := GetField(GestureLedDrive);
    }

    method SetGestureLedDrive(drive: bv8) returns (st: Status)
      requires Valid()
      modifies bus
      ensures Valid()
      ensures (bus.regs, st) == Exec(SetBits(GestureLedDrive, drive), old(bus.regs), Env())
    {
      st := SetField(GestureLedDrive, drive);
    }

    method GetGestureWaitTime() returns (v: bv8, st: Status)
      requires Valid()
      ensures (v, st) == (Extract(Read(bus.regs, Env(), GCONF2).0, GestureWaitTime), Read(bus.regs, Env(), GCONF2).1)
    {
      v, st := GetField(GestureWaitTime);
    }

    method SetGestureWaitTime(waitTime: bv8) returns (st: Status)
      requires Valid()
      modifies bus
      ensures Valid()
      ensures (bus.regs, st) == Exec(SetBits(GestureWaitTime, waitTime), old(bus.regs), Env())
    {
      st := SetField(GestureWaitTime, waitTime);
    }

    method GetGestureMode() returns (v: bv8, st: Status)
      requires Valid()
      ensures (v, st) == (Extract(Read(bus.regs, Env(), GCONF4).0, GestureMode), Read(bus.regs, Env(), GCONF4).1)
    {
      v, st := GetField(GestureMode);
    }

    method SetGestureMode(mode: bv8) returns (st: Status)
      requires Valid()
      modifies bus
      ensures Valid()
      ensures (bus.regs, st) == Exec(SetBits(GestureMode, mode), old(bus.regs), Env())
    {
      st := SetField(GestureMode, mode);
    }

    method GetProximityIntEnable() returns (v: bv8, st: Status)
      requires Valid()
      ensures (v, st) == (Extract(Read(bus.regs, Env(), ENABLE).0, ProximityIntEnable), Read(bus.regs, Env(), ENABLE).1)
    {
      v, st := GetField(ProximityIntEnable);
    }

    method SetProximityIntEnable(enable: bv8) returns (st: Status)
      requires Valid()
      modifies bus
      ensures Valid()
      ensures (bus.regs, st) == Exec(SetBits(ProximityIntEnable, enable), old(bus.regs), Env())
    {
      st := SetField(ProximityIntEnable, enable);
    }

    method GetAmbientLightIntEnable() returns (v: bv8, st: Status)
      requires Valid()
      ensures (v, st) == (Extract(Read(bus.regs, Env(), ENABLE).0, AmbientLightIntEnable), Read(bus.regs, Env(), ENABLE).1)
    {
      v, st := GetField(AmbientLightIntEnable);
    }

    method SetAmbientLightIntEnable(enable: bv8) returns (st: Status)
      requires Valid()
      modifies bus
      ensures Valid()
      ensures (bus.regs, st) == Exec(SetBits(AmbientLightIntEnable, enable), old(bus.regs), Env())
    {
      st := SetField(AmbientLightIntEnable, enable);
    }

    /** The photodiode mask of CONFIG3; unlike the other getters a failed
        read yields 0xFF. */
    method GetProxPhotoMask() returns (v: bv8, st: Status)
      requires Valid()
      ensures st == Read(bus.regs, Env(), CONFIG3).1
      ensures v == if !bus.connected then 0
                   else if st.Err? then ERROR
                   else Extract(bus.regs[CONFIG3], ProxPhotoMask)
    {
      if !bus.connected {
        return 0, Err(ConnectionNotAvailable);
      }
      v, st := bus.ReadByteData(CONFIG3);
      if st.Err? {
        v := ERROR;
        return;
      }
      v := v & 0x0F;
    }

    method SetProxPhotoMask(mask: bv8) returns (st: Status)
      requires Valid()
      modifies bus
      ensures Valid()
      ensures (bus.regs, st) == Exec(SetBits(ProxPhotoMask, mask), old(bus.regs), Env())
    {
      st := SetField(ProxPhotoMask, mask);
    }

    method GetLedBoost() returns (v: bv8, st: Status)
      requires Valid()
      ensures (v, st) == (Extract(Read(bus.regs, Env(), GCONF2).0, LedBoost), Read(bus.regs, Env(), GCONF2).1)
    {
      v, st := GetField(LedBoost);
    }

    method SetLedBoost(boost: bv8) returns (st: Status)
      requires Valid()
      modifies bus
      ensures Valid()
      ensures (bus.regs, st) == Exec(SetBits(LedBoost, boost), old(bus.regs), Env())
    {
      st := SetField(LedBoost, boost);
    }

    method GetProxGainCompEnable() returns (v: bv8, st: Status)
      requires Valid()
      ensures (v, st) == (Extract(Read(bus.regs, Env(), GCONF3).0, ProxGainCompEnable), Read(bus.regs, Env(), GCONF3).1)
    {
      v, st := GetField(ProxGainCompEnable);
    }

    method SetProxGainCompEnable(enable: bv8) returns (st: Status)
      requires Valid()
      modifies bus
      ensures Valid()
      ensures (bus.regs, st) == Exec(SetBits(ProxGainCompEnable, enable), old(bus.regs), Env())
    {
      st := SetField(ProxGainCompEnable, enable);
    }

    // ---------------------------------------------------------------------
    // Whole-register thresholds

    method GetProxIntLowThresh() returns (v: bv8, st: Status)
      requires Valid()
      ensures (v, st) == Read(bus.regs, Env(), PILT)
    {
      v, st := ReadRegister(PILT);
    }

    method SetProxIntLowThresh(threshold: bv8) returns (st: Status)
      requires Valid()
      modifies bus
      ensures Valid()
      ensures (bus.regs, st) == Exec(Put(PILT, threshold), old(bus.regs), Env())
    {
      st := WriteRegister(PILT, threshold);
    }

    method GetProxIntHighThresh() returns (v: bv8, st: Status)
      requires Valid()
      ensures (v, st) == Read(bus.regs, Env(), PIHT)
    {
      v, st := ReadRegister(PIHT);
    }

    method SetProxIntHighThresh(threshold: bv8) returns (st: Status)
      requires Valid()
      modifies bus
      ensures Valid()
      ensures (bus.regs, st) == Exec(Put(PIHT, threshold), old(bus.regs), Env())
    {
      st := WriteRegister(PIHT, threshold);
    }

    method GetProximityIntHighThreshold() returns (v: bv8, st: Status)
      requires Valid()
      ensures (v, st) == Read(bus.regs, Env(), PIHT)
    {
      v, st := ReadRegister(PIHT);
    }

    method SetProximityIntHighThreshold(threshold: bv8) returns (st: Status)
      requires Valid()
      modifies bus
      ensures Valid()
      ensures (bus.regs, st) == Exec(Put(PIHT, threshold), old(bus.regs), Env())
    {
      st := WriteRegister(PIHT, threshold);
    }

    method GetProximityIntLowThreshold() returns (v: bv8, st: Status)
      requires Valid()
      ensures (v, st) == Read(bus.regs, Env(), PILT)
    {
      v, st := ReadRegister(PILT);
    }

    method SetProximityIntLowThreshold(threshold: bv8) returns (st: Status)
      requires Valid()
      modifies bus
      ensures Valid()
      ensures (bus.regs, st) == Exec(Put(PILT, threshold), old(bus.regs), Env())
    {
      st := WriteRegister(PILT, threshold);
    }

    method GetGestureEnterThresh() returns (v: bv8, st: Status)
      requires Valid()
      ensures (v, st) == Read(bus.regs, Env(), GPENTH)
    {
      v, st := ReadRegister(GPENTH);
    }

    method SetGestureEnterThresh(threshold: bv8) returns (st: Status)
      requires Valid()
      modifies bus
      ensures Valid()
      ensures (bus.regs, st) == Exec(Put(GPENTH, threshold), old(bus.regs), Env())
    {
      st := WriteRegister(GPENTH, threshold);
    }

    method GetGestureExitThresh() returns (v: bv8, st: Status)
      requires Valid()
      ensures (v, st) == Read(bus.regs, Env(), GEXTH)
    {
      v, st := ReadRegister(GEXTH);
    }

    method SetGestureExitThresh(threshold: bv8) returns (st: Status)
      requires Valid()
      modifies bus
      ensures Valid()
      ensures (bus.regs, st) == Exec(Put(GEXTH, threshold), old(bus.regs), Env())
    {
      st := WriteRegister(GEXTH, threshold);
    }

    method GetLightIntLowThreshold() returns (threshold: bv16, st: Status)
      requires Valid()
      ensures (threshold, st) == PairRead(bus.regs, Env(), AILTL, AILTH)
    {
      threshold, st := ReadPair(AILTL, AILTH);
    }

    method SetLightIntLowThreshold(threshold: bv16) returns (st: Status)
      requires Valid()
      modifies bus
      ensures Valid()
      ensures (bus.regs, st) == Run(ThresholdSteps(AILTL, AILTH, threshold), 0, old(bus.regs), Env())
    {
      st := WritePair(AILTL, AILTH, threshold);
    }

    method GetLightIntHighThreshold() returns (threshold: bv16, st: Status)
      requires Valid()
      ensures (threshold, st) == PairRead(bus.regs, Env(), AIHTL, AIHTH)
    {
      threshold, st := ReadPair(AIHTL, AIHTH);
    }

    method SetLightIntHighThreshold(threshold: bv16) returns (st: Status)
      requires Valid()
      modifies bus
      ensures Valid()
      ensures (bus.regs, st) == Run(ThresholdSteps(AIHTL, AIHTH, threshold), 0, old(bus.regs), Env())
    {
      st := WritePair(AIHTL, AIHTH, threshold);
    }

    // ---------------------------------------------------------------------
    // Interrupt clears and measurements

    /** Reading PICLEAR clears the proximity interrupt; a failed read is
        reported as ControlUnreadable. */
    method ClearProximityInt() returns (st: Status)
      requires Valid()
      ensures st == if !bus.connected then Err(ConnectionNotAvailable)
                    else if PICLEAR in bus.readFails then Err(ControlUnreadable) else Ok
    {
      if !bus.connected {
        return Err(ConnectionNotAvailable);
      }
      var _, readSt := bus.ReadByteData(PICLEAR);
      if readSt.Err? {
        return Err(ControlUnreadable);
      }
      return Ok;
    }

    /** Reading AICLEAR clears the ambient light interrupt; a failed read is
        reported as ControlUnreadable. */
    method ClearAmbientLightInt() returns (st: Status)
      requires Valid()
      ensures st == if !bus.connected then Err(ConnectionNotAvailable)
                    else if AICLEAR in bus.readFails then Err(ControlUnreadable) else Ok
    {
      if !bus.connected {
        return Err(ConnectionNotAvailable);
      }
      var _, readSt := bus.ReadByteData(AICLEAR);
      if readSt.Err? {
        return Err(ControlUnreadable);
      }
      return Ok;
    }

    method ReadAmbientLight() returns (ambientLight: bv16, st: Status)
      requires Valid()
      ensures (ambientLight, st) == PairRead(bus.regs, Env(), CDATAL, CDATAH)
    {
      ambientLight, st := ReadPair(CDATAL, CDATAH);
    }

    method ReadRedLight() returns (redLight: bv16, st: Status)
      requires Valid()
      ensures (redLight, st) == PairRead(bus.regs, Env(), RDATAL, RDATAH)
    {
      redLight, st := ReadPair(RDATAL, RDATAH);
    }

    method ReadGreenLight() returns (greenLight: bv16, st: Status)
      requires Valid()
      ensures (greenLight, st) == PairRead(bus.regs, Env(), GDATAL, GDATAH)
    {
      greenLight, st := ReadPair(GDATAL, GDATAH);
    }

    method ReadBlueLight() returns (blueLight: bv16, st: Status)
      requires Valid()
      ensures (blueLight, st) == PairRead(bus.regs, Env(), BDATAL, BDATAH)
    {
      blueLight, st := ReadPair(BDATAL, BDATAH);
    }

    method ReadProximity() returns (proximity: bv8, st: Status)
      requires Valid()
      ensures (proximity, st) == Read(bus.regs, Env(), PDATA)
    {
      proximity, st := ReadRegister(PDATA);
    }

    // ---------------------------------------------------------------------
    // Configuration sequences

    /** Check the identity, then program the default configuration, stopping
        at the first failing step. */
    method Start() returns (st: Status)
      requires Valid()
      modifies bus
      ensures Valid()
      ensures (bus.regs, st) == StartSpec(old(bus.regs), Env())
    {
      if !bus.connected {
        return Err(ConnectionNotAvailable);
      }
      var id, idSt := bus.ReadByteData(ID);
      if id != ID_1 && id != ID_2 {
        return Err(NotApds9960);
      }
      StartInPhases(bus.regs, Env());
      st := ApplyStartTimings();
      if st.Err? { return; }
      st := ApplyStartSensing();
      if st.Err? { return; }
      st := ApplyStartControls();
      if st.Err? { return; }
      st := ApplyStartGestureSetup();
    }

    /** Start's first phase. */
    method ApplyStartTimings() returns (st: Status)
      requires Valid()
      modifies bus
      ensures Valid()
      ensures (bus.regs, st) == Run(StartTimings, 0, old(bus.regs), Env())
    {
      ghost var goal := Run(StartTimings, 0, bus.regs, Env());
      st := SetMode(ALL, 0);
      if st.Err? { return; }
      assert Run(StartTimings, 1, bus.regs, Env()) == goal;
      st := bus.WriteByteData(ATIME, DEFAULT_ATIME);
      if st.Err? { return; }
      assert Run(StartTimings, 2, bus.regs, Env()) == goal;
      st := bus.WriteByteData(WTIME, DEFAULT_WTIME);
      if st.Err? { return; }
      assert Run(StartTimings, 3, bus.regs, Env()) == goal;
      st := bus.WriteByteData(PPULSE, DEFAULT_PROX_PPULSE);
      if st.Err? { return; }
      assert Run(StartTimings, 4, bus.regs, Env()) == goal;
      st := bus.WriteByteData(POFFSET_UR, DEFAULT_POFFSET_UR);
      if st.Err? { return; }
      assert Run(StartTimings, 5, bus.regs, Env()) == goal;
      st := bus.WriteByteData(POFFSET_DL, DEFAULT_POFFSET_DL);
      if st.Err? { return; }
      assert Run(StartTimings, 6, bus.regs, Env()) == goal;
      st := bus.WriteByteData(CONFIG1, DEFAULT_CONFIG1);
      if st.Err? { return; }
      assert Run(StartTimings, 7, bus.regs, Env()) == goal;
    }

    /** Start's second phase. */
    method ApplyStartSensing() returns (st: Status)
      requires Valid()
      modifies bus
      ensures Valid()
      ensures (bus.regs, st) == Run(StartSensing, 0, old(bus.regs), Env())
    {
      ghost var goal := Run(StartSensing, 0, bus.regs, Env());
      st := SetLedDrive(DEFAULT_LDRIVE);
      if st.Err? { return; }
      assert Run(StartSensing, 1, bus.regs, Env()) == goal;
      st := SetProximityGain(DEFAULT_PGAIN);
      if st.Err? { return; }
      assert Run(StartSensing, 2, bus.regs, Env()) == goal;
      st := SetAmbientLightGain(DEFAULT_AGAIN);
      if st.Err? { return; }
      assert Run(StartSensing, 3, bus.regs, Env()) == goal;
      st := SetProxIntLowThresh(DEFAULT_PILT);
      if st.Err? { return; }
      assert Run(StartSensing, 4, bus.regs, Env()) == goal;
      st := SetProxIntHighThresh(DEFAULT_PIHT);
      if st.Err? { return; }
      assert Run(StartSensing, 5, bus.regs, Env()) == goal;
      StartSensingThresholds(bus.regs, Env());
      st := SetLightIntLowThreshold(DEFAULT_AILT);
      if st.Err? { return; }
      st := SetLightIntHighThreshold(DEFAULT_AIHT);
    }

    /** Start's third phase. */
    method ApplyStartControls() returns (st: Status)
      requires Valid() && bus.connected
      modifies bus
      ensures Valid()
      ensures (bus.regs, st) == Run(StartControls, 0, old(bus.regs), Env())
    {
      ghost var goal := Run(StartControls, 0, bus.regs, Env());
      st := bus.WriteByteData(PERS, DEFAULT_PERS);
      if st.Err? { return; }
      assert Run(StartControls, 1, bus.regs, Env()) == goal;
      st := bus.WriteByteData(CONFIG2, DEFAULT_CONFIG2);
      if st.Err? { return; }
      assert Run(StartControls, 2, bus.regs, Env()) == goal;
      st := bus.WriteByteData(CONFIG3, DEFAULT_CONFIG3);
      if st.Err? { return; }
      assert Run(StartControls, 3, bus.regs, Env()) == goal;
      st := SetGestureEnterThresh(DEFAULT_GPENTH);
      if st.Err? { return; }
      assert Run(StartControls, 4, bus.regs, Env()) == goal;
      st := SetGestureExitThresh(DEFAULT_GEXTH);
      if st.Err? { return; }
      assert Run(StartControls, 5, bus.regs, Env()) == goal;
      st := bus.WriteByteData(CONFIG1, DEFAULT_CONFIG1);
      if st.Err? { return; }
      assert Run(StartControls, 6, bus.regs, Env()) == goal;
    }

    /** Start's last phase. */
    method ApplyStartGestureSetup() returns (st: Status)
      requires Valid()
      modifies bus
      ensures Valid()
      ensures (bus.regs, st) == Run(StartGestureSetup, 0, old(bus.regs), Env())
    {
      ghost var goal := Run(StartGestureSetup, 0, bus.regs, Env());
      st := SetGestureGain(DEFAULT_GGAIN);
      if st.Err? { return; }
      assert Run(StartGestureSetup, 1, bus.regs, Env()) == goal;
      st := SetGestureLedDrive(DEFAULT_GLDRIVE);
      if st.Err? { return; }
      assert Run(StartGestureSetup, 2, bus.regs, Env()) == goal;
      st := SetGestureWaitTime(DEFAULT_GWTIME);
      if st.Err? { return; }
      assert Run(StartGestureSetup, 3, bus.regs, Env()) == goal;
      st := bus.WriteByteData(GOFFSET_U, DEFAULT_GOFFSET);
      if st.Err? { return; }
      assert Run(StartGestureSetup, 4, bus.regs, Env()) == goal;
      st := bus.WriteByteData(GOFFSET_D, DEFAULT_GOFFSET);
      if st.Err? { return; }
      assert Run(StartGestureSetup, 5, bus.regs, Env()) == goal;
      st := bus.WriteByteData(GOFFSET_L, DEFAULT_GOFFSET);
      if st.Err? { return; }
      assert Run(StartGestureSetup, 6, bus.regs, Env()) == goal;
      st := bus.WriteByteData(GOFFSET_R, DEFAULT_GOFFSET);
      if st.Err? { return; }
      assert Run(StartGestureSetup, 7, bus.regs, Env()) == goal;
      st := bus.WriteByteData(GPULSE, DEFAULT_GPULSE);
      if st.Err? { return; }
      assert Run(StartGestureSetup, 8, bus.regs, Env()) == goal;
      st := bus.WriteByteData(GCONF3, DEFAULT_GCONF3);
      if st.Err? { return; }
      assert Run(StartGestureSetup, 9, bus.regs, Env()) == goal;
      st := SetGestureIntEnable(DEFAULT_GIEN);
      if st.Err? { return; }
      assert Run(StartGestureSetup, 10, bus.regs, Env()) == goal;
    }

    method EnableLightSensor(interrupts: bool) returns (st: Status)
      requires Valid()
      modifies bus
      ensures Valid()
      ensures (bus.regs, st) == Run(EnableLightSteps(interrupts), 0, old(bus.regs), Env())
    {
      ghost var steps := EnableLightSteps(interrupts);
      ghost var goal := Run(steps, 0, bus.regs, Env());
      if !bus.connected {
        return Err(ConnectionNotAvailable);
      }
      st := SetAmbientLightGain(DEFAULT_AGAIN);
      if st.Err? { return; }
      assert Run(steps, 1, bus.regs, Env()) == goal;
      var interruptsInt: bv8 := if interrupts then 1 else 0;
      st := SetAmbientLightIntEnable(interruptsInt);
      if st.Err? { return; }
      assert Run(steps, 2, bus.regs, Env()) == goal;
      st := EnablePower();
      if st.Err? { return; }
      assert Run(steps, 3, bus.regs, Env()) == goal;
      st := SetMode(AMBIENT_LIGHT, 1);
      if st.Err? { return; }
      assert Run(steps, 4, bus.regs, Env()) == goal;
    }

    method DisableLightSensor() returns (st: Status)
      requires Valid()
      modifies bus
      ensures Valid()
      ensures (bus.regs, st) == Run(DisableLightSteps, 0, old(bus.regs), Env())
    {
      ghost var goal := Run(DisableLightSteps, 0, bus.regs, Env());
      if !bus.connected {
        return Err(ConnectionNotAvailable);
      }
      st := SetAmbientLightIntEnable(0);
      if st.Err? { return; }
      assert Run(DisableLightSteps, 1, bus.regs, Env()) == goal;
      st := SetMode(AMBIENT_LIGHT, 0);
      if st.Err? { return; }
      assert Run(DisableLightSteps, 2, bus.regs, Env()) == goal;
    }

    method EnableProximitySensor(interrupts: bool) returns (st: Status)
      requires Valid()
      modifies bus
      ensures Valid()
      ensures (bus.regs, st) == Run(EnableProximitySteps(interrupts), 0, old(bus.regs), Env())
    {
      ghost var steps := EnableProximitySteps(interrupts);
      ghost var goal := Run(steps, 0, bus.regs, Env());
      if !bus.connected {
        return Err(ConnectionNotAvailable);
      }
      st := SetProximityGain(DEFAULT_PGAIN);
      if st.Err? { return; }
      assert Run(steps, 1, bus.regs, Env()) == goal;
      st := SetLedDrive(DEFAULT_LDRIVE);
      if st.Err? { return; }
      assert Run(steps, 2, bus.regs, Env()) == goal;
      var interruptsInt: bv8 := if interrupts then 1 else 0;
      st := SetProximityIntEnable(interruptsInt);
      if st.Err? { return; }
      assert Run(steps, 3, bus.regs, Env()) == goal;
      st := EnablePower();
      if st.Err? { return; }
      assert Run(steps, 4, bus.regs, Env()) == goal;
      st := SetMode(PROXIMITY, 1);
      if st.Err? { return; }
      assert Run(steps, 5, bus.regs, Env()) == goal;
    }

    method DisableProximitySensor() returns (st: Status)
      requires Valid()
      modifies bus
      ensures Valid()
      ensures (bus.regs, st) == Run(DisableProximitySteps, 0, old(bus.regs), Env())
    {
      ghost var goal := Run(DisableProximitySteps, 0, bus.regs, Env());
      if !bus.connected {
        return Err(ConnectionNotAvailable);
      }
      st := SetProximityIntEnable(0);
      if st.Err? { return; }
      assert Run(DisableProximitySteps, 1, bus.regs, Env()) == goal;
      st := SetMode(PROXIMITY, 0);
      if st.Err? { return; }
      assert Run(DisableProximitySteps, 2, bus.regs, Env()) == goal;
    }

    /** Reset the gesture state, then configure and enable the gesture
        engine; without a connection nothing changes. */
    method EnableGestureSensor(interrupts: bool) returns (st: Status)
      requires Valid()
      modifies this, bus
      ensures Valid()
      ensures (bus.regs, st) == Run(EnableGestureSteps(interrupts), 0, old(bus.regs), Env())
      ensures aux == if bus.connected then ZeroAux else old(aux)
    {
      if !bus.connected {
        return Err(ConnectionNotAvailable);
      }
      ResetGestureParameters();
      st := ApplyGestureSteps(interrupts);
    }

    /** EnableGestureSensor's writes, over an established connection. */
    method ApplyGestureSteps(interrupts: bool) returns (st: Status)
      requires Valid() && bus.connected
      modifies bus
      ensures Valid()
      ensures (bus.regs, st) == Run(EnableGestureSteps(interrupts), 0, old(bus.regs), Env())
    {
      RunConcat(GesturePrep(interrupts), GestureModesOn, bus.regs, Env());
      st := ApplyGesturePrep(interrupts);
      if st.Err? { return; }
      st := ApplyGestureModesOn();
    }

    method ApplyGesturePrep(interrupts: bool) returns (st: Status)
      requires Valid() && bus.connected
      modifies bus
      ensures Valid()
      ensures (bus.regs, st) == Run(GesturePrep(interrupts), 0, old(bus.regs), Env())
    {
      ghost var steps := GesturePrep(interrupts);
      ghost var goal := Run(steps, 0, bus.regs, Env());
      st := bus.WriteByteData(WTIME, 0xFF);
      if st.Err? { return; }
      assert Run(steps, 1, bus.regs, Env()) == goal;
      st := bus.WriteByteData(PPULSE, DEFAULT_GESTURE_PPULSE);
      if st.Err? { return; }
      assert Run(steps, 2, bus.regs, Env()) == goal;
      st := SetLedBoost(LED_BOOST_300);
      if st.Err? { return; }
      assert Run(steps, 3, bus.regs, Env()) == goal;
      var interruptsInt: bv8 := if interrupts then 1 else 0;
      st := SetGestureIntEnable(interruptsInt);
      if st.Err? { return; }
      assert Run(steps, 4, bus.regs, Env()) == goal;
      st := SetGestureMode(1);
      if st.Err? { return; }
      assert Run(steps, 5, bus.regs, Env()) == goal;
    }

    method ApplyGestureModesOn() returns (st: Status)
      requires Valid() && bus.connected
      modifies bus
      ensures Valid()
      ensures (bus.regs, st) == Run(GestureModesOn, 0, old(bus.regs), Env())
    {
      ghost var goal := Run(GestureModesOn, 0, bus.regs, Env());
      st := EnablePower();
      if st.Err? { return; }
      assert Run(GestureModesOn, 1, bus.regs, Env()) == goal;
      st := SetMode(WAIT, 1);
      if st.Err? { return; }
      assert Run(GestureModesOn, 2, bus.regs, Env()) == goal;
      st := SetMode(PROXIMITY, 1);
      if st.Err? { return; }
      assert Run(GestureModesOn, 3, bus.regs, Env()) == goal;
      st := SetMode(GESTURE, 1);
      if st.Err? { return; }
      assert Run(GestureModesOn, 4, bus.regs, Env()) == goal;
    }

    method DisableGestureSensor() returns (st: Status)
      requires Valid()
      modifies bus
      ensures Valid()
      ensures (bus.regs, st) == Run(DisableGestureSteps, 0, old(bus.regs), Env())
    {
      ghost var goal := Run(DisableGestureSteps, 0, bus.regs, Env());
      if !bus.connected {
        return Err(ConnectionNotAvailable);
      }
      st := SetGestureIntEnable(0);
      if st.Err? { return; }
      assert Run(DisableGestureSteps, 1, bus.regs, Env()) == goal;
      st := SetGestureMode(0);
      if st.Err? { return; }
      assert Run(DisableGestureSteps, 2, bus.regs, Env()) == goal;
      st := SetMode(GESTURE, 0);
      if st.Err? { return; }
      assert Run(DisableGestureSteps, 3, bus.regs, Env()) == goal;
    }

    // ---------------------------------------------------------------------
    // Gesture engine

    method ResetGestureParameters()
      modifies this
      ensures index == 0 && totalGestures == 0 && aux == ZeroAux
    {
      index := 0;
      totalGestures := 0;
      aux := ZeroAux;
    }

    /** GVALID of GSTATUS; false without a connection or when the read fails. */
    method IsGestureAvailable() returns (available: bool)
      requires Valid()
      ensures available <==> GestureAvailable(bus.regs, Env())
    {
      if !bus.connected {
        return false;
      }
      var val, st := bus.ReadByteData(GSTATUS);
      if st.Err? {
        return false;
      }
      val := val & GVALID;
      available := val == 1;
    }

    /** Update the classifier state from the first totalGestures sample
        groups. */
    method ProcessGestureData()
      requires Shape() && totalGestures <= 32
      modifies this`aux
      ensures aux == Process(old(aux), u[..], d[..], l[..], r[..], totalGestures)
    {
      var us, ds, ls, rs := u[..], d[..], l[..], r[..];
      if totalGestures <= 4 {
        return;
      }
      var uFirst, dFirst, lFirst, rFirst, first := FindFirst(us, ds, ls, rs, totalGestures);
      if uFirst == 0 || dFirst == 0 || lFirst == 0 || rFirst == 0 {
        return;
      }
      FirstLastAgree(us, ds, ls, rs, totalGestures);
      var uLast, dLast, lLast, rLast, last := FindLast(us, ds, ls, rs, totalGestures);
      ProcessFound(aux, us, ds, ls, rs, totalGestures, first, last);
      Accumulate(uFirst, dFirst, lFirst, rFirst, uLast, dLast, lLast, rLast);
    }

    /** The second half of processGestureData: the ratio changes between the
        first and the last usable group are added to the sums, the counts
        derived from them, then the near/far bookkeeping done. */
    method Accumulate(uFirst: bv8, dFirst: bv8, lFirst: bv8, rFirst: bv8, uLast: bv8, dLast: bv8, lLast: bv8, rLast: bv8)
      requires UsableGroup(uFirst, dFirst, lFirst, rFirst) && UsableGroup(uLast, dLast, lLast, rLast)
      modifies this`aux
      ensures var ud := Ratio(uLast, dLast) - Ratio(uFirst, dFirst);
        var lr := Ratio(lLast, rLast) - Ratio(lFirst, rFirst);
        aux == NearFar(Counted(old(aux), ud, lr), ud, lr)
    {
      var udRatioFirst := Ratio(uFirst, dFirst);
      var lrRatioFirst := Ratio(lFirst, rFirst);
      var udRatioLast := Ratio(uLast, dLast);
      var lrRatioLast := Ratio(lLast, rLast);
      var udDelta := udRatioLast - udRatioFirst;
      var lrDelta := lrRatioLast - lrRatioFirst;
      CountDeltas(udDelta, lrDelta);
      TrackNearFar(udDelta, lrDelta);
    }

    /** Add a drain's ratio changes to the sums and derive the counts. */
    method CountDeltas(udDelta: int, lrDelta: int)
      modifies this`aux
      ensures aux == Counted(old(aux), udDelta, lrDelta)
    {
      aux := aux.(udDelta := aux.udDelta + udDelta, lrDelta := aux.lrDelta + lrDelta);
      if aux.udDelta >= SENSITIVITY_1 {
        aux := aux.(udCount := 1);
      } else if aux.udDelta <= -SENSITIVITY_1 {
        aux := aux.(udCount := -1);
      } else {
        aux := aux.(udCount := 0);
      }
      if aux.lrDelta >= SENSITIVITY_1 {
        aux := aux.(lrCount := 1);
      } else if aux.lrDelta <= -SENSITIVITY_1 {
        aux := aux.(lrCount := -1);
      } else {
        aux := aux.(lrCount := 0);
      }
    }

    /** The near/far bookkeeping of a drain, from the counts just derived and
        the drain's own ratio changes. */
    method TrackNearFar(udDelta: int, lrDelta: int)
      modifies this`aux
      ensures aux == NearFar(old(aux), udDelta, lrDelta)
    {
      if aux.udCount == 0 && aux.lrCount == 0 {
        if Abs(udDelta) < SENSITIVITY_2 && Abs(lrDelta) < SENSITIVITY_2 {
          if udDelta == 0 && lrDelta == 0 {
            aux := aux.(nearCount := aux.nearCount + 1);
          } else if udDelta != 0 || lrDelta != 0 {
            aux := aux.(farCount := aux.farCount + 1);
          }
          if aux.nearCount >= 10 && aux.farCount >= 2 {
            if udDelta == 0 && lrDelta == 0 {
              aux := aux.(state := NEAR_STATE);
            } else if udDelta != 0 && lrDelta != 0 {
              aux := aux.(state := FAR_STATE);
            }
          }
        }
      } else {
        if Abs(udDelta) < SENSITIVITY_2 && Abs(lrDelta) < SENSITIVITY_2 {
          if udDelta == 0 && lrDelta == 0 {
            aux := aux.(nearCount := aux.nearCount + 1);
            if aux.nearCount >= 10 {
              aux := aux.(udCount := 0, lrCount := 0, udDelta := 0, lrDelta := 0);
            }
          }
        }
      }
    }

    /** Set the motion from the classifier state. */
    method DecodeGesture()
      modifies this`aux
      ensures aux == Decode(old(aux))
    {
      if aux.state == NEAR_STATE {
        aux := aux.(motion := DIR_NEAR);
        return;
      } else if aux.state == FAR_STATE {
        aux := aux.(motion := DIR_FAR);
        return;
      }
      if aux.udCount == -1 && aux.lrCount == 0 {
        aux := aux.(motion := DIR_UP);
      } else if aux.udCount == 1 && aux.lrCount == 0 {
        aux := aux.(motion := DIR_DOWN);
      } else if aux.udCount == 0 && aux.lrCount == 1 {
        aux := aux.(motion := DIR_RIGHT);
      } else if aux.udCount == 0 && aux.lrCount == -1 {
        aux := aux.(motion := DIR_LEFT);
      } else if aux.udCount == -1 && aux.lrCount == 1 {
        var motion := if Abs(aux.udCount) > Abs(aux.lrCount) then DIR_UP else DIR_RIGHT;
        aux := aux.(motion := motion);
      } else if aux.udCount == 1 && aux.lrCount == -1 {
        var motion := if Abs(aux.udCount) > Abs(aux.lrCount) then DIR_DOWN else DIR_LEFT;
        aux := aux.(motion := motion);
      } else if aux.udCount == -1 && aux.lrCount == -1 {
        var motion := if Abs(aux.udCount) > Abs(aux.lrCount) then DIR_UP else DIR_LEFT;
        aux := aux.(motion := motion);
      } else if aux.udCount == 1 && aux.lrCount == 1 {
        var motion := if Abs(aux.udCount) > Abs(aux.lrCount) then DIR_DOWN else DIR_RIGHT;
        aux := aux.(motion := motion);
      }
    }

    /** What one iteration of ReadGesture's polling loop does with the
        kind its reads produced: fail, go on, end the session, or store,
        process and decode a drained block. */
    method PollStep(kind: Kind) returns (o: Outcome)
      requires Valid()
      requires kind.Drain? ==> 1 <= kind.groups <= 32 && |kind.data| == 4 * kind.groups
      modifies this, u, d, l, r
      ensures Valid()
      ensures match kind
        case Failure =>
          && o == Done(READ_ERROR) && aux == old(aux)
          && u[..] == old(u[..]) && d[..] == old(d[..]) && l[..] == old(l[..]) && r[..] == old(r[..])
        case Skip =>
          && o == Continue && aux == old(aux)
          && u[..] == old(u[..]) && d[..] == old(d[..]) && l[..] == old(l[..]) && r[..] == old(r[..])
        case End =>
          && o == Done(DIR_NONE) && aux == ZeroAux
          && u[..] == old(u[..]) && d[..] == old(d[..]) && l[..] == old(l[..]) && r[..] == old(r[..])
        case Drain(data, n) =>
          && o == Continue
          && u[..] == Spread(old(u[..]), data, 0, n) && d[..] == Spread(old(d[..]), data, 1, n)
          && l[..] == Spread(old(l[..]), data, 2, n) && r[..] == Spread(old(r[..]), data, 3, n)
          && aux == Decode(Process(old(aux), u[..], d[..], l[..], r[..], n))
    {
      match kind
      case Failure =>
        return Done(READ_ERROR);
      case Skip =>
        return Continue;
      case End =>
        DecodeGesture();
        ResetGestureParameters();
        return Done(aux.motion);
      case Drain(data, n) =>
        StoreGroups(data, n);
        ProcessGestureData();
        DecodeGesture();
        index := 0;
        totalGestures := 0;
        ProcessKeepsAuxOk(old(aux), u[..], d[..], l[..], r[..], n);
        return Continue;
    }

    /** The store loop of a drain: sample group k goes to entry k of the four
        arrays, stopping once 32 groups are stored. */
    method StoreGroups(data: seq<bv8>, n: nat)
      requires Valid() && 1 <= n <= 32 && |data| == 4 * n
      modifies this`index, this`totalGestures, u, d, l, r
      ensures Shape() && index == n && totalGestures == n
      ensures u[..] == Spread(old(u[..]), data, 0, n) && d[..] == Spread(old(d[..]), data, 1, n)
      ensures l[..] == Spread(old(l[..]), data, 2, n) && r[..] == Spread(old(r[..]), data, 3, n)
    {
      ghost var u0, d0, l0, r0 := u[..], d[..], l[..], r[..];
      var bytesRead := |data|;
      var i := 0;
      while i < bytesRead
        invariant 0 <= i <= bytesRead && i == 4 * index && index == totalGestures && index <= n
        invariant Shape()
        invariant u[..] == Spread(u0, data, 0, index) && d[..] == Spread(d0, data, 1, index)
        invariant l[..] == Spread(l0, data, 2, index) && r[..] == Spread(r0, data, 3, index)
        decreases bytesRead - i
      {
        SpreadStep(u0, data, 0, index);
        SpreadStep(d0, data, 1, index);
        SpreadStep(l0, data, 2, index);
        SpreadStep(r0, data, 3, index);
        StoreGroup(index, data[i + 0], data[i + 1], data[i + 2], data[i + 3]);
        index := index + 1;
        totalGestures := totalGestures + 1;
        if index >= 32 {
          break;
        }
        i := i + 4;
      }
    }

    /** Entry k of the four sample arrays takes one group's samples. */
    method StoreGroup(k: nat, uk: bv8, dk: bv8, lk: bv8, rk: bv8)
      requires Shape() && k < 32
      modifies u, d, l, r
      ensures u[..] == old(u[..])[k := uk] && d[..] == old(d[..])[k := dk]
      ensures l[..] == old(l[..])[k := lk] && r[..] == old(r[..])[k := rk]
    {
      u[k] := uk;
      d[k] := dk;
      l[k] := lk;
      r[k] := rk;
    }

    /** Poll the FIFO until the device clears GVALID. The polls are what the
        device presents at each iteration; a poll past the given ones ends
        the session. */
    method ReadGesture(polls: seq<Poll>) returns (result: int)
      requires Valid()
      modifies this, u, d, l, r
      ensures Valid()
      ensures !GestureAvailable(old(bus.regs), Env()) ==>
        result == DIR_NONE && aux == old(aux)
        && u[..] == old(u[..]) && d[..] == old(d[..]) && l[..] == old(l[..]) && r[..] == old(r[..])
      ensures GestureAvailable(old(bus.regs), Env()) && Read(old(bus.regs), Env(), ENABLE).0 & 0x41 == 0 ==>
        result == old(aux).motion && aux == old(aux)
        && u[..] == old(u[..]) && d[..] == old(d[..]) && l[..] == old(l[..]) && r[..] == old(r[..])
      ensures GestureAvailable(old(bus.regs), Env()) && Read(old(bus.regs), Env(), ENABLE).0 & 0x41 != 0 ==>
        (result, aux, u[..], d[..], l[..], r[..]) == Session(old(aux), old(u[..]), old(d[..]), old(l[..]), old(r[..]), polls, 0)
    {
      var available := IsGestureAvailable();
      if !available {
        return DIR_NONE;
      }
      var mode, st := GetMode();
      if mode & 0x41 == 0 || st.Err? {
        return aux.motion;
      }
      ghost var goal := Session(aux, u[..], d[..], l[..], r[..], polls, 0);
      var i := 0;
      while true
        invariant Valid() && 0 <= i <= |polls|
        invariant Session(aux, u[..], d[..], l[..], r[..], polls, i) == goal
        decreases |polls| - i
      {
        var p := if i < |polls| then polls[i] else SessionEnd;
        assert i == |polls| ==> Classify(p) == End;
        var kind := FetchKind(p);
        var o := PollStep(kind);
        if o.Done? {
          return o.result;
        }
        i := i + 1;
      }
    }
  }
}
