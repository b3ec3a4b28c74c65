/** The I2C connection the driver talks through, reduced to a bank of 8-bit
    registers. A register may be unreadable or unwritable, which models every
    transfer to it failing; a failed read delivers the byte 0, as the Go
    transport returns its zero value together with the error. */
module Bus {
  import opened Registers

  /** The errors the driver reports. `ControlUnreadable` is the error the
      read-modify-write setters return when their read fails; a failed plain
      transfer is reported as it comes from the transport. */
  datatype Error =
    | ConnectionNotAvailable
    | ReadFailed(reg: Addr)
    | WriteFailed(reg: Addr)
    | ControlUnreadable
    | NotApds9960
    | DeviceNotEnabled

  datatype Status = Ok | Err(error: Error)

  /** What the bus does independently of the register contents: whether a
      connection exists and which registers fail to read or to write. */
  datatype Env = Env(connected: bool, readFails: set<Addr>, writeFails: set<Addr>)

  /** The outcome of the driver reading one register: no connection, a failed
      transfer (value 0), or the register's byte. */
  function Read(regs: seq<bv8>, env: Env, reg: Addr): (res: (bv8, Status))
    requires |regs| == 256
    ensures res.1.Ok? <==> env.connected && reg !in env.readFails
    ensures res.0 == if res.1.Ok? then regs[reg] else 0
  {
    if !env.connected then (0, Err(ConnectionNotAvailable))
    else if reg in env.readFails then (0, Err(ReadFailed(reg)))
    else (regs[reg], Ok)
  }

  class RegisterBank {
    var regs: seq<bv8>
    const connected: bool
    const readFails: set<Addr>
    const writeFails: set<Addr>

    ghost predicate Valid()
      reads this
    {
      |regs| == 256
    }

    function BusEnv(): Env {
      Env(connected, readFails, writeFails)
    }

    constructor (contents: seq<bv8>, connected: bool, readFails: set<Addr>, writeFails: set<Addr>)
      requires |contents| == 256
      ensures Valid() && regs == contents
      ensures BusEnv() == Env(connected, readFails, writeFails)
    {
      regs := contents;
      this.connected := connected;
      this.readFails := readFails;
      this.writeFails := writeFails;
    }

    /** One register read over an established connection. */
    method ReadByteData(reg: Addr) returns (v: bv8, st: Status)
      requires Valid()
      ensures st == if reg in readFails then Err(ReadFailed(reg)) else Ok
      ensures v == if st.Ok? then regs[reg] else 0
    {
      if reg in readFails {
        v, st := 0, Err(ReadFailed(reg));
      } else {
        v, st := regs[reg], Ok;
      }
    }

    /** One register write over an established connection; a failed write
        leaves the register as it was. */
    method WriteByteData(reg: Addr, v: bv8) returns (st: Status)
      requires Valid()
      modifies this`regs
      ensures Valid()
      ensures st == if reg in writeFails then Err(WriteFailed(reg)) else Ok
      ensures regs == if st.Ok? then old(regs)[reg := v] else old(regs)
    {
      if reg in writeFails {
        st := Err(WriteFailed(reg));
      } else {
        regs := regs[reg := v];
        st := Ok;
      }
    }
  }
}
