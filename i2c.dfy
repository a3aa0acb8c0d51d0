/**
 * The I2C bus channel (src/i2c.cpp): one open descriptor on a Linux I2C
 * adapter, a registry of slave addresses that may transact, and a cached
 * "active slave" that saves the selecting ioctl when the address is already
 * selected. What `open`, `ioctl`, `::read` and `::write` return is passed in
 * by the caller of each operation.
 */
module I2cBus {
  import opened Platform

  datatype BusError =
    | OpenFailed                 // open() returned a negative descriptor
    | SelectFailed(slave: byte)  // ioctl(I2C_SLAVE) returned a negative value
    | NotRegistered(slave: byte) // transfer to an address missing from the registry
    | BufferLength               // std::vector refuses a negative size
    | TransferFailed             // ::read / ::write moved a different number of bytes

  /** The registry invariant: every address appears at most once. */
  predicate NoDuplicates(s: seq<byte>) {
    forall i, j :: 0 <= i < j < |s| ==> s[i] != s[j]
  }

  /** The ioctl calls selecting `slave` costs when `active` is the cached address. */
  function Selection(active: byte, slave: byte): seq<OsCall> {
    if slave == active then [] else [Ioctl(slave)]
  }

  class I2C {
    const busPath: string
    const i2cBus: int               // the file descriptor
    var activeSlave: byte
    var slaves: seq<byte>           // registered addresses, in registration order
    var calls: seq<OsCall>          // system calls issued on i2cBus

    ghost predicate Valid()
      reads this
    {
      i2cBus >= 0 && NoDuplicates(slaves)
    }

    /** The object state once `open` has returned the descriptor `fd`. */
    constructor (busPath: string, fd: int)
      requires fd >= 0
      ensures Valid()
      ensures this.busPath == busPath && i2cBus == fd
      ensures activeSlave == 0x00 && slaves == [] && calls == [Open(busPath)]
    {
      this.busPath := busPath;
      i2cBus := fd;
      activeSlave := 0x00;
      slaves := [];
      calls := [Open(busPath)];
    }

    predicate IsActive(slave: byte)
      reads this
    {
      slave == activeSlave
    }

    /** Selects `slave` unless it is already the active one; a failed ioctl throws. */
    method SetSlave(slave: byte, ioctlResult: int) returns (r: Outcome<BusError>)
      requires Valid()
      modifies this`activeSlave, this`calls
      ensures Valid() && slaves == old(slaves)
      ensures calls == old(calls) + Selection(old(activeSlave), slave)
      ensures old(IsActive(slave)) ==> r == Pass && activeSlave == old(activeSlave)
      ensures !old(IsActive(slave)) && ioctlResult < 0 ==>
                r == Fail(SelectFailed(slave)) && activeSlave == old(activeSlave)
      ensures !old(IsActive(slave)) && ioctlResult >= 0 ==> r == Pass
      ensures r.Pass? ==> activeSlave == slave
    {
      if IsActive(slave) {
        return Pass;
      }
      calls := calls + [Ioctl(slave)];
      if ioctlResult < 0 {
        return Fail(SelectFailed(slave));
      }
      activeSlave := slave;
      return Pass;
    }

    /** Linear scan of the registry. */
    method ValidateSlave(slave: byte) returns (found: bool)
      ensures found <==> slave in slaves
    {
      var i := 0;
      while i < |slaves|
        invariant 0 <= i <= |slaves|
        invariant slave !in slaves[..i]
      {
        if slaves[i] == slave {
          return true;
        }
        i := i + 1;
      }
      return false;
    }

    /**
     * Selects `addr` and reads one dummy byte; the slave answers when the read
     * returns 1. A failed selection throws out of the ping.
     */
    method PingSlave(addr: byte, ioctlResult: int, readResult: int) returns (r: Result<bool, BusError>)
      requires Valid()
      modifies this`activeSlave, this`calls
      ensures Valid() && slaves == old(slaves)
      ensures addr != old(activeSlave) && ioctlResult < 0 ==>
                r == Failure(SelectFailed(addr)) && activeSlave == old(activeSlave)
                && calls == old(calls) + [Ioctl(addr)]
      ensures addr == old(activeSlave) || ioctlResult >= 0 ==>
                r == Success(readResult == 1) && activeSlave == addr
                && calls == old(calls) + Selection(old(activeSlave), addr) + [OsCall.Read(1)]
    {
      var selected := SetSlave(addr, ioctlResult);
      if selected.Fail? {
        return Failure(selected.error);
      }
      calls := calls + [OsCall.Read(1)];
      return Success(readResult == 1);
    }

    /**
     * Adds `addr` when it is not registered yet and answers a ping; returns
     * whether it was added. A registered address is not pinged at all.
     */
    method RegisterSlave(addr: byte, ioctlResult: int, readResult: int) returns (r: Result<bool, BusError>)
      requires Valid()
      modifies this`activeSlave, this`slaves, this`calls
      ensures Valid()
      ensures addr in old(slaves) ==>
                r == Success(false) && slaves == old(slaves)
                && activeSlave == old(activeSlave) && calls == old(calls)
      ensures addr !in old(slaves) && addr != old(activeSlave) && ioctlResult < 0 ==>
                r == Failure(SelectFailed(addr)) && slaves == old(slaves)
                && activeSlave == old(activeSlave) && calls == old(calls) + [Ioctl(addr)]
      ensures addr !in old(slaves) && (addr == old(activeSlave) || ioctlResult >= 0) ==>
                r == Success(readResult == 1) && activeSlave == addr
                && calls == old(calls) + Selection(old(activeSlave), addr) + [OsCall.Read(1)]
      ensures r == Success(true) <==> slaves == old(slaves) + [addr]
      ensures r != Success(true) ==> slaves == old(slaves)
    {
      var known := ValidateSlave(addr);
      if known {
        return Success(false);
      }
      var ping := PingSlave(addr, ioctlResult, readResult);
      if ping.Failure? {
        return Failure(ping.error);
      }
      if ping.value {
        slaves := slaves + [addr];
        assert slaves[..|slaves| - 1] == old(slaves);
        return Success(true);
      }
      return Success(false);
    }

    /**
     * Reads `numBytes` bytes from a registered slave: the registration check comes
     * before any selection, the selection before the transfer, and a short
     * read throws. `::read` returns `readResult`; when that is the full count,
     * `delivered` holds the bytes it placed in the buffer.
     */
    method Read(addr: byte, numBytes: int, ioctlResult: int, readResult: int, delivered: seq<byte>)
      returns (r: Result<seq<byte>, BusError>)
      requires Valid()
      requires numBytes >= 0 && readResult == numBytes ==> |delivered| == numBytes
      modifies this`activeSlave, this`calls
      ensures Valid() && slaves == old(slaves)
      ensures addr !in slaves ==>
                r == Failure(NotRegistered(addr)) && activeSlave == old(activeSlave) && calls == old(calls)
      ensures addr in slaves && addr != old(activeSlave) && ioctlResult < 0 ==>
                r == Failure(SelectFailed(addr)) && activeSlave == old(activeSlave)
                && calls == old(calls) + [Ioctl(addr)]
      ensures addr in slaves && (addr == old(activeSlave) || ioctlResult >= 0) ==>
                activeSlave == addr
                && (numBytes < 0 ==>
                      r == Failure(BufferLength) && calls == old(calls) + Selection(old(activeSlave), addr))
                && (numBytes >= 0 ==>
                      calls == old(calls) + Selection(old(activeSlave), addr) + [OsCall.Read(numBytes)]
                      && r == if readResult == numBytes then Success(delivered)
                              else Failure(TransferFailed))
      ensures r.Success? ==> addr in slaves && activeSlave == addr && numBytes >= 0 && |r.value| == numBytes
    {
      var registered := ValidateSlave(addr);
      if !registered {
        return Failure(NotRegistered(addr));
      }
      var selected := SetSlave(addr, ioctlResult);
      if selected.Fail? {
        return Failure(selected.error);
      }
      if numBytes < 0 {
        return Failure(BufferLength);
      }
      calls := calls + [OsCall.Read(numBytes)];
      if readResult != numBytes {
        return Failure(TransferFailed);
      }
      return Success(delivered);
    }

    /**
     * Writes the first `numBytes` bytes of `buffer` to a registered slave, with
     * the same order of checks as `Read`; a short write throws.
     */
    method Write(addr: byte, buffer: seq<byte>, numBytes: int, ioctlResult: int, writeResult: int)
      returns (r: Outcome<BusError>)
      requires Valid()
      requires 0 <= numBytes <= |buffer|
      modifies this`activeSlave, this`calls
      ensures Valid() && slaves == old(slaves)
      ensures addr !in slaves ==>
                r == Fail(NotRegistered(addr)) && activeSlave == old(activeSlave) && calls == old(calls)
      ensures addr in slaves && addr != old(activeSlave) && ioctlResult < 0 ==>
                r == Fail(SelectFailed(addr)) && activeSlave == old(activeSlave)
                && calls == old(calls) + [Ioctl(addr)]
      ensures addr in slaves && (addr == old(activeSlave) || ioctlResult >= 0) ==>
                activeSlave == addr
                && calls == old(calls) + Selection(old(activeSlave), addr) + [OsCall.Write(buffer[..numBytes])]
                && r == if writeResult == numBytes then Pass else Fail(TransferFailed)
    {
      var registered := ValidateSlave(addr);
      if !registered {
        return Fail(NotRegistered(addr));
      }
      var selected := SetSlave(addr, ioctlResult);
      if selected.Fail? {
        return selected;
      }
      calls := calls + [OsCall.Write(buffer[..numBytes])];
      if writeResult != numBytes {
        return Fail(TransferFailed);
      }
      return Pass;
    }

    /** The destructor: closes a valid descriptor. */
    method Close()
      requires Valid()
      modifies this`calls
      ensures calls == old(calls) + [OsCall.Close]
    {
      if i2cBus >= 0 {
        calls := calls + [OsCall.Close];
      }
    }
  }

  /** The constructor: the bus is usable only when `open` returned `fd >= 0`. */
  method OpenBus(busPath: string, fd: int) returns (r: Result<I2C, BusError>)
    ensures fd < 0 <==> r == Failure(OpenFailed)
    ensures r.Success? ==>
              fresh(r.value) && r.value.Valid() && r.value.i2cBus == fd
              && r.value.activeSlave == 0x00 && r.value.slaves == [] && r.value.calls == [Open(busPath)]
  {
    if fd < 0 {
      return Failure(OpenFailed);
    }
    var bus := new I2C(busPath, fd);
    return Success(bus);
  }

  /** A fresh bus already has 0x00 cached as active: selecting it issues no call at all. */
  method SelectZeroOnFreshBus(busPath: string, fd: int, ioctlResult: int) returns (issued: seq<OsCall>)
    requires fd >= 0
    ensures issued == []
  {
    var bus := new I2C(busPath, fd);
    var before := bus.calls;
    var r := bus.SetSlave(0x00, ioctlResult);
    assert bus.calls == before;
    issued := bus.calls[|before|..];
  }
}
