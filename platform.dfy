/**
 * Types shared by the drivers: fixed-width unsigned integers, the error
 * wrappers that stand for C++ exceptions, and the log of operating-system
 * calls a driver issues on its file descriptor.
 */
module Platform {

  /** `uint8_t` */
  type byte = x: int | 0 <= x < 0x100

  /** `uint16_t` */
  type uint16 = x: int | 0 <= x < 0x1_0000

  /** A call that either returns normally or throws `error`. */
  datatype Outcome<+E> = Pass | Fail(error: E)

  /** A call that either returns `value` or throws `error`. */
  datatype Result<+T, +E> = Success(value: T) | Failure(error: E)

  /**
   * The system calls a driver makes on its descriptor, in the order it makes
   * them. What each call returns is not part of the entry: the drivers take
   * those results as parameters (the operating system is an oracle here).
   */
  datatype OsCall =
    | Open(path: string)
    | OpenAdapter(number: int)     // open("/dev/i2c-<number>")
    | Ioctl(slave: byte)           // ioctl(fd, I2C_SLAVE, slave)
    | Read(count: int)             // ::read(fd, buf, count)
    | Write(bytes: seq<byte>)      // ::write(fd, bytes, |bytes|)
    | Close
}
