/**
 * The crate root, lib.rs: `Context` over a native libftdi1 context, the
 * generic return-code translator `mk_error`, the per-call tables of the
 * configuration calls, and `Read`/`Write` with their transfer contract.
 */
module Ftdi {
  import opened Wrappers
  import opened Native
  import Decimal

  /** The libftdi error lib.rs builds: the failing code and the context's
      error string (which libftdi1 guarantees to be ASCII). */
  datatype LibFtdiError = LibFtdiError(code: cint, errStr: string)

  /** The variants of the crate's `Error` that lib.rs constructs. */
  datatype Error =
    | LibFtdi(ftdi: LibFtdiError)
    | MallocFailure
    | UnexpectedErrorCode(code: cint)

  /** The `io::ErrorKind`s lib.rs uses, and `io::Error::new(kind, message)`. */
  datatype ErrorKind = NotFound | InvalidInput | Other

  datatype IoError = IoError(kind: ErrorKind, message: string)

  /**
   * `Context::mk_error`: a non-negative code is success and becomes
   * `f(res)`; for a negative one `default` decides between a libftdi error
   * (`Ok`) and an unexpected code (`Err(unk)`, reported as `unk`).
   */
  function MkError<T>(res: cint, default: cint -> Result<cint, cint>, f: cint -> T, errStr: string)
    : (r: Result<T, Error>)
    ensures r.Ok? <==> res >= 0
    ensures r.Ok? ==> r.value == f(res)
    ensures res < 0 && default(res).Err? ==> r == Err(UnexpectedErrorCode(default(res).error))
    ensures res < 0 && default(res).Ok? ==> r == Err(LibFtdi(LibFtdiError(res, errStr)))
  {
    if res >= 0 then Ok(f(res))
    else
      match default(res)
      case Err(unk) => Err(UnexpectedErrorCode(unk))
      case Ok(_) => Err(LibFtdi(LibFtdiError(res, errStr)))
  }

  /** The codes `ftdi_set_interface` documents. */
  function SetInterfaceDefault(e: cint): Result<cint, cint> {
    if e in {-1, -2, -3} then Ok(e) else Err(e)
  }

  /** The outcome of `Context::set_interface` for a native status. */
  function SetInterfaceStatus(status: cint, errStr: string): (r: Result<(), Error>)
    ensures r.Ok? <==> status >= 0
    ensures status in {-1, -2, -3} ==> r == Err(LibFtdi(LibFtdiError(status, errStr)))
    ensures status < 0 && status !in {-1, -2, -3} ==> r == Err(UnexpectedErrorCode(status))
  {
    MkError(status, SetInterfaceDefault, (_: cint) => (), errStr)
  }

  const DEVICE_NOT_FOUND := "device not found"
  const UNKNOWN_USB_OPEN := "unknown usb_open error"

  /** The codes `usb_open` reports with a message of their own. */
  predicate IsUsbOpenCode(status: int) {
    status in {-4, -5, -6, -7, -8, -9, -12, -13}
  }

  /** The outcome of `Context::usb_open` for a native status. */
  function UsbOpenStatus(status: cint): (r: Result<(), IoError>)
    ensures r.Ok? <==> status == 0
    ensures status == -3 ==> r == Err(IoError(NotFound, DEVICE_NOT_FOUND))
    ensures IsUsbOpenCode(status) ==> r.Err? && r.error.kind == Other && r.error.message != UNKNOWN_USB_OPEN
    ensures status != 0 && status != -3 && !IsUsbOpenCode(status) ==> r == Err(IoError(Other, UNKNOWN_USB_OPEN))
  {
    if status == 0 then Ok(())
    else if status == -3 then Err(IoError(NotFound, DEVICE_NOT_FOUND))
    else if status == -4 then Err(IoError(Other, "unable to open device"))
    else if status == -5 then Err(IoError(Other, "unable to claim device"))
    else if status == -6 then Err(IoError(Other, "reset failed"))
    else if status == -7 then Err(IoError(Other, "set baudrate failed"))
    else if status == -8 then Err(IoError(Other, "get description failed"))
    else if status == -9 then Err(IoError(Other, "get serial failed"))
    else if status == -12 then Err(IoError(Other, "libusb_get_device_list failed"))
    else if status == -13 then Err(IoError(Other, "libusb_get_device_descriptor failed"))
    else Err(IoError(Other, UNKNOWN_USB_OPEN))
  }

  /** Every code `usb_open` knows gets a message no other code gets. */
  lemma UsbOpenMessagesDistinct(a: cint, b: cint)
    requires a != b && (a == -3 || IsUsbOpenCode(a))
    ensures UsbOpenStatus(a) != UsbOpenStatus(b)
  {
  }

  /** The outcome of `Context::usb_reset` for a native status. */
  function UsbResetStatus(status: cint): (r: Result<(), IoError>)
    ensures r.Ok? <==> status == 0
    ensures status == -1 ==> r == Err(IoError(Other, "reset failed"))
    ensures status == -2 ==> r == Err(IoError(NotFound, DEVICE_NOT_FOUND))
    ensures status !in {0, -1, -2} ==> r == Err(IoError(Other, "unknown reset error"))
  {
    if status == 0 then Ok(())
    else if status == -1 then Err(IoError(Other, "reset failed"))
    else if status == -2 then Err(IoError(NotFound, DEVICE_NOT_FOUND))
    else Err(IoError(Other, "unknown reset error"))
  }

  /** The outcome of `Context::usb_purge_buffers` for a native status. */
  function PurgeStatus(status: cint): (r: Result<(), IoError>)
    ensures r.Ok? <==> status == 0
    ensures status == -1 ==> r == Err(IoError(Other, "read purge failed"))
    ensures status == -2 ==> r == Err(IoError(Other, "write purge failed"))
    ensures status == -3 ==> r == Err(IoError(NotFound, DEVICE_NOT_FOUND))
    ensures status !in {0, -1, -2, -3} ==> r == Err(IoError(Other, "unknown purge error"))
  {
    if status == 0 then Ok(())
    else if status == -1 then Err(IoError(Other, "read purge failed"))
    else if status == -2 then Err(IoError(Other, "write purge failed"))
    else if status == -3 then Err(IoError(NotFound, DEVICE_NOT_FOUND))
    else Err(IoError(Other, "unknown purge error"))
  }

  /** The outcome of `Context::set_latency_timer` for a native status: only
      -1 blames the caller's value. */
  function SetLatencyStatus(status: cint): (r: Result<(), IoError>)
    ensures r.Ok? <==> status == 0
    ensures r.Err? && r.error.kind == InvalidInput <==> status == -1
    ensures status == -1 ==> r == Err(IoError(InvalidInput, "bad latency value"))
    ensures status == -2 ==> r == Err(IoError(Other, "set latency failed"))
    ensures status == -3 ==> r == Err(IoError(NotFound, DEVICE_NOT_FOUND))
    ensures status !in {0, -1, -2, -3} ==> r == Err(IoError(Other, "unknown set latency error"))
  {
    if status == 0 then Ok(())
    else if status == -1 then Err(IoError(InvalidInput, "bad latency value"))
    else if status == -2 then Err(IoError(Other, "set latency failed"))
    else if status == -3 then Err(IoError(NotFound, DEVICE_NOT_FOUND))
    else Err(IoError(Other, "unknown set latency error"))
  }

  /** The outcome of `Context::latency_timer`: the value the native call
      wrote is returned only when the status is 0. */
  function LatencyStatus(status: cint, written: u8): (r: Result<u8, IoError>)
    ensures r.Ok? <==> status == 0
    ensures r.Ok? ==> r.value == written
    ensures status == -1 ==> r == Err(IoError(Other, "set latency failed"))
    ensures status == -2 ==> r == Err(IoError(NotFound, DEVICE_NOT_FOUND))
    ensures status !in {0, -1, -2} ==> r == Err(IoError(Other, "unknown get latency error"))
  {
    if status == 0 then Ok(written)
    else if status == -1 then Err(IoError(Other, "set latency failed"))
    else if status == -2 then Err(IoError(NotFound, DEVICE_NOT_FOUND))
    else Err(IoError(Other, "unknown get latency error"))
  }

  /** The same code means different things to different calls. */
  lemma CodesAreCallSpecific()
    ensures UsbResetStatus(-1).error.kind == Other && SetLatencyStatus(-1).error.kind == InvalidInput
    ensures UsbResetStatus(-2).error.kind == NotFound && SetLatencyStatus(-2).error.kind == Other
    ensures UsbOpenStatus(-3).error.kind == NotFound && SetInterfaceStatus(-3, "").error.LibFtdi?
  {
  }

  /** `buf.len().try_into().unwrap_or(i32::MAX)`: the size passed to the
      native transfer is never negative and never more than the buffer, and
      is less than the buffer only when the buffer's length does not fit. */
  function TransferLength(bufLen: nat): (len: cint)
    ensures 0 <= len <= bufLen
    ensures len < bufLen ==> len == I32_MAX && bufLen > I32_MAX
  {
    if bufLen <= I32_MAX then bufLen else I32_MAX
  }

  /** The native transfer status meaning "device unavailable". */
  const DEVICE_GONE: cint := -666

  const READ_GONE := "device not found in read"
  const READ_FAILED_PREFIX := "libusb_bulk_transfer error "
  const WRITE_GONE := "device not found in write"
  const WRITE_FAILED_PREFIX := "usb_bulk_write error "

  /** The outcome of a transfer for a native status, given the messages the
      direction uses: any non-negative count, short or not, is success. */
  function TransferStatus(status: cint, gone: string, failedPrefix: string): (r: Result<nat, IoError>)
    ensures r.Ok? <==> status >= 0
    ensures r.Ok? ==> r.value == status
    ensures r.Err? && r.error.kind == NotFound <==> status == DEVICE_GONE
    ensures status == DEVICE_GONE ==> r.error.message == gone
    ensures r.Err? ==> r.error.kind in {NotFound, Other}
    ensures r.Err? && status != DEVICE_GONE ==>
      r.error.message == failedPrefix + Decimal.Format(status)
  {
    if status >= 0 then Ok(status)
    else if status == DEVICE_GONE then Err(IoError(NotFound, gone))
    else Err(IoError(Other, failedPrefix + Decimal.Format(status)))
  }

  /** The outcome of `Read::read`. */
  function ReadStatus(status: cint): Result<nat, IoError> {
    TransferStatus(status, READ_GONE, READ_FAILED_PREFIX)
  }

  /** The outcome of `Write::write`. */
  function WriteStatus(status: cint): Result<nat, IoError> {
    TransferStatus(status, WRITE_GONE, WRITE_FAILED_PREFIX)
  }

  /** A transfer outcome loses nothing: different native statuses give
      different outcomes, in either direction. */
  lemma TransferStatusInjective(a: cint, b: cint, gone: string, failedPrefix: string)
    requires gone != failedPrefix + Decimal.Format(a) && gone != failedPrefix + Decimal.Format(b)
    ensures TransferStatus(a, gone, failedPrefix) == TransferStatus(b, gone, failedPrefix) ==> a == b
  {
    if TransferStatus(a, gone, failedPrefix) == TransferStatus(b, gone, failedPrefix) && a < 0 && a != DEVICE_GONE {
      var m := failedPrefix + Decimal.Format(a);
      assert m == failedPrefix + Decimal.Format(b);
      assert m[|failedPrefix|..] == Decimal.Format(a);
      assert m[|failedPrefix|..] == Decimal.Format(b);
      Decimal.FormatInjective(a, b);
    }
  }

  /** A count short of the buffer is a success, in both directions. */
  lemma ShortTransferIsSuccess(status: cint, bufLen: nat)
    requires 0 <= status < bufLen
    ensures ReadStatus(status) == Ok(status) && WriteStatus(status) == Ok(status)
  {
  }

  /** The disconnect sentinel is always "not found" and no other failure is. */
  lemma SentinelIsolated(status: cint)
    requires status < 0
    ensures ReadStatus(status).error.kind == NotFound <==> status == DEVICE_GONE
    ensures WriteStatus(status).error.kind == NotFound <==> status == DEVICE_GONE
    ensures ReadStatus(DEVICE_GONE) == Err(IoError(NotFound, READ_GONE))
    ensures WriteStatus(DEVICE_GONE) == Err(IoError(NotFound, WRITE_GONE))
  {
  }

  /** Any other failure names its code in the message. */
  lemma TransferErrorNamesCode(status: cint)
    requires status < 0 && status != DEVICE_GONE
    ensures Decimal.Parse(ReadStatus(status).error.message[|READ_FAILED_PREFIX|..]) == Some(status)
    ensures Decimal.Parse(WriteStatus(status).error.message[|WRITE_FAILED_PREFIX|..]) == Some(status)
  {
    assert ReadStatus(status).error.message[|READ_FAILED_PREFIX|..] == Decimal.Format(status);
    assert WriteStatus(status).error.message[|WRITE_FAILED_PREFIX|..] == Decimal.Format(status);
    Decimal.ParseFormat(status);
  }

  /** A context owns one live native context, from `Context::new` until `Drop`. */
  class Context {
    var native: Handle

    ghost predicate Valid(lib: Library)
      reads this, lib
    {
      lib.Valid() && !native.Null? && native.addr in lib.live
    }

    constructor (native: Handle)
      ensures this.native == native
    {
      this.native := native;
    }

    /** `Context::new`: `allocation` is what `ftdi_new` returned (None for null). */
    static method New(lib: Library, allocation: Option<nat>) returns (r: Result<Context, Error>)
      requires lib.Valid()
      requires allocation.Some? ==> allocation.value !in lib.allocations
      modifies lib
      ensures lib.Valid()
      ensures r.Err? <==> allocation.None?
      ensures r.Err? ==> r.error == MallocFailure
                         && lib.allocations == old(lib.allocations) && lib.live == old(lib.live)
      ensures r.Ok? ==> fresh(r.value) && r.value.native == Allocated(allocation.value) && r.value.Valid(lib)
                        && lib.allocations == old(lib.allocations) + {allocation.value}
                        && lib.live == old(lib.live) + {allocation.value}
      ensures lib.trace == old(lib.trace) + [FtdiNew]
    {
      var ctx := lib.New(allocation);
      if ctx.Null? {
        r := Err(MallocFailure);
      } else {
        var c := new Context(ctx);
        r := Ok(c);
      }
    }

    /** `Context::set_interface` ("do not call after opening"; not enforced). */
    method SetInterface(lib: Library, interface: Interface, status: cint, errStr: string)
      returns (r: Result<(), Error>)
      requires Valid(lib)
      modifies lib
      ensures Valid(lib) && lib.allocations == old(lib.allocations) && lib.live == old(lib.live)
      ensures lib.trace == old(lib.trace) + [Call.SetInterface(native.addr, interface)]
      ensures r == SetInterfaceStatus(status, errStr)
    {
      lib.Invoke(Call.SetInterface(native.addr, interface));
      r := SetInterfaceStatus(status, errStr);
    }

    /** `Context::usb_open`: on success the context is bound to a device. */
    method UsbOpen(lib: Library, vendor: u16, product: u16, status: cint) returns (r: Result<(), IoError>)
      requires Valid(lib)
      modifies this, lib
      ensures Valid(lib) && lib.allocations == old(lib.allocations) && lib.live == old(lib.live)
      ensures lib.trace == old(lib.trace) + [Call.UsbOpen(old(native).addr, vendor, product)]
      ensures r == UsbOpenStatus(status)
      ensures native == if r.Ok? then Opened(old(native).addr) else old(native)
    {
      lib.Invoke(Call.UsbOpen(native.addr, vendor, product));
      r := UsbOpenStatus(status);
      if r.Ok? {
        native := Opened(native.addr);
      }
    }

    method UsbReset(lib: Library, status: cint) returns (r: Result<(), IoError>)
      requires Valid(lib)
      modifies lib
      ensures Valid(lib) && lib.allocations == old(lib.allocations) && lib.live == old(lib.live)
      ensures lib.trace == old(lib.trace) + [Call.UsbReset(native.addr)]
      ensures r == UsbResetStatus(status)
    {
      lib.Invoke(Call.UsbReset(native.addr));
      r := UsbResetStatus(status);
    }

    method UsbPurgeBuffers(lib: Library, status: cint) returns (r: Result<(), IoError>)
      requires Valid(lib)
      modifies lib
      ensures Valid(lib) && lib.allocations == old(lib.allocations) && lib.live == old(lib.live)
      ensures lib.trace == old(lib.trace) + [PurgeBuffers(native.addr)]
      ensures r == PurgeStatus(status)
    {
      lib.Invoke(PurgeBuffers(native.addr));
      r := PurgeStatus(status);
    }

    method SetLatencyTimer(lib: Library, value: u8, status: cint) returns (r: Result<(), IoError>)
      requires Valid(lib)
      modifies lib
      ensures Valid(lib) && lib.allocations == old(lib.allocations) && lib.live == old(lib.live)
      ensures lib.trace == old(lib.trace) + [Call.SetLatencyTimer(native.addr, value)]
      ensures r == SetLatencyStatus(status)
    {
      lib.Invoke(Call.SetLatencyTimer(native.addr, value));
      r := SetLatencyStatus(status);
    }

    /** `Context::latency_timer`: `written` is what the native call stored
        in the out-parameter. */
    method LatencyTimer(lib: Library, status: cint, written: u8) returns (r: Result<u8, IoError>)
      requires Valid(lib)
      modifies lib
      ensures Valid(lib) && lib.allocations == old(lib.allocations) && lib.live == old(lib.live)
      ensures lib.trace == old(lib.trace) + [GetLatencyTimer(native.addr)]
      ensures r == LatencyStatus(status, written)
    {
      lib.Invoke(GetLatencyTimer(native.addr));
      r := LatencyStatus(status, written);
    }

    /** The chunk-size calls panic on any status but 0. */
    method SetWriteChunksize(lib: Library, value: u32, status: cint)
      requires Valid(lib)
      requires status == 0
      modifies lib
      ensures Valid(lib) && lib.allocations == old(lib.allocations) && lib.live == old(lib.live)
      ensures lib.trace == old(lib.trace) + [Call.SetWriteChunksize(native.addr, value)]
    {
      lib.Invoke(Call.SetWriteChunksize(native.addr, value));
    }

    method WriteChunksize(lib: Library, status: cint, written: u32) returns (value: u32)
      requires Valid(lib)
      requires status == 0
      modifies lib
      ensures Valid(lib) && lib.allocations == old(lib.allocations) && lib.live == old(lib.live)
      ensures lib.trace == old(lib.trace) + [GetWriteChunksize(native.addr)]
      ensures value == written
    {
      lib.Invoke(GetWriteChunksize(native.addr));
      value := written;
    }

    method SetReadChunksize(lib: Library, value: u32, status: cint)
      requires Valid(lib)
      requires status == 0
      modifies lib
      ensures Valid(lib) && lib.allocations == old(lib.allocations) && lib.live == old(lib.live)
      ensures lib.trace == old(lib.trace) + [Call.SetReadChunksize(native.addr, value)]
    {
      lib.Invoke(Call.SetReadChunksize(native.addr, value));
    }

    method ReadChunksize(lib: Library, status: cint, written: u32) returns (value: u32)
      requires Valid(lib)
      requires status == 0
      modifies lib
      ensures Valid(lib) && lib.allocations == old(lib.allocations) && lib.live == old(lib.live)
      ensures lib.trace == old(lib.trace) + [GetReadChunksize(native.addr)]
      ensures value == written
    {
      lib.Invoke(GetReadChunksize(native.addr));
      value := written;
    }

    /** `Drop for Context` as written: the native context is deinitialised
        exactly once, so it no longer owns anything live, but `ftdi_deinit`
        does not free the context structure `ftdi_new` allocated, and that
        stays allocated with nothing referring to it. */
    method Drop(lib: Library)
      requires Valid(lib)
      modifies lib
      ensures !Valid(lib)
      ensures lib.live == old(lib.live) - {native.addr}
      ensures lib.allocations == old(lib.allocations)
      ensures lib.trace == old(lib.trace) + [Deinit(native.addr)]
    {
      lib.Release(Deinit(native.addr));
    }

    /** `Drop for Context` as evidently intended: `ftdi_free`, the
        counterpart of `ftdi_new`, deinitialises the context and frees it. */
    method DropFreeing(lib: Library)
      requires Valid(lib)
      modifies lib
      ensures !Valid(lib)
      ensures lib.live == old(lib.live) - {native.addr}
      ensures lib.allocations == old(lib.allocations) - {native.addr}
      ensures lib.trace == old(lib.trace) + [Free(native.addr)]
    {
      lib.Release(Free(native.addr));
    }

    /** `Read::read` into a buffer of `bufLen` bytes. */
    method Read(lib: Library, bufLen: nat, status: cint) returns (r: Result<nat, IoError>)
      requires Valid(lib)
      modifies lib
      ensures Valid(lib) && lib.allocations == old(lib.allocations) && lib.live == old(lib.live)
      ensures lib.trace == old(lib.trace) + [ReadData(native.addr, TransferLength(bufLen))]
      ensures r == ReadStatus(status)
    {
      lib.Invoke(ReadData(native.addr, TransferLength(bufLen)));
      r := ReadStatus(status);
    }

    /** `Write::write` from a buffer of `bufLen` bytes. */
    method Write(lib: Library, bufLen: nat, status: cint) returns (r: Result<nat, IoError>)
      requires Valid(lib)
      modifies lib
      ensures Valid(lib) && lib.allocations == old(lib.allocations) && lib.live == old(lib.live)
      ensures lib.trace == old(lib.trace) + [WriteData(native.addr, TransferLength(bufLen))]
      ensures r == WriteStatus(status)
    {
      lib.Invoke(WriteData(native.addr, TransferLength(bufLen)));
      r := WriteStatus(status);
    }

    /** `Write::flush`: nothing is buffered, so there is nothing to do. */
    method Flush() returns (r: Result<(), IoError>)
      ensures r == Ok(())
    {
      r := Ok(());
    }
  }

  /** The input that shows the leak on drop: a context that `ftdi_new`
      allocated is still allocated after `Drop`, and freed after the
      corrected drop. */
  method DropLeakWitness() returns (leaked: bool, freed: bool)
    ensures leaked && freed
  {
    var lib := new Library();
    var r := Context.New(lib, Some(7));
    r.value.Drop(lib);
    leaked := 7 in lib.allocations;

    var lib2 := new Library();
    var r2 := Context.New(lib2, Some(7));
    r2.value.DropFreeing(lib2);
    freed := 7 !in lib2.allocations;
  }
}
