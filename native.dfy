/**
 * The boundary with libftdi1. Nothing of the native library's behaviour is
 * modelled: each native call is recorded in a trace together with the
 * arguments the wrapper passed, and the status it returns is an input of
 * the wrapper operation that makes the call.
 */
module Native {
  import opened Wrappers

  /** C's `int` on the platforms the wrapper targets (32-bit, two's complement). */
  type cint = x: int | -0x8000_0000 <= x < 0x8000_0000
  type u8 = x: int | 0 <= x < 0x100
  type u16 = x: int | 0 <= x < 0x1_0000
  type u32 = x: int | 0 <= x < 0x1_0000_0000

  const I32_MAX: cint := 0x7fff_ffff

  /** `*mut ftdi_context` seen as a token: null, a context that `ftdi_new`
      returned, or one that a USB device has been opened on. */
  datatype Handle = Null | Allocated(addr: nat) | Opened(addr: nat)

  /** The interface selector of the crate root (`Interface`); its conversion
      into the native enumeration is left to the generated bindings. */
  datatype Interface = A | B | C | D | Any

  /** A `*const c_char` argument: null, or the address of a NUL-terminated
      buffer holding `text`; `freed` says the owning `CString` was dropped
      before the call was made. */
  datatype CStrPtr = NullPtr | Buffer(text: string, freed: bool)
  {
    /** The callee may read through the pointer. */
    predicate Readable() {
      NullPtr? || !freed
    }
  }

  /** One call into libftdi1 with the arguments the wrapper passed. */
  datatype Call =
    | FtdiNew
    | Deinit(ctx: nat)
    | Free(ctx: nat)
    | SetInterface(ctx: nat, interface: Interface)
    | UsbOpen(ctx: nat, vendor: u16, product: u16)
    | UsbReset(ctx: nat)
    | PurgeBuffers(ctx: nat)
    | SetLatencyTimer(ctx: nat, latency: u8)
    | GetLatencyTimer(ctx: nat)
    | SetWriteChunksize(ctx: nat, chunksize: u32)
    | GetWriteChunksize(ctx: nat)
    | SetReadChunksize(ctx: nat, chunksize: u32)
    | GetReadChunksize(ctx: nat)
    | ReadData(ctx: nat, size: cint)
    | WriteData(ctx: nat, size: cint)
    | OpenBusAddr(ctx: nat, bus: u8, address: u8)
    | OpenDescIndex(ctx: nat, vendor: u16, product: u16,
                    description: CStrPtr, serial: CStrPtr, index: u32)
    | OpenDev(ctx: nat, device: nat)
    | SetBitmode(ctx: nat, bitmask: u8, mode: u8)
    | DisableBitbang(ctx: nat)
  {
    /** A call that hands a context back to the library. */
    predicate Releases() {
      Deinit? || Free?
    }

    /** Every pointer argument points at memory that is still allocated. */
    predicate PointersReadable() {
      OpenDescIndex? ==> description.Readable() && serial.Readable()
    }
  }

  /** The part of libftdi1's state the wrapper is answerable for: which
      contexts `ftdi_new` allocated and `ftdi_free` has not yet freed, which
      of those are still initialised (not passed to `ftdi_deinit` or
      `ftdi_free`), and the calls made. */
  class Library {
    var allocations: set<nat>
    var live: set<nat>
    var trace: seq<Call>

    /** Only an allocated context can be initialised. */
    ghost predicate Valid()
      reads this
    {
      live <= allocations
    }

    constructor ()
      ensures Valid()
      ensures allocations == {} && live == {} && trace == []
    {
      allocations := {};
      live := {};
      trace := [];
    }

    /** `ftdi_new`; `result` is what the allocator returned (None for null),
        and an allocator never hands out memory that is still allocated. */
    method New(result: Option<nat>) returns (h: Handle)
      requires result.Some? ==> result.value !in allocations
      modifies this
      ensures h.Null? <==> result.None?
      ensures result.Some? ==> h == Allocated(result.value)
      ensures allocations == old(allocations) + (if result.Some? then {result.value} else {})
      ensures live == old(live) + (if result.Some? then {result.value} else {})
      ensures trace == old(trace) + [FtdiNew]
    {
      if result.Some? {
        h := Allocated(result.value);
        allocations := allocations + {result.value};
        live := live + {result.value};
      } else {
        h := Null;
      }
      trace := trace + [FtdiNew];
    }

    /** Any call that neither allocates nor releases; it must be made on a
        context that is still initialised, and the library must be able to
        read every buffer it is handed. */
    method Invoke(c: Call)
      requires !c.FtdiNew? && !c.Releases()
      requires c.ctx in live
      requires c.PointersReadable()
      modifies this
      ensures allocations == old(allocations) && live == old(live)
      ensures trace == old(trace) + [c]
    {
      trace := trace + [c];
    }

    /** `ftdi_deinit` closes the device and frees the buffers the context
        owns but not the context itself; `ftdi_free` does both. A context is
        deinitialised at most once and freed at most once. */
    method Release(c: Call)
      requires c.Releases()
      requires c.Deinit? ==> c.ctx in live
      requires c.Free? ==> c.ctx in allocations
      modifies this
      ensures live == old(live) - {c.ctx}
      ensures allocations == if c.Free? then old(allocations) - {c.ctx} else old(allocations)
      ensures trace == old(trace) + [c]
    {
      live := live - {c.ctx};
      if c.Free? {
        allocations := allocations - {c.ctx};
      }
      trace := trace + [c];
    }
  }
}
