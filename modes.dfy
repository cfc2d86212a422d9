/**
 * mode.rs: the bit modes, their conversion into the byte `ftdi_set_bitmode`
 * takes, and entering and leaving bit-bang mode, which moves the device's
 * native context into and out of a `BitBang`.
 */
module Modes {
  import opened Wrappers
  import opened Native
  import opened Devices

  datatype BitMode = Reset | Bitbang | Mpsse | Syncbb | Mcu | Opto | Cbus | Syncff | Ft1284

  /**
   * `Into<u8> for BitMode`. `constant` gives the value of the generated
   * `ffi::ftdi_mpsse_mode` constant for each mode; a value that does not
   * fit in a byte is sent as 0.
   */
  function IntoU8(mode: BitMode, constant: BitMode -> u32): (b: u8)
    ensures constant(mode) < 0x100 ==> b == constant(mode)
    ensures constant(mode) >= 0x100 ==> b == 0
  {
    if constant(mode) < 0x100 then constant(mode) else 0
  }

  /** The fallback cannot be told apart from a mode whose constant is 0. */
  lemma FallbackLooksLikeZero(mode: BitMode, constant: BitMode -> u32)
    ensures IntoU8(mode, constant) == 0 <==> constant(mode) == 0 || constant(mode) >= 0x100
  {
  }

  /** The table of `ftdi_set_bitmode` in `BitBang::new`; -2 ("context
      invalid") is unreachable. */
  function EnableStatus(status: cint, diagnostic: string): (r: Result<(), Error>)
    requires status != -2
    ensures r.Ok? <==> status == 0
    ensures status == -1 ==> r == Err(RequestFailed)
    ensures status !in {0, -1} ==> r == Err(Unknown(diagnostic))
  {
    if status == 0 then Ok(())
    else if status == -1 then Err(RequestFailed)
    else Err(Unknown(diagnostic))
  }

  /** The table of `ftdi_disable_bitbang` in `BitBang::disable`; -2 is unreachable. */
  function DisableStatus(status: cint, diagnostic: string): (r: Result<(), Error>)
    requires status != -2
    ensures r.Ok? <==> status == 0
    ensures status == -1 ==> r == Err(RequestFailed)
    ensures status !in {0, -1} ==> r == Err(Unknown(diagnostic))
  {
    if status == 0 then Ok(())
    else if status == -1 then Err(RequestFailed)
    else Err(Unknown(diagnostic))
  }

  /** A device in bit-bang mode. */
  class BitBang {
    var device: Device

    constructor (device: Device)
      ensures this.device == device
    {
      this.device := device;
    }

    /**
     * `BitBang::disable`: on success the native context moves into a new
     * `Device` and this bit-bang is left holding null, so the context has
     * one owner; on failure the bit-bang keeps it.
     */
    method Disable(lib: Library, status: cint, diagnostic: string) returns (r: Result<Device, Error>)
      requires device.Valid(lib)
      requires status != -2
      modifies device, lib
      ensures lib.allocations == old(lib.allocations) && lib.live == old(lib.live)
      ensures lib.trace == old(lib.trace) + [DisableBitbang(old(device.context).addr)]
      ensures r.Ok? <==> status == 0
      ensures r.Ok? ==>
        && fresh(r.value) && r.value.context == old(device.context) && r.value.Valid(lib)
        && device.context.Null? && !device.Valid(lib)
      ensures r.Err? ==> Err(r.error) == DisableStatus(status, diagnostic) && device.context == old(device.context)
    {
      lib.Invoke(DisableBitbang(device.context.addr));
      var outcome := DisableStatus(status, diagnostic);
      if outcome.Err? {
        return Err(outcome.error);
      }
      var context := device.context;
      device.context := Null;
      var released := new Device(context);
      r := Ok(released);
    }
  }

  /**
   * `BitBang::new`: puts the device in bit-bang mode with the caller's
   * mask; on success the same device is wrapped, unchanged.
   */
  method NewBitBang(device: Device, bitmask: u8, lib: Library, constant: BitMode -> u32,
                    status: cint, diagnostic: string)
    returns (r: Result<BitBang, Error>)
    requires device.Valid(lib)
    requires status != -2
    modifies lib
    ensures lib.allocations == old(lib.allocations) && lib.live == old(lib.live)
    ensures lib.trace == old(lib.trace) + [SetBitmode(device.context.addr, bitmask, IntoU8(Bitbang, constant))]
    ensures r.Ok? <==> status == 0
    ensures r.Ok? ==> fresh(r.value) && r.value.device == device
    ensures r.Err? ==> Err(r.error) == EnableStatus(status, diagnostic)
  {
    lib.Invoke(SetBitmode(device.context.addr, bitmask, IntoU8(Bitbang, constant)));
    var outcome := EnableStatus(status, diagnostic);
    if outcome.Err? {
      return Err(outcome.error);
    }
    var bb := new BitBang(device);
    r := Ok(bb);
  }

  /** Entering and leaving bit-bang mode hands back the very context the
      device had, and the bit-bang keeps nothing. */
  method RoundTrip(device: Device, bitmask: u8, lib: Library, constant: BitMode -> u32)
    returns (back: Device)
    requires device.Valid(lib)
    modifies device, lib
    ensures back.context == old(device.context) && back.Valid(lib) && device.context.Null?
  {
    var bb := NewBitBang(device, bitmask, lib, constant, 0, "");
    var r := bb.value.Disable(lib, 0, "");
    back := r.value;
  }
}
