/**
 * opener.rs: the open targets with their return-code tables, the `Opener`
 * builder, and `Opener::open`.
 */
module Opening {
  import opened Wrappers
  import opened Native
  import opened Devices

  /** The three `Target`s: by bus and address, by USB properties, or by a
      libusb device reference (kept abstract). */
  datatype Target =
    | BusAddress(bus: u8, address: u8)
    | UsbProperties(vid: u16, pid: u16, description: Option<string>, serial: Option<string>, index: Option<u32>)
    | LibusbDevice(device: nat)

  /**
   * What libftdi1 says a failure code of an open call means, as the
   * comments beside each table record it. The meanings differ per call.
   */
  datatype Failure =
    | FindBussesFailed | FindDevicesFailed | NoSuchDevice | OpenFailed | ClaimRefused
    | ResetFailed | SetBaudrateFailed | GetDescriptionFailed | GetSerialFailed
    | CloseFailed | ContextInvalid | GetDeviceListFailed
    | ConfigFailed | GetDeviceDescriptorFailed | GetConfigDescriptorFailed
    | DetachKernelDriverFailed | GetConfigurationFailed

  /** The failures `ftdi_usb_open_bus_addr` and `ftdi_usb_open_desc_index` document. */
  function OpenByIdFailure(status: int): Option<Failure> {
    match status
    case -1 => Some(FindBussesFailed)
    case -2 => Some(FindDevicesFailed)
    case -3 => Some(NoSuchDevice)
    case -4 => Some(OpenFailed)
    case -5 => Some(ClaimRefused)
    case -6 => Some(ResetFailed)
    case -7 => Some(SetBaudrateFailed)
    case -8 => Some(GetDescriptionFailed)
    case -9 => Some(GetSerialFailed)
    case -10 => Some(CloseFailed)
    case -11 => Some(ContextInvalid)
    case -12 => Some(GetDeviceListFailed)
    case _ => None
  }

  /** The failures `ftdi_usb_open_dev` documents. */
  function OpenDevFailure(status: int): Option<Failure> {
    match status
    case -3 => Some(ConfigFailed)
    case -4 => Some(OpenFailed)
    case -5 => Some(ClaimRefused)
    case -6 => Some(ResetFailed)
    case -7 => Some(SetBaudrateFailed)
    case -8 => Some(ContextInvalid)
    case -9 => Some(GetDeviceDescriptorFailed)
    case -10 => Some(GetConfigDescriptorFailed)
    case -11 => Some(DetachKernelDriverFailed)
    case -12 => Some(GetConfigurationFailed)
    case _ => None
  }

  /** The wrapper's error kind for each documented failure: listing the bus
      or reading descriptors while searching is enumeration, a failure to
      use a device once found is access, and a rejected control request is
      a request failure. A close failure has no kind of its own. */
  function Classify(f: Failure, diagnostic: string): Error
    requires !f.ContextInvalid?
  {
    match f
    case FindBussesFailed => EnumerationFailed
    case FindDevicesFailed => EnumerationFailed
    case GetDescriptionFailed => EnumerationFailed
    case GetSerialFailed => EnumerationFailed
    case GetDeviceListFailed => EnumerationFailed
    case NoSuchDevice => DeviceNotFound
    case OpenFailed => AccessFailed
    case ConfigFailed => AccessFailed
    case GetDeviceDescriptorFailed => AccessFailed
    case GetConfigDescriptorFailed => AccessFailed
    case DetachKernelDriverFailed => AccessFailed
    case GetConfigurationFailed => AccessFailed
    case ClaimRefused => ClaimFailed
    case ResetFailed => RequestFailed
    case SetBaudrateFailed => RequestFailed
    case CloseFailed => Unknown(diagnostic)
  }

  /** The table of `BusAddress::open_in_context`; -11 ("context invalid") is unreachable. */
  function BusAddressStatus(status: cint, diagnostic: string): (r: Result<(), Error>)
    requires status != -11
    ensures r.Ok? <==> status == 0
    ensures status in {-1, -2, -8, -9, -12} ==> r == Err(EnumerationFailed)
    ensures status == -3 ==> r == Err(DeviceNotFound)
    ensures status == -4 ==> r == Err(AccessFailed)
    ensures status == -5 ==> r == Err(ClaimFailed)
    ensures status in {-6, -7} ==> r == Err(RequestFailed)
    ensures status == -10 || status !in {0, -1, -2, -3, -4, -5, -6, -7, -8, -9, -10, -12} ==>
      r == Err(Unknown(diagnostic))
  {
    match status
    case 0 => Ok(())
    case -1 => Err(EnumerationFailed)
    case -2 => Err(EnumerationFailed)
    case -3 => Err(DeviceNotFound)
    case -4 => Err(AccessFailed)
    case -5 => Err(ClaimFailed)
    case -6 => Err(RequestFailed)
    case -7 => Err(RequestFailed)
    case -8 => Err(EnumerationFailed)
    case -9 => Err(EnumerationFailed)
    case -10 => Err(Unknown(diagnostic))
    case -12 => Err(EnumerationFailed)
    case _ => Err(Unknown(diagnostic))
  }

  /** The table of `UsbProperties::open_in_context`; -11 is unreachable. */
  function UsbPropertiesStatus(status: cint, diagnostic: string): (r: Result<(), Error>)
    requires status != -11
    ensures r.Ok? <==> status == 0
    ensures status in {-1, -2, -8, -9, -12} ==> r == Err(EnumerationFailed)
    ensures status == -3 ==> r == Err(DeviceNotFound)
    ensures status == -4 ==> r == Err(AccessFailed)
    ensures status == -5 ==> r == Err(ClaimFailed)
    ensures status in {-6, -7} ==> r == Err(RequestFailed)
    ensures status == -10 || status !in {0, -1, -2, -3, -4, -5, -6, -7, -8, -9, -10, -12} ==>
      r == Err(Unknown(diagnostic))
  {
    match status
    case 0 => Ok(())
    case -1 => Err(EnumerationFailed)
    case -2 => Err(EnumerationFailed)
    case -3 => Err(DeviceNotFound)
    case -4 => Err(AccessFailed)
    case -5 => Err(ClaimFailed)
    case -6 => Err(RequestFailed)
    case -7 => Err(RequestFailed)
    case -8 => Err(EnumerationFailed)
    case -9 => Err(EnumerationFailed)
    case -10 => Err(Unknown(diagnostic))
    case -12 => Err(EnumerationFailed)
    case _ => Err(Unknown(diagnostic))
  }

  /** The table of `LibusbDevice::open_in_context`; -8 is unreachable. */
  function LibusbDeviceStatus(status: cint, diagnostic: string): (r: Result<(), Error>)
    requires status != -8
    ensures r.Ok? <==> status == 0
    ensures status in {-3, -4, -9, -10, -11, -12} ==> r == Err(AccessFailed)
    ensures status == -5 ==> r == Err(ClaimFailed)
    ensures status in {-6, -7} ==> r == Err(RequestFailed)
    ensures status !in {0, -3, -4, -5, -6, -7, -9, -10, -11, -12} ==> r == Err(Unknown(diagnostic))
    ensures r != Err(EnumerationFailed) && r != Err(DeviceNotFound)
  {
    match status
    case 0 => Ok(())
    case -3 => Err(AccessFailed)
    case -4 => Err(AccessFailed)
    case -5 => Err(ClaimFailed)
    case -6 => Err(RequestFailed)
    case -7 => Err(RequestFailed)
    case -9 => Err(AccessFailed)
    case -10 => Err(AccessFailed)
    case -11 => Err(AccessFailed)
    case -12 => Err(AccessFailed)
    case _ => Err(Unknown(diagnostic))
  }

  /** Each table maps a documented failure to the kind of its phase and
      every undocumented non-zero code to `unknown`. */
  lemma TablesFollowDocumentedFailures(status: cint, diagnostic: string)
    ensures status != -11 ==>
      BusAddressStatus(status, diagnostic) ==
        if status == 0 then Ok(())
        else match OpenByIdFailure(status)
          case None => Err(Unknown(diagnostic))
          case Some(f) => Err(Classify(f, diagnostic))
    ensures status != -8 ==>
      LibusbDeviceStatus(status, diagnostic) ==
        if status == 0 then Ok(())
        else match OpenDevFailure(status)
          case None => Err(Unknown(diagnostic))
          case Some(f) => Err(Classify(f, diagnostic))
  {
  }

  /** Opening by bus address and by USB properties read the code alike. */
  lemma ByIdTablesAgree(status: cint, diagnostic: string)
    requires status != -11
    ensures BusAddressStatus(status, diagnostic) == UsbPropertiesStatus(status, diagnostic)
  {
  }

  /** The same code means different things to different open calls. */
  lemma OpenCodesAreCallSpecific(diagnostic: string)
    ensures OpenByIdFailure(-3) == Some(NoSuchDevice) && OpenDevFailure(-3) == Some(ConfigFailed)
    ensures UsbPropertiesStatus(-3, diagnostic) == Err(DeviceNotFound)
    ensures LibusbDeviceStatus(-3, diagnostic) == Err(AccessFailed)
    ensures BusAddressStatus(-8, diagnostic) == Err(EnumerationFailed)
    ensures LibusbDeviceStatus(-11, diagnostic) == Err(AccessFailed)
  {
  }

  /** The codes a target's open call never returns on a valid context. */
  predicate Reachable(t: Target, status: cint) {
    if t.LibusbDevice? then status != -8 else status != -11
  }

  function TargetStatus(t: Target, status: cint, diagnostic: string): Result<(), Error>
    requires Reachable(t, status)
  {
    match t
    case BusAddress(_, _) => BusAddressStatus(status, diagnostic)
    case UsbProperties(_, _, _, _, _) => UsbPropertiesStatus(status, diagnostic)
    case LibusbDevice(_) => LibusbDeviceStatus(status, diagnostic)
  }

  /** How `open_in_context` passes an optional string: null when unset,
      otherwise a pointer into its `CString`. `kept` says whether that
      `CString` is still owned when the call is made. */
  function StringArg(s: Option<string>, kept: bool): (p: CStrPtr)
    ensures p.NullPtr? <==> s.None?
    ensures s.Some? ==> p.text == s.value && (p.Readable() <==> kept)
  {
    match s
    case None => NullPtr
    case Some(text) => Buffer(text, !kept)
  }

  /** The native open call of a target on context `ctx`; an unset index is
      passed as 0. */
  function OpenCall(t: Target, ctx: nat, kept: bool): (c: Call)
    ensures !c.FtdiNew? && !c.Releases() && c.ctx == ctx
  {
    match t
    case BusAddress(bus, address) => OpenBusAddr(ctx, bus, address)
    case UsbProperties(vid, pid, description, serial, index) =>
      OpenDescIndex(ctx, vid, pid, StringArg(description, kept), StringArg(serial, kept), index.GetOr(0))
    case LibusbDevice(device) => OpenDev(ctx, device)
  }

  /** The call as written: `self.description.map(|s| s.as_ptr())` moves each
      `CString` into the closure, which drops it on return, so a description
      or serial reaches libftdi1 as a pointer to freed memory. */
  function TargetCallAsWritten(t: Target, ctx: nat): (c: Call)
    ensures !c.FtdiNew? && !c.Releases() && c.ctx == ctx
    ensures c.PointersReadable() <==> !t.UsbProperties? || (t.description.None? && t.serial.None?)
  {
    OpenCall(t, ctx, false)
  }

  /** Setting a description is enough for the dangling argument. */
  lemma DanglingDescriptionWitness()
    ensures var o := WithDescription(FindByVidPid(0x0403, 0x6014), "X");
            !TargetCallAsWritten(o.target, 7).PointersReadable()
  {
    var o := WithDescription(FindByVidPid(0x0403, 0x6014), "X");
    assert NoNul("X");
    assert o.target.description == Some("X");
  }

  /** The call as evidently intended (`as_ref().map(|s| s.as_ptr())`, which
      borrows the `CString`s): every argument carries the target's own
      value, a description or serial as a readable pointer to its text and
      an unset one as null, and an unset index as 0. */
  function TargetCall(t: Target, ctx: nat): (c: Call)
    ensures !c.FtdiNew? && !c.Releases() && c.ctx == ctx
    ensures c.PointersReadable()
    ensures t.BusAddress? ==> c.OpenBusAddr? && c.bus == t.bus && c.address == t.address
    ensures t.LibusbDevice? ==> c.OpenDev? && c.device == t.device
    ensures t.UsbProperties? ==>
      && c.OpenDescIndex? && c.index == t.index.GetOr(0)
      && c.vendor == t.vid && c.product == t.pid
      && (c.description.NullPtr? <==> t.description.None?)
      && (t.description.Some? ==> c.description.text == t.description.value)
      && (c.serial.NullPtr? <==> t.serial.None?)
      && (t.serial.Some? ==> c.serial.text == t.serial.value)
  {
    OpenCall(t, ctx, true)
  }

  /** `Target::open_in_context`. */
  method OpenInContext(t: Target, lib: Library, ctx: nat, status: cint, diagnostic: string)
    returns (r: Result<(), Error>)
    requires ctx in lib.live
    requires Reachable(t, status)
    modifies lib
    ensures lib.allocations == old(lib.allocations) && lib.live == old(lib.live)
    ensures lib.trace == old(lib.trace) + [TargetCall(t, ctx)]
    ensures r == TargetStatus(t, status, diagnostic)
  {
    lib.Invoke(TargetCall(t, ctx));
    r := TargetStatus(t, status, diagnostic);
  }

  /** `Opener<T>`: a target and an optional interface. */
  datatype Opener = Opener(target: Target, interface: Option<Interface>)

  /** `Opener::new`: no interface chosen yet. */
  function NewOpener(target: Target): (o: Opener)
    ensures o.target == target && o.interface.None?
  {
    Opener(target, None)
  }

  /** `Opener::interface`: the interface may be chosen once. */
  function WithInterface(o: Opener, interface: Interface): (r: Opener)
    requires o.interface.None?
    ensures r.interface == Some(interface) && r.target == o.target
  {
    o.(interface := Some(interface))
  }

  /** A string `CString::new` accepts. */
  predicate NoNul(s: string) {
    forall i :: 0 <= i < |s| ==> s[i] != '\0'
  }

  /** `Opener::description`: once, and without NUL characters. */
  function WithDescription(o: Opener, description: string): (r: Opener)
    requires o.target.UsbProperties? && o.target.description.None?
    requires NoNul(description)
    ensures r.target.UsbProperties? && r.target.description == Some(description)
    ensures r.interface == o.interface && r.target.vid == o.target.vid && r.target.pid == o.target.pid
    ensures r.target.serial == o.target.serial && r.target.index == o.target.index
  {
    o.(target := o.target.(description := Some(description)))
  }

  /** `Opener::serial`: once, and without NUL characters. */
  function WithSerial(o: Opener, serial: string): (r: Opener)
    requires o.target.UsbProperties? && o.target.serial.None?
    requires NoNul(serial)
    ensures r.target.UsbProperties? && r.target.serial == Some(serial)
    ensures r.interface == o.interface && r.target.vid == o.target.vid && r.target.pid == o.target.pid
    ensures r.target.description == o.target.description && r.target.index == o.target.index
  {
    o.(target := o.target.(serial := Some(serial)))
  }

  /** `Opener::nth`: the index of the match to open, once. */
  function Nth(o: Opener, index: u32): (r: Opener)
    requires o.target.UsbProperties? && o.target.index.None?
    ensures r.target.UsbProperties? && r.target.index == Some(index)
    ensures r.interface == o.interface && r.target.vid == o.target.vid && r.target.pid == o.target.pid
    ensures r.target.description == o.target.description && r.target.serial == o.target.serial
  {
    o.(target := o.target.(index := Some(index)))
  }

  /** `find_by_vid_pid`: nothing but the vendor and product set. */
  function FindByVidPid(vid: u16, pid: u16): (o: Opener)
    ensures o.interface.None? && o.target.UsbProperties?
    ensures o.target.vid == vid && o.target.pid == pid
    ensures o.target.description.None? && o.target.serial.None? && o.target.index.None?
  {
    NewOpener(UsbProperties(vid, pid, None, None, None))
  }

  /** `find_by_bus_address`. */
  function FindByBusAddress(bus: u8, address: u8): (o: Opener)
    ensures o.interface.None? && o.target == BusAddress(bus, address)
  {
    NewOpener(BusAddress(bus, address))
  }

  /** The setters touch disjoint fields, so their order does not matter. */
  lemma SettersCommute(o: Opener, interface: Interface, description: string, serial: string, index: u32)
    requires o.target.UsbProperties? && o.interface.None?
    requires o.target.description.None? && o.target.serial.None? && o.target.index.None?
    requires NoNul(description) && NoNul(serial)
    ensures Nth(WithSerial(WithDescription(WithInterface(o, interface), description), serial), index)
         == WithInterface(WithDescription(WithSerial(Nth(o, index), serial), description), interface)
  {
  }

  /** Without `nth`, the first match is opened. */
  lemma FirstMatchByDefault(vid: u16, pid: u16, ctx: nat)
    ensures TargetCall(FindByVidPid(vid, pid).target, ctx).index == 0
  {
  }

  /**
   * The part of `Opener::open` after allocation: set the interface if one
   * was chosen (-1, -2 and -3 cannot happen on a fresh context; any other
   * non-zero status aborts), then open the target.
   */
  method Attach(o: Opener, lib: Library, ctx: nat, interfaceStatus: cint, targetStatus: cint, diagnostic: string)
    returns (r: Result<(), Error>)
    requires ctx in lib.live
    requires o.interface.Some? ==> interfaceStatus !in {-1, -2, -3}
    requires o.interface.None? || interfaceStatus == 0 ==> Reachable(o.target, targetStatus)
    modifies lib
    ensures lib.allocations == old(lib.allocations) && lib.live == old(lib.live)
    ensures o.interface.Some? && interfaceStatus != 0 ==>
      r == Err(Unknown(diagnostic))
      && lib.trace == old(lib.trace) + [Call.SetInterface(ctx, o.interface.value)]
    ensures o.interface.None? || interfaceStatus == 0 ==>
      r == TargetStatus(o.target, targetStatus, diagnostic)
      && lib.trace == old(lib.trace)
                      + (if o.interface.Some? then [Call.SetInterface(ctx, o.interface.value)] else [])
                      + [TargetCall(o.target, ctx)]
  {
    if o.interface.Some? {
      lib.Invoke(Call.SetInterface(ctx, o.interface.value));
      if interfaceStatus != 0 {
        return Err(Unknown(diagnostic));
      }
    }
    r := OpenInContext(o.target, lib, ctx, targetStatus, diagnostic);
  }

  /**
   * `Opener::open` as written: allocate, attach, and on success hand the
   * context to a new `Device`. On a failure after allocation the context
   * stays allocated and nothing refers to it any more.
   */
  method Open(o: Opener, lib: Library, allocation: Option<nat>,
              interfaceStatus: cint, targetStatus: cint, diagnostic: string)
    returns (r: Result<Device, Error>)
    requires lib.Valid()
    requires allocation.Some? ==> allocation.value !in lib.allocations
    requires allocation.Some? && o.interface.Some? ==> interfaceStatus !in {-1, -2, -3}
    requires allocation.Some? && (o.interface.None? || interfaceStatus == 0) ==> Reachable(o.target, targetStatus)
    modifies lib
    ensures lib.Valid()
    ensures allocation.None? ==>
      r == Err(AllocationFailed) && lib.allocations == old(lib.allocations) && lib.live == old(lib.live)
      && lib.trace == old(lib.trace) + [FtdiNew]
    ensures allocation.Some? ==>
      var ctx := allocation.value;
      && lib.allocations == old(lib.allocations) + {ctx} && lib.live == old(lib.live) + {ctx}
      && (o.interface.Some? && interfaceStatus != 0 ==>
            r == Err(Unknown(diagnostic))
            && lib.trace == old(lib.trace) + [FtdiNew, Call.SetInterface(ctx, o.interface.value)])
      && (o.interface.None? || interfaceStatus == 0 ==>
            lib.trace == old(lib.trace) + [FtdiNew]
                         + (if o.interface.Some? then [Call.SetInterface(ctx, o.interface.value)] else [])
                         + [TargetCall(o.target, ctx)]
            && (r.Ok? <==> targetStatus == 0)
            && (r.Err? ==> Err(r.error) == TargetStatus(o.target, targetStatus, diagnostic)))
      && (r.Ok? ==> fresh(r.value) && r.value.context == Opened(ctx) && r.value.Valid(lib))
  {
    var context := lib.New(allocation);
    if context.Null? {
      return Err(AllocationFailed);
    }
    var attached := Attach(o, lib, context.addr, interfaceStatus, targetStatus, diagnostic);
    if attached.Err? {
      return Err(attached.error);
    }
    var device := new Device(Opened(context.addr));
    r := Ok(device);
  }

  /**
   * `Opener::open` as evidently intended: the same steps, but a context
   * allocated for an open that then fails is released with `ftdi_free`
   * before the error is returned, so a failed open leaves no context behind.
   */
  method OpenReleasing(o: Opener, lib: Library, allocation: Option<nat>,
                       interfaceStatus: cint, targetStatus: cint, diagnostic: string)
    returns (r: Result<Device, Error>)
    requires lib.Valid()
    requires allocation.Some? ==> allocation.value !in lib.allocations
    requires allocation.Some? && o.interface.Some? ==> interfaceStatus !in {-1, -2, -3}
    requires allocation.Some? && (o.interface.None? || interfaceStatus == 0) ==> Reachable(o.target, targetStatus)
    modifies lib
    ensures lib.Valid()
    ensures r.Err? ==> lib.allocations == old(lib.allocations) && lib.live == old(lib.live)
    ensures allocation.None? ==> r == Err(AllocationFailed) && lib.trace == old(lib.trace) + [FtdiNew]
    ensures allocation.Some? ==>
      var ctx := allocation.value;
      && (o.interface.Some? && interfaceStatus != 0 ==>
            r == Err(Unknown(diagnostic))
            && lib.trace == old(lib.trace) + [FtdiNew, Call.SetInterface(ctx, o.interface.value), Free(ctx)])
      && (o.interface.None? || interfaceStatus == 0 ==>
            var attempted := old(lib.trace) + [FtdiNew]
                             + (if o.interface.Some? then [Call.SetInterface(ctx, o.interface.value)] else [])
                             + [TargetCall(o.target, ctx)];
            && (r.Ok? <==> targetStatus == 0)
            && (r.Ok? ==> lib.trace == attempted)
            && (r.Err? ==> Err(r.error) == TargetStatus(o.target, targetStatus, diagnostic)
                           && lib.trace == attempted + [Free(ctx)]))
      && (r.Ok? ==> fresh(r.value) && r.value.context == Opened(ctx) && r.value.Valid(lib)
                    && lib.allocations == old(lib.allocations) + {ctx} && lib.live == old(lib.live) + {ctx})
  {
    var context := lib.New(allocation);
    if context.Null? {
      return Err(AllocationFailed);
    }
    var attached := Attach(o, lib, context.addr, interfaceStatus, targetStatus, diagnostic);
    if attached.Err? {
      lib.Release(Free(context.addr));
      return Err(attached.error);
    }
    var device := new Device(Opened(context.addr));
    r := Ok(device);
  }

  /** The input that shows the leak: the allocator succeeds, the device is
      not there, and the context is still allocated afterwards with no
      `Device` to release it. The corrected open releases it. */
  method LeakWitness() returns (leaked: bool, released: bool)
    ensures leaked && released
  {
    var lib := new Library();
    var o := FindByVidPid(0x0403, 0x6014);
    var r := Open(o, lib, Some(7), 0, -3, "usb device not found");
    assert r == Err(DeviceNotFound);
    leaked := 7 in lib.allocations;

    var lib2 := new Library();
    var r2 := OpenReleasing(o, lib2, Some(7), 0, -3, "usb device not found");
    assert r2 == Err(DeviceNotFound);
    released := 7 !in lib2.allocations;
  }
}
