# ftdi-rs in Dafny: native context lifecycle and return-code translation

This project models the core of `ftdi`, a safe Rust wrapper over the libftdi1
C library for FTDI USB-serial bridge chips. libftdi1 itself is not modelled.
Every native call is an opaque step. The status it returns is an input of the
wrapper operation that makes the call. The call is recorded, with the
arguments the wrapper passed, in the trace of a `Native.Library` object. What
is modelled is the logic the wrapper puts around each call:

- **Return-code tables.** Each native call has its own table from a `c_int`
  status to an outcome. The outcome is a structured error, an `io::Error`
  kind with its message, a panic or an `unreachable!`. Panics and
  `unreachable!` become preconditions. The same code means different things
  in different tables, and lemmas state where.
- **Generic translators.** `Context::mk_error` in lib.rs and the
  `LibFtdiReturn` conversions in error.rs.
- **The native context.** It is a token: `Null`, `Allocated(addr)` or
  `Opened(addr)`. `Library.allocations` holds the context structures that
  `ftdi_new` returned and `ftdi_free` has not freed. `Library.live` holds
  those that are still initialised: `ftdi_deinit` and `ftdi_free` both take
  a context out of it, and only `ftdi_free` frees the structure. Every call
  needs a live context, and every string argument must point at memory that
  has not been freed. Deinitialising needs a live context, so a double
  deinit cannot be proved correct. `Context::new`, `Drop`, `Opener::open`
  and `BitBang::disable` move the context between owners.
- **The `Opener` builder.** Each optional field can be set once.
- **The transfer contract of `read`/`write`.** The buffer length is clamped to
  `i32::MAX`. Any non-negative count is a success, however short. The
  disconnect sentinel -666 is always "not found".

Modules:

- `Wrappers`: Option and Result.
- `Native`: integer widths, the handle token, the call trace.
- `Decimal`: Rust's `{}` formatting of an integer, with a parser and a
  round-trip lemma.
- `Errors`: error.rs.
- `Ftdi`: lib.rs.
- `Devices`: `Device` and the error set used by opener.rs and mode.rs.
- `Opening`: opener.rs.
- `Modes`: mode.rs.

The source files come from different revisions of the crate, and they do not
agree on the error type. lib.rs builds a `LibFtdiError` from a code and a
string. error.rs defines it with a string only. opener.rs and mode.rs use
`Device`, `AllocationFailed`, `DeviceNotFound` and `Error::unknown`, and the
error.rs shown defines none of these. So each file's error set is its own
datatype: `Ftdi.Error`, `Errors.Error` and `Devices.Error`. The model does
not reconcile them. `Error::unknown(context)` is modelled as
`Unknown(diagnostic)`, where `diagnostic` is the context's native error
string.

Three policy choices, as this code makes them:

- `set_interface` after opening is neither checked nor refused by
  `Context::set_interface`. `Opener::open` treats that status (-3) as
  unreachable.
- No close operation exists in these files. `Drop for Context` calls
  `ftdi_deinit`, which does not free the context structure. See Findings.
- A failed open in opener.rs does not release the context. See Findings.

## Model

| member | source | states |
|---|---|---|
| `Native.Library.New` | src/lib.rs:76 | `ftdi_new` yields null exactly when the allocator fails; otherwise the new context is allocated and live and was not allocated before |
| `Native.Library.Release` | src/lib.rs:207-211 | `ftdi_deinit` needs a live context and leaves it not live but still allocated; `ftdi_free` needs an allocated context and leaves it neither live nor allocated |
| `Decimal.Digits` | src/error.rs:48 | the decimal digits of a natural number are all digits, one of them exactly when the number is below 10 |
| `Decimal.Format` | src/error.rs:48 | `{}` of an integer is non-empty and starts with '-' exactly when the integer is negative |
| `Decimal.ParseFormat` | src/lib.rs:223-226 | the formatted code can be read back: parsing the text gives the number |
| `Decimal.FormatInjective` | src/lib.rs:241-244 | two codes format alike exactly when they are equal |
| `Errors.Display` | src/error.rs:42-52 | `LibFtdi`, `LibUsb`, `MallocFailure` and `Utf8` each show their own fixed message; an unexpected code shows the prefix followed by text that parses back to that code |
| `Errors.DisplayDeterminesVariant` | src/error.rs:42-52 | two errors display alike exactly when they are the same variant and, for an unexpected code, carry the same code; no other payload shows |
| `Errors.DisplayLibFtdi` | src/error.rs:54-58 | a libftdi error displays its native string verbatim |
| `Errors.DisplayLibUsb` | src/error.rs:60-64 | a libusb error displays its string verbatim |
| `Errors.Source` | src/error.rs:66-73 | `source()` is `Some` exactly for `LibFtdi`, and then it holds the wrapped error |
| `Errors.ErrorOf` | src/error.rs:88-98 | for a failure code in -13..=-1 or -666: `LibFtdi` with the native string when the string is UTF-8, `Utf8` with the decoder's error otherwise; any other negative code becomes `UnexpectedErrorCode` with that same code |
| `Errors.IntoU32` | src/error.rs:83-101 | `Ok(rc)` exactly when rc >= 0, with the value kept; otherwise the error `ErrorOf` gives, which is is `UnexpectedErrorCode(rc)` exactly for codes libftdi1 does not document, and a `LibFtdi` error carries the UTF-8 string read from the context |
| `Errors.IntoUnit` | src/error.rs:103-121 | `Ok(())` exactly when rc >= 0; otherwise the same error as the `u32` conversion |
| `Errors.IntoUnitForgetsValue` | src/error.rs:103-121 | the `()` conversion equals the `u32` conversion with its success value dropped, so the two partition codes alike |
| `Errors.UnexpectedCodeShown` | src/error.rs:97 | the message of an unexpected code names that code, recoverably |
| `Ftdi.MkError` | src/lib.rs:45-73 | `Ok(f(res))` exactly when res >= 0; for a negative code, `UnexpectedErrorCode(unk)` when `default` gives `Err(unk)` and a `LibFtdi` error with the code and native string when it gives `Ok`; no status is both |
| `Ftdi.SetInterfaceStatus` | src/lib.rs:87-98 | -1, -2 and -3 give a `LibFtdi` error, any other negative c gives `UnexpectedErrorCode(c)`, any non-negative status gives `Ok(())` |
| `Ftdi.UsbOpenStatus` | src/lib.rs:100-121 | `Ok` only for 0; -3 is `NotFound`; -4..-9, -12 and -13 are `Other` with a message of their own; every other value, positive ones included, is "unknown usb_open error" |
| `Ftdi.UsbOpenMessagesDistinct` | src/lib.rs:102-120 | each code usb_open knows gets an outcome no other code gets |
| `Ftdi.UsbResetStatus` | src/lib.rs:123-131 | `Ok` only for 0; -1 "reset failed", -2 `NotFound`, anything else "unknown reset error" |
| `Ftdi.PurgeStatus` | src/lib.rs:133-142 | `Ok` only for 0; -1 read purge, -2 write purge, -3 `NotFound`, anything else "unknown purge error" |
| `Ftdi.SetLatencyStatus` | src/lib.rs:144-156 | `Ok` only for 0; `InvalidInput` exactly for -1, -2 `Other`, -3 `NotFound`, anything else unknown |
| `Ftdi.LatencyStatus` | src/lib.rs:158-170 | the value the native call wrote is returned exactly when the status is 0; -1 `Other`, -2 `NotFound`, anything else unknown |
| `Ftdi.CodesAreCallSpecific` | src/lib.rs:127-150 | -1, -2 and -3 each map to different kinds in different calls' tables |
| `Ftdi.TransferLength` | src/lib.rs:215 | the length passed to the native transfer is never negative and never more than the buffer, and is smaller only when the buffer's length exceeds `i32::MAX`, which is then passed |
| `Ftdi.TransferStatus` | src/lib.rs:217-227 | `Ok(status)` exactly when status >= 0; `NotFound` exactly for -666; any other failure is `Other` and its message names the code |
| `Ftdi.TransferStatusInjective` | src/lib.rs:235-245 | different native statuses give different transfer outcomes |
| `Ftdi.ShortTransferIsSuccess` | src/lib.rs:218 | a count below the buffer length is `Ok(count)` for both read and write |
| `Ftdi.SentinelIsolated` | src/lib.rs:219-222 | in read and in write, a failure is "not found" exactly when it is the -666 sentinel |
| `Ftdi.TransferErrorNamesCode` | src/lib.rs:223-226 | the message of an ordinary transfer failure parses back to its status |
| `Ftdi.Context.New` | src/lib.rs:75-84 | `Err(MallocFailure)` exactly when `ftdi_new` gives null; otherwise a fresh context holding that very pointer, now allocated and live |
| `Ftdi.Context.SetInterface` | src/lib.rs:87-98 | passes the interface to `ftdi_set_interface` on the owned context and returns that call's table outcome |
| `Ftdi.Context.UsbOpen` | src/lib.rs:100-121 | calls `ftdi_usb_open` with vendor and product; the handle becomes `Opened` exactly on success |
| `Ftdi.Context.UsbReset` | src/lib.rs:123-131 | one `ftdi_usb_reset` call; the table outcome |
| `Ftdi.Context.UsbPurgeBuffers` | src/lib.rs:133-142 | one `ftdi_usb_purge_buffers` call; the table outcome |
| `Ftdi.Context.SetLatencyTimer` | src/lib.rs:144-156 | passes the value to `ftdi_set_latency_timer`; the table outcome |
| `Ftdi.Context.LatencyTimer` | src/lib.rs:158-170 | one `ftdi_get_latency_timer` call; the out-value only on status 0 |
| `Ftdi.Context.SetWriteChunksize` | src/lib.rs:172-178 | passes the value to the native call; any status but 0 panics |
| `Ftdi.Context.WriteChunksize` | src/lib.rs:180-187 | returns the value the native call wrote; any status but 0 panics |
| `Ftdi.Context.SetReadChunksize` | src/lib.rs:189-195 | passes the value to the native call; any status but 0 panics |
| `Ftdi.Context.ReadChunksize` | src/lib.rs:197-204 | returns the value the native call wrote; any status but 0 panics |
| `Ftdi.Context.Drop` | src/lib.rs:207-211 | deinitialises the owned context exactly once; afterwards the context owns nothing live, but the structure stays allocated (as written) |
| `Ftdi.Context.DropFreeing` | src/lib.rs:207-211 | the corrected drop: one `ftdi_free`, after which the context is neither live nor allocated |
| `Ftdi.DropLeakWitness` | src/lib.rs:209 | a context from `Context::new` is still allocated after the as-written drop and freed after the corrected one |
| `Ftdi.Context.Read` | src/lib.rs:213-229 | asks the native read for the clamped length and returns the transfer outcome of its status |
| `Ftdi.Context.Write` | src/lib.rs:231-246 | asks the native write for the clamped length and returns the transfer outcome of its status |
| `Ftdi.Context.Flush` | src/lib.rs:248-250 | always `Ok(())` |
| `Opening.BusAddressStatus` | src/opener.rs:15-33 | 0 is `Ok`; -1, -2, -8, -9, -12 `EnumerationFailed`; -3 `DeviceNotFound`; -4 `AccessFailed`; -5 `ClaimFailed`; -6, -7 `RequestFailed`; -10 and every unlisted value `unknown`; -11 unreachable |
| `Opening.UsbPropertiesStatus` | src/opener.rs:62-77 | the same table for opening by USB properties |
| `Opening.LibusbDeviceStatus` | src/opener.rs:169-185 | -3, -4, -9..-12 `AccessFailed`; -5 `ClaimFailed`; -6, -7 `RequestFailed`; -8 unreachable; never `EnumerationFailed` or `DeviceNotFound` |
| `Opening.TablesFollowDocumentedFailures` | src/opener.rs:17-31 | each table sends libftdi1's documented meaning of a code, as the comments give it, to the error kind of its phase, and undocumented codes to `unknown` |
| `Opening.ByIdTablesAgree` | src/opener.rs:62-77 | the bus-address and USB-properties tables are the same function of the code |
| `Opening.OpenCodesAreCallSpecific` | src/opener.rs:171-183 | -3 is `DeviceNotFound` when opening by identity but `AccessFailed` when opening a libusb device; -8 and -11 also differ |
| `Opening.StringArg` | src/opener.rs:45-50 | an unset string is passed as null, a set one as a pointer to its text, readable exactly when its `CString` is still owned at the call |
| `Opening.TargetCallAsWritten` | src/opener.rs:45-60 | as written, the open call has unreadable arguments exactly when a description or serial was set |
| `Opening.DanglingDescriptionWitness` | src/opener.rs:45-48 | `find_by_vid_pid(0x0403, 0x6014).description("X")` makes the as-written call pass a freed description |
| `Opening.TargetCall` | src/opener.rs:45-60 | the corrected open call: every pointer argument is readable; bus and address, or the libusb device, are passed as given; by USB properties, vendor and product as given, a description or serial as null exactly when unset and otherwise pointing at its text, and index 0 when `nth` was not called |
| `Opening.OpenInContext` | src/opener.rs:5-7 | one native open call for the target on the given context, with the target's table outcome |
| `Opening.NewOpener` | src/opener.rs:87-92 | a new opener has no interface |
| `Opening.WithInterface` | src/opener.rs:94-98 | requires no interface yet; sets it and keeps the target |
| `Opening.WithDescription` | src/opener.rs:125-130 | requires no description yet and no NUL; sets it and keeps every other field |
| `Opening.WithSerial` | src/opener.rs:132-136 | requires no serial yet and no NUL; sets it and keeps every other field |
| `Opening.Nth` | src/opener.rs:138-142 | requires no index yet; sets it and keeps every other field |
| `Opening.FindByVidPid` | src/opener.rs:145-153 | vendor and product set; description, serial, index and interface unset |
| `Opening.FindByBusAddress` | src/opener.rs:155-157 | the bus-address target, no interface |
| `Opening.SettersCommute` | src/opener.rs:94-142 | the set-once setters touch disjoint fields, so their order does not matter |
| `Opening.FirstMatchByDefault` | src/opener.rs:51 | without `nth`, index 0 is passed to the native open |
| `Opening.Attach` | src/opener.rs:107-118 | set_interface is called only when an interface was chosen; a non-zero status aborts with `unknown` before the target is opened; otherwise the outcome is the target's |
| `Opening.Open` | src/opener.rs:100-121 | null from the allocator gives `AllocationFailed` and no further call; on success a fresh `Device` holds exactly the allocated context, opened; a target error is passed on unchanged; after a failure the context stays allocated and live (as written) |
| `Opening.OpenReleasing` | src/opener.rs:100-121 | the same steps, and a failed open leaves the allocated and live contexts as they were |
| `Opening.LeakWitness` | src/opener.rs:118 | with a successful allocation and status -3 from the target, the as-written open leaves the context allocated and the corrected one does not |
| `Modes.IntoU8` | src/mode.rs:20-36 | the mode's constant when it fits in a byte, 0 otherwise |
| `Modes.FallbackLooksLikeZero` | src/mode.rs:34 | the byte is 0 exactly when the constant is 0 or does not fit |
| `Modes.EnableStatus` | src/mode.rs:51-60 | `Ok` only for 0; -1 `RequestFailed`; -2 unreachable; anything else `unknown` |
| `Modes.DisableStatus` | src/mode.rs:66-77 | `Ok` only for 0; -1 `RequestFailed`; -2 unreachable; anything else `unknown` |
| `Modes.NewBitBang` | src/mode.rs:47-61 | calls set_bitmode with the caller's mask and the BITBANG mode byte; on status 0 wraps the same device |
| `Modes.BitBang.Disable` | src/mode.rs:63-77 | on status 0 a fresh `Device` holds the original context and the bit-bang holds null; on failure the bit-bang keeps its context |
| `Modes.RoundTrip` | src/mode.rs:46-77 | entering and leaving bit-bang mode hands back the same live context and leaves nothing behind |

## Left out

- `Opening.Open` and `Opening.OpenReleasing` open the target with the corrected `Opening.TargetCall`, so they model the leak on a failed open and not the dangling string arguments.
- The native calls themselves (`ftdi_new`, `ftdi_usb_open*`, `ftdi_read_data`, `ftdi_set_bitmode`, …). Their statuses and out-values are inputs, because libftdi1 is not part of this model.
- `ftdi_get_error_string`, `CStr` and `from_utf8_unchecked`. The diagnostic string is an input, and error.rs's `to_str` is an input of type `Result<string, Utf8Error>`. Raw C strings cannot be expressed here.
- When the error string is fetched is not recorded in the call trace. Only the string's value is modelled.
- The numeric values of `ffi::ftdi_interface` and `ffi::ftdi_mpsse_mode`. They come from generated bindings that are not part of this model. `Interface` is passed as is. `Modes.IntoU8` takes the constants as a parameter.
- The bytes read or written. Only the buffer length and the returned count are modelled.
- Ftdi.Context.Read, Ftdi.Context.Write: do not say the count is at most the buffer length. The wrapper passes libftdi1's count through without checking it.
- The definitions of `Device`, its `Drop`, the `bitbang` module and `Error::unknown`. These come from a revision whose lib.rs is not part of this model. `Devices` gives them only as far as opener.rs and mode.rs use them. Dropping a `Device`, or a `BitBang` after a failed `disable`, is not modelled.
- `find_by_raw_libusb_device` and the `libusb1-sys` feature gating. The libusb device is an abstract number. Only its table is modelled.
- Uniqueness of ownership across all objects. Rust's move semantics guarantee it. The model states each transfer (`Context.New`, `Opening.Open`, `BitBang.Disable`), not a global invariant over every owner.
- `Into<ffi::ftdi_interface> for Interface`. It only renames constants.
- The example programs (examples/read.rs, examples/dlp-loopback-tester.rs). They only sequence calls to the core, with printing and timing.

## Findings

| source | as written | input that shows it | evidently intended | confidence | as-written member | corrected member |
|---|---|---|---|---|---|---|
| src/opener.rs:107-118 | if `set_interface` fails, or the target's open call fails, `open` returns the error through `?`. The raw context from `ftdi_new` is never passed to `ftdi_free`, and no `Device` holds it, so it leaks. | `ftdi_new` returns a context, and `ftdi_usb_open_desc_index` returns -3: `open` gives `Err(DeviceNotFound)` and the context stays allocated | release the context with `ftdi_free` before returning the error | high for the missing release, not executed | `Opening.Open` | `Opening.OpenReleasing` |
| src/opener.rs:45-50 | `self.description.map(..)` and `self.serial.map(..)` move each `CString` into a closure that takes it by value and returns `as_ptr()`, and the closure drops the `CString` when it returns. `ftdi_usb_open_desc_index` then receives pointers to freed buffers for the description and the serial. | `find_by_vid_pid(0x0403, 0x6014).description("X").open()` | borrow the strings with `as_ref()` before `map`, so they stay alive across the call | high, not executed | `Opening.TargetCallAsWritten` | `Opening.TargetCall` |
| src/lib.rs:207-211 | `Drop for Context` calls `ftdi_deinit`, which closes the device and frees the buffers the context owns, but not the structure `ftdi_new` allocated. Every dropped `Context` leaks that structure. | `Context::new()` succeeds, then the context is dropped | call `ftdi_free`, the counterpart of `ftdi_new` | high, not executed | `Ftdi.Context.Drop` | `Ftdi.Context.DropFreeing` |
