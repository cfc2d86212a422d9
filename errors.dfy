/**
 * The error taxonomy of error.rs: the `Error` enumeration, its `Display`
 * and `source`, and the conversion of a libftdi1 return code
 * (`LibFtdiReturn`) into `Result<u32, Error>` and `Result<(), Error>`.
 */
module Errors {
  import opened Wrappers
  import opened Native
  import Decimal

  /** What `str::from_utf8` reports about bytes that are not UTF-8; its
      fields are not used by the wrapper. */
  datatype Utf8Error = Utf8Error(validUpTo: nat)

  datatype LibFtdiError = LibFtdiError(errStr: string)

  datatype LibUsbError = LibUsbError(errStr: string)

  datatype Error =
    | LibFtdi(ftdi: LibFtdiError)
    | LibUsb(usb: LibUsbError)
    | MallocFailure
    | UnexpectedErrorCode(code: cint)
    | Utf8(utf8: Utf8Error)

  const LIBFTDI_MESSAGE := "libftdi-internal error"
  const LIBUSB_MESSAGE := "libusb-internal error"
  const MALLOC_MESSAGE := "malloc() failure"
  const UNEXPECTED_PREFIX := "unknown libftdi error code "
  const UTF8_MESSAGE := "libftdi error string not UTF8"

  /** `Display for Error`: one fixed message per variant, except that the
      message of an unexpected code ends with that code in decimal. */
  function Display(e: Error): (s: string)
    ensures e.LibFtdi? ==> s == LIBFTDI_MESSAGE
    ensures e.LibUsb? ==> s == LIBUSB_MESSAGE
    ensures e.MallocFailure? ==> s == MALLOC_MESSAGE
    ensures e.Utf8? ==> s == UTF8_MESSAGE
    ensures e.UnexpectedErrorCode? ==>
      |s| > |UNEXPECTED_PREFIX| && s[..|UNEXPECTED_PREFIX|] == UNEXPECTED_PREFIX
      && Decimal.Parse(s[|UNEXPECTED_PREFIX|..]) == Some(e.code)
  {
    match e
    case LibFtdi(_) => LIBFTDI_MESSAGE
    case LibUsb(_) => LIBUSB_MESSAGE
    case MallocFailure => MALLOC_MESSAGE
    case UnexpectedErrorCode(c) =>
      var s := UNEXPECTED_PREFIX + Decimal.Format(c);
      assert s[|UNEXPECTED_PREFIX|..] == Decimal.Format(c);
      Decimal.ParseFormat(c);
      s
    case Utf8(_) => UTF8_MESSAGE
  }

  /** `Display for LibFtdiError` and `Display for LibUsbError`: the native string verbatim. */
  function DisplayLibFtdi(e: LibFtdiError): (s: string)
    ensures s == e.errStr
  {
    e.errStr
  }

  function DisplayLibUsb(e: LibUsbError): (s: string)
    ensures s == e.errStr
  {
    e.errStr
  }

  /** `Error::source`: only a libftdi error has an underlying cause, and it is the wrapped error. */
  function Source(e: Error): (r: Option<LibFtdiError>)
    ensures r.Some? <==> e.LibFtdi?
    ensures r.Some? ==> r.value == e.ftdi
  {
    match e
    case LibFtdi(ftdiErr) => Some(ftdiErr)
    case _ => None
  }

  /** Which variant an error is, without its payload. */
  function Variant(e: Error): nat {
    match e
    case LibFtdi(_) => 0
    case LibUsb(_) => 1
    case MallocFailure => 2
    case UnexpectedErrorCode(_) => 3
    case Utf8(_) => 4
  }

  /** The message tells the variant apart, and for an unexpected code also
      the code; nothing else of the payload shows. */
  lemma DisplayDeterminesVariant(a: Error, b: Error)
    ensures Display(a) == Display(b) <==>
      Variant(a) == Variant(b) && (a.UnexpectedErrorCode? ==> a.code == b.code)
  {
    if Display(a) == Display(b) {
      if a.UnexpectedErrorCode? || b.UnexpectedErrorCode? {
        assert Display(a)[0] == 'u' <==> a.UnexpectedErrorCode?;
        assert Display(b)[0] == 'u' <==> b.UnexpectedErrorCode?;
        if a.UnexpectedErrorCode? && b.UnexpectedErrorCode? {
          assert Some(a.code) == Decimal.Parse(Display(a)[|UNEXPECTED_PREFIX|..]);
        }
      } else {
        assert LIBFTDI_MESSAGE[3] != LIBUSB_MESSAGE[3];
        assert LIBFTDI_MESSAGE[7] != UTF8_MESSAGE[7];
      }
    }
  }

  /** The codes libftdi1 documents as its own errors: -13..=-1 and the
      "device unavailable" code -666. */
  predicate IsLibFtdiCode(rc: int) {
    -13 <= rc <= -1 || rc == -666
  }

  /** `LibFtdiReturn(rc, ctx)`: the return code and the result of reading
      the context's error string as UTF-8 (`CStr::to_str`). */
  datatype LibFtdiReturn = LibFtdiReturn(rc: cint, errStr: Result<string, Utf8Error>)

  /** The error a failing return code stands for. */
  function ErrorOf(ret: LibFtdiReturn): (e: Error)
    requires ret.rc < 0
    ensures IsLibFtdiCode(ret.rc) && ret.errStr.Ok? ==> e == LibFtdi(LibFtdiError(ret.errStr.value))
    ensures IsLibFtdiCode(ret.rc) && ret.errStr.Err? ==> e == Utf8(ret.errStr.error)
    ensures !IsLibFtdiCode(ret.rc) ==> e == UnexpectedErrorCode(ret.rc)
  {
    if IsLibFtdiCode(ret.rc) then
      match ret.errStr
      case Ok(errStr) => LibFtdi(LibFtdiError(errStr))
      case Err(utf8Err) => Utf8(utf8Err)
    else UnexpectedErrorCode(ret.rc)
  }

  /** `Into<Result<u32, Error>> for LibFtdiReturn`. */
  function IntoU32(ret: LibFtdiReturn): (r: Result<u32, Error>)
    ensures r.Ok? <==> ret.rc >= 0
    ensures r.Ok? ==> r.value == ret.rc
    ensures r.Err? ==> r.error == ErrorOf(ret)
    ensures r.Err? ==> r.error.LibFtdi? || r.error.Utf8? || r.error.UnexpectedErrorCode?
    ensures r.Err? && r.error.UnexpectedErrorCode? ==> r.error.code == ret.rc && !IsLibFtdiCode(ret.rc)
    ensures r.Err? && !r.error.UnexpectedErrorCode? ==> IsLibFtdiCode(ret.rc)
    ensures r.Err? && r.error.LibFtdi? ==> ret.errStr == Ok(r.error.ftdi.errStr)
  {
    if ret.rc >= 0 then Ok(ret.rc) else Err(ErrorOf(ret))
  }

  /** `Into<Result<(), Error>> for LibFtdiReturn`. */
  function IntoUnit(ret: LibFtdiReturn): (r: Result<(), Error>)
    ensures r.Ok? <==> ret.rc >= 0
    ensures r.Err? ==> r.error == ErrorOf(ret)
  {
    if ret.rc >= 0 then Ok(()) else Err(ErrorOf(ret))
  }

  /** The two conversions partition the codes alike and differ only in
      dropping the success value. */
  lemma IntoUnitForgetsValue(ret: LibFtdiReturn)
    ensures IntoUnit(ret) == IntoU32(ret).Map((_: u32) => ())
  {
  }

  /** The code of an unexpected return can be read back from the message
      the caller is shown. */
  lemma UnexpectedCodeShown(ret: LibFtdiReturn)
    requires ret.rc < 0 && !IsLibFtdiCode(ret.rc)
    ensures Decimal.Parse(Display(IntoU32(ret).error)[|UNEXPECTED_PREFIX|..]) == Some(ret.rc)
  {
  }
}
