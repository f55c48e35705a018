/**
 * `internal/adapters/printer` (BLE): the Bluetooth LE printer adapter. It
 * holds an optional connected device; Connect sets it, Disconnect clears
 * it, PrintText refuses without it. Rendering and transport are
 * placeholders in this adapter and always fail.
 *
 * The radio is not modelled: each radio call is a parameter giving its
 * outcome, and the advertisements a scan reports before its timeout are a
 * finite sequence.
 */
module Ble {
  import opened Wrappers
  import opened Time

  type Address = string
  type Bitmap = seq<bv8>

  /** One advertisement reported by a scan. */
  datatype ScanResult = ScanResult(address: Address, localName: string)

  /** The zero value of a scan result, held while nothing has matched. */
  const ZeroScanResult: ScanResult := ScanResult("", "")

  /** A connected device, as the adapter returns it. */
  datatype Device = Device(address: Address)

  datatype Logger = DefaultLogger | CustomLogger(name: string)

  /** `BLEPrinterConfig`; `logger` is `None` for a nil logger. */
  datatype BLEPrinterConfig = BLEPrinterConfig(deviceName: string, scanTimeout: Duration, logger: Option<Logger>)

  const DefaultScanTimeout: Duration := 10 * Second

  const EnableErrorPrefix: string := "failed to enable BLE adapter: "
  const ScanErrorPrefix: string := "failed to start scan: "
  const NotFoundError: Error := "device not found within timeout"
  const ConnectErrorPrefix: string := "failed to connect to device: "
  const HandshakeErrorPrefix: string := "handshake failed: "
  const NotConnectedError: Error := "not connected to printer"
  const RenderErrorPrefix: string := "failed to convert text to bitmap: "
  const RenderNotImplemented: Error := "bitmap rendering not yet implemented"
  const SendErrorPrefix: string := "failed to send bitmap: "
  const SendNotImplemented: Error := "bitmap sending not yet implemented"
  const DisconnectErrorPrefix: string := "failed to disconnect: "

  /**
   * The configuration after NewBLEPrinter's defaulting: a nil logger
   * becomes the default logger and a zero scan timeout becomes 10 seconds;
   * everything else is kept.
   */
  function WithDefaults(config: BLEPrinterConfig): (c: BLEPrinterConfig)
    ensures c.deviceName == config.deviceName
    ensures c.logger.Some? && (config.logger.Some? ==> c.logger == config.logger)
    ensures config.logger.None? ==> c.logger == Some(DefaultLogger)
    ensures c.scanTimeout != 0
    ensures config.scanTimeout != 0 ==> c.scanTimeout == config.scanTimeout
    ensures config.scanTimeout == 0 ==> c.scanTimeout == DefaultScanTimeout
  {
    var withLogger := if config.logger.None? then config.(logger := Some(DefaultLogger)) else config;
    if withLogger.scanTimeout == 0 then withLogger.(scanTimeout := DefaultScanTimeout) else withLogger
  }

  /** Defaulting a configuration that is already defaulted changes nothing. */
  lemma WithDefaultsIdempotent(config: BLEPrinterConfig)
    ensures WithDefaults(WithDefaults(config)) == WithDefaults(config)
  {
  }

  /**
   * The index of the first advertisement whose local name equals `name`
   * exactly, if any.
   */
  function FirstMatch(advertisements: seq<ScanResult>, name: string): (r: Option<nat>)
    ensures r.Some? ==> r.value < |advertisements| && advertisements[r.value].localName == name
    ensures r.Some? ==> forall j :: 0 <= j < r.value ==> advertisements[j].localName != name
    ensures r.None? ==> forall j :: 0 <= j < |advertisements| ==> advertisements[j].localName != name
  {
    if advertisements == [] then None
    else if advertisements[0].localName == name then Some(0)
    else match FirstMatch(advertisements[1..], name)
      case None => None
      case Some(k) => Some(k + 1)
  }

  /**
   * The scan callback of Connect, run on each advertisement in arrival
   * order: the first whose name matches is recorded in `foundDevice`,
   * `found` is set, and scanning stops.
   */
  method MatchAdvertisements(advertisements: seq<ScanResult>, name: string)
    returns (found: bool, foundDevice: ScanResult)
    ensures found <==> FirstMatch(advertisements, name).Some?
    ensures found ==> foundDevice == advertisements[FirstMatch(advertisements, name).value]
    ensures !found ==> foundDevice == ZeroScanResult
  {
    found, foundDevice := false, ZeroScanResult;
    var i := 0;
    while i < |advertisements| && !found
      invariant 0 <= i <= |advertisements|
      invariant forall j :: 0 <= j < (if found then i - 1 else i) ==> advertisements[j].localName != name
      invariant found ==> 0 < i && foundDevice == advertisements[i - 1] && foundDevice.localName == name
      invariant !found ==> foundDevice == ZeroScanResult
    {
      var result := advertisements[i];
      if result.localName == name {
        foundDevice := result;
        found := true;
      }
      i := i + 1;
    }
  }

  class BLEPrinter {
    /** The connected device; `None` while not connected. */
    var device: Option<Device>
    const deviceName: string
    const scanTimeout: Duration
    const logger: Logger

    /** The struct literal NewBLEPrinter returns: no device yet. */
    constructor (deviceName: string, scanTimeout: Duration, logger: Logger)
      ensures device == None
      ensures this.deviceName == deviceName && this.scanTimeout == scanTimeout && this.logger == logger
    {
      this.device := None;
      this.deviceName := deviceName;
      this.scanTimeout := scanTimeout;
      this.logger := logger;
    }

    /**
     * Scans, connects to the first advertisement named exactly
     * `deviceName`, and performs the handshake. `device` is set only once
     * the link connect has succeeded; on every earlier failure it is left
     * as it was.
     *
     * `scan` is the outcome of starting the scan, `advertisements` what the
     * scan reports before its timeout, and `linkConnect` the adapter's
     * connect call for an address.
     */
    method Connect(scan: Outcome<Error>, advertisements: seq<ScanResult>,
                   linkConnect: Address -> Result<Device, Error>)
      returns (err: Outcome<Error>)
      modifies this`device
      ensures scan.Fail? ==> err == Fail(ScanErrorPrefix + scan.error) && device == old(device)
      ensures scan.Pass? && FirstMatch(advertisements, deviceName).None? ==>
                err == Fail(NotFoundError) && device == old(device)
      ensures scan.Pass? && FirstMatch(advertisements, deviceName).Some? ==>
                var target := advertisements[FirstMatch(advertisements, deviceName).value];
                && (linkConnect(target.address).Failure? ==>
                      err == Fail(ConnectErrorPrefix + linkConnect(target.address).error) && device == old(device))
                && (linkConnect(target.address).Success? ==>
                      err == Pass && device == Some(linkConnect(target.address).value))
      ensures err.Pass? ==> device.Some?
    {
      // The callback runs on each advertisement while the scan is on.
      var found, foundDevice := MatchAdvertisements(advertisements, deviceName);
      if scan.Fail? {
        return Fail(ScanErrorPrefix + scan.error);
      }
      if !found {
        return Fail(NotFoundError);
      }
      match linkConnect(foundDevice.address)
      case Failure(e) =>
        return Fail(ConnectErrorPrefix + e);
      case Success(d) =>
        device := Some(d);
      match PerformHandshake()
      case Fail(e) =>
        return Fail(HandshakeErrorPrefix + e);
      case Pass =>
        return Pass;
    }

    /** The handshake placeholder: it does nothing and succeeds. */
    function PerformHandshake(): (r: Outcome<Error>)
      ensures r.Pass?
    {
      Pass
    }

    /** The rendering placeholder: it fails for every text. */
    function TextToBitmap(text: string): (r: Result<Bitmap, Error>)
      ensures r.Failure? && r.error == RenderNotImplemented
    {
      Failure(RenderNotImplemented)
    }

    /** The transport placeholder: it fails for every bitmap. */
    function SendBitmap(bitmap: Bitmap): (r: Outcome<Error>)
      ensures r.Fail? && r.error == SendNotImplemented
    {
      Fail(SendNotImplemented)
    }

    /**
     * The part of PrintText after the connection guard, given what the
     * renderer returned for `text`: a rendering error is returned wrapped
     * and nothing is sent; a bitmap is sent once, and a transport error is
     * returned wrapped.
     */
    function RenderAndSend(text: string, rendered: Result<Bitmap, Error>): (r: PrintRun)
      ensures r.rendered == [text]
      ensures rendered.Failure? ==> r.outcome == Fail(RenderErrorPrefix + rendered.error) && r.sent == []
      ensures rendered.Success? ==> r.sent == [rendered.value] && r.outcome == Fail(SendErrorPrefix + SendNotImplemented)
    {
      match rendered
      case Failure(e) => PrintRun(Fail(RenderErrorPrefix + e), [text], [])
      case Success(bitmap) =>
        match SendBitmap(bitmap)
        case Fail(e) => PrintRun(Fail(SendErrorPrefix + e), [text], [bitmap])
        case Pass => PrintRun(Pass, [text], [bitmap])
    }

    /**
     * Refuses without a device, rendering nothing. With a device the text
     * goes to the renderer, which always fails, so the call always fails
     * and no bitmap is ever sent.
     */
    function PrintText(text: string): (r: PrintRun)
      reads this
      ensures device.None? ==> r == PrintRun(Fail(NotConnectedError), [], [])
      ensures device.Some? ==> r.rendered == [text] && r.outcome == Fail(RenderErrorPrefix + RenderNotImplemented)
      ensures r.outcome.Fail? && r.sent == []
    {
      if device.None? then
        PrintRun(Fail(NotConnectedError), [], [])
      else
        RenderAndSend(text, TextToBitmap(text))
    }

    /**
     * Without a device, nothing happens and nil is returned. Otherwise the
     * radio disconnect is attempted and `device` is cleared only if it
     * succeeds. Afterwards the call returned nil exactly when no device is
     * held.
     */
    method Disconnect(radioDisconnect: Device -> Outcome<Error>) returns (err: Outcome<Error>)
      modifies this`device
      ensures old(device).None? ==> err == Pass && device == old(device)
      ensures old(device).Some? && radioDisconnect(old(device).value).Fail? ==>
                err == Fail(DisconnectErrorPrefix + radioDisconnect(old(device).value).error) && device == old(device)
      ensures old(device).Some? && radioDisconnect(old(device).value).Pass? ==> err == Pass && device == None
      ensures err.Pass? <==> device.None?
    {
      if device.None? {
        return Pass;
      }
      match radioDisconnect(device.value)
      case Fail(e) =>
        return Fail(DisconnectErrorPrefix + e);
      case Pass =>
        device := None;
        return Pass;
    }
  }

  /**
   * What one BLE PrintText call did: its error, the texts handed to the
   * renderer, and the bitmaps handed to the transport.
   */
  datatype PrintRun = PrintRun(outcome: Outcome<Error>, rendered: seq<string>, sent: seq<Bitmap>)

  /**
   * NewBLEPrinter: defaults the configuration, then enables the adapter
   * (`enable` is the outcome of that call). On failure no printer is
   * returned; otherwise a new printer with no device.
   */
  method NewBLEPrinter(config: BLEPrinterConfig, enable: Outcome<Error>)
    returns (p: BLEPrinter?, err: Outcome<Error>)
    ensures enable.Fail? ==> p == null && err == Fail(EnableErrorPrefix + enable.error)
    ensures enable.Pass? ==>
              && err == Pass && p != null && fresh(p)
              && p.device == None
              && p.deviceName == config.deviceName
              && p.scanTimeout == WithDefaults(config).scanTimeout
              && p.logger == WithDefaults(config).logger.value
  {
    var defaulted := WithDefaults(config);
    if enable.Fail? {
      return null, Fail(EnableErrorPrefix + enable.error);
    }
    p := new BLEPrinter(defaulted.deviceName, defaulted.scanTimeout, defaulted.logger.value);
    err := Pass;
  }
}
