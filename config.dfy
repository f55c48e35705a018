/**
 * `internal/config`: configuration read from environment variables, with
 * defaults, and a two-rule validator.
 */
module Config {
  import opened Wrappers
  import opened Time

  /** The process environment. A key that is absent reads as "". */
  type Environment = map<string, string>

  /** `time.ParseDuration`: a duration, or `None` when the text does not parse. */
  type DurationParser = string -> Option<Duration>

  datatype ServerConfig = ServerConfig(port: string)
  datatype PrinterConfig = PrinterConfig(printerType: string, deviceName: string, timeout: Duration)
  datatype BLEConfig = BLEConfig(scanTimeout: Duration)
  datatype Config = Config(server: ServerConfig, printer: PrinterConfig, ble: BLEConfig)

  const MissingDeviceNameError: Error := "device name is required for BLE printer"

  function InvalidTypeError(printerType: string): Error {
    "invalid printer type: " + printerType + " (must be 'mock' or 'ble')"
  }

  predicate IsKnownType(printerType: string) {
    printerType == "mock" || printerType == "ble"
  }

  /**
   * The type must be "mock" or "ble", and a "ble" printer needs a device
   * name. These are the only two failures, and the type is checked first.
   */
  function Validate(c: Config): (r: Outcome<Error>)
    ensures r.Pass? <==> (c.printer.printerType == "mock" ||
                          (c.printer.printerType == "ble" && c.printer.deviceName != ""))
    ensures !IsKnownType(c.printer.printerType) ==> r == Fail(InvalidTypeError(c.printer.printerType))
    ensures c.printer.printerType == "ble" && c.printer.deviceName == "" ==> r == Fail(MissingDeviceNameError)
  {
    if !IsKnownType(c.printer.printerType) then
      Fail(InvalidTypeError(c.printer.printerType))
    else if c.printer.printerType == "ble" && c.printer.deviceName == "" then
      Fail(MissingDeviceNameError)
    else
      Pass
  }

  /** `os.Getenv`: the value, or "" when the variable is unset. */
  function Getenv(env: Environment, key: string): string {
    if key in env then env[key] else ""
  }

  /** The variable's value when it is set and non-empty; the default otherwise. */
  function GetEnv(env: Environment, key: string, defaultValue: string): (v: string)
    ensures key in env && env[key] != "" ==> v == env[key]
    ensures key !in env || env[key] == "" ==> v == defaultValue
    ensures v == "" ==> defaultValue == ""
  {
    var value := Getenv(env, key);
    if value != "" then value else defaultValue
  }

  /** The parsed duration, or 0 when the text does not parse. */
  function ParseDuration(parse: DurationParser, s: string): (d: Duration)
    ensures parse(s).None? ==> d == 0
    ensures parse(s).Some? ==> d == parse(s).value
  {
    match parse(s)
    case None => 0
    case Some(d) => d
  }

  /** The configuration `Load` builds before validating it. */
  function Assemble(env: Environment, parse: DurationParser): Config {
    Config(
      ServerConfig(GetEnv(env, "PORT", "8080")),
      PrinterConfig(
        GetEnv(env, "PRINTER_TYPE", "mock"),
        GetEnv(env, "PRINTER_DEVICE_NAME", "Peripage"),
        ParseDuration(parse, GetEnv(env, "PRINTER_TIMEOUT", "30s"))),
      BLEConfig(ParseDuration(parse, GetEnv(env, "BLE_SCAN_TIMEOUT", "10s"))))
  }

  /** The assembled configuration when it validates; the validation error (and no configuration) otherwise. */
  function Load(env: Environment, parse: DurationParser): (r: Result<Config, Error>)
    ensures r.Success? <==> Validate(Assemble(env, parse)).Pass?
    ensures r.Success? ==> r.value == Assemble(env, parse)
    ensures r.Failure? ==> Validate(Assemble(env, parse)) == Fail(r.error)
  {
    var config := Assemble(env, parse);
    match Validate(config)
    case Fail(e) => Failure(e)
    case Pass => Success(config)
  }

  /**
   * With no variable set: port 8080, the stdout printer named "Peripage",
   * a 30-second printer timeout and a 10-second scan timeout; and that
   * configuration validates.
   */
  lemma LoadDefaults(parse: DurationParser)
    requires parse("30s") == Some(30 * Second) && parse("10s") == Some(10 * Second)
    ensures Load(map[], parse) == Success(Config(
              ServerConfig("8080"),
              PrinterConfig("mock", "Peripage", 30 * Second),
              BLEConfig(10 * Second)))
  {
  }

  /** A variable set to "" is the same, to `Load`, as one not set at all. */
  lemma EmptyValueIsUnset(env: Environment, key: string, parse: DurationParser)
    ensures Load(env[key := ""], parse) == Load(env - {key}, parse)
  {
    forall k ensures Getenv(env[key := ""], k) == Getenv(env - {key}, k) {
    }
  }

  /**
   * Because the device name defaults to a non-empty name, `Load` fails only
   * for an unknown printer type, and then reports that type.
   */
  lemma LoadFailsOnlyForUnknownType(env: Environment, parse: DurationParser)
    ensures Load(env, parse).Failure? <==> !IsKnownType(GetEnv(env, "PRINTER_TYPE", "mock"))
    ensures Load(env, parse).Failure? ==>
              Load(env, parse).error == InvalidTypeError(GetEnv(env, "PRINTER_TYPE", "mock"))
  {
  }
}
