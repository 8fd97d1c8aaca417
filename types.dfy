/** Machine integers, JSON-like documents, callback replies and the value of
    the controller's settings, shared by every part of the model. */
module Types {

  /** `uint8_t` */
  newtype u8 = x: int | 0 <= x < 0x100
  /** `unsigned long` on the ESP32, 32 bits wide; `millis()` returns one. */
  newtype u32 = x: int | 0 <= x < 0x1_0000_0000

  /** The controller drives four relay channels. */
  const NumChannels: nat := 4

  /** What `loadSettings` stores in every `dutyCounter` entry. */
  const CounterSeed: u32 := 86400

  datatype Option<T> = None | Some(value: T)

  /** A JSON value as ArduinoJson hands it over: `Null` is what `nullptr` compares equal to. */
  datatype Value = Null | Num(n: int) | Bool(b: bool) | Text(s: string) | Arr(elems: seq<Value>)

  /** A JSON object: key to value. A key that is absent and a key that holds null read the same. */
  type Doc = map<string, Value>

  /** `doc[key] != nullptr` */
  predicate Present(d: Doc, key: string)
  {
    key in d && !d[key].Null?
  }

  /** `v.as<uint8_t>()`: an integer out of range reads as 0, a boolean as 0 or 1, anything else as 0. */
  function AsU8(v: Value): (r: u8)
    ensures v.Num? && 0 <= v.n < 0x100 ==> r as int == v.n
    ensures v.Num? && !(0 <= v.n < 0x100) ==> r == 0
    ensures v.Bool? ==> (r == 1 <==> v.b) && (r == 0 <==> !v.b)
    ensures !v.Num? && !v.Bool? ==> r == 0
  {
    match v
    case Num(n) => if 0 <= n < 0x100 then n as u8 else 0
    case Bool(b) => if b then 1 else 0
    case _ => 0
  }

  /** `v.as<unsigned long>()`, with the same rules for 32 bits. */
  function AsU32(v: Value): (r: u32)
    ensures v.Num? && 0 <= v.n < 0x1_0000_0000 ==> r as int == v.n
    ensures v.Num? && !(0 <= v.n < 0x1_0000_0000) ==> r == 0
    ensures v.Bool? ==> (r == 1 <==> v.b) && (r == 0 <==> !v.b)
    ensures !v.Num? && !v.Bool? ==> r == 0
  {
    match v
    case Num(n) => if 0 <= n < 0x1_0000_0000 then n as u32 else 0
    case Bool(b) => if b then 1 else 0
    case _ => 0
  }

  /** `v.as<int>()` for a 32-bit signed `int`. */
  function AsInt32(v: Value): (r: int)
    ensures -0x8000_0000 <= r < 0x8000_0000
    ensures v.Num? && -0x8000_0000 <= v.n < 0x8000_0000 ==> r == v.n
    ensures v.Num? && !(-0x8000_0000 <= v.n < 0x8000_0000) ==> r == 0
    ensures v.Bool? ==> r == (if v.b then 1 else 0)
    ensures !v.Num? && !v.Bool? ==> r == 0
  {
    match v
    case Num(n) => if -0x8000_0000 <= n < 0x8000_0000 then n else 0
    case Bool(b) => if b then 1 else 0
    case _ => 0
  }

  /** `v.as<bool>()`: a number is true when it is not zero. */
  function AsBool(v: Value): (r: bool)
    ensures v.Bool? ==> r == v.b
    ensures v.Num? ==> (r <==> v.n != 0)
    ensures !v.Num? && !v.Bool? ==> !r
  {
    match v
    case Num(n) => n != 0
    case Bool(b) => b
    case _ => false
  }

  /** `v.as<String>()`, with every non-string value read as the empty string. */
  function AsText(v: Value): (r: string)
    ensures v.Text? ==> r == v.s
    ensures !v.Text? ==> r == ""
  {
    if v.Text? then v.s else ""
  }

  /** The value under `key`, if any, is a string, so that `as<const char*>()`
      of it is not a null pointer. */
  predicate IsText(data: Doc, key: string)
  {
    Present(data, key) ==> data[key].Text?
  }

  /** The value half of a `callbackResponse`. */
  datatype Reply = IntReply(i: int) | TextReply(t: string)

  /** `callbackResponse(name, value)`: what a remote procedure returns to the cloud. */
  datatype Response = Response(name: string, value: Reply)

  /** One `setCoMCUPin(pin, 'D', OUTPUT, 0, level)` request sent to the co-processor. */
  datatype PinWrite = PinWrite(pin: u8, level: bool)

  /** The decimal digit character for 0 <= d <= 9. */
  function Digit(d: nat): char
    requires d <= 9
  {
    ('0' as int + d) as char
  }

  /** `"ch" + String(i+1)`: the name of channel index i. */
  function ChannelName(i: nat): string
    requires i < NumChannels
  {
    "ch" + [Digit(i + 1)]
  }

  /** The contents of the global `mySettings`: eight per-channel arrays and four scalars. */
  datatype SettingsValue = SettingsValue(
    dc: seq<u8>,             // duty cycle, percent
    dr: seq<u32>,            // duty period, seconds
    dcfs: seq<u8>,           // fail-safe duty cycle
    drfs: seq<u32>,          // fail-safe duty period
    relayPin: seq<u8>,       // co-processor pin of each relay
    dutyState: seq<bool>,    // relay level; "ON" means equal to ON
    dutyCounter: seq<u32>,   // millis() at the last transition
    publishSwitch: seq<bool>,// state change not yet reported
    ON: bool,                // polarity: the level that means "on"
    fTeleDev: bool,          // device telemetry enabled
    publishInterval: u32,    // milliseconds between water telemetry
    lastUpdated: u32)        // millis() at the last remote update
  {
    predicate WellFormed()
    {
      && |dc| == NumChannels && |dr| == NumChannels && |dcfs| == NumChannels
      && |drfs| == NumChannels && |relayPin| == NumChannels && |dutyState| == NumChannels
      && |dutyCounter| == NumChannels && |publishSwitch| == NumChannels
    }
  }
}
