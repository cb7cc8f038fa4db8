/** The diagnostics bridge (src/engine/debugger.rs): the messenger's
    subscription masks and `debug_callback`, which logs every driver message at
    a level chosen by its severity, in one fixed format, and returns 0. */
module Debugger {
  import opened Vk

  /** The `log` crate levels the callback uses. */
  datatype LogLevel = Info | Warn | Error

  /** The parts of VkDebugUtilsMessengerCallbackDataEXT the callback prints;
      `messageIdNumber` is an `int32_t`. */
  datatype CallbackData = CallbackData(messageIdName: string, messageIdNumber: int32, message: string)

  datatype LogRecord = LogRecord(level: LogLevel, text: string)

  /** What one invocation does: the record it logs and the value it returns. */
  datatype CallbackEffect = CallbackEffect(logged: LogRecord, returned: uint32)

  /** The subscription of `setup_debugger`'s VkDebugUtilsMessengerCreateInfoEXT. */
  datatype MessengerCreateInfo = MessengerCreateInfo(messageSeverity: DebugSeverityFlags, messageType: DebugMessageTypeFlags)

  function MessengerSubscription(): (info: MessengerCreateInfo)
    ensures info.messageSeverity == SEVERITY_VERBOSE | SEVERITY_INFO | SEVERITY_WARNING | SEVERITY_ERROR
    ensures info.messageType == MESSAGE_TYPE_GENERAL | MESSAGE_TYPE_VALIDATION | MESSAGE_TYPE_PERFORMANCE
    ensures forall s :: s in {SEVERITY_VERBOSE, SEVERITY_INFO, SEVERITY_WARNING, SEVERITY_ERROR} ==> Contains(info.messageSeverity, s)
    ensures !Contains(info.messageType, MESSAGE_TYPE_DEVICE_ADDRESS_BINDING)
  {
    MessengerCreateInfo(
      SEVERITY_VERBOSE | SEVERITY_WARNING | SEVERITY_INFO | SEVERITY_ERROR,
      MESSAGE_TYPE_GENERAL | MESSAGE_TYPE_VALIDATION | MESSAGE_TYPE_PERFORMANCE)
  }

  /** The `match` on the severity value: exact equality with WARNING or ERROR,
      and the info level for every other value. */
  function SeverityLevel(severity: DebugSeverityFlags): (level: LogLevel)
    ensures level == Warn <==> severity == SEVERITY_WARNING
    ensures level == Error <==> severity == SEVERITY_ERROR
    ensures level == Info <==> severity != SEVERITY_WARNING && severity != SEVERITY_ERROR
  {
    if severity == SEVERITY_WARNING then Warn
    else if severity == SEVERITY_ERROR then Error
    else Info
  }

  /** A value with several severity bits set matches neither arm: info. */
  lemma CombinedSeverityIsInfo()
    ensures SeverityLevel(SEVERITY_WARNING | SEVERITY_ERROR) == Info
    ensures SeverityLevel(SEVERITY_VERBOSE) == Info && SeverityLevel(SEVERITY_INFO) == Info
  {
  }

  // Decimal rendering of the message id number (Rust's `Display` for i32).

  predicate AllDigits(s: string) {
    forall k :: 0 <= k < |s| ==> '0' <= s[k] <= '9'
  }

  /** An optional '-' followed by digits. */
  predicate IsDecimalText(s: string) {
    && |s| > 0
    && (s[0] == '-' ==> AllDigits(s[1..]))
    && (s[0] != '-' ==> AllDigits(s))
  }

  function DigitChar(d: nat): (c: char)
    requires d < 10
    ensures '0' <= c <= '9'
  {
    "0123456789"[d]
  }

  /** The value of a decimal digit (0 for any other character). */
  function DigitValue(c: char): nat {
    if '0' <= c <= '9' then (c as int - '0' as int) as nat else 0
  }

  function Digits(n: nat): (s: string)
    ensures |s| > 0 && '0' <= s[0] <= '9'
  {
    if n < 10 then [DigitChar(n)] else Digits(n / 10) + [DigitChar(n % 10)]
  }

  function Decimal(n: int): (s: string)
    ensures |s| > 0 && (n < 0 <==> s[0] == '-')
  {
    if n < 0 then "-" + Digits(-n) else Digits(n)
  }

  lemma {:induction false} DigitsAreDigits(n: nat)
    ensures AllDigits(Digits(n))
  {
    if n >= 10 {
      DigitsAreDigits(n / 10);
    }
  }

  /** The rendered id is an optional minus sign followed by digits only. */
  lemma DecimalIsDecimalText(n: int)
    ensures IsDecimalText(Decimal(n))
  {
    if n < 0 {
      var d := Digits(-n);
      DigitsAreDigits(-n);
      assert Decimal(n) == "-" + d;
      assert Decimal(n)[1..] == d;
    } else {
      DigitsAreDigits(n);
    }
  }

  /** Reads a run of digits back as a number. */
  function ParseDigits(s: string): nat {
    if s == [] then 0 else 10 * ParseDigits(s[..|s| - 1]) + DigitValue(s[|s| - 1])
  }

  /** Reads an optionally signed decimal text back as a number. */
  function ParseDecimal(s: string): int {
    if |s| > 0 && s[0] == '-' then -(ParseDigits(s[1..]) as int) else ParseDigits(s)
  }

  lemma {:induction false} DigitsRoundTrip(n: nat)
    ensures ParseDigits(Digits(n)) == n
  {
    if n >= 10 {
      DigitsRoundTrip(n / 10);
      var s := Digits(n);
      assert s[..|s| - 1] == Digits(n / 10);
      assert DigitValue(DigitChar(n % 10)) == n % 10;
    } else {
      assert DigitValue(DigitChar(n)) == n;
    }
  }

  lemma NegatedParse(s: string, d: string)
    requires s == "-" + d
    ensures ParseDecimal(s) == -(ParseDigits(d) as int)
  {
    assert s[1..] == d;
  }

  lemma NegativeDecimalRoundTrip(n: int)
    requires n < 0
    ensures ParseDecimal(Decimal(n)) == n
  {
    var d := Digits(-n);
    assert Decimal(n) == "-" + d;
    NegatedParse(Decimal(n), d);
    DigitsRoundTrip(-n);
  }

  lemma NonNegativeDecimalRoundTrip(n: int)
    requires n >= 0
    ensures ParseDecimal(Decimal(n)) == n
  {
    DigitsRoundTrip(n);
  }

  /** The id number printed by the callback is the number itself. */
  lemma DecimalRoundTrip(n: int)
    ensures ParseDecimal(Decimal(n)) == n
  {
    if n < 0 {
      NegativeDecimalRoundTrip(n);
    } else {
      NonNegativeDecimalRoundTrip(n);
    }
  }

  /** The line all three arms print:
      `"{message_type:?} [{message_id_name} ({message_id_number})] : {message}\n"`;
      `typeText` is the `Debug` rendering of the message type flags. */
  function FormatMessage(typeText: string, data: CallbackData): (text: string)
    ensures typeText <= text
    ensures |text| > |data.message|
    ensures text[|text| - |data.message| - 1..] == data.message + "\n"
  {
    typeText + " [" + data.messageIdName + " (" + Decimal(data.messageIdNumber) + ")] : " + data.message + "\n"
  }

  /** `debug_callback`. */
  function DebugCallback(severity: DebugSeverityFlags, typeText: string, data: CallbackData): (r: CallbackEffect)
    ensures r.returned == 0
    ensures r.logged.level == SeverityLevel(severity)
    ensures r.logged.text == FormatMessage(typeText, data)
  {
    var text := FormatMessage(typeText, data);
    match SeverityLevel(severity)
    case Warn => CallbackEffect(LogRecord(Warn, text), 0)
    case Error => CallbackEffect(LogRecord(Error, text), 0)
    case Info => CallbackEffect(LogRecord(Info, text), 0)
  }

  /** The severity chooses the level only: the text and the returned value are
      the same for every severity. */
  lemma SeverityOnlyChoosesLevel(s1: DebugSeverityFlags, s2: DebugSeverityFlags, typeText: string, data: CallbackData)
    ensures DebugCallback(s1, typeText, data).logged.text == DebugCallback(s2, typeText, data).logged.text
    ensures DebugCallback(s1, typeText, data).returned == DebugCallback(s2, typeText, data).returned == 0
    ensures s1 == s2 ==> DebugCallback(s1, typeText, data) == DebugCallback(s2, typeText, data)
  {
  }
}
