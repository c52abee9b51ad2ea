/** protocol/commands.py, the settings of config.py that steer a connection, and protocol/responses.py. */
module Commands {
  import opened Bytes
  import opened Framing

  /** The exceptions the code tells apart: which `except` clause catches them. */
  datatype Error = ProtocolError | DeviceError | TimeoutError | TransportError | ValueError | AssertionError | Cancelled

  datatype Result<T> = Ok(value: T) | Err(error: Error)

  // ---------------------------------------------------------------- requests

  datatype Name =
    | StatusRequest | TypeRequest | ReadConfiguration
    | OnRequest | Installation | Continuous
    | BaudRate | ScanVariant | WriteConfiguration

  datatype Command = Command(
    name: Name, payload: Bytes, responseId: Byte, timeout: real, attempts: nat, mutates: bool)

  const STATUS := Command(StatusRequest, [0x31], 0xB1, 3.0, 3, false)
  const TYPE := Command(TypeRequest, [0x3A], 0xBA, 3.0, 3, false)
  const CONFIGURATION := Command(ReadConfiguration, [0x74], 0xF4, 3.0, 3, false)

  const ON_REQUEST := Command(OnRequest, [0x20, 0x25], 0xA0, 3.0, 1, true)
  const CONTINUOUS := Command(Continuous, [0x20, 0x24], 0xA0, 3.0, 1, true)

  predicate PasswordChar(b: Byte) {
    0x30 <= b <= 0x39 || 0x41 <= b <= 0x5A || 0x61 <= b <= 0x7A || b == 0x5F
  }

  /** `operating_mode(Mode.INSTALLATION, password)`. */
  function InstallationMode(password: Bytes): Result<Command> {
    if |password| != 8 || exists c | c in password :: !PasswordChar(c) then Err(ValueError)
    else Ok(Command(Installation, [0x20, 0x00] + password, 0xA0, 3.0, 1, true))
  }

  const BAUD_RATES := {9600, 19200, 38400, 500000}

  function BaudCode(baud: nat): Byte {
    if baud == 9600 then 0x42 else if baud == 19200 then 0x41 else if baud == 38400 then 0x40 else 0x48
  }

  function StatusBaudCode(baud: nat): nat {
    if baud == 9600 then 0x8067 else if baud == 19200 then 0x8033 else if baud == 38400 then 0x8019 else 0x8001
  }

  /** `STATUS_BAUD_CODES[code]`; 0 where the key is missing. */
  function StatusBaud(code: nat): nat {
    if code == 0x8067 then 9600
    else if code == 0x8033 then 19200
    else if code == 0x8019 then 38400
    else if code == 0x8001 then 500000
    else 0
  }

  function ChangeBaud(baud: nat): Result<Command> {
    if baud !in BAUD_RATES then Err(ValueError)
    else Ok(Command(BaudRate, [0x20, BaudCode(baud)], 0xA0, 3.0, 1, true))
  }

  /** `validate_geometry`, resolution in hundredths of a degree. */
  predicate ValidGeometry(angle: nat, resolution: nat) {
    && (angle == 100 || angle == 180)
    && (resolution == 25 || resolution == 50 || resolution == 100)
    && (resolution == 25 ==> angle == 100)
  }

  function Variant(angle: nat, resolution: nat): Result<Command> {
    if !ValidGeometry(angle, resolution) then Err(ValueError)
    else Ok(Command(ScanVariant, [0x3B] + Split(angle) + Split(resolution), 0xBB, 3.0, 1, true))
  }

  function StoreConfiguration(data: Bytes): Result<Command> {
    if |data| != 32 && |data| != 34 then Err(ValueError)
    else Ok(Command(WriteConfiguration, [0x77] + data, 0xF7, 8.0, 1, true))
  }

  /** The telegram that a command of this name carries. */
  predicate Carries(name: Name, payload: Bytes) {
    match name
    case StatusRequest => payload == [0x31]
    case TypeRequest => payload == [0x3A]
    case ReadConfiguration => payload == [0x74]
    case OnRequest => payload == [0x20, 0x25]
    case Continuous => payload == [0x20, 0x24]
    case Installation => |payload| == 10 && payload[..2] == [0x20, 0x00]
    case BaudRate => exists baud | baud in BAUD_RATES :: payload == [0x20, BaudCode(baud)]
    case ScanVariant => |payload| == 5 && payload[0] == 0x3B
    case WriteConfiguration => (|payload| == 33 || |payload| == 35) && payload[0] == 0x77
  }

  /** The command byte of the reply it waits for. */
  function ReplyId(name: Name): Byte {
    match name
    case StatusRequest => 0xB1
    case TypeRequest => 0xBA
    case ReadConfiguration => 0xF4
    case ScanVariant => 0xBB
    case WriteConfiguration => 0xF7
    case _ => 0xA0
  }

  predicate Mutates(name: Name) {
    name !in {StatusRequest, TypeRequest, ReadConfiguration}
  }

  /** What every builder produces. */
  predicate Built(cmd: Command) {
    && Carries(cmd.name, cmd.payload) && cmd.responseId == ReplyId(cmd.name)
    && 1 <= |cmd.payload| <= MAX_PAYLOAD
    && 1 <= cmd.attempts <= 3
    && (cmd.mutates <==> Mutates(cmd.name))
    && (cmd.mutates ==> cmd.attempts == 1)
    && cmd.timeout >= 3.0
  }

  /** Every builder that changes the scanner sends at most one telegram. */
  lemma BuildersAreBuilt(password: Bytes, baud: nat, angle: nat, resolution: nat, data: Bytes)
    ensures Built(STATUS) && Built(TYPE) && Built(CONFIGURATION) && Built(ON_REQUEST) && Built(CONTINUOUS)
    ensures InstallationMode(password).Ok? ==> Built(InstallationMode(password).value)
    ensures ChangeBaud(baud).Ok? ==> Built(ChangeBaud(baud).value)
    ensures Variant(angle, resolution).Ok? ==> Built(Variant(angle, resolution).value)
    ensures StoreConfiguration(data).Ok? ==> Built(StoreConfiguration(data).value)
  {
    if ChangeBaud(baud).Ok? {
      assert baud in BAUD_RATES && ChangeBaud(baud).value.payload == [0x20, BaudCode(baud)];
    }
  }

  // ---------------------------------------------------------------- settings

  datatype Settings = Settings(
    address: nat, physical: bool, readOnly: bool, consent: bool,
    detectBaud: bool, highSpeed: bool, targetBaud: Option<nat>,
    angle: nat, resolution: nat, millimetres: bool, indices: bool, password: Bytes,
    ackTimeout: real, timeoutScale: real)

  /** The field bounds and `validate_settings`. */
  predicate ValidSettings(s: Settings) {
    && s.address <= 127
    && ValidGeometry(s.angle, s.resolution)
    && (s.targetBaud.Some? ==> s.targetBaud.value in BAUD_RATES)
    && (s.targetBaud == Some(500000) ==> s.highSpeed)
    && s.ackTimeout >= 0.06 && s.timeoutScale > 0.0
  }

  /** `require_write` does not raise. */
  predicate WriteAllowed(s: Settings) {
    s.physical ==> !s.readOnly && s.consent
  }

  function RatesToTry(s: Settings, baud: nat, canSetBaud: bool): seq<nat> {
    if s.detectBaud && canSetBaud then [9600, 38400, 19200] + (if s.highSpeed then [500000] else []) else [baud]
  }

  // ---------------------------------------------------------------- replies

  datatype Response = Response(command: Byte, data: Bytes, status: Byte, frame: Frame)

  function Severity(status: Byte): nat {
    status % 8
  }

  /** `response`. */
  function Respond(frame: Frame, address: nat): Result<Response> {
    if !(if address == 0 then frame.address == 0x80 || frame.address == 0x81
         else frame.address == (if address < 128 then address + 128 else address)) then Err(ProtocolError)
    else if |frame.payload| < 2 || frame.payload[0] < 0x80 then Err(ProtocolError)
    else if Severity(frame.payload[|frame.payload| - 1]) > 4 then Err(ProtocolError)
    else if frame.payload[0] == 0x92 then Err(DeviceError)
    else Ok(Response(frame.payload[0], frame.payload[1..|frame.payload| - 1], frame.payload[|frame.payload| - 1], frame))
  }

  predicate Healthy(reply: Response) {
    Severity(reply.status) < 3
  }

  /** `confirm` returns; where it raises, it raises DeviceError. */
  predicate Confirmed(reply: Response, request: Bytes) {
    && (reply.command in {0xA0, 0xBB, 0xF7} ==> Healthy(reply))
    && (reply.command == 0xA0 ==> reply.data == [0])
    && (reply.command == 0xBB ==> |reply.data| == 5 && reply.data[0] == 1 && request != [] && reply.data[1..] == request[1..])
    && (reply.command == 0xF7 ==>
          |reply.data| == |request| && request != [] && reply.data[0] == 1 && reply.data[1..] == request[1..])
  }

  // ---------------------------------------------------------------- configuration

  predicate IsConfiguration(raw: Bytes) {
    |raw| == 32 || |raw| == 34
  }

  predicate LegalUnit(raw: Bytes)
    requires IsConfiguration(raw)
  {
    raw[6] == 0 || raw[6] == 1
  }

  predicate Bit1(b: Byte) {
    b / 2 % 2 == 1
  }

  /** `b | 2` or `b & ~2`. */
  function WithBit1(b: Byte, on: bool): Byte {
    if Bit1(b) == on then b else if on then b + 2 else b - 2
  }

  /** `Configuration.updated`. */
  function Updated(raw: Bytes, millimetres: bool, indices: bool): Bytes
    requires IsConfiguration(raw)
  {
    raw[4 := WithBit1(raw[4], indices)][5 := 2][6 := if millimetres then 1 else 0]
  }

  /** The in-place edits of `updated` on its local copy. */
  method UpdateCopy(raw: Bytes, millimetres: bool, indices: bool) returns (result: Bytes)
    requires IsConfiguration(raw)
    ensures result == Updated(raw, millimetres, indices)
  {
    var data := new Byte[|raw|](i requires 0 <= i < |raw| => raw[i]);
    data[4] := if indices then (if Bit1(data[4]) then data[4] else data[4] + 2)
               else (if Bit1(data[4]) then data[4] - 2 else data[4]);
    data[5] := 2;
    data[6] := if millimetres then 1 else 0;
    result := data[..];
    assert result == Updated(raw, millimetres, indices);
  }

  /** Only bit 1 of byte 4 and bytes 5 and 6 change; the result reads back as asked; twice is once. */
  lemma UpdatedMeaning(raw: Bytes, millimetres: bool, indices: bool)
    requires IsConfiguration(raw)
    ensures var after := Updated(raw, millimetres, indices);
      && IsConfiguration(after) && |after| == |raw|
      && (forall i | 0 <= i < |raw| && i != 4 && i != 5 && i != 6 :: after[i] == raw[i])
      && after[4] % 2 == raw[4] % 2 && after[4] / 4 == raw[4] / 4 && Bit1(after[4]) == indices
      && after[5] == 2 && LegalUnit(after) && (after[6] == 1) == millimetres
      && Updated(after, millimetres, indices) == after
  {
    var b := raw[4];
    assert b == b % 2 + 2 * (b / 2 % 2) + 4 * (b / 4);
    var after := Updated(raw, millimetres, indices);
    assert Updated(after, millimetres, indices) == after;
  }

  // ---------------------------------------------------------------- status

  datatype DeviceStatus = DeviceStatus(
    operatingMode: Byte, deviceError: Byte, angle: nat, resolution: nat, baud: nat,
    millimetres: bool, measuringMode: Byte, permanentBaud: bool, address: Byte)

  /** `decode_status`. */
  function DecodeStatus(reply: Response): Result<DeviceStatus> {
    var data := reply.data;
    if reply.command != 0xB1 then Err(ProtocolError)
    else if |data| != 146 && |data| != 152 then Err(ProtocolError)
    else
      var shift := if |data| == 152 then 6 else 0;
      var angle := Number(data[100 + shift], data[101 + shift]);
      var resolution := Number(data[102 + shift], data[103 + shift]);
      var baud := StatusBaud(Number(data[109 + shift], data[110 + shift]));
      if !ValidGeometry(angle, resolution) || (exists i | 0 <= i < 7 :: data[i] >= 0x80) || baud == 0 then Err(ProtocolError)
      else if data[115 + shift] > 1 then Err(ProtocolError)
      else Ok(DeviceStatus(data[7], data[8], angle, resolution, baud, data[115 + shift] == 1,
                           data[95 + shift], data[112 + shift] != 0, data[113 + shift]))
  }

  // ---------------------------------------------------------------- identity

  predicate Blank(b: Byte) {
    0x09 <= b <= 0x0D || 0x1C <= b <= 0x20
  }

  /** Leading part of `strip()`; what it removes at the end cannot matter to a prefix test. */
  function StripLeft(text: Bytes): Bytes {
    if text != [] && Blank(text[0]) then StripLeft(text[1..]) else text
  }

  const LMS200_SEMICOLON: Bytes := [0x4C, 0x4D, 0x53, 0x32, 0x30, 0x30, 0x3B, 0x33, 0x30, 0x31, 0x30, 0x36]  // LMS200;30106
  const LMS200_DASH: Bytes := [0x4C, 0x4D, 0x53, 0x32, 0x30, 0x30, 0x2D, 0x33, 0x30, 0x31, 0x30, 0x36]       // LMS200-30106

  predicate SupportedModel(identity: Bytes) {
    LMS200_SEMICOLON <= StripLeft(identity) || LMS200_DASH <= StripLeft(identity)
  }

  predicate Ascii(text: Bytes) {
    forall b | b in text :: b < 0x80
  }
}
