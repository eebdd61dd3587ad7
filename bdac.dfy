/** Binary codec and configuration tables of the Bafang BBS02 controller
    protocol, as bdac.py implements them.

    The controller answers a read command for one configuration area with
    `opcode, length, payload..., checksum`; a write is
    `0x16, opcode, length, payload..., checksum`. The serial port itself is not
    modelled: every response is an input. */
module Bdac {

  /** One unsigned 8-bit byte on the serial link. */
  type byte = x: int | 0 <= x < 256

  datatype Option<+T> = None | Some(value: T)

  datatype Result<+T, +E> = Success(value: T) | Failure(error: E)

  /** The three editable configuration areas of the controller flash. */
  datatype Section = Basic | Pas | Throttle

  /** One entry of an ordered table, `name -> [value, description]`. */
  datatype Entry = Entry(name: string, value: byte, desc: string)

  /** An ordered table of a section (an OrderedDict in bdac.py). */
  type Table = seq<Entry>

  function Names(t: Table): seq<string>
  {
    seq(|t|, i requires 0 <= i < |t| => t[i].name)
  }

  function Values(t: Table): seq<byte>
  {
    seq(|t|, i requires 0 <= i < |t| => t[i].value)
  }

  function Descs(t: Table): seq<string>
  {
    seq(|t|, i requires 0 <= i < |t| => t[i].desc)
  }

  ghost predicate Distinct(s: seq<string>)
  {
    forall i, j | 0 <= i < j < |s| :: s[i] != s[j]
  }

  // ---------------------------------------------------------------------------
  // Section layouts
  // ---------------------------------------------------------------------------

  const BasicNames: seq<string> :=
    ["LBP", "LC",
     "ALC0", "ALC1", "ALC2", "ALC3", "ALC4", "ALC5", "ALC6", "ALC7", "ALC8", "ALC9",
     "ALSL0", "ALSL1", "ALSL2", "ALSL3", "ALSL4", "ALSL5", "ALSL6", "ALSL7", "ALSL8", "ALSL9",
     "WD", "SM"]

  const PasNames: seq<string> :=
    ["PT", "DA", "SL", "SC", "SSM", "SDN", "WM", "SD", "CD", "TS", "KC"]

  const ThrottleNames: seq<string> :=
    ["SV", "EV", "MODE", "DA", "SL", "SC"]

  /** Position of the wheel-diameter field and of the speed-meter field in BASIC. */
  const WheelIndex := 22
  const SpeedMeterIndex := 23

  /** Descriptions of the BASIC fields LBP .. ALSL9 (the first 22). */
  const BasicDescs: seq<string> :=
    ["Low battery protection, voltage where the motor will quit",
     "Current limit, Maximum current allowed to flow to motor",
     "Assist level 0 current setting in percent",
     "Assist level 1 current setting in percent",
     "Assist level 2 current setting in percent",
     "Assist level 3 current setting in percent",
     "Assist level 4 current setting in percent",
     "Assist level 5 current setting in percent",
     "Assist level 6 current setting in percent",
     "Assist level 7 current setting in percent",
     "Assist level 8 current setting in percent",
     "Assist level 9 current setting in percent",
     "Assist level 0 speed limit percentage",
     "Assist level 1 speed limit percentage",
     "Assist level 2 speed limit percentage",
     "Assist level 3 speed limit percentage",
     "Assist level 4 speed limit percentage",
     "Assist level 5 speed limit percentage",
     "Assist level 6 speed limit percentage",
     "Assist level 7 speed limit percentage",
     "Assist level 8 speed limit percentage",
     "Assist level 9 speed limit percentage"]

  const SpeedMeterDesc := "Speed meter type, and signals, BBS kits type is 0 or EXTERNAL"

  const PasDescs: seq<string> :=
    ["Pedal sensor type, set by manufacturer, don't change",
     "Designated assist level - by display or 0-9",
     "Maximum speed limit which motor will assist to",
     "Start current % when rotating the pedals, recommend 10%",
     "Slow start mode, how quickly start current is reached, recommend 4",
     "Start degree, how many pedal pulses needed to start motor, recommed 4",
     "Work mode, angular pedal speed * 10, leave as set by manufacturer",
     "Stop delay * 10ms, delay after pedalling stops for motor to stop",
     "Current decay 1-8, how fast the current drops when pedaling faster",
     "Stop delay * 10ms, Time it takes for motor to stop",
     "Keep current %, Max current flowing at assist level, when pedaling"]

  const ThrottleDescs: seq<string> :=
    ["Start voltage * 100mV, Throttle handle voltage when motor starts",
     "End voltage * 100mV, Throttle handle voltage when motor is at max power",
     "Mode of throttle handle, 0=\"speed\", 1=\"current\"",
     "Designated assist level for throttle 0-9 or Display",
     "Maximum speed level of throttle",
     "Start current % for minimum throttle"]

  function FieldNames(sec: Section): seq<string>
  {
    match sec
    case Basic => BasicNames
    case Pas => PasNames
    case Throttle => ThrottleNames
  }

  /** Section opcode of the read response and of the write frame. */
  function Opcode(sec: Section): byte
  {
    match sec
    case Basic => 0x52
    case Pas => 0x53
    case Throttle => 0x54
  }

  /** The payload length the write frame declares and a successful write echoes. */
  function PayloadLength(sec: Section): byte
  {
    match sec
    case Basic => 0x18
    case Pas => 0x0b
    case Throttle => 0x06
  }

  /** The shortest read response the decoder can index without failing: it
      reads offsets 2 .. 2 + n - 1, except that BASIC never reads the byte of
      its last field (SM). */
  function MinResponse(sec: Section): nat
  {
    match sec
    case Basic => 25
    case Pas => 13
    case Throttle => 8
  }

  /** Each layout has one name per payload byte, and no name twice. */
  lemma FieldNamesLayout(sec: Section)
    ensures |FieldNames(sec)| == PayloadLength(sec)
    ensures Distinct(FieldNames(sec))
    ensures MinResponse(sec) == 2 + |FieldNames(sec)| - (if sec == Basic then 1 else 0)
  {
    match sec
    case Basic => BasicNamesDistinct();
    case Pas =>
    case Throttle =>
  }

  /** No BASIC name occurs twice: names of different lengths differ, and the
      ten ALC and ten ALSL names differ in their level digit. */
  lemma BasicNamesDistinct()
    ensures Distinct(BasicNames)
  {
    forall i, j | 0 <= i < j < |BasicNames| ensures BasicNames[i] != BasicNames[j] {
      if |BasicNames[i]| == |BasicNames[j]| && 2 <= i < 22 {
        assert BasicNames[i][|BasicNames[i]| - 1] != BasicNames[j][|BasicNames[j]| - 1];
      }
    }
  }

  // ---------------------------------------------------------------------------
  // Decimal text, used by the wheel-diameter description
  // ---------------------------------------------------------------------------

  function DigitChar(d: nat): char
    requires d < 10
  {
    ['0', '1', '2', '3', '4', '5', '6', '7', '8', '9'][d]
  }

  /** Decimal digits of a natural number, without leading zeros. */
  function NatText(n: nat): (r: string)
    ensures 0 < |r|
    ensures forall i | 0 <= i < |r| :: '0' <= r[i] <= '9'
    ensures r[|r| - 1] == DigitChar(n % 10)
    ensures n >= 10 <==> |r| > 1
  {
    if n < 10 then [DigitChar(n)] else NatText(n / 10) + [DigitChar(n % 10)]
  }

  /** Python's text for the float `b / 2`: the integer part, then ".0" or ".5". */
  function HalfText(b: byte): string
  {
    NatText(b / 2) + (if b % 2 == 0 then ".0" else ".5")
  }

  /** The WD description, which quotes half of the raw wheel-diameter byte. */
  function WheelDesc(b: byte): string
  {
    "Wheel diameter in inches / 2 - (" + HalfText(b) + " inches)"
  }

  // ---------------------------------------------------------------------------
  // Decoding a read response
  // ---------------------------------------------------------------------------

  /** The value the decoder stores for field i: payload byte `resp[2 + i]`,
      except BASIC's SM, which is always 1 whatever `resp[25]` holds. */
  function FieldValue(sec: Section, resp: seq<byte>, i: nat): byte
    requires i < |FieldNames(sec)| && |resp| >= MinResponse(sec)
  {
    if sec == Basic && i == SpeedMeterIndex then 1 else resp[2 + i]
  }

  function FieldDesc(sec: Section, resp: seq<byte>, i: nat): string
    requires i < |FieldNames(sec)| && |resp| >= MinResponse(sec)
  {
    match sec
    case Basic =>
      if i < WheelIndex then BasicDescs[i]
      else if i == WheelIndex then WheelDesc(resp[2 + WheelIndex])
      else SpeedMeterDesc
    case Pas => PasDescs[i]
    case Throttle => ThrottleDescs[i]
  }

  /** The table `get_basic_config`, `get_pas_config` or `get_throttle_config`
      builds from a read response. The response checksum is not checked. */
  function Decode(sec: Section, resp: seq<byte>): Table
    requires |resp| >= MinResponse(sec)
  {
    seq(|FieldNames(sec)|,
        i requires 0 <= i < |FieldNames(sec)| =>
          Entry(FieldNames(sec)[i], FieldValue(sec, resp, i), FieldDesc(sec, resp, i)))
  }

  /** Field-to-offset mapping: the i-th name of the layout receives `resp[2 + i]`
      (BASIC's SM receives 1), and no other key is produced. */
  lemma DecodeLayout(sec: Section, resp: seq<byte>)
    requires |resp| >= MinResponse(sec)
    ensures Names(Decode(sec, resp)) == FieldNames(sec)
    ensures |Decode(sec, resp)| == PayloadLength(sec)
    ensures forall i | 0 <= i < |FieldNames(sec)| ::
      Decode(sec, resp)[i].value == if sec == Basic && i == SpeedMeterIndex then 1 else resp[2 + i]
    ensures sec == Basic ==> Decode(sec, resp)[SpeedMeterIndex] == Entry("SM", 1, SpeedMeterDesc)
  {
  }

  /** Decoding depends exactly on the payload bytes it reads: bytes 0, 1, the
      checksum and (for BASIC) byte 25 can be anything, and two responses whose
      read bytes differ decode to different tables. */
  lemma DecodeIgnoresUnreadBytes(sec: Section, r1: seq<byte>, r2: seq<byte>)
    requires |r1| >= MinResponse(sec) && |r2| >= MinResponse(sec)
    ensures Decode(sec, r1) == Decode(sec, r2) <==> r1[2..MinResponse(sec)] == r2[2..MinResponse(sec)]
  {
    var m := MinResponse(sec);
    if r1[2..m] == r2[2..m] {
      forall i | 0 <= i < |FieldNames(sec)|
        ensures Decode(sec, r1)[i] == Decode(sec, r2)[i]
      {
        if !(sec == Basic && i == SpeedMeterIndex) {
          assert r1[2 + i] == r1[2..m][i] == r2[2..m][i] == r2[2 + i];
        }
        if sec == Basic {
          assert r1[2 + WheelIndex] == r1[2..m][WheelIndex];
          assert r2[2 + WheelIndex] == r2[2..m][WheelIndex];
        }
      }
    } else {
      assert |r1[2..m]| == |r2[2..m]|;
      var j :| 0 <= j < m - 2 && r1[2..m][j] != r2[2..m][j];
      FieldNamesLayout(sec);
      DecodeLayout(sec, r1);
      DecodeLayout(sec, r2);
      assert Decode(sec, r1)[j].value != Decode(sec, r2)[j].value;
    }
  }

  /** The payload bytes a response's decoding reads come back as the first
      values of the table, in order. */
  lemma DecodedPayload(sec: Section, resp: seq<byte>)
    requires |resp| >= MinResponse(sec)
    ensures |Decode(sec, resp)| >= MinResponse(sec) - 2
    ensures Values(Decode(sec, resp))[..MinResponse(sec) - 2] == resp[2..MinResponse(sec)]
  {
    var m := MinResponse(sec);
    var t := Decode(sec, resp);
    DecodeLayout(sec, resp);
    FieldNamesLayout(sec);
    forall i | 0 <= i < m - 2 ensures Values(t)[..m - 2][i] == resp[2..m][i] {
      assert Values(t)[i] == t[i].value == resp[2 + i];
    }
  }

  /** The BASIC test response `get_basic_config` uses in test mode. */
  const BasicTestResponse: seq<byte> :=
    [0x52, 0x18, 0x29, 0x0f, 0x00, 0x34, 0x3a, 0x40, 0x46, 0x4c, 0x52, 0x58, 0x5e, 0x64,
     0x00, 0x24, 0x2c, 0x34, 0x3c, 0x44, 0x4c, 0x54, 0x5c, 0x64, 0x38, 0x01, 0xd5]

  /** The PAS test response `get_pas_config` uses in test mode. */
  const PasTestResponse: seq<byte> :=
    [0x53, 0x0b, 0x03, 0xff, 0xff, 0x32, 0x04, 0x04, 0xff, 0x19, 0x08, 0x00, 0x3c, 0xec]

  /** The THROTTLE test response `get_throttle_config` uses in test mode. */
  const ThrottleTestResponse: seq<byte> :=
    [0x54, 0x06, 0x0b, 0x24, 0x01, 0xff, 0x28, 0x0a, 0xb7]

  /** The BASIC test response gives LBP = 41, LC = 15 and ALC0 = 0 ... */
  lemma BasicTestScenario()
    ensures var t := Decode(Basic, BasicTestResponse);
      && t[0].name == "LBP" && t[0].value == 41
      && t[1].name == "LC" && t[1].value == 15
      && t[2].name == "ALC0" && t[2].value == 0
  {
  }

  /** ... WD = 56, described as WheelDesc(56), and SM = 1 although byte 25 is also 1. */
  lemma BasicTestWheelScenario()
    ensures var t := Decode(Basic, BasicTestResponse);
      && t[WheelIndex].name == "WD" && t[WheelIndex].value == 56 && t[WheelIndex].desc == WheelDesc(56)
      && t[SpeedMeterIndex].name == "SM" && t[SpeedMeterIndex].value == 1
  {
  }

  /** The WD description quotes half the raw byte as Python prints that float:
      56 reads as 28.0, 57 as 28.5. */
  lemma HalfTextScenario()
    ensures HalfText(56) == "28.0" && HalfText(57) == "28.5"
  {
    assert NatText(28) == "28" by {
      assert NatText(2) == "2";
    }
  }

  // ---------------------------------------------------------------------------
  // Encoding a write frame
  // ---------------------------------------------------------------------------

  const WriteCommand: byte := 0x16

  /** Sum of a byte sequence, without reduction. */
  function Sum(s: seq<byte>): nat
    decreases |s|
  {
    if s == [] then 0 else Sum(s[..|s| - 1]) + s[|s| - 1]
  }

  /** Sum of a concatenation is the sum of the parts. */
  lemma {:induction false} SumConcat(a: seq<byte>, b: seq<byte>)
    ensures Sum(a + b) == Sum(a) + Sum(b)
    decreases |b|
  {
    if b == [] {
      assert a + b == a;
    } else {
      assert (a + b)[..|a + b| - 1] == a + b[..|b| - 1];
      SumConcat(a, b[..|b| - 1]);
    }
  }

  function Checksum(sec: Section, payload: seq<byte>): byte
  {
    (Opcode(sec) + PayloadLength(sec) + Sum(payload)) % 256
  }

  /** The write frame for a table: command, opcode, declared length, one byte
      per table entry in table order, checksum. */
  function WriteFrame(sec: Section, t: Table): seq<byte>
  {
    [WriteCommand, Opcode(sec), PayloadLength(sec)] + Values(t) + [Checksum(sec, Values(t))]
  }

  /** The frame builder of `set_basic_config`, `set_pas_config`,
      `set_throttle_config` and of the front end's write path: it appends the
      bytes one by one while accumulating the unreduced sum `c`. */
  method EncodeFrame(sec: Section, t: Table) returns (frame: seq<byte>)
    ensures frame == WriteFrame(sec, t)
  {
    frame := [WriteCommand, Opcode(sec), PayloadLength(sec)];
    var c: nat := Opcode(sec) + PayloadLength(sec);
    for i := 0 to |t|
      invariant frame == [WriteCommand, Opcode(sec), PayloadLength(sec)] + Values(t[..i])
      invariant c == Opcode(sec) + PayloadLength(sec) + Sum(Values(t[..i]))
    {
      assert Values(t[..i + 1]) == Values(t[..i]) + [t[i].value];
      SumConcat(Values(t[..i]), [t[i].value]);
      frame := frame + [t[i].value];
      c := c + t[i].value;
    }
    assert t[..|t|] == t;
    frame := frame + [c % 256];
  }

  /** Frame layout and checksum law: the frame is 3 + n + 1 bytes, carries the
      values in table order at offsets 3 .., and its last byte is the sum of
      every byte between the leading 0x16 (excluded) and itself, modulo 256. */
  lemma {:induction false} WriteFrameLaw(sec: Section, t: Table)
    ensures var f := WriteFrame(sec, t);
      && |f| == 3 + |t| + 1
      && f[0] == 0x16 && f[1] == Opcode(sec) && f[2] == PayloadLength(sec)
      && (forall i | 0 <= i < |t| :: f[3 + i] == t[i].value)
      && f[|f| - 1] == Sum(f[1..|f| - 1]) % 256
  {
    var f := WriteFrame(sec, t);
    assert f[1..|f| - 1] == [Opcode(sec), PayloadLength(sec)] + Values(t);
    SumConcat([Opcode(sec), PayloadLength(sec)], Values(t));
    assert Sum([Opcode(sec), PayloadLength(sec)]) == Opcode(sec) + PayloadLength(sec) by {
      assert [Opcode(sec), PayloadLength(sec)][..1] == [Opcode(sec)];
      assert [Opcode(sec)][..0] == [];
      assert Sum([Opcode(sec)]) == Opcode(sec);
    }
  }

  /** The payload bytes of the THROTTLE test response, 0b 24 01 ff 28 0a, give
      checksum 0xBB (0x54 + 0x06 + 353 = 443 = 0x1BB). */
  lemma ThrottleChecksumScenario()
    ensures Checksum(Throttle, [0x0b, 0x24, 0x01, 0xff, 0x28, 0x0a]) == 0xbb
  {
    var v: seq<byte> := [0x0b, 0x24, 0x01, 0xff, 0x28, 0x0a];
    assert v[..1][..0] == [];
    assert Sum(v[..1]) == 0x0b;
    assert v[..2][..1] == v[..1];
    assert Sum(v[..2]) == 0x0b + 0x24;
    assert v[..3][..2] == v[..2];
    assert Sum(v[..3]) == 0x0b + 0x24 + 0x01;
    assert v[..4][..3] == v[..3];
    assert Sum(v[..4]) == 0x0b + 0x24 + 0x01 + 0xff;
    assert v[..5][..4] == v[..4];
    assert Sum(v[..5]) == 0x0b + 0x24 + 0x01 + 0xff + 0x28;
    assert v[..5] == v[..|v| - 1];
  }

  /** The THROTTLE test response decodes to the values 0b 24 01 ff 28 0a. */
  lemma ThrottleTestValues()
    ensures Values(Decode(Throttle, ThrottleTestResponse)) == [0x0b, 0x24, 0x01, 0xff, 0x28, 0x0a]
  {
    var r := ThrottleTestResponse;
    var t := Decode(Throttle, r);
    DecodeLayout(Throttle, r);
    DecodedPayload(Throttle, r);
    assert Values(t) == Values(t)[..6] == r[2..8];
  }

  /** Re-encoding the decoded THROTTLE test response gives the frame whose tail
      bdac.py records, `54 06 0b 24 01 ff 28 0a bb`; the response's own last
      byte, 0xb7, is never checked. */
  lemma ThrottleFrameScenario()
    ensures WriteFrame(Throttle, Decode(Throttle, ThrottleTestResponse))
         == [0x16, 0x54, 0x06, 0x0b, 0x24, 0x01, 0xff, 0x28, 0x0a, 0xbb]
  {
    var v: seq<byte> := [0x0b, 0x24, 0x01, 0xff, 0x28, 0x0a];
    ThrottleTestValues();
    ThrottleChecksumScenario();
    assert WriteFrame(Throttle, Decode(Throttle, ThrottleTestResponse)) == [0x16, 0x54, 0x06] + v + [0xbb];
  }

  /** The PAS test response gives PT = 3, DA = SL = 255, SC = 50 and the rest
      of the PAS fields in layout order. */
  lemma PasTestScenario()
    ensures var t := Decode(Pas, PasTestResponse);
      && Names(t) == PasNames
      && Values(t) == [0x03, 0xff, 0xff, 0x32, 0x04, 0x04, 0xff, 0x19, 0x08, 0x00, 0x3c]
  {
    var r := PasTestResponse;
    var t := Decode(Pas, r);
    DecodeLayout(Pas, r);
    assert Values(t) == r[2..13] by {
      forall i | 0 <= i < 11 ensures Values(t)[i] == r[2..13][i] {
        assert Values(t)[i] == t[i].value == r[2 + i];
      }
    }
  }

  /** Round trip: a response whose bytes 1 .. are a write frame's (opcode,
      length, payload, checksum) decodes to the names and values of the encoded
      table, except BASIC's SM, which decodes to 1. */
  lemma {:induction false} RoundTrip(sec: Section, t: Table)
    requires Names(t) == FieldNames(sec)
    ensures |WriteFrame(sec, t)[1..]| >= MinResponse(sec)
    ensures var d := Decode(sec, WriteFrame(sec, t)[1..]);
      && Names(d) == Names(t)
      && forall i | 0 <= i < |t| ::
           d[i].value == if sec == Basic && i == SpeedMeterIndex then 1 else t[i].value
  {
    var resp := WriteFrame(sec, t)[1..];
    assert |Names(t)| == |t|;
    forall i | 0 <= i < |t| ensures resp[2 + i] == t[i].value {
      assert resp[2 + i] == WriteFrame(sec, t)[3 + i] == Values(t)[i];
    }
  }

  /** Re-encoding a decoded response and decoding it again gives the same table. */
  lemma DecodeEncodeDecode(sec: Section, resp: seq<byte>)
    requires |resp| >= MinResponse(sec)
    ensures |WriteFrame(sec, Decode(sec, resp))[1..]| >= MinResponse(sec)
    ensures Decode(sec, WriteFrame(sec, Decode(sec, resp))[1..]) == Decode(sec, resp)
  {
    var t := Decode(sec, resp);
    DecodeLayout(sec, resp);
    RoundTrip(sec, t);
    var d := Decode(sec, WriteFrame(sec, t)[1..]);
    if sec == Basic {
      var r2 := WriteFrame(sec, t)[1..];
      assert r2[2 + WheelIndex] == t[WheelIndex].value == resp[2 + WheelIndex];
    }
    assert forall i | 0 <= i < |t| :: d[i] == t[i];
  }

  // ---------------------------------------------------------------------------
  // Checking a write response
  // ---------------------------------------------------------------------------

  datatype WriteOutcome = Written | Rejected(code: byte)

  /** The bytes the response check reads are present: byte 1 always, byte 2 when
      byte 1 is not the declared length. */
  predicate AckReadable(sec: Section, resp: seq<byte>)
  {
    |resp| >= 2 && (resp[1] != PayloadLength(sec) ==> |resp| >= 3)
  }

  function WriteResult(sec: Section, resp: seq<byte>): WriteOutcome
    requires AckReadable(sec, resp)
  {
    if resp[1] == PayloadLength(sec) then Written else Rejected(resp[2])
  }

  /** A write succeeded exactly when the controller echoed the declared length;
      otherwise byte 2 is the error code. */
  lemma WriteResultCases(sec: Section, resp: seq<byte>)
    requires AckReadable(sec, resp)
    ensures WriteResult(sec, resp) == Written <==> resp[1] == PayloadLength(sec)
    ensures WriteResult(sec, resp).Rejected? ==> WriteResult(sec, resp).code == resp[2]
  {
  }

  const BasicErrors: seq<string> :=
    ["Low Battery Protection out of range",
     "Current Limit out of range",
     "Current Limit for PAS0 out of range",
     "Speed Limit for PAS0 out of range",
     "Current Limit for PAS1 out of range",
     "Speed Limit for PAS1 out of range",
     "Current Limit for PAS2 out of range",
     "Speed Limit for PAS2 out of range",
     "Current Limit for PAS3 out of range",
     "Speed Limit for PAS3 out of range",
     "Current Limit for PAS4 out of range",
     "Speed Limit for PAS4 out of range",
     "Current Limit for PAS5 out of range",
     "Speed Limit for PAS5 out of range",
     "Current Limit for PAS6 out of range",
     "Speed Limit for PAS6 out of range",
     "Current Limit for PAS7 out of range",
     "Speed Limit for PAS7 out of range",
     "Current Limit for PAS8 out of range",
     "Speed Limit for PAS8 out of range",
     "Current Limit for PAS9 out of range",
     "Speed Limit for PAS9 out of range",
     "Wheel Diameter out of range",
     "Speed Meter Signals out of range"]

  const PasErrors: seq<string> :=
    ["Pedal Sensor Type error",
     "Designated Assist Level error",
     "Speed Limit error",
     "Start Current out of range",
     "Slow-start Mode error",
     "Start Degree out of range",
     "Work Mode error",
     "Stop Delay out of range",
     "Current Decay out of range",
     "Stop Decay out of range",
     "Keep Current out of range"]

  const ThrottleErrors: seq<string> :=
    ["Start voltage out of range",
     "End voltage out of range",
     "Mode error",
     "Designated Assist error",
     "Speed limit error",
     "Start current out of range "]

  /** The numbered error list printed after a rejected write; entry k explains code k. */
  function ErrorMessages(sec: Section): seq<string>
  {
    match sec
    case Basic => BasicErrors
    case Pas => PasErrors
    case Throttle => ThrottleErrors
  }

  function ErrorMessage(sec: Section, code: byte): Option<string>
  {
    if code < |ErrorMessages(sec)| then Some(ErrorMessages(sec)[code]) else None
  }

  /** The error tables have one code per payload byte: 24, 11 and 6 entries, and
      every code below that count has a message. */
  lemma ErrorTableSizes(sec: Section, code: byte)
    ensures |ErrorMessages(sec)| == |FieldNames(sec)| == PayloadLength(sec)
    ensures ErrorMessage(sec, code).Some? <==> code < PayloadLength(sec)
  {
  }

  /** A BASIC write answered with `52 05 02 ..` is rejected with code 2, which the
      table explains as "Current Limit for PAS0 out of range". */
  lemma BasicRejectScenario(resp: seq<byte>)
    requires |resp| >= 3 && resp[1] == 0x05 && resp[2] == 2
    ensures AckReadable(Basic, resp)
    ensures WriteResult(Basic, resp) == Rejected(2)
    ensures ErrorMessage(Basic, 2) == Some("Current Limit for PAS0 out of range")
  {
  }

  // ---------------------------------------------------------------------------
  // INFO response
  // ---------------------------------------------------------------------------

  datatype Info = Info(manufacturer: string, model: string, hardware: string, firmware: string,
                       volts: nat, maxCurrent: byte)

  /** The only way decoding INFO fails: byte 16 is not an index of the voltage table. */
  datatype InfoError = VoltageIndexOutOfRange(index: byte)

  const VoltsList: seq<nat> := [24, 36, 48, 60]

  /** `chr` of a byte. */
  function Ascii(b: byte): char
  {
    b as char
  }

  function AsciiText(s: seq<byte>): string
  {
    seq(|s|, i requires 0 <= i < |s| => Ascii(s[i]))
  }

  /** What `get_info_config` reports for a response: bytes 2-5 manufacturer,
      6-9 model, 10-11 hardware version, 12-15 firmware version, byte 16 an
      index into [24, 36, 48, 60], byte 17 the maximum current. */
  function DecodeInfo(resp: seq<byte>): Result<Info, InfoError>
    requires |resp| >= 19
  {
    if resp[16] < |VoltsList| then
      Success(Info(AsciiText(resp[2..6]), AsciiText(resp[6..10]),
                   "V" + [Ascii(resp[10])] + "." + [Ascii(resp[11])],
                   "V" + [Ascii(resp[12])] + "." + [Ascii(resp[13])] + "." + [Ascii(resp[14])] + "." + [Ascii(resp[15])],
                   VoltsList[resp[16]], resp[17]))
    else
      Failure(VoltageIndexOutOfRange(resp[16]))
  }

  /** `get_info_config`: copies bytes 2 .. len - 4 into the character list `l`
      (two placeholders keep `l` aligned with the response) and formats the
      fields from it. A response shorter than 19 bytes leaves `l[15]` missing. */
  method GetInfoConfig(resp: seq<byte>) returns (r: Result<Info, InfoError>)
    requires |resp| >= 19
    ensures r == DecodeInfo(resp)
    ensures r.Success? <==> resp[16] < 4
    ensures r.Success? ==> r.value.volts in VoltsList && r.value.maxCurrent == resp[17]
  {
    var l: seq<char> := [20 as char, 20 as char];
    for i := 2 to |resp| - 3
      invariant |l| == i
      invariant forall j | 2 <= j < i :: l[j] == Ascii(resp[j])
    {
      l := l + [Ascii(resp[i])];
    }
    if resp[16] < |VoltsList| {
      assert [l[2], l[3], l[4], l[5]] == AsciiText(resp[2..6]);
      assert [l[6], l[7], l[8], l[9]] == AsciiText(resp[6..10]);
      r := Success(Info([l[2], l[3], l[4], l[5]], [l[6], l[7], l[8], l[9]],
                        "V" + [l[10]] + "." + [l[11]],
                        "V" + [l[12]] + "." + [l[13]] + "." + [l[14]] + "." + [l[15]],
                        VoltsList[resp[16]], resp[17]));
    } else {
      r := Failure(VoltageIndexOutOfRange(resp[16]));
    }
  }

  const InfoTestResponse: seq<byte> :=
    [0x51, 0x10, 0x48, 0x5a, 0x58, 0x54, 0x53, 0x5a, 0x5a, 0x39, 0x31, 0x31, 0x32, 0x30,
     0x31, 0x31, 0x02, 0x19, 0x22]

  /** The INFO test response reads HZXT, SZZ9, V1.1, V2.0.1.1, 48 V, 25 A. */
  lemma InfoTestScenario()
    ensures DecodeInfo(InfoTestResponse) == Success(Info("HZXT", "SZZ9", "V1.1", "V2.0.1.1", 48, 25))
  {
    var r := InfoTestResponse;
    assert Ascii(0x48) == 'H' && Ascii(0x5a) == 'Z' && Ascii(0x58) == 'X' && Ascii(0x54) == 'T';
    assert Ascii(0x53) == 'S' && Ascii(0x39) == '9' && Ascii(0x31) == '1' && Ascii(0x32) == '2';
    assert Ascii(0x30) == '0';
    assert r[2..6] == [0x48, 0x5a, 0x58, 0x54];
    assert AsciiText(r[2..6]) == "HZXT";
    assert r[6..10] == [0x53, 0x5a, 0x5a, 0x39];
    assert AsciiText(r[6..10]) == "SZZ9";
    assert "V" + [Ascii(r[10])] + "." + [Ascii(r[11])] == "V1.1";
    assert "V" + [Ascii(r[12])] + "." + [Ascii(r[13])] + "." + [Ascii(r[14])] + "." + [Ascii(r[15])] == "V2.0.1.1";
  }

  // ---------------------------------------------------------------------------
  // STATUS response
  // ---------------------------------------------------------------------------

  datatype Status = Normal | Braking | SensorError

  /** The status `get_status` reports for a response; any other byte reports nothing. */
  function StatusOf(resp: seq<byte>): Option<Status>
    requires |resp| >= 1
  {
    if resp[0] == 1 then Some(Normal)
    else if resp[0] == 3 then Some(Braking)
    else if resp[0] == 21 then Some(SensorError)
    else None
  }

  /** The byte the controller sends for each status. */
  function StatusCode(s: Status): byte
  {
    match s
    case Normal => 1
    case Braking => 3
    case SensorError => 21
  }

  /** StatusOf and StatusCode are inverse: a status is reported exactly when the
      first byte is that status's code, and bytes other than 1, 3, 21 report none. */
  lemma StatusCodes(resp: seq<byte>, s: Status)
    requires |resp| >= 1
    ensures StatusOf([StatusCode(s)]) == Some(s)
    ensures StatusOf(resp) == Some(s) <==> resp[0] == StatusCode(s)
    ensures StatusOf(resp) == None <==> resp[0] !in {1, 3, 21}
  {
  }

  // ---------------------------------------------------------------------------
  // Configuration file packaging
  // ---------------------------------------------------------------------------

  datatype Config = Config(basic: Table, pas: Table, throttle: Table)
  {
    function Get(sec: Section): Table
    {
      match sec
      case Basic => basic
      case Pas => pas
      case Throttle => throttle
    }
  }

  /** The three-key record `write_config_file` hands to the JSON writer. */
  function Pack(c: Config): map<string, Table>
  {
    map["basic" := c.basic, "pas" := c.pas, "throttle" := c.throttle]
  }

  /** The three lookups `read_config_file` does on a loaded record; a missing key
      is a failed load. */
  function Unpack(doc: map<string, Table>): Option<Config>
  {
    if "basic" in doc && "pas" in doc && "throttle" in doc
    then Some(Config(doc["basic"], doc["pas"], doc["throttle"]))
    else None
  }

  /** Packing then unpacking gives the configuration back, the packed record has
      exactly the three keys, and a record lacking one of them does not load. */
  lemma PackRoundTrip(c: Config, doc: map<string, Table>)
    ensures Unpack(Pack(c)) == Some(c)
    ensures Pack(c).Keys == {"basic", "pas", "throttle"}
    ensures Unpack(doc).Some? <==> {"basic", "pas", "throttle"} <= doc.Keys
  {
  }

  // ---------------------------------------------------------------------------
  // The module-level tables basic_dict, pas_dict, throttle_dict
  // ---------------------------------------------------------------------------

  /** OrderedDict assignment `t[e.name] = [e.value, e.desc]`: an existing key keeps
      its position and takes the new entry, a new key is appended. */
  function Put(t: Table, e: Entry): (r: Table)
    ensures Names(r) == if e.name in Names(t) then Names(t) else Names(t) + [e.name]
    ensures forall i | 0 <= i < |t| :: r[i] == if t[i].name == e.name then e else t[i]
    ensures e.name !in Names(t) ==> r[|t|] == e
  {
    if e.name in Names(t) then
      seq(|t|, i requires 0 <= i < |t| => if t[i].name == e.name then e else t[i])
    else
      assert forall i | 0 <= i < |t| :: Names(t)[i] == t[i].name;
      t + [e]
  }

  /** Assigning the next layout entry into a table that holds the entries
      before it appends it. */
  lemma PutAppends(es: Table, i: nat)
    requires Distinct(Names(es)) && i < |es|
    ensures Put(es[..i], es[i]) == es[..i + 1]
  {
    assert Names(es[..i]) == Names(es)[..i];
    assert es[i].name !in Names(es[..i]) by {
      forall j | 0 <= j < i ensures Names(es[..i])[j] != es[i].name {
        assert Names(es)[j] == es[j].name && Names(es)[i] == es[i].name;
      }
    }
  }

  /** Assigning the next layout entry into a table that already holds the
      layout's keys overwrites that key in place. */
  lemma PutOverwrites(prev: Table, es: Table, i: nat)
    requires Distinct(Names(es)) && i < |es| && Names(prev) == Names(es)
    ensures Put(es[..i] + prev[i..], es[i]) == es[..i + 1] + prev[i + 1..]
  {
    var cur := es[..i] + prev[i..];
    var next := es[..i + 1] + prev[i + 1..];
    var r := Put(cur, es[i]);
    assert |prev| == |es|;
    assert Names(cur) == Names(es) by {
      forall j | 0 <= j < |es| ensures Names(cur)[j] == Names(es)[j] {
        if j >= i { assert cur[j] == prev[j] && Names(prev)[j] == prev[j].name; }
      }
    }
    assert Names(cur)[i] == es[i].name;
    assert |r| == |next|;
    forall j | 0 <= j < |r| ensures r[j] == next[j] {
      if j != i {
        assert Names(es)[j] != Names(es)[i];
        assert cur[j].name == Names(cur)[j];
      }
    }
  }

  /** One step of the decoders' assignment sequence: into a table that is empty
      or already holds the layout's keys in order, the first i entries have
      been written and the rest are untouched. */
  lemma PutNext(prev: Table, es: Table, i: nat)
    requires Distinct(Names(es)) && i < |es|
    requires prev == [] || Names(prev) == Names(es)
    ensures Put(es[..i] + (if prev == [] then [] else prev[i..]), es[i])
         == es[..i + 1] + (if prev == [] then [] else prev[i + 1..])
  {
    if prev == [] {
      PutAppends(es, i);
      assert es[..i] + [] == es[..i] && es[..i + 1] + [] == es[..i + 1];
    } else {
      PutOverwrites(prev, es, i);
    }
  }

  /** The module-level tables of bdac.py. Each is either still empty or holds its
      layout's keys in order. */
  class FlashTables {
    var basic: Table
    var pas: Table
    var throttle: Table

    ghost predicate Valid()
      reads this
    {
      && (basic == [] || Names(basic) == BasicNames)
      && (pas == [] || Names(pas) == PasNames)
      && (throttle == [] || Names(throttle) == ThrottleNames)
    }

    function Get(sec: Section): Table
      reads this
    {
      match sec
      case Basic => basic
      case Pas => pas
      case Throttle => throttle
    }

    constructor ()
      ensures Valid() && basic == [] && pas == [] && throttle == []
    {
      basic, pas, throttle := [], [], [];
    }

    /** `get_basic_config`, `get_pas_config`, `get_throttle_config`: assign every
        field of the response into the section's table, in layout order, and
        return that table. */
    method GetConfig(sec: Section, resp: seq<byte>) returns (t: Table)
      requires Valid() && |resp| >= MinResponse(sec)
      modifies this
      ensures Valid()
      ensures t == Get(sec) == Decode(sec, resp)
      ensures forall s :: s != sec ==> Get(s) == old(Get(s))
    {
      var es := Decode(sec, resp);
      var prev := Get(sec);
      DecodeLayout(sec, resp);
      FieldNamesLayout(sec);
      t := prev;
      for i := 0 to |es|
        invariant t == es[..i] + (if prev == [] then [] else prev[i..])
        invariant unchanged(this)
      {
        PutNext(prev, es, i);
        t := Put(t, es[i]);
      }
      assert es[..|es|] == es;
      assert prev != [] ==> |prev| == |es| && prev[|es|..] == [];
      match sec {
        case Basic => basic := t;
        case Pas => pas := t;
        case Throttle => throttle := t;
      }
    }

    /** `set_basic_config`, `set_pas_config`, `set_throttle_config`: the frame
        sent for the section's current table, and the outcome the controller's
        answer `resp` reports. */
    method SetConfig(sec: Section, resp: seq<byte>) returns (frame: seq<byte>, outcome: WriteOutcome)
      requires AckReadable(sec, resp)
      ensures frame == WriteFrame(sec, Get(sec))
      ensures outcome == Written <==> resp[1] == PayloadLength(sec)
      ensures outcome.Rejected? ==> outcome.code == resp[2]
    {
      frame := EncodeFrame(sec, Get(sec));
      outcome := WriteResult(sec, resp);
    }

    /** `read_flash`: INFO, then BASIC, PAS and THROTTLE. A voltage index past
        the end of the voltage list raises in `get_info_config`, which ends
        `read_flash` before any of the three tables is read. */
    method ReadFlash(infoResp: seq<byte>, basicResp: seq<byte>, pasResp: seq<byte>, throttleResp: seq<byte>)
      returns (info: Result<Info, InfoError>)
      requires Valid()
      requires |infoResp| >= 19 && |basicResp| >= 25 && |pasResp| >= 13 && |throttleResp| >= 8
      modifies this
      ensures Valid()
      ensures info == DecodeInfo(infoResp)
      ensures info.Success? ==> basic == Decode(Basic, basicResp) && pas == Decode(Pas, pasResp)
      ensures info.Success? ==> throttle == Decode(Throttle, throttleResp)
      ensures info.Failure? ==> basic == old(basic) && pas == old(pas) && throttle == old(throttle)
    {
      info := GetInfoConfig(infoResp);
      if info.Success? {
        ReadTables(basicResp, pasResp, throttleResp);
      }
    }

    /** The three section reads of `read_flash`, BASIC, PAS, THROTTLE. */
    method ReadTables(basicResp: seq<byte>, pasResp: seq<byte>, throttleResp: seq<byte>)
      requires Valid()
      requires |basicResp| >= 25 && |pasResp| >= 13 && |throttleResp| >= 8
      modifies this
      ensures Valid()
      ensures basic == Decode(Basic, basicResp) && pas == Decode(Pas, pasResp)
      ensures throttle == Decode(Throttle, throttleResp)
    {
      var _ := GetConfig(Basic, basicResp);
      var _ := GetConfig(Pas, pasResp);
      var _ := GetConfig(Throttle, throttleResp);
    }

    /** `write_flash`: write BASIC, PAS and THROTTLE, in that order, whatever the
        outcome of each. */
    method WriteFlash(basicAck: seq<byte>, pasAck: seq<byte>, throttleAck: seq<byte>)
      returns (frames: seq<seq<byte>>, outcomes: seq<WriteOutcome>)
      requires AckReadable(Basic, basicAck) && AckReadable(Pas, pasAck) && AckReadable(Throttle, throttleAck)
      ensures frames == [WriteFrame(Basic, basic), WriteFrame(Pas, pas), WriteFrame(Throttle, throttle)]
      ensures outcomes == [WriteResult(Basic, basicAck), WriteResult(Pas, pasAck), WriteResult(Throttle, throttleAck)]
    {
      var f1, o1 := SetConfig(Basic, basicAck);
      var f2, o2 := SetConfig(Pas, pasAck);
      var f3, o3 := SetConfig(Throttle, throttleAck);
      frames, outcomes := [f1, f2, f3], [o1, o2, o3];
    }

    /** `write_config_file`: the record with keys basic, pas, throttle. */
    method WriteConfigFile() returns (doc: map<string, Table>)
      ensures doc.Keys == {"basic", "pas", "throttle"}
      ensures Unpack(doc) == Some(Config(basic, pas, throttle))
    {
      doc := Pack(Config(basic, pas, throttle));
    }
  }
}
