/**
 * The fixed register layout of the YJ10 arm and the two codecs for the
 * gripper ("clamper") registers: the command written to holding register 6
 * and the status read from holding register 7. The two directions are
 * deliberately not inverse to each other: command 0 means Stop, status 0
 * means Middle.
 */
module Registers {

  /** A Modbus register value, `uint16_t` in the driver. */
  type uint16 = x: int | 0 <= x < 0x1_0000

  /** Bank sizes. */
  const InputCount: nat := 35
  const HoldingCount: nat := 12
  const WriteBufCount: nat := 12

  /** Joint PWM registers are holding registers 0 .. 4. */
  const JointCount: nat := 5
  /** `WriteJoint` and `Joint` accept indices 0 .. 5 (slot 5 is a reserved joint). */
  const MaxJointIndex: nat := 5

  /** Gripper registers in the holding bank. */
  const ClamperCommandAddr: nat := 0x6
  const ClamperStatusAddr: nat := 0x7
  const ClosingCurrentAddr: nat := 0x8
  const ClamperCurrentAddr: nat := 0xA

  /** `ReadClamper` refreshes the five holding registers from 6 on. */
  const ClamperWindowStart: nat := 0x6
  const ClamperWindowCount: nat := 5

  /** The driver's single enumeration, used on both the command and the status side. */
  datatype ClamperState = Stop | Close | Open | Middle | Error

  /** Status side: the value of holding register 7 as a gripper state. */
  function DecodeStatus(v: uint16): (s: ClamperState)
    ensures s != Stop
    ensures s == Middle <==> v == 0
    ensures s == Close <==> v == 1
    ensures s == Open <==> v == 2
    ensures s == Error <==> v > 2
  {
    match v
    case 0 => Middle
    case 1 => Close
    case 2 => Open
    case _ => Error
  }

  /** Command side: the value written to holding register 6 for a requested state. */
  function EncodeCommand(s: ClamperState): (v: uint16)
    ensures v <= 2
    ensures v == 1 <==> s == Close
    ensures v == 2 <==> s == Open
    ensures v == 0 <==> s == Stop || s == Middle || s == Error
  {
    match s
    case Stop => 0
    case Close => 1
    case Open => 2
    case _ => 0
  }

  /** Writing a command and reading it back as a status agrees only for Close and Open. */
  lemma CommandThenStatus(s: ClamperState)
    ensures DecodeStatus(EncodeCommand(s)) == if s == Close || s == Open then s else Middle
  {
  }

  /** Every status other than Middle and Error is reproduced by encoding it as a command. */
  lemma StatusThenCommand(v: uint16)
    ensures DecodeStatus(v) == Close || DecodeStatus(v) == Open <==> EncodeCommand(DecodeStatus(v)) == v && v != 0
  {
  }

  /** The command encoding is not injective: Stop, Middle and Error all send 0. */
  lemma CommandCollapsesToStop(s: ClamperState)
    ensures EncodeCommand(s) == EncodeCommand(Stop) <==> s != Close && s != Open
  {
  }
}
