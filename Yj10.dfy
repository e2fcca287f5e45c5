/**
 * The YJ10 arm driver: two register caches (35 input registers, 12 holding
 * registers) and a 12-word write buffer, kept up to date by explicit reads
 * over the transport, and writes that go to the device only. The cache is a
 * snapshot: a write never changes it, only a later read does.
 *
 * The transport is an abstract collaborator. Every call into it is appended
 * to the ghost log `sent`; the words a read delivers (or its failure) are a
 * parameter of the reading method.
 */
module Arm {
  import opened Registers
  import opened Cache
  import opened Transport

  /** The value of `std::array<uint16_t, 5>`: one PWM word per joint. */
  type JointPwms = s: seq<uint16> | |s| == 5 witness [0, 0, 0, 0, 0]

  class Yj10 {
    const input_regs: array<uint16>
    const holding_regs: array<uint16>
    const write_buf: array<uint16>

    /** Every transport call issued so far, oldest first. */
    ghost var sent: seq<Request>

    ghost predicate Valid() {
      input_regs.Length == InputCount &&
      holding_regs.Length == HoldingCount &&
      write_buf.Length == WriteBufCount &&
      holding_regs != write_buf
    }

    /** Both caches and the write buffer start zeroed; nothing has been sent. */
    constructor ()
      ensures Valid()
      ensures fresh(input_regs) && fresh(holding_regs) && fresh(write_buf)
      ensures forall k :: 0 <= k < InputCount ==> input_regs[k] == 0
      ensures forall k :: 0 <= k < HoldingCount ==> holding_regs[k] == 0
      ensures forall k :: 0 <= k < WriteBufCount ==> write_buf[k] == 0
      ensures sent == []
      ensures forall index :: Joint(index) == 0
      ensures Clamper() == Middle
    {
      input_regs := new uint16[InputCount](_ => 0);
      holding_regs := new uint16[HoldingCount](_ => 0);
      write_buf := new uint16[WriteBufCount](_ => 0);
      sent := [];
    }

    // ---- transport helpers ----------------------------------------------

    /**
     * Asks for `num` input registers from `start`; on success the transport
     * has stored them into the cache window, on failure the cache is as it
     * was. Returns the cache window either way.
     */
    method ReadInputRegisters(start: nat, num: nat, reply: Reply) returns (view: seq<uint16>)
      requires Valid()
      requires start + num <= InputCount
      requires Fits(reply, num)
      modifies this, input_regs
      ensures sent == old(sent) + [ReadInputRegs(start, num)]
      ensures reply.Words? ==> input_regs[..] == Splice(old(input_regs[..]), start, reply.values)
      ensures reply.Failure? ==> input_regs[..] == old(input_regs[..])
      ensures view == input_regs[start..start + num]
    {
      sent := sent + [ReadInputRegs(start, num)];
      if reply.Words? {
        for k := 0 to num
          modifies input_regs
          invariant forall j :: 0 <= j < InputCount ==>
            input_regs[j] == if start <= j < start + k then reply.values[j - start] else old(input_regs[j])
        {
          input_regs[start + k] := reply.values[k];
        }
        assert input_regs[..] == Splice(old(input_regs[..]), start, reply.values);
      }
      view := input_regs[start..start + num];
    }

    /** As ReadInputRegisters, for the holding bank. */
    method ReadHoldingRegisters(start: nat, num: nat, reply: Reply) returns (view: seq<uint16>)
      requires Valid()
      requires start + num <= HoldingCount
      requires Fits(reply, num)
      modifies this, holding_regs
      ensures sent == old(sent) + [ReadRegisters(start, num)]
      ensures reply.Words? ==> holding_regs[..] == Splice(old(holding_regs[..]), start, reply.values)
      ensures reply.Failure? ==> holding_regs[..] == old(holding_regs[..])
      ensures view == holding_regs[start..start + num]
    {
      sent := sent + [ReadRegisters(start, num)];
      if reply.Words? {
        for k := 0 to num
          modifies holding_regs
          invariant forall j :: 0 <= j < HoldingCount ==>
            holding_regs[j] == if start <= j < start + k then reply.values[j - start] else old(holding_regs[j])
        {
          holding_regs[start + k] := reply.values[k];
        }
        assert holding_regs[..] == Splice(old(holding_regs[..]), start, reply.values);
      }
      view := holding_regs[start..start + num];
    }

    /** Sends `data[0 .. num)` as one multi-register write from `start`. */
    method WriteHoldingRegisters(start: nat, num: nat, data: array<uint16>)
      requires num <= data.Length
      modifies this
      ensures sent == old(sent) + [WriteRegisters(start, num, data[..num])]
    {
      sent := sent + [WriteRegisters(start, num, data[..num])];
    }

    /** Sends one single-register write. */
    method WriteHoldingRegister(addr: nat, value: uint16)
      modifies this
      ensures sent == old(sent) + [WriteRegister(addr, value)]
    {
      sent := sent + [WriteRegister(addr, value)];
    }

    // ---- reads ------------------------------------------------------------

    /** Refreshes all 35 input registers; the holding cache is not touched. */
    method ReadAllInputRegs(reply: Reply)
      requires Valid()
      requires Fits(reply, InputCount)
      modifies this, input_regs
      ensures sent == old(sent) + [ReadInputRegs(0, InputCount)]
      ensures reply.Words? ==> input_regs[..] == reply.values
      ensures reply.Failure? ==> input_regs[..] == old(input_regs[..])
      ensures unchanged(holding_regs, write_buf)
    {
      var _ := ReadInputRegisters(0, InputCount, reply);
    }

    /** Refreshes all 12 holding registers. */
    method ReadAllHoldingRegs(reply: Reply)
      requires Valid()
      requires Fits(reply, HoldingCount)
      modifies this, holding_regs
      ensures sent == old(sent) + [ReadRegisters(0, HoldingCount)]
      ensures reply.Words? ==> holding_regs[..] == reply.values
      ensures reply.Failure? ==> holding_regs[..] == old(holding_regs[..])
      ensures unchanged(input_regs, write_buf)
    {
      var _ := ReadHoldingRegisters(0, HoldingCount, reply);
    }

    /** Refreshes the joint registers 0 .. 4 only. */
    method ReadAllJointsPwm(reply: Reply)
      requires Valid()
      requires Fits(reply, JointCount)
      modifies this, holding_regs
      ensures sent == old(sent) + [ReadRegisters(0, JointCount)]
      ensures reply.Words? ==> holding_regs[..] == Splice(old(holding_regs[..]), 0, reply.values)
      ensures reply.Failure? ==> holding_regs[..] == old(holding_regs[..])
      ensures holding_regs[JointCount..] == old(holding_regs[JointCount..])
      ensures unchanged(input_regs, write_buf)
    {
      var _ := ReadHoldingRegisters(0, JointCount, reply);
      if reply.Words? {
        SpliceOutside(old(holding_regs[..]), 0, reply.values, JointCount, HoldingCount);
      }
    }

    /** Refreshes the gripper registers 6 .. 10; the joint registers are not touched. */
    method ReadClamper(reply: Reply)
      requires Valid()
      requires Fits(reply, ClamperWindowCount)
      modifies this, holding_regs
      ensures sent == old(sent) + [ReadRegisters(ClamperWindowStart, ClamperWindowCount)]
      ensures reply.Words? ==> holding_regs[..] == Splice(old(holding_regs[..]), ClamperWindowStart, reply.values)
      ensures reply.Failure? ==> holding_regs[..] == old(holding_regs[..])
      ensures holding_regs[..ClamperWindowStart] == old(holding_regs[..ClamperWindowStart])
      ensures holding_regs[ClamperWindowStart + ClamperWindowCount..] == old(holding_regs[ClamperWindowStart + ClamperWindowCount..])
      ensures unchanged(input_regs, write_buf)
    {
      var _ := ReadHoldingRegisters(ClamperWindowStart, ClamperWindowCount, reply);
      if reply.Words? {
        SpliceOutside(old(holding_regs[..]), ClamperWindowStart, reply.values, 0, ClamperWindowStart);
        SpliceOutside(old(holding_regs[..]), ClamperWindowStart, reply.values,
                      ClamperWindowStart + ClamperWindowCount, HoldingCount);
      }
    }

    // ---- writes -------------------------------------------------------------

    /** Writes one joint register when 0 <= index <= 5; any other index is ignored. */
    method WriteJoint(index: int, pwm: uint16)
      requires Valid()
      modifies this
      ensures 0 <= index <= MaxJointIndex ==> sent == old(sent) + [WriteRegister(index, pwm)]
      ensures !(0 <= index <= MaxJointIndex) ==> sent == old(sent)
      ensures unchanged(input_regs, holding_regs, write_buf)
    {
      if 0 <= index <= MaxJointIndex {
        WriteHoldingRegister(index, pwm);
      }
    }

    /**
     * The raw-buffer overload: copies `pwm[0 .. 5)` into the write buffer and
     * sends those five words as one write from register 0.
     */
    method WriteAllJointsFromBuffer(pwm: array<uint16>)
      requires Valid()
      requires pwm.Length >= JointCount
      modifies this, write_buf
      ensures write_buf[..JointCount] == old(pwm[..JointCount])
      ensures write_buf[JointCount..] == old(write_buf[JointCount..])
      ensures sent == old(sent) + [WriteRegisters(0, JointCount, old(pwm[..JointCount]))]
      ensures unchanged(input_regs, holding_regs)
    {
      for i := 0 to JointCount
        modifies write_buf
        invariant forall k :: 0 <= k < i ==> write_buf[k] == old(pwm[k])
        invariant forall k :: i <= k < JointCount ==> pwm[k] == old(pwm[k])
        invariant forall k :: i <= k < WriteBufCount ==> write_buf[k] == old(write_buf[k])
      {
        write_buf[i] := pwm[i];
      }
      assert write_buf[..JointCount] == old(pwm[..JointCount]);
      WriteHoldingRegisters(0, JointCount, write_buf);
    }

    /**
     * The `std::array` overload: the same effect for five values passed by
     * value; the count sent is the array's size, 5.
     */
    method WriteAllJoints(pwms: JointPwms)
      requires Valid()
      modifies this, write_buf
      ensures write_buf[..JointCount] == pwms
      ensures write_buf[JointCount..] == old(write_buf[JointCount..])
      ensures sent == old(sent) + [WriteRegisters(0, JointCount, pwms)]
      ensures unchanged(input_regs, holding_regs)
    {
      for i := 0 to |pwms|
        modifies write_buf
        invariant forall k :: 0 <= k < i ==> write_buf[k] == pwms[k]
        invariant forall k :: i <= k < WriteBufCount ==> write_buf[k] == old(write_buf[k])
      {
        write_buf[i] := pwms[i];
      }
      assert write_buf[..JointCount] == pwms;
      WriteHoldingRegisters(0, |pwms|, write_buf);
    }

    /** Sends the command code for `state` to the gripper command register 6. */
    method WriteClamperInstruction(state: ClamperState)
      requires Valid()
      modifies this
      ensures sent == old(sent) + [WriteRegister(ClamperCommandAddr, EncodeCommand(state))]
      ensures unchanged(input_regs, holding_regs, write_buf)
    {
      var data := EncodeCommand(state);
      WriteHoldingRegister(ClamperCommandAddr, data);
    }

    /** Sends the gripper closing-current threshold (mA) to register 8. */
    method WriteClamperClosingCurrent(current_mA: uint16)
      requires Valid()
      modifies this
      ensures sent == old(sent) + [WriteRegister(ClosingCurrentAddr, current_mA)]
      ensures unchanged(input_regs, holding_regs, write_buf)
    {
      WriteHoldingRegister(ClosingCurrentAddr, current_mA);
    }

    // ---- cache accessors (no transport call) --------------------------------

    /** The cached PWM of joint `index` for 0 <= index <= 5, and 0 for any other index. */
    function Joint(index: int): (pwm: uint16)
      requires Valid()
      reads holding_regs
      ensures 0 <= index <= MaxJointIndex ==> pwm == holding_regs[index]
      ensures !(0 <= index <= MaxJointIndex) ==> pwm == 0
    {
      if 0 <= index <= MaxJointIndex then holding_regs[index] else 0
    }

    /** The cached PWMs of joints 0 .. 4, in address order. */
    method Joints() returns (result: JointPwms)
      requires Valid()
      ensures result == holding_regs[..JointCount]
      ensures forall k :: 0 <= k < JointCount ==> result[k] == Joint(k)
    {
      var buf := new uint16[JointCount](_ => 0);
      for i := 0 to JointCount
        invariant forall k :: 0 <= k < i ==> buf[k] == holding_regs[k]
      {
        buf[i] := holding_regs[i];
      }
      result := buf[..];
    }

    /** The gripper state decoded from the cached status register 7; never Stop. */
    function Clamper(): (state: ClamperState)
      requires Valid()
      reads holding_regs
      ensures state != Stop
      ensures state == DecodeStatus(holding_regs[ClamperStatusAddr])
    {
      DecodeStatus(holding_regs[ClamperStatusAddr])
    }

    /** The cached gripper current (mA) from register 10. */
    function ClamperCurrent(): (current_mA: uint16)
      requires Valid()
      reads holding_regs
      ensures current_mA == holding_regs[ClamperCurrentAddr]
    {
      holding_regs[ClamperCurrentAddr]
    }
  }

  /**
   * Against a device that stores what it is sent: write one joint, re-read
   * the holding bank, and the cache reports the written value. The device is
   * fed the write request that `WriteJoint` logs.
   */
  method WriteJointThenRead(arm: Yj10, bank: seq<uint16>, index: int, pwm: uint16) returns (readBack: uint16)
    requires arm.Valid()
    requires |bank| == HoldingCount && 0 <= index <= MaxJointIndex
    modifies arm, arm.holding_regs
    ensures arm.sent == old(arm.sent) + [WriteRegister(index, pwm), ReadRegisters(0, HoldingCount)]
    ensures arm.Joint(index) == pwm
    ensures readBack == pwm
  {
    arm.WriteJoint(index, pwm);
    var stored := Store(bank, WriteRegister(index, pwm));
    JointRoundTrip(arm.holding_regs[..], bank, index, pwm);
    arm.ReadAllHoldingRegs(Answer(stored, 0, HoldingCount));
    readBack := arm.Joint(index);
  }

  /**
   * Against a device that stores what it is sent: write all five joints,
   * re-read the joint window, and `Joints()` reports the written values.
   * The device is fed the write request that `WriteAllJoints` logs.
   */
  method WriteAllJointsThenRead(arm: Yj10, bank: seq<uint16>, pwms: JointPwms) returns (readBack: JointPwms)
    requires arm.Valid()
    requires |bank| == HoldingCount
    modifies arm, arm.holding_regs, arm.write_buf
    ensures arm.sent == old(arm.sent) + [WriteRegisters(0, JointCount, pwms), ReadRegisters(0, JointCount)]
    ensures arm.holding_regs[..JointCount] == pwms
    ensures readBack == pwms
  {
    arm.WriteAllJoints(pwms);
    var stored := Store(bank, WriteRegisters(0, JointCount, pwms));
    JointsRoundTrip(arm.holding_regs[..], bank, pwms);
    arm.ReadAllJointsPwm(Answer(stored, 0, JointCount));
    readBack := arm.Joints();
  }
}
