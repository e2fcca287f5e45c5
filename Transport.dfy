/**
 * The Modbus RTU transport as the driver sees it: the four libmodbus
 * requests it issues, the reply to a read, and a fake device that stores
 * what it is sent, against which write-then-read round trips are stated.
 */
module Transport {
  import opened Registers
  import opened Cache

  /** One call into the transport, named after the libmodbus function it stands for. */
  datatype Request =
    | ReadInputRegs(start: nat, count: nat)
    | ReadRegisters(start: nat, count: nat)
    | WriteRegister(addr: nat, value: uint16)
    | WriteRegisters(start: nat, count: nat, values: seq<uint16>)

  /** What a read call delivers: the `count` words asked for, or the failure return (-1). */
  datatype Reply = Words(values: seq<uint16>) | Failure

  /** A reply fits a read of `num` words when it is a failure or carries exactly `num` words. */
  predicate Fits(reply: Reply, num: nat) {
    reply.Words? ==> |reply.values| == num
  }

  /**
   * A fake device's holding bank after it serves `req`: writes inside the
   * bank are stored, everything else leaves the bank as it was.
   */
  function Store(bank: seq<uint16>, req: Request): (b: seq<uint16>)
    ensures |b| == |bank|
  {
    match req
    case WriteRegister(addr, value) =>
      if addr < |bank| then bank[addr := value] else bank
    case WriteRegisters(start, count, values) =>
      if count == |values| && start + count <= |bank| then Splice(bank, start, values) else bank
    case _ => bank
  }

  /** The fake device's answer to a read of `num` holding registers from `start`. */
  function Answer(bank: seq<uint16>, start: nat, num: nat): (reply: Reply)
    ensures Fits(reply, num)
    ensures reply.Words? <==> start + num <= |bank|
  {
    if start + num <= |bank| then Words(bank[start..start + num]) else Failure
  }

  /** A single-register write is read back unchanged, and only that slot moves. */
  lemma StoreRegisterThenAnswer(bank: seq<uint16>, addr: nat, value: uint16, k: nat)
    requires addr < |bank| && k < |bank|
    ensures Answer(Store(bank, WriteRegister(addr, value)), addr, 1) == Words([value])
    ensures Store(bank, WriteRegister(addr, value))[k] == if k == addr then value else bank[k]
  {
  }

  /** A multi-register write is read back unchanged over its own window. */
  lemma StoreRegistersThenAnswer(bank: seq<uint16>, start: nat, values: seq<uint16>)
    requires start + |values| <= |bank|
    ensures Answer(Store(bank, WriteRegisters(start, |values|, values)), start, |values|) == Words(values)
  {
  }

  /**
   * Writing five joint values and re-reading the joint window into any
   * cache leaves exactly those five values in cache slots 0 .. 4.
   */
  lemma JointsRoundTrip(cache: seq<uint16>, bank: seq<uint16>, pwms: seq<uint16>)
    requires |cache| == HoldingCount && |bank| == HoldingCount && |pwms| == JointCount
    ensures Splice(cache, 0, Answer(Store(bank, WriteRegisters(0, JointCount, pwms)), 0, JointCount).values)[..JointCount] == pwms
  {
    StoreRegistersThenAnswer(bank, 0, pwms);
    SpliceWindow(cache, 0, pwms);
  }

  /**
   * Writing one joint and re-reading the whole holding bank into any cache
   * leaves that value in the joint's cache slot.
   */
  lemma JointRoundTrip(cache: seq<uint16>, bank: seq<uint16>, index: nat, value: uint16)
    requires |cache| == HoldingCount && |bank| == HoldingCount && index <= MaxJointIndex
    ensures Splice(cache, 0, Answer(Store(bank, WriteRegister(index, value)), 0, HoldingCount).values)[index] == value
  {
    StoreRegisterThenAnswer(bank, index, value, index);
  }
}
