# YJ10 arm driver: register cache and codec layer

This project models the `Yj10` class of the YJ10 five-joint robot arm driver. The driver talks Modbus RTU over a serial line and keeps three fixed buffers:

- `input_regs`: a cache of the 35 read-only input registers (calibration and limits).
- `holding_regs`: a cache of the 12 holding registers (joint PWMs at 0..4, gripper command 6, gripper status 7, gripper closing-current threshold 8, gripper current 10).
- `write_buf`: a 12-word scratch buffer for multi-register writes.

Reads copy words from the transport into a window of a cache. Writes go to the device only: the cache is a snapshot and never changes on a write. Accessors read the cache and make no transport call. The gripper has two codecs that are deliberately not inverse. A command (register 6) maps Stop→0, Close→1, Open→2 and anything else→0. A status (register 7) maps 0→Middle, 1→Close, 2→Open and anything else→Error.

Modules:

- `Registers` (Registers.dfy): `uint16` as the subset type 0..65535, the address table, `ClamperState` and both codecs.
- `Cache` (Cache.dfy): `Splice`, the effect of a successful read on a bank, and its laws.
- `Transport` (Transport.dfy): the four libmodbus calls as `Request` values and the read `Reply`. It also holds a fake device that stores what it is sent, used to state write-then-read round trips.
- `Arm` (Yj10.dfy): class `Yj10`. Its three buffers are `array<uint16>` fields of lengths 35, 12 and 12. A ghost log `sent` records every transport call.

The transport is an abstract collaborator. Each read method takes the transport's reply as a parameter: either the `num` words asked for, or `Failure` (libmodbus returning -1). `ThrowException` has an empty body (src/yj10.cpp:29-34), so a failed call returns normally. On a failed read the wrapper changes no cache slot. A failed write makes no difference the model can observe.

Header and out-of-line definitions: src/yj10.hpp and src/yj10.cpp both define `Clamper`, `ReadInputRegisters`, `ReadHoldingRegisters`, `WriteHoldingRegisters`, `WriteAllJoints` and `WriteClamperInstruction`. The two definitions of each member agree, so each is modelled once. The table cites whichever copy a member's contract is about.

The class is laid out as if failures were reported: every failed transport call, a failed construction and a failed connect call `ThrowException`. Its throwing code is commented out, so the model follows what the code does: every such path carries on and returns normally, and no error is surfaced.

## Model

| member | source | states |
|---|---|---|
| `Registers.DecodeStatus` | src/yj10.cpp:9-27 | status register value 0 is Middle, 1 is Close, 2 is Open, every value above 2 is Error (each as an if-and-only-if); Stop is never produced |
| `Registers.EncodeCommand` | src/yj10.hpp:130-146 | the command code is 1 exactly for Close, 2 exactly for Open, and 0 exactly for Stop, Middle and Error; never above 2 |
| `Registers.CommandThenStatus` | src/yj10.cpp:113-133 | a command code read back as a status gives the same state only for Close and Open; Stop, Middle and Error come back as Middle |
| `Registers.StatusThenCommand` | src/yj10.hpp:188-206 | a status decodes to Close or Open exactly when re-encoding it as a command gives back the same non-zero value |
| `Registers.CommandCollapsesToStop` | src/yj10.hpp:143-145 | every state other than Close and Open is sent as the Stop code |
| `Cache.Splice` | src/yj10.hpp:34-41 | a successful read keeps the bank's length, puts the k-th received word in slot start+k and leaves every slot outside the window unchanged |
| `Cache.SpliceWindow` | src/yj10.cpp:45-52 | after the read, the returned view `regs[start..start+num)` equals the received words |
| `Cache.SpliceOutside` | src/yj10.hpp:95-98 | any range of slots disjoint from the read window is unchanged |
| `Cache.SpliceCovered` | src/yj10.hpp:81-98 | a read covering an earlier read's window erases that read's effect; so `ReadAllHoldingRegs` supersedes `ReadAllJointsPwm` and `ReadClamper` |
| `Cache.SpliceDisjointCommute` | src/yj10.hpp:86-98 | reads of disjoint windows give the same bank in either order; so `ReadAllJointsPwm` and `ReadClamper` commute |
| `Transport.JointRoundTrip` | src/yj10.hpp:100-106 | on a device that stores writes, writing joint i (0..5) and re-reading all holding registers puts the written value in cache slot i |
| `Transport.JointsRoundTrip` | src/yj10.hpp:118-126 | on a device that stores writes, writing five joint values and re-reading registers 0..4 puts exactly those values in cache slots 0..4 |
| `Arm.Yj10.constructor` | src/yj10.cpp:62-66 | all 35 input slots, 12 holding slots and 12 write-buffer slots are 0; nothing has been sent; `Joint(i)` is 0 for every i and `Clamper()` is Middle |
| `Arm.Yj10.ReadInputRegisters` | src/yj10.hpp:25-32 | logs one input-register read (start, num). On success the input cache is the splice of the received words at start. On failure it is unchanged. Returns the cache window |
| `Arm.Yj10.ReadHoldingRegisters` | src/yj10.hpp:34-41 | logs one holding-register read (start, num). On success the holding cache is the splice of the received words at start. On failure it is unchanged. Returns the cache window |
| `Arm.Yj10.WriteHoldingRegisters` | src/yj10.cpp:54-60 | logs one multi-register write carrying `data[0..num)` at start |
| `Arm.Yj10.WriteHoldingRegister` | src/yj10.hpp:51-57 | logs one single-register write (addr, value) |
| `Arm.Yj10.ReadAllInputRegs` | src/yj10.hpp:71-74 | logs a read of 35 input registers at 0; on success the input cache is the received words, on failure unchanged; holding cache and write buffer untouched |
| `Arm.Yj10.ReadAllHoldingRegs` | src/yj10.hpp:81-84 | logs a read of 12 holding registers at 0; on success the holding cache is the received words, on failure unchanged; input cache and write buffer untouched |
| `Arm.Yj10.ReadAllJointsPwm` | src/yj10.hpp:86-89 | logs a read of 5 registers at 0; only slots 0..4 can change; slots 5..11 and the other buffers are unchanged |
| `Arm.Yj10.ReadClamper` | src/yj10.hpp:95-98 | logs a read of 5 registers at 6; only slots 6..10 can change; joint slots 0..5, slot 11 and the other buffers are unchanged |
| `Arm.Yj10.WriteJoint` | src/yj10.hpp:100-106 | for 0 <= index <= 5 logs exactly one write (index, pwm); for any other index logs nothing; no buffer changes |
| `Arm.Yj10.WriteAllJointsFromBuffer` | src/yj10.cpp:103-111 | `write_buf[0..5)` becomes `pwm[0..5)`, `write_buf[5..12)` is unchanged, and exactly one write of 5 registers at 0 carrying those values in order is logged; caches untouched |
| `Arm.Yj10.WriteAllJoints` | src/yj10.cpp:135-143 | the same effect as the raw-buffer overload, for five values passed by value; the count sent is the array's size, 5 |
| `Arm.Yj10.WriteClamperInstruction` | src/yj10.cpp:113-133 | logs exactly one write at address 6 of the command code of the state; no buffer changes |
| `Arm.Yj10.WriteClamperClosingCurrent` | src/yj10.hpp:150-153 | logs exactly one write (8, current); no buffer changes |
| `Arm.Yj10.Joint` | src/yj10.hpp:161-171 | returns cached holding slot `index` when 0 <= index <= 5 and 0 for any other index; reads only the holding cache |
| `Arm.Yj10.Joints` | src/yj10.hpp:173-181 | returns cached holding slots 0..4 in address order, each equal to `Joint(k)`; changes nothing |
| `Arm.Yj10.Clamper` | src/yj10.hpp:188-206 | the status decoded from cached holding slot 7; never Stop |
| `Arm.Yj10.ClamperCurrent` | src/yj10.hpp:213-216 | returns cached holding slot 10 |
| `Arm.WriteJointThenRead` | src/yj10.hpp:161-171 | client of the class: `WriteJoint(i, v)` for i in 0..5, then `ReadAllHoldingRegs` answered by a storing device, logs exactly the write (i, v) followed by a read of 12 registers at 0 and leaves `Joint(i) == v` |
| `Arm.WriteAllJointsThenRead` | src/yj10.hpp:173-181 | client of the class: `WriteAllJoints(p)`, then `ReadAllJointsPwm` answered by a storing device, logs exactly the 5-register write of p at 0 followed by a read of 5 registers at 0, leaves cache slots 0..4 equal to p, and `Joints()` returns p |

## Left out

- Session management is not modelled: `modbus_new_rtu`, `modbus_set_slave`, `Connect`, `Close` and the destructor (src/yj10.cpp:68-101). These are foreign library calls. The constructor therefore takes none of the device, slave id, baud, parity, data-bit or stop-bit parameters.
- Serial framing, CRC and timeouts belong to libmodbus. The timeout calls in the source are commented out.
- What libmodbus writes into the destination buffer when a read fails is library behaviour. The model assumes a failed read leaves the cache unchanged.
- Error kinds are not modelled. The throwing code in `ThrowException` is commented out, so every failure returns normally.
- The result of a write call (success or -1) is not a parameter. With an empty `ThrowException` it changes nothing observable.
- The transport's own guarantee that a successful read delivers exactly the `num` words asked for is a precondition (`Fits`) of the read methods.
- Pointer semantics are not modelled. `ReadInputRegisters` and `ReadHoldingRegisters` return a pointer into the cache; the model returns the window's contents at return time, not a live alias.
- The fake device in `Transport` (`Transport.Store`, `Transport.Answer` and the lemmas `StoreRegisterThenAnswer`, `StoreRegistersThenAnswer`) is a test double for stating round trips and has no counterpart in the source, so it has no row in the table. It does not model the real arm, which sets the status register (7) itself.
- The console program in src/main.cpp (timing loop, console I/O, integer-to-command switch) is not part of this model.
