# pio_irq interrupt routing, modelled in Dafny

This project models the interrupt router of the `pio_irq` library for RP2040/RP2350 PIO
blocks. The router is a static class template `pio_irq<H, interrupt_number>` that routes
relative PIO interrupts to handler objects of type `H`. The model covers four parts:

- **Encoder** (`encoder.dfy`, module `Encoder`). The relative-interrupt arithmetic: the
  flag that state machine `sm` raises for interrupt number `ir` (`relative_interrupt`).
  It also covers decoding a raised-flags word back to a state machine (`sm_from_interrupt`).
  The decoder keeps its loop with `break`. All words are `bv32`, as `uint32_t`/`uint` are in
  the source.
- **Routing** (`routing.dfy`, module `Routing`). The slot of a (PIO block, state machine)
  pair in the flat handler table (`index_for`), and the interrupt-source offset
  (`interrupt_source`). Also the interrupt-controller line of a (block, channel) pair, and
  the effects the router asks of the platform. Last, `Dispatch`, the specification of the
  shared dispatcher.
- **Router class** (`pio_irq.dfy`, module `PioIrq`, class `PioIrq<H>`). One object stands
  for one template instantiation. The handler type `H` is the class's type parameter, and
  `interrupt_number` is a constant field. `handlers_` is an `array<Option<H>>` with
  `numPios * 4` slots, where `None` plays the null pointer. `RegisterHandler` overwrites one
  slot in place. `RegisterInterrupt` and `InterruptHandler` return, in order, the SDK calls
  and handler invocations they make, as a sequence of `Effect` values.
- Two client methods, `RegisterTwice` and `DeliverToStateMachineTwo`. They show what a
  caller can conclude from the class's contracts alone: the overwrite warning, and
  end-to-end delivery to state machine 2.

The source's `register_handler` returns `false` when a live handler is replaced, and
`true` otherwise, including always when clearing a slot. A "previous handler existed" flag
would read the other way round. The model follows the code: `ok` is true exactly when no
live handler was replaced.

## Model

| member | source | states |
|---|---|---|
| `Encoder.RelativeInterrupt` | source/pio_irq.cpp:26-32 | the flag is congruent to `ir + sm` modulo 4, and its bits 2..31 (`r / 4`) are those of `ir` |
| `Encoder.RelativeInterruptDistinct` | source/pio_irq.cpp:23-32 | for a fixed interrupt number, state machines 0..3 raise four different flags |
| `Encoder.RelativeInterruptOfZero` | source/pio_irq.cpp:26-32 | state machine 0 raises the interrupt number itself, and with interrupt number 0 each state machine `x < 4` raises flag `x` |
| `Encoder.LowestRaisedSm` | source/pio_irq.cpp:11-21 | given some bit in 0..3 set, the result is below 4, its bit is set, and no lower bit is set |
| `Encoder.ScanLowBits` | source/pio_irq.cpp:11-20 | what the scan returns with the assert compiled out: at most 4; below 4 it is a raised bit with no lower raised bit; it is 4 exactly when none of bits 0..3 is set |
| `Encoder.SmFromInterrupt` | source/pio_irq.cpp:11-21 | the scanning loop returns the lowest set bit among bits 0..3, independent of `ir`; the assert is its precondition |
| `Encoder.DecodeSingleBit` | source/pio_irq.cpp:11-20 | round trip: the word `1 << s` decodes to `s` for every `s < 4` |
| `Encoder.DecodeOfRaisedFlag` | source/pio_irq.cpp:11-32 | the flag raised by state machine `s` for interrupt number `ir < 4` decodes to `(ir + s) % 4`, which is `s` if and only if `ir == 0` |
| `Encoder.DecodeMisattributesShiftedFlag` | source/pio_irq.cpp:11-21 | interrupt number 1, state machine 0: flag 1 is raised and decoded as state machine 1 |
| `Encoder.SmFromRelativeInterrupt` | source/pio_irq.cpp:11-21 | corrected decoder: below 4, and re-encoding it with `ir` gives the lowest raised bit modulo 4 |
| `Encoder.CorrectedDecodeRoundTrip` | source/pio_irq.cpp:11-32 | corrected decoder: the flag raised by state machine `s` for any interrupt number below 4 decodes back to `s` |
| `Encoder.DecodersAgree` | source/pio_irq.cpp:11-21 | if the interrupt number's low two bits are 0, the decoder as written and the corrected one agree |
| `Encoder.HighInterruptNumberUnseen` | source/pio_irq.cpp:11-32 | for interrupt numbers 4..31 every state machine raises a flag in 4..31 (interrupt number 4: flag `4 + s`), so the word has none of the bits 0..3 either decoder reads |
| `Routing.BlockBase` | source/pio_irq.cpp:35 | a block's first slot, `pioNum * 4` in 32-bit unsigned arithmetic, is a multiple of 4 with room for four slots below 2^32, and is `pioNum * 4` itself for blocks below 2^30 |
| `Routing.IndexFor` | source/pio_irq.cpp:35 | the slot is computed in 32-bit unsigned arithmetic, so it is below 2^32; for `sm < 4` it is the block's first slot plus `sm`, so the four state machines of a block have four consecutive slots |
| `Routing.IndexForDecomposes` | source/pio_irq.cpp:35 | for `sm < 4`, the slot's quotient by 4 is the block number modulo 2^30 and its remainder is the state machine |
| `Routing.IndexForInTable` | source/pio_irq.cpp:131-133 | every slot of a block below `numPios` and a state machine below 4 lies inside the `numPios * 4` table |
| `Routing.IndexForInjective` | source/pio_irq.cpp:35 | (block, state machine) pairs with state machines below 4 share a slot only if the state machines are equal and the blocks agree modulo 2^30, so blocks below 2^30 never share |
| `Routing.IndexForAliases` | source/pio_irq.cpp:35 | state machine `4 + k` of block `p` has the slot of state machine `k` of block `p + 1` |
| `Routing.IndexForWraps` | source/pio_irq.cpp:35 | state machine `0xFFFF_FFFC` of block 1 wraps to slot 0, the slot of block 0's state machine 0 |
| `Routing.InterruptSource` | source/pio_irq.cpp:38-40 | the source lies exactly `rel` enumerators after `base` |
| `Routing.InterruptSourceOfStateMachine` | source/pio_irq.cpp:38-40 | for interrupt number below 4, state machine `sm` enables source `pis_interrupt0 + (ir + sm) % 4`, inside the group of four |
| `Routing.IrqLine` | source/pio_irq.cpp:68 | for channel below 2, the line's offset from `PIO0_IRQ_0` gives back the block (offset / 2) and the channel (offset % 2) |
| `Routing.IrqLineInjective` | source/pio_irq.cpp:68 | different (block, channel) pairs use different interrupt lines |
| `Routing.Dispatch` | source/pio_irq.cpp:111-123 | a zero word clears nothing and invokes nothing; otherwise exactly one flag is cleared, the relative flag of the decoded state machine, even for an empty slot, and it is cleared first; the slot's handler is invoked once if present, else nothing is invoked; every effect is a clear or an invocation, so there are no other effects |
| `Routing.DispatchToStoredHandler` | source/pio_irq.cpp:111-123 | with interrupt number 0, a word decoding to state machine `s` whose slot holds `h` gives exactly: clear flag `s`, then invoke `h` |
| `Routing.DispatchAfterRegister` | source/pio_irq.cpp:102-123 | with interrupt number 0, after `h` is stored for state machine `s`, raising only `s`'s flag gives exactly: clear flag `s`, then invoke `h` once |
| `Routing.DispatchesInSequence` | source/pio_irq.cpp:111-123 | two dispatches of one block run in turn clear the two decoded flags in order, and invoke the handlers of the two decoded slots, where present, in the same order |
| `Routing.DispatchMisroutesShiftedFlag` | source/pio_irq.cpp:111-123 | with interrupt number 1, raising state machine 0's flag (flag 1) makes the dispatcher clear flag 2 and invoke state machine 1's slot |
| `Routing.GuardAdmitsWordWithoutStateMachineBit` | source/pio_irq.cpp:111-119 | the word `0x10` passes the zero-word guard but has no bit among 0..3; with the assert compiled out the scan gives 4, the flag cleared is the interrupt number itself, and slot `4k + 4` is block `k + 1`'s state machine 0 |
| `Routing.GuardedDispatch` | source/pio_irq.cpp:111-123 | corrected dispatcher: defined for every word; equal to `Dispatch` on every word `Dispatch` accepts; clears a flag exactly when some bit among 0..3 is raised, and has no effect at all otherwise |
| `PioIrq.PioIrq.constructor` | source/pio_irq.cpp:131-137 | the table has `numPios * 4` slots, and all of them start empty |
| `PioIrq.PioIrq.RegisterInterrupt` | source/pio_irq.cpp:66-97 | needs channel below 2; enables source `pis_interrupt0 + relative_interrupt(interrupt_number, sm)` on the matching channel; installs block `k`'s trampoline on line `PIO0_IRQ_0 + 2k + channel`; unmasks that line only when `enable` is set |
| `PioIrq.PioIrq.RegisterHandler` | source/pio_irq.cpp:99-107 | for any `uint` state machine number (below 2^32) whose slot lies inside the table, that slot becomes the handler, or empty when not installing; every other slot is unchanged; the result is false exactly when installing over a non-empty slot |
| `PioIrq.PioIrq.InterruptHandler` | source/pio_irq.cpp:111-123 | the effects are exactly `Dispatch` over the current table; the table is not modified (no `modifies` clause) |
| `PioIrq.RegisterTwice` | source/pio_irq.cpp:99-107 | a first registration on an empty slot returns true; a second one on the same slot returns false |
| `PioIrq.DeliverToStateMachineTwo` | source/pio_irq.cpp:102-123 | with four handlers registered on one block and flags word `0b0100`, flag 2 is cleared and only state machine 2's handler is invoked, once |

## Left out

- SDK calls are not modelled as code. `pio_set_irq0_source_enabled`, `pio_set_irq1_source_enabled`, `pio_interrupt_clear`, `irq_add_shared_handler` and `irq_set_enabled` (and the non-inline wrappers around them) become recorded `Effect` values. What the hardware does with them is not modelled.
- The numeric values of `PIO0_IRQ_0`, `pis_interrupt0` and `NUM_PIOS` come from SDK headers that are not part of this model. They are constructor constants: `NUM_PIOS` is 2 or 3, and the other two are any natural number.
- The shared-handler priority `PICO_SHARED_IRQ_HANDLER_DEFAULT_ORDER_PRIORITY` is always the same constant, so `AddSharedHandler` does not record it.
- The per-block trampolines `interrupt_handler_PIO0/1/2` only forward to the dispatcher, so they are left out. The `switch` that picks one is modelled as "block `k` installs the trampoline of block `k`". Its fall-through case, a null handler for a block number outside the platform, is excluded because the block must be one of the platform's blocks.
- Concurrency is not modelled: main-line `register_handler` racing the interrupt-context dispatcher, and the atomicity of the word-sized slot store.
- `PioIrq.PioIrq.InterruptHandler` reads the raised-flags word `pio->irq` once, as a parameter. The source reads that hardware register up to three times; the model assumes all reads return the same value.
- What a handler does when it is invoked is opaque user code. The model only records that it was invoked.
- The C++20 module, the `std::invocable` concept and template instantiation are not modelled. A generic type parameter stands for them.
- Release builds, with `assert` compiled out, are not modelled as operations; the asserts are preconditions. `PioIrq.PioIrq.RegisterInterrupt` requires a channel below 2: a larger channel would take the channel-1 branch and install on line `PIO0_IRQ_0 + 2k + channel`. That is the line of block `k + channel / 2`, channel `channel % 2`, when that block exists, and otherwise a line past the PIO blocks' lines. `PioIrq.PioIrq.InterruptHandler` requires a zero word or one with a bit among 0..3. Any other nonzero word decodes to state machine 4, clears flag `interrupt_number` itself and invokes the handler in slot `4k + 4`, if one is stored there; that is state machine 0 of block `k + 1`, and only for the last block is that slot past the table. `Routing.GuardAdmitsWordWithoutStateMachineBit` states these values.
- `PioIrq.PioIrq.RegisterHandler` requires a block number below `numPios` and a slot index, computed with the source's 32-bit wrap-around, inside the `numPios * 4` table. A state machine of 4 or more is accepted. It overwrites a slot of a later block (`Routing.IndexForAliases`), or, from `2^32 - 4 * pioNum` on, wraps to a slot of an earlier block (`Routing.IndexForWraps`). Only an index past the table is out of bounds, which the source does not check and which is undefined behaviour there.
- Interrupt numbers 4 and above are served by neither decoder: their relative flags lie above bit 3 (`Encoder.HighInterruptNumberUnseen`), so the dispatcher's precondition rules out their words unless some other flag among 0..3 is raised.
- `Routing.InterruptSource` and `Routing.IrqLine` add without the 32-bit wrap-around. The sums stay far below 2^32 for the platform's constants, channels below 2 and flags below 32.

## Findings

| source | as written | input that shows it | evidently intended | confidence | as-written member | corrected member |
|---|---|---|---|---|---|---|
| source/pio_irq.cpp:11-21 | `sm_from_interrupt` returns the lowest raised bit among bits 0..3 and never uses its `ir` argument | interrupt number 1, state machine 0: the program raises flag `relative_interrupt(1, 0) == 1`, the word is `0b0010`, and it decodes to state machine 1; the dispatcher then clears flag 2, leaves flag 1 raised and calls state machine 1's handler | undo the modulo-4 shift: state machine `(i - ir) % 4` for lowest raised bit `i` | medium, not executed | `Encoder.DecodeMisattributesShiftedFlag` | `Encoder.CorrectedDecodeRoundTrip` |
| source/pio_irq.cpp:111-119 | the dispatcher returns early only when `pio->irq == 0`; every other word goes to `sm_from_interrupt`, whose assert (line 19) demands a raised bit among 0..3 | word `0x10`: flag 4 is raised while the shared line fired for another source. It passes the guard and fails the assert. Without the assert the scan gives 4, so flag `interrupt_number` is cleared and slot `4k + 4` is read, which is the next block's state machine 0 | return early whenever none of bits 0..3 is raised, the case the comment at line 113 names | medium, not executed | `Routing.GuardAdmitsWordWithoutStateMachineBit` | `Routing.GuardedDispatch` |

The router class keeps the decoder as written, because it models what the firmware
does. `Encoder.DecodersAgree` shows that both decoders give the same state machine
whenever the interrupt number's low two bits are 0. Of those interrupt numbers, only 0
gets a working decoder: from 4 on, the raised flags lie above bit 3
(`Encoder.HighInterruptNumberUnseen`). So for interrupt number 0 alone, the corrected
round trip `Encoder.CorrectedDecodeRoundTrip` also holds for the decoder as written, and
`Routing.DispatchAfterRegister` carries it to the dispatcher. `Routing.DispatchMisroutesShiftedFlag` shows the effect of the
bug on the dispatcher.

In the same way the class keeps the zero-word guard as written, with the decoder's assert
as a precondition of `PioIrq.PioIrq.InterruptHandler`. `Routing.GuardedDispatch` is the
dispatcher with the guard the comment at source/pio_irq.cpp:113 describes. It agrees
with `Routing.Dispatch` on every word the as-written dispatcher may receive.
