/** The router for one handler type `H` and one interrupt number: a table with
    one handler slot per (PIO block, state machine) pair, the registration of
    interrupts and handlers, and the shared dispatcher the per-block
    trampolines run. */
module PioIrq {
  import opened Encoder
  import opened Routing

  class PioIrq<H> {
    /** The number of PIO blocks of the platform (2 or 3). */
    const numPios: nat
    /** The logical interrupt number this router serves. */
    const interruptNumber: bv32
    /** The interrupt-controller line of PIO0's channel 0. */
    const pio0Irq0: nat
    /** The first relative interrupt source enumerator of a PIO block. */
    const pisInterrupt0: nat
    /** The handler table, PIO0's state machines 0..3 first. */
    const handlers: array<Option<H>>

    ghost predicate Valid()
    {
      (numPios == 2 || numPios == 3) && handlers.Length == numPios * 4
    }

    /** The table contents. */
    ghost function Slots(): seq<Option<H>>
      reads handlers
    {
      handlers[..]
    }

    /** Every slot starts empty. */
    constructor (numPios: nat, interruptNumber: bv32, pio0Irq0: nat, pisInterrupt0: nat)
      requires numPios == 2 || numPios == 3
      ensures Valid() && fresh(handlers)
      ensures this.numPios == numPios && this.interruptNumber == interruptNumber
      ensures this.pio0Irq0 == pio0Irq0 && this.pisInterrupt0 == pisInterrupt0
      ensures forall i :: 0 <= i < handlers.Length ==> handlers[i] == None
    {
      this.numPios := numPios;
      this.interruptNumber := interruptNumber;
      this.pio0Irq0 := pio0Irq0;
      this.pisInterrupt0 := pisInterrupt0;
      handlers := new Option<H>[numPios * 4](_ => None);
    }

    /** Arms the interrupt of state machine `sm` of block `pioNum` on channel
        `channel`: enables the source of the state machine's relative flag on
        that channel, installs the block's trampoline as a shared handler of the
        channel's line, and unmasks the line when `enable` is set. Returns the
        platform calls made, in order. */
    method RegisterInterrupt(channel: nat, pioNum: nat, sm: bv32, enable: bool)
      returns (calls: seq<Effect<H>>)
      requires Valid()
      requires channel < 2
      requires pioNum < numPios
      ensures |calls| == if enable then 3 else 2
      ensures var source := InterruptSource(pisInterrupt0, RelativeInterrupt(interruptNumber, sm));
              calls[0] == if channel == 0 then SetIrq0SourceEnabled(pioNum, source, true)
                          else SetIrq1SourceEnabled(pioNum, source, true)
      ensures calls[1] == AddSharedHandler(IrqLine(pio0Irq0, pioNum, channel), pioNum)
      ensures enable ==> calls[2] == SetIrqEnabled(IrqLine(pio0Irq0, pioNum, channel), true)
    {
      var irqNum := IrqLine(pio0Irq0, pioNum, channel);
      var source := InterruptSource(pisInterrupt0, RelativeInterrupt(interruptNumber, sm));
      if channel == 0 {
        calls := [SetIrq0SourceEnabled(pioNum, source, true)];
      } else {
        calls := [SetIrq1SourceEnabled(pioNum, source, true)];
      }
      // Block k installs the trampoline of block k.
      var trampoline := pioNum;
      calls := calls + [AddSharedHandler(irqNum, trampoline)];
      if enable {
        calls := calls + [SetIrqEnabled(irqNum, true)];
      }
    }

    /** Binds `handler` to state machine `sm` of block `pioNum`, or empties
        that slot when `install` is false. Returns false, as a warning, exactly
        when a live handler was replaced. */
    method RegisterHandler(pioNum: nat, sm: nat, handler: Option<H>, install: bool) returns (ok: bool)
      requires Valid()
      requires pioNum < numPios && sm < UINT_MOD && IndexFor(pioNum, sm) < handlers.Length
      modifies handlers
      ensures Slots() == old(Slots())[IndexFor(pioNum, sm) := if install then handler else None]
      ensures ok <==> !install || old(Slots())[IndexFor(pioNum, sm)].None?
    {
      var idx := IndexFor(pioNum, sm);
      var previous := handlers[idx];
      handlers[idx] := if install then handler else None;
      ok := if install then previous.None? else true;
    }

    /** The shared dispatcher of block `pioNum`, run when one of its lines
        fires with raised-flags word `irq`. Returns the platform calls and
        handler invocations made, in order; the table is left as it is. */
    method InterruptHandler(pioNum: nat, irq: bv32) returns (effects: seq<Effect<H>>)
      requires Valid()
      requires pioNum < numPios
      requires irq == 0 || HasStateMachineBit(irq)
      ensures effects == Dispatch(handlers[..], interruptNumber, pioNum, irq)
    {
      if irq == 0 {
        return [];
      }
      var sm := SmFromInterrupt(irq, interruptNumber);
      var ir := RelativeInterrupt(interruptNumber, sm);
      effects := [InterruptClear(pioNum, ir)];
      IndexForInTable(numPios, pioNum, SmIndex(sm));
      IndexForInTable(numPios, pioNum, 3);
      var handler := handlers[IndexFor(pioNum, SmIndex(sm))];
      if handler.Some? {
        effects := effects + [Invoke(handler.value)];
      }
    }
  }

  /** Registering two handlers for the same state machine in turn: the first
      registration reports no replacement, the second warns. */
  method RegisterTwice<H>(h1: H, h2: H) returns (first: bool, second: bool)
    ensures first && !second
  {
    var router := new PioIrq<H>(2, 0, 0, 0);
    first := router.RegisterHandler(1, 2, Some(h1), true);
    second := router.RegisterHandler(1, 2, Some(h2), true);
  }

  /** Interrupt number 0, four handlers registered for the four state
      machines of PIO1, and state machine 2's flag raised: state machine 2's
      flag is cleared and only its handler is invoked, once. */
  method DeliverToStateMachineTwo<H>(h0: H, h1: H, h2: H, h3: H) returns (effects: seq<Effect<H>>)
    ensures Clears(effects) == [2]
    ensures Invocations(effects) == [h2]
  {
    var router := new PioIrq<H>(2, 0, 0, 0);
    var ok := router.RegisterHandler(1, 0, Some(h0), true);
    ok := router.RegisterHandler(1, 1, Some(h1), true);
    ok := router.RegisterHandler(1, 2, Some(h2), true);
    ok := router.RegisterHandler(1, 3, Some(h3), true);
    effects := router.InterruptHandler(1, 0x4);
  }
}
