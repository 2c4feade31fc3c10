/** The arithmetic that ties PIO blocks, state machines and channels to table
    slots, interrupt sources and interrupt-controller lines, and the effects the
    router asks of the platform, with the specification of the dispatcher. */
module Routing {
  import opened Encoder

  /** A handler slot: empty (a null pointer) or a reference to a handler. */
  datatype Option<T> = None | Some(value: T)

  /** What the router asks of the platform, in the order it asks. The first
      five are calls into the vendor SDK; `Invoke` is a call of a registered
      handler object. */
  datatype Effect<H> =
    | SetIrq0SourceEnabled(pio: nat, source: nat, enabled: bool)
    | SetIrq1SourceEnabled(pio: nat, source: nat, enabled: bool)
    | AddSharedHandler(line: nat, trampolineOf: nat)
    | SetIrqEnabled(line: nat, enabled: bool)
    | InterruptClear(pio: nat, flag: bv32)
    | Invoke(handler: H)

  /** A state machine number below 4 as a table offset. */
  function SmIndex(sm: bv32): (n: nat)
    requires sm < 4
    ensures n < 4 && n as bv32 == sm
  {
    if sm == 0 then 0 else if sm == 1 then 1 else if sm == 2 then 2 else 3
  }

  /** The modulus of 32-bit unsigned (`uint`) arithmetic. */
  const UINT_MOD: nat := 0x1_0000_0000

  /** The first slot of block `pioNum`: `pioNum * 4` in 32-bit unsigned
      arithmetic. */
  function BlockBase(pioNum: nat): (base: nat)
    ensures base % 4 == 0 && base + 4 <= UINT_MOD
    ensures pioNum < 0x4000_0000 ==> base == pioNum * 4
  {
    (pioNum % 0x4000_0000) * 4
  }

  /** The slot of state machine `sm` of PIO block `pioNum` in the flat table
      that lists PIO0's four state machines, then PIO1's, and so on. The
      product and sum are taken in 32-bit unsigned arithmetic, so they wrap. */
  function IndexFor(pioNum: nat, sm: nat): (idx: nat)
    ensures idx < UINT_MOD
    ensures sm < 4 ==> idx == BlockBase(pioNum) + sm
  {
    (pioNum * 4 + sm) % UINT_MOD
  }

  /** For a state machine below 4 the slot gives back the pair: its quotient
      by 4 is the block number modulo 2^30 and its remainder the state
      machine. */
  lemma IndexForDecomposes(pioNum: nat, sm: nat)
    requires sm < 4
    ensures IndexFor(pioNum, sm) / 4 == pioNum % 0x4000_0000
    ensures IndexFor(pioNum, sm) % 4 == sm
  {
  }

  /** Every (PIO block, state machine) pair of the platform has a slot of the
      table of `numPios * 4` entries. */
  lemma IndexForInTable(numPios: nat, pioNum: nat, sm: nat)
    requires numPios * 4 <= UINT_MOD
    requires pioNum < numPios && sm < 4
    ensures IndexFor(pioNum, sm) < numPios * 4
  {
  }

  /** Different (PIO block, state machine) pairs never share a slot, as long
      as the block numbers are below 2^30, where `pioNum * 4` cannot wrap. */
  lemma IndexForInjective(p0: nat, s0: nat, p1: nat, s1: nat)
    requires s0 < 4 && s1 < 4
    requires IndexFor(p0, s0) == IndexFor(p1, s1)
    ensures p0 % 0x4000_0000 == p1 % 0x4000_0000 && s0 == s1
  {
    IndexForDecomposes(p0, s0);
    IndexForDecomposes(p1, s1);
  }

  /** A state machine number of 4 or more is not rejected: it reaches the
      slots of the following blocks. */
  lemma IndexForAliases(pioNum: nat, k: nat)
    ensures IndexFor(pioNum, 4 + k) == IndexFor(pioNum + 1, k)
  {
  }

  /** A state machine number near 2^32 wraps around: state machine
      0xFFFF_FFFC of block 1 has the slot of state machine 0 of block 0. */
  lemma IndexForWraps()
    ensures IndexFor(1, 0xFFFF_FFFC) == IndexFor(0, 0) == 0
  {
  }

  /** The interrupt source `rel` places after the source enumerator `base`. */
  function InterruptSource(base: nat, rel: bv32): (source: nat)
    ensures source - base == rel as nat
  {
    base + rel as nat
  }

  /** For an interrupt number below 4 the four state machines enable four
      different sources, all in the group of four that starts at `base`. */
  lemma InterruptSourceOfStateMachine(base: nat, ir: bv32, sm: bv32)
    requires ir < 4 && sm < 4
    ensures base <= InterruptSource(base, RelativeInterrupt(ir, sm)) < base + 4
    ensures InterruptSource(base, RelativeInterrupt(ir, sm)) - base == ((ir + sm) % 4) as nat
  {
  }

  /** The interrupt-controller line of channel `channel` of PIO block
      `pioNum`: each block owns two consecutive lines after `pio0Irq0`. */
  function IrqLine(pio0Irq0: nat, pioNum: nat, channel: nat): (line: nat)
    ensures line >= pio0Irq0
    ensures channel < 2 ==> (line - pio0Irq0) / 2 == pioNum && (line - pio0Irq0) % 2 == channel
  {
    pio0Irq0 + 2 * pioNum + channel
  }

  /** Different (PIO block, channel) pairs use different lines. */
  lemma IrqLineInjective(pio0Irq0: nat, p0: nat, c0: nat, p1: nat, c1: nat)
    requires c0 < 2 && c1 < 2
    requires IrqLine(pio0Irq0, p0, c0) == IrqLine(pio0Irq0, p1, c1)
    ensures p0 == p1 && c0 == c1
  {
  }

  /** The interrupt flags an effect sequence clears, in order. */
  function Clears<H>(effects: seq<Effect<H>>): (flags: seq<bv32>)
    ensures |flags| <= |effects|
  {
    if effects == [] then []
    else (if effects[0].InterruptClear? then [effects[0].flag] else []) + Clears(effects[1..])
  }

  /** The handlers an effect sequence invokes, in order. */
  function Invocations<H>(effects: seq<Effect<H>>): (invoked: seq<H>)
    ensures |invoked| <= |effects|
  {
    if effects == [] then []
    else (if effects[0].Invoke? then [effects[0].handler] else []) + Invocations(effects[1..])
  }

  /** The flags cleared by two effect sequences run one after the other are
      those of the first followed by those of the second. */
  lemma {:induction false} ClearsAppend<H>(a: seq<Effect<H>>, b: seq<Effect<H>>)
    ensures Clears(a + b) == Clears(a) + Clears(b)
  {
    if a == [] {
      assert a + b == b;
    } else {
      assert (a + b)[0] == a[0];
      assert (a + b)[1..] == a[1..] + b;
      ClearsAppend(a[1..], b);
    }
  }

  /** The handlers invoked by two effect sequences run one after the other
      are those of the first followed by those of the second. */
  lemma {:induction false} InvocationsAppend<H>(a: seq<Effect<H>>, b: seq<Effect<H>>)
    ensures Invocations(a + b) == Invocations(a) + Invocations(b)
  {
    if a == [] {
      assert a + b == b;
    } else {
      assert (a + b)[0] == a[0];
      assert (a + b)[1..] == a[1..] + b;
      InvocationsAppend(a[1..], b);
    }
  }

  /** The effects of one run of the shared dispatcher of PIO block `pioNum`
      whose raised-flags word is `irq`, over the handler table `slots`. A word
      of 0 does nothing. Otherwise the decoded state machine's relative flag is
      cleared, whether or not a handler is registered, and then the handler in
      its slot, if any, is invoked. */
  function Dispatch<H>(slots: seq<Option<H>>, interruptNumber: bv32, pioNum: nat, irq: bv32)
    : (effects: seq<Effect<H>>)
    requires irq == 0 || HasStateMachineBit(irq)
    requires IndexFor(pioNum, 3) < |slots|
    ensures irq == 0 ==> Clears(effects) == [] && Invocations(effects) == []
    ensures irq != 0 ==>
              Clears(effects) == [RelativeInterrupt(interruptNumber, LowestRaisedSm(irq))]
    ensures irq != 0 ==>
              var slot := slots[IndexFor(pioNum, SmIndex(LowestRaisedSm(irq)))];
              Invocations(effects) == (if slot.Some? then [slot.value] else [])
    ensures irq != 0 ==> effects[0].InterruptClear? && effects[0].pio == pioNum
    ensures forall e <- effects :: e.InterruptClear? || e.Invoke?
    ensures |effects| == |Clears(effects)| + |Invocations(effects)|
  {
    if irq == 0 then []
    else
      var sm := LowestRaisedSm(irq);
      var clear := InterruptClear(pioNum, RelativeInterrupt(interruptNumber, sm));
      match slots[IndexFor(pioNum, SmIndex(sm))]
      case None => [clear]
      case Some(h) => [clear, Invoke(h)]
  }

  /** With interrupt number 0, a nonzero word that decodes to state machine
      `s` clears flag `s` and then invokes the handler stored in `s`'s slot. */
  lemma DispatchToStoredHandler<H>(slots: seq<Option<H>>, pioNum: nat, irq: bv32, s: bv32, h: H)
    requires s < 4 && HasStateMachineBit(irq) && LowestRaisedSm(irq) == s
    requires IndexFor(pioNum, 3) < |slots|
    requires slots[IndexFor(pioNum, SmIndex(s))] == Some(h)
    ensures Dispatch(slots, 0, pioNum, irq) == [InterruptClear(pioNum, s), Invoke(h)]
  {
    RelativeInterruptOfZero(s);
  }

  /** With interrupt number 0, a handler registered for state machine `s`
      of a block is invoked exactly once when that state machine's flag is
      the one raised, after that flag is cleared. */
  lemma DispatchAfterRegister<H>(slots: seq<Option<H>>, pioNum: nat, s: bv32, h: H)
    requires s < 4
    requires IndexFor(pioNum, 3) < |slots|
    ensures HasStateMachineBit(FlagWord(s))
    ensures var after := slots[IndexFor(pioNum, SmIndex(s)) := Some(h)];
            Dispatch(after, 0, pioNum, FlagWord(s)) == [InterruptClear(pioNum, s), Invoke(h)]
  {
    DecodeSingleBit(s);
    DispatchToStoredHandler(slots[IndexFor(pioNum, SmIndex(s)) := Some(h)], pioNum, FlagWord(s), s, h);
  }

  /** Two interrupts of one block handled one after the other: the trace
      clears each decoded state machine's flag in turn, and invokes the
      handlers of the two slots, if present, in the same order. */
  lemma DispatchesInSequence<H>(slots: seq<Option<H>>, interruptNumber: bv32, pioNum: nat, w1: bv32, w2: bv32)
    requires HasStateMachineBit(w1) && HasStateMachineBit(w2)
    requires IndexFor(pioNum, 3) < |slots|
    ensures var trace := Dispatch(slots, interruptNumber, pioNum, w1) + Dispatch(slots, interruptNumber, pioNum, w2);
            Clears(trace) == [RelativeInterrupt(interruptNumber, LowestRaisedSm(w1)),
                              RelativeInterrupt(interruptNumber, LowestRaisedSm(w2))]
    ensures var trace := Dispatch(slots, interruptNumber, pioNum, w1) + Dispatch(slots, interruptNumber, pioNum, w2);
            var slot1 := slots[IndexFor(pioNum, SmIndex(LowestRaisedSm(w1)))];
            var slot2 := slots[IndexFor(pioNum, SmIndex(LowestRaisedSm(w2)))];
            Invocations(trace) == (if slot1.Some? then [slot1.value] else []) + (if slot2.Some? then [slot2.value] else [])
  {
    var first := Dispatch(slots, interruptNumber, pioNum, w1);
    var second := Dispatch(slots, interruptNumber, pioNum, w2);
    ClearsAppend(first, second);
    InvocationsAppend(first, second);
  }

  /** The dispatcher as written, with interrupt number 1: state machine 0
      raises flag 1, and the dispatcher clears flag 2 instead and invokes
      the handler of state machine 1, so the raised flag stays set. */
  lemma DispatchMisroutesShiftedFlag<H>(slots: seq<Option<H>>, pioNum: nat)
    requires IndexFor(pioNum, 3) < |slots|
    ensures RelativeInterrupt(1, 0) == 1 && HasStateMachineBit(FlagWord(1))
    ensures Clears(Dispatch(slots, 1, pioNum, FlagWord(1))) == [2]
    ensures var slot := slots[IndexFor(pioNum, 1)];
            Invocations(Dispatch(slots, 1, pioNum, FlagWord(1))) == (if slot.Some? then [slot.value] else [])
  {
  }

  /** The dispatcher as written returns early only for a word of 0. The word
      0x10 (flag 4 raised, as when the line fired for another source) passes
      that guard but has none of bits 0..3 set, so the decoder's assert fails.
      With the assert compiled out the scan ends at 4: the dispatcher then
      clears flag `ir` itself and reads the slot of state machine 0 of the
      next block. */
  lemma GuardAdmitsWordWithoutStateMachineBit(ir: bv32, pioNum: nat)
    ensures 0x10 != 0 && !HasStateMachineBit(0x10)
    ensures ScanLowBits(0x10) == 4
    ensures RelativeInterrupt(ir, 4) == ir
    ensures IndexFor(pioNum, 4) == IndexFor(pioNum + 1, 0)
  {
  }

  /** The dispatcher with the guard its comment asks for: a word with no
      state machine bit is not handled. It is defined for every word, agrees
      with `Dispatch` on every word `Dispatch` accepts, clears a flag exactly
      when some state machine bit is raised, and never invokes a handler
      otherwise. */
  function GuardedDispatch<H>(slots: seq<Option<H>>, interruptNumber: bv32, pioNum: nat, irq: bv32)
    : (effects: seq<Effect<H>>)
    requires IndexFor(pioNum, 3) < |slots|
    ensures (irq == 0 || HasStateMachineBit(irq)) ==> effects == Dispatch(slots, interruptNumber, pioNum, irq)
    ensures Clears(effects) != [] <==> HasStateMachineBit(irq)
    ensures !HasStateMachineBit(irq) ==> effects == []
  {
    if HasStateMachineBit(irq) then Dispatch(slots, interruptNumber, pioNum, irq) else []
  }
}
