/** The relative-interrupt encoding of the PIO interrupt flags.

    A PIO block has interrupt flags shared by its four state machines. A program
    that raises "interrupt n relative" from state machine s raises the flag whose
    two low bits are the modulo-4 sum of n's low bits and s, while n's higher
    bits are kept. The encoder computes that flag number; the decoder scans a
    raised-flags word for the state machine that fired. */
module Encoder {

  /** Bit `k` of the 32-bit word `v` is set. */
  predicate Raised(v: bv32, k: bv32)
    requires k < 32
  {
    (v & (1 << k)) != 0
  }

  /** Some bit in positions 0..3 (one per state machine) of `v` is set. */
  predicate HasStateMachineBit(v: bv32)
  {
    (v & 0xF) != 0
  }

  /** The relative interrupt flag that state machine `sm` raises for interrupt
      number `ir`: the low two bits are added modulo 4, in 32-bit unsigned
      arithmetic, and the upper thirty bits of `ir` are copied through. */
  function RelativeInterrupt(ir: bv32, sm: bv32): (r: bv32)
    ensures r % 4 == (ir + sm) % 4
    ensures r / 4 == ir / 4
  {
    var low := ir & 0x03;
    var sum := low + sm;
    var rel := sum % 4;
    rel | (ir & 0xffff_fffc)
  }

  /** For a fixed interrupt number the four state machines raise four
      different flags: one hardware flag group serves them unambiguously. */
  lemma RelativeInterruptDistinct(ir: bv32, s0: bv32, s1: bv32)
    requires s0 < 4 && s1 < 4 && s0 != s1
    ensures RelativeInterrupt(ir, s0) != RelativeInterrupt(ir, s1)
  {
  }

  /** State machine 0 raises exactly the interrupt number itself, and
      interrupt number 0 raises exactly the state machine's own flag. */
  lemma RelativeInterruptOfZero(x: bv32)
    ensures RelativeInterrupt(x, 0) == x
    ensures x < 4 ==> RelativeInterrupt(0, x) == x
  {
  }

  /** The state machine a raised-flags word is attributed to: the lowest
      set bit among bits 0..3. */
  function LowestRaisedSm(v: bv32): (i: bv32)
    requires HasStateMachineBit(v)
    ensures i < 4 && Raised(v, i)
    ensures forall j :: 0 <= j < i ==> !Raised(v, j)
  {
    if Raised(v, 0) then 0
    else if Raised(v, 1) then 1
    else if Raised(v, 2) then 2
    else 3
  }

  /** What the scan of bits 0..3 ends with when nothing stops it: the
      lowest set bit among them, or 4 when none of the four is set. */
  function ScanLowBits(v: bv32): (i: bv32)
    ensures i <= 4
    ensures i < 4 ==> Raised(v, i)
    ensures forall j :: 0 <= j < i ==> !Raised(v, j)
    ensures i == 4 <==> !HasStateMachineBit(v)
  {
    if HasStateMachineBit(v) then LowestRaisedSm(v) else 4
  }

  /** Finds the state machine for which a relative interrupt was raised by
      scanning bits 0..3 of `irqVal`. The interrupt number `ir` is passed but
      takes no part in the result. */
  method SmFromInterrupt(irqVal: bv32, ir: bv32) returns (i: bv32)
    requires HasStateMachineBit(irqVal)
    ensures i < 4 && Raised(irqVal, i)
    ensures forall j :: 0 <= j < i ==> !Raised(irqVal, j)
    ensures i == LowestRaisedSm(irqVal)
  {
    ghost var first := LowestRaisedSm(irqVal);
    i := 0;
    while i < 4
      invariant i <= first
      invariant forall j :: 0 <= j < i ==> !Raised(irqVal, j)
    {
      if (irqVal & (1 << i)) != 0 {
        break;
      }
      i := i + 1;
    }
    assert i != 4;
  }

  /** The word in which only flag `flag` is raised. */
  function FlagWord(flag: bv32): (w: bv32)
    requires flag < 32
    ensures forall k :: 0 <= k < 32 ==> (Raised(w, k) <==> k == flag)
  {
    1 << flag
  }

  /** Round trip: a word in which only the bit of state machine `s` is set
      decodes to `s`, whatever the interrupt number. */
  lemma DecodeSingleBit(s: bv32)
    requires s < 4
    ensures HasStateMachineBit(FlagWord(s))
    ensures LowestRaisedSm(FlagWord(s)) == s
  {
  }

  /** As written, the decoder ignores the interrupt number: the flag raised by
      state machine `s` for interrupt number `ir` (below 4) decodes to
      `(ir + s) % 4`, which is `s` exactly when `ir` is 0. */
  lemma DecodeOfRaisedFlag(ir: bv32, s: bv32)
    requires ir < 4 && s < 4
    ensures RelativeInterrupt(ir, s) < 4
    ensures HasStateMachineBit(FlagWord(RelativeInterrupt(ir, s)))
    ensures LowestRaisedSm(FlagWord(RelativeInterrupt(ir, s))) == (ir + s) % 4
    ensures LowestRaisedSm(FlagWord(RelativeInterrupt(ir, s))) == s <==> ir == 0
  {
  }

  /** The counterexample: interrupt number 1, state machine 0 raises flag 1,
      and the decoder attributes it to state machine 1. */
  lemma DecodeMisattributesShiftedFlag()
    ensures RelativeInterrupt(1, 0) == 1
    ensures LowestRaisedSm(FlagWord(RelativeInterrupt(1, 0))) == 1
  {
  }

  /** The decoding the encoder calls for: undo the modulo-4 shift by the
      interrupt number's low bits. */
  function SmFromRelativeInterrupt(irqVal: bv32, ir: bv32): (sm: bv32)
    requires HasStateMachineBit(irqVal)
    ensures sm < 4
    ensures RelativeInterrupt(ir, sm) % 4 == LowestRaisedSm(irqVal)
  {
    (LowestRaisedSm(irqVal) - ir) % 4
  }

  /** Round trip of the corrected decoder: for every interrupt number below 4
      the flag raised by state machine `s` decodes back to `s`. */
  lemma CorrectedDecodeRoundTrip(ir: bv32, s: bv32)
    requires ir < 4 && s < 4
    ensures HasStateMachineBit(FlagWord(RelativeInterrupt(ir, s)))
    ensures SmFromRelativeInterrupt(FlagWord(RelativeInterrupt(ir, s)), ir) == s
  {
  }

  /** Where the interrupt number's low bits are zero the two decoders agree
      on every word. Only for interrupt number 0 does that make the decoder
      as written correct: from 4 on, the raised flags lie above bit 3 (see
      `HighInterruptNumberUnseen`). */
  lemma DecodersAgree(irqVal: bv32, ir: bv32)
    requires HasStateMachineBit(irqVal)
    requires ir % 4 == 0
    ensures SmFromRelativeInterrupt(irqVal, ir) == LowestRaisedSm(irqVal)
  {
  }

  /** From interrupt number 4 on, state machine `s` raises a flag above bit
      3 (interrupt number 4 raises flag `4 + s`), which neither decoder sees,
      as both look at bits 0..3 only. */
  lemma HighInterruptNumberUnseen(ir: bv32, s: bv32)
    requires 4 <= ir < 32 && s < 4
    ensures 4 <= RelativeInterrupt(ir, s) < 32
    ensures ir == 4 ==> RelativeInterrupt(ir, s) == 4 + s
    ensures !HasStateMachineBit(FlagWord(RelativeInterrupt(ir, s)))
  {
  }
}
