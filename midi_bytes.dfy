/**
 * The MIDI 1.0 Channel Voice Messages the sequencer sends: note-on (status
 * 0x9n), note-off (status 0x8n) and program change (status 0xCn), where n is
 * the channel. The source builds each status byte as `base | channel` with
 * JavaScript's bitwise or, which first converts both operands to 32-bit
 * integers; that conversion and the or itself are written out here.
 */
module MidiBytes {

  const NoteOffBase: int := 0x80
  const NoteOnBase: int := 0x90
  const ProgramChangeBase: int := 0xC0

  function Pow2(k: nat): (p: nat)
    ensures p >= 1
  {
    if k == 0 then 1 else 2 * Pow2(k - 1)
  }

  /** Bitwise or of two naturals, one binary digit at a time. */
  function NatOr(a: nat, b: nat): nat
    decreases a + b
  {
    if a == 0 && b == 0 then 0
    else 2 * NatOr(a / 2, b / 2) + (if a % 2 == 1 || b % 2 == 1 then 1 else 0)
  }

  /** JavaScript's ToUint32: the operand modulo 2^32. */
  function ToUint32(x: int): nat {
    x % 0x1_0000_0000
  }

  /**
   * JavaScript's `a | b` on integer operands: or of the 32-bit patterns, read
   * back signed, so the result is a signed 32-bit integer.
   */
  function BitOr(a: int, b: int): (r: int)
    ensures -0x8000_0000 <= r < 0x8000_0000
  {
    var u := NatOr(ToUint32(a), ToUint32(b));
    Pow2Is32();
    NatOrBound(ToUint32(a), ToUint32(b), 32);
    if u < 0x8000_0000 then u else u - 0x1_0000_0000
  }

  /** Or-ing a non-negative multiple of 16 with a value below 16 adds them. */
  lemma LowNibbleOr(a: int, b: int)
    requires 0 <= a < 0x8000_0000 && a % 16 == 0 && 0 <= b < 16
    ensures BitOr(a, b) == a + b
  {
    assert Pow2(4) == 16;
    NatOrDisjoint(a / 16, b, 4);
    assert a / 16 * 16 == a;
    SmallUint32(a);
    SmallUint32(b);
    assert NatOr(ToUint32(a), ToUint32(b)) == a + b < 0x8000_0000;
  }

  lemma Pow2Is32()
    ensures Pow2(32) == 0x1_0000_0000
  {
    assert Pow2(4) == 16;
    assert Pow2(8) == 256 by { Pow2Add(4, 4); }
    assert Pow2(16) == 0x1_0000 by { Pow2Add(8, 8); }
    Pow2Add(16, 16);
  }

  lemma {:induction false} Pow2Add(a: nat, b: nat)
    ensures Pow2(a + b) == Pow2(a) * Pow2(b)
    decreases a
  {
    if a > 0 {
      Pow2Add(a - 1, b);
      assert Pow2(a + b) == 2 * Pow2(a - 1 + b);
    }
  }

  /** `[0x90 | ch, noteNumber, velocity]`: on channels 0..15, status 0x90 + ch. */
  function NoteOnBytes(ch: int, noteNumber: int, velocity: int): (r: seq<int>)
    ensures |r| == 3 && r[1] == noteNumber && r[2] == velocity
  {
    [BitOr(NoteOnBase, ch), noteNumber, velocity]
  }

  /** `[0x80 | ch, noteNumber, 0]`: on channels 0..15, status 0x80 + ch and velocity 0. */
  function NoteOffBytes(ch: int, noteNumber: int): (r: seq<int>)
    ensures |r| == 3 && r[1] == noteNumber && r[2] == 0
  {
    [BitOr(NoteOffBase, ch), noteNumber, 0]
  }

  /** `[0xC0 | ch, program]`: on channels 0..15, status 0xC0 + ch. */
  function ProgramChangeBytes(ch: int, program: int): (r: seq<int>)
    ensures |r| == 2 && r[1] == program
  {
    [BitOr(ProgramChangeBase, ch), program]
  }

  /** The or of two k-bit numbers is a k-bit number, so the 32-bit or never overflows. */
  lemma {:induction false} NatOrBound(a: nat, b: nat, k: nat)
    requires a < Pow2(k) && b < Pow2(k)
    ensures NatOr(a, b) < Pow2(k)
    decreases k
  {
    if a == 0 && b == 0 {
    } else {
      assert k > 0;
      NatOrBound(a / 2, b / 2, k - 1);
    }
  }

  /** Or-ing a multiple of 2^k with a k-bit number is adding them. */
  lemma {:induction false} NatOrDisjoint(q: nat, c: nat, k: nat)
    requires c < Pow2(k)
    ensures NatOr(q * Pow2(k), c) == q * Pow2(k) + c
    decreases k
  {
    if k == 0 {
      assert c == 0;
      NatOrZero(q);
    } else {
      var p := Pow2(k - 1);
      assert Pow2(k) == 2 * p;
      var a := q * Pow2(k);
      assert a == 2 * (q * p);
      if a != 0 || c != 0 {
        assert a / 2 == q * p && a % 2 == 0;
        NatOrDisjoint(q, c / 2, k - 1);
      }
    }
  }

  lemma {:induction false} NatOrZero(a: nat)
    ensures NatOr(a, 0) == a
    decreases a
  {
    if a != 0 {
      NatOrZero(a / 2);
    }
  }

  /** ToUint32 leaves a value below 2^32 as it is. */
  lemma SmallUint32(x: int)
    requires 0 <= x < 0x1_0000_0000
    ensures ToUint32(x) == x
  {
  }

  /**
   * On a channel 0..15 the status byte carries the message kind in its high
   * nibble and the channel in its low nibble, as section "Channel Voice
   * Messages" of the MIDI 1.0 Detailed Specification lays out.
   */
  lemma StatusOnChannel(base: int, ch: int)
    requires base == NoteOffBase || base == NoteOnBase || base == ProgramChangeBase
    requires 0 <= ch < 16
    ensures BitOr(base, ch) == base + ch
    ensures BitOr(base, ch) / 16 == base / 16 && BitOr(base, ch) % 16 == ch
    ensures 0x80 <= BitOr(base, ch) < 0x100
  {
    LowNibbleOr(base, ch);
    NibbleLayout(base, ch);
  }

  /** Or-ing a multiple of 16 with a value below 16 puts the two in separate nibbles. */
  lemma NibbleLayout(a: int, b: int)
    requires 0 <= a < 0x8000_0000 && a % 16 == 0 && 0 <= b < 16
    ensures BitOr(a, b) / 16 == a / 16 && BitOr(a, b) % 16 == b
  {
    LowNibbleOr(a, b);
    var q := a / 16;
    assert BitOr(a, b) == q * 16 + b;
  }

  /**
   * On channels 0..15 the three messages carry their kind and channel in the
   * status byte and the data bytes unchanged.
   */
  lemma ChannelVoiceBytes(ch: int, noteNumber: int, velocity: int, program: int)
    requires 0 <= ch < 16
    ensures NoteOnBytes(ch, noteNumber, velocity) == [0x90 + ch, noteNumber, velocity]
    ensures NoteOffBytes(ch, noteNumber) == [0x80 + ch, noteNumber, 0]
    ensures ProgramChangeBytes(ch, program) == [0xC0 + ch, program]
  {
    StatusOnChannel(NoteOnBase, ch);
    StatusOnChannel(NoteOffBase, ch);
    StatusOnChannel(ProgramChangeBase, ch);
  }

  /**
   * Channels past 15 are not rejected: the or-ed bits land in the message
   * kind. Track 16 sends its note-ons with the status of channel 0, and
   * track 32 sends them as control-change messages (0xB0).
   */
  lemma ChannelOverflow()
    ensures BitOr(NoteOnBase, 16) == 0x90
    ensures BitOr(NoteOnBase, 32) == 0xB0
  {
    assert NatOr(1, 0) == 1 && NatOr(2, 0) == 2 && NatOr(4, 0) == 4;
    assert NatOr(0x9, 1) == 0x9 && NatOr(0x4, 1) == 0x5;
    assert NatOr(0x12, 2) == 0x12 && NatOr(0x9, 2) == 0xB;
    assert NatOr(0x24, 4) == 0x24 && NatOr(0x12, 4) == 0x16;
    assert NatOr(0x48, 8) == 0x48 && NatOr(0x24, 8) == 0x2C;
    assert NatOr(0x90, 16) == 0x90 && NatOr(0x48, 16) == 0x58;
    assert NatOr(0x90, 32) == 0xB0;
    assert ToUint32(NoteOnBase) == 0x90 && ToUint32(16) == 16 && ToUint32(32) == 32;
  }
}
