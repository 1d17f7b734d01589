/**
 * The QMK "quantum" keycode ranges above the basic byte: modifier bundles,
 * layer-tap, layer goto and momentary layer keys. Their numeric values
 * come from QMK's quantum keycode header, which is not part of this model,
 * so the dispatcher is proved for any Layout whose ranges are disjoint and
 * lie above 0xFF; Upstream holds QMK's published values for examples.
 */
module Quantum {
  import opened Bits

  /** An inclusive keycode range `lo ... hi`, as in a C `case lo ... hi:` label. */
  datatype Range = Range(lo: int, hi: int)
  {
    predicate Contains(k: int) { lo <= k <= hi }

    /** A non-empty range of 16-bit keycodes above the basic byte. */
    predicate AboveBasic() { 0xFF < lo <= hi <= 0xFFFF }

    predicate DisjointFrom(other: Range) { hi < other.lo || other.hi < lo }
  }

  datatype Layout = Layout(
    mods: Range,         // QK_MODS ... QK_MODS_MAX
    layerTap: Range,     // QK_LAYER_TAP ... QK_LAYER_TAP_MAX
    to: Range,           // QK_TO ... QK_TO_MAX
    momentary: Range,    // QK_MOMENTARY ... QK_MOMENTARY_MAX
    rmodsMin: int,       // QK_RMODS_MIN
    lctl: int, lsft: int, lalt: int, lgui: int,   // QK_LCTL ... QK_LGUI
    rctl: int, rsft: int, ralt: int, rgui: int)   // QK_RCTL ... QK_RGUI
  {
    predicate FlagsAre16Bit()
    {
      0 <= rmodsMin < 0x10000 &&
      0 <= lctl < 0x10000 && 0 <= lsft < 0x10000 && 0 <= lalt < 0x10000 && 0 <= lgui < 0x10000 &&
      0 <= rctl < 0x10000 && 0 <= rsft < 0x10000 && 0 <= ralt < 0x10000 && 0 <= rgui < 0x10000
    }

    /** What the dispatcher relies on: four disjoint ranges above 0xFF and 16-bit flags. */
    predicate Valid()
    {
      mods.AboveBasic() && layerTap.AboveBasic() && to.AboveBasic() && momentary.AboveBasic() &&
      mods.DisjointFrom(layerTap) && mods.DisjointFrom(to) && mods.DisjointFrom(momentary) &&
      layerTap.DisjointFrom(to) && layerTap.DisjointFrom(momentary) && to.DisjointFrom(momentary) &&
      FlagsAre16Bit()
    }

    /** Codes that process_layer handles. */
    predicate IsLayerCode(k: int)
    {
      layerTap.Contains(k) || to.Contains(k) || momentary.Contains(k)
    }
  }

  /** QMK's published quantum keycode values. */
  const Upstream: Layout := Layout(
    Range(0x0100, 0x1FFF), Range(0x4000, 0x4FFF), Range(0x5000, 0x50FF), Range(0x5100, 0x51FF),
    0x1000,
    0x0100, 0x0200, 0x0400, 0x0800,
    0x1100, 0x1200, 0x1400, 0x1800)

  /** `k & mask` is non-zero, on 16-bit keycodes. */
  predicate HasBits(k: int, mask: int)
    requires 0 <= k < 0x10000 && 0 <= mask < 0x10000
  {
    BitAnd(k, mask) != 0
  }

  /** No code is both a layer code and a modifier bundle, and none is a basic keycode. */
  lemma LayoutRangesSeparate(q: Layout, k: int)
    requires q.Valid()
    ensures q.IsLayerCode(k) ==> !q.mods.Contains(k) && k > 0xFF
    ensures q.mods.Contains(k) ==> k > 0xFF
  {
  }

  lemma UpstreamValid()
    ensures Upstream.Valid()
  {
  }

  /**
   * QMK's flag bits on LCTL(LSFT(c)) = 0x0300 + c, for any basic keycode c:
   * left ctrl and left shift only, and not the QK_RMODS_MIN bit.
   */
  lemma UpstreamFlagsCtrlShift(c: int)
    requires 0 <= c < 0x100
    ensures !HasBits(0x0300 + c, 0x1000)
    ensures HasBits(0x0300 + c, 0x0100) && HasBits(0x0300 + c, 0x0200)
    ensures !HasBits(0x0300 + c, 0x0400) && !HasBits(0x0300 + c, 0x0800)
  {
    var k := 0x0300 + c;
    Pow2Flags();
    MaskMeetsBit(k, 12, 0x1000);
    MaskMeetsBit(k, 8, 0x100);
    MaskMeetsBit(k, 9, 0x200);
    MaskMeetsBit(k, 10, 0x400);
    MaskMeetsBit(k, 11, 0x800);
  }

  /**
   * QMK's flag bits on RCTL(c) = 0x1100 + c, for any basic keycode c: the
   * shared QK_RMODS_MIN bit meets every right-hand flag.
   */
  lemma UpstreamFlagsRightCtrl(c: int)
    requires 0 <= c < 0x100
    ensures HasBits(0x1100 + c, 0x1000) && HasBits(0x1100 + c, 0x1100) && HasBits(0x1100 + c, 0x1200)
    ensures HasBits(0x1100 + c, 0x1400) && HasBits(0x1100 + c, 0x1800)
  {
    var k := 0x1100 + c;
    Pow2Flags();
    BitAndSharedBit(k, 0x1000, 12);
    BitAndSharedBit(k, 0x1100, 12);
    BitAndSharedBit(k, 0x1200, 12);
    BitAndSharedBit(k, 0x1400, 12);
    BitAndSharedBit(k, 0x1800, 12);
  }
}
