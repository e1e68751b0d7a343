/** Reserved label ids of the label-multiset library (net.imglib2.type.label.Label):
    ids are unsigned 64-bit values counted down from the top. */
module Labels {

  /** The id that is rendered as fully transparent (all 64 bits set). */
  const TRANSPARENT: bv64 := 0xFFFF_FFFF_FFFF_FFFF

  /** The id carried by placeholder data that has not been loaded yet. */
  const INVALID: bv64 := 0xFFFF_FFFF_FFFF_FFFE
}
