/** The state of a highlighting colour stream: the seed of its colour
    generator, four alpha values stored in the top byte of a 32-bit word, a
    colour cache, the selected ("active") fragment ids and the
    fragment-to-segment assignment.  Every change of what the stream would
    render fires a state-changed notification to its listeners; here the
    notifications are counted in `stateChanges`. */
module Stream {
  import Labels

  const DEFAULT_ALPHA: bv32 := 0x2000_0000
  const DEFAULT_ACTIVE_FRAGMENT_ALPHA: bv32 := 0xd000_0000
  const DEFAULT_ACTIVE_SEGMENT_ALPHA: bv32 := 0x8000_0000
  const ZERO: bv32 := 0

  /** The static `argb(r, g, b, alpha)` packer: red, green and blue shifted
      into bytes 2, 1 and 0, or-ed with an alpha word.  When the channels fit
      in a byte and the alpha word has its low three bytes clear, each
      channel and the alpha can be read back from the packed colour. */
  function ComposeArgb(r: bv32, g: bv32, b: bv32, alpha: bv32): (c: bv32)
    ensures r <= 0xff && g <= 0xff && b <= 0xff && alpha & 0x00ff_ffff == 0 ==>
      (c >> 16) & 0xff == r && (c >> 8) & 0xff == g && c & 0xff == b && c & 0xff00_0000 == alpha
  {
    ((((r << 8) | g) << 8) | b) | alpha
  }

  /** How a setter stores an alpha in [0, 255]: masked to a byte and moved to
      the top byte.  The getter's shift recovers the masked value. */
  function AlphaWord(a: bv32): (w: bv32)
    ensures w >> 24 == a & 0xff
    ensures w & 0x00ff_ffff == 0
  {
    (a & 0xff) << 24
  }

  /** What a concrete stream's colour generator may read besides the id and
      the colouring mode: the seed, the four alpha words, the active ids and
      the assignment. */
  datatype ColourState = ColourState(
    seed: bv64,
    alpha: bv32,
    activeFragmentAlpha: bv32,
    activeSegmentAlpha: bv32,
    invalidSegmentAlpha: bv32,
    highlights: seq<bv64>,
    assignment: bv64 -> bv64)

  class HighlightingArgbStream {
    var seed: bv64
    var alpha: bv32
    var activeFragmentAlpha: bv32
    var activeSegmentAlpha: bv32
    var invalidSegmentAlpha: bv32
    /** The active ids of the current selection. */
    var highlights: seq<bv64>
    /** The fragment-to-segment assignment. */
    var assignment: bv64 -> bv64
    var colorFromSegmentId: bool
    var argbCache: map<bv64, bv32>
    /** Number of state-changed notifications fired so far. */
    var stateChanges: nat
    /** The colour generator of the concrete stream (argbImpl), given the
        id, the colouring mode and the stream's current state. */
    const argbImpl: (bv64, bool, ColourState) -> bv32

    /** The part of the stream's state the generator reads. */
    function Observed(): ColourState
      reads this
    {
      ColourState(seed, alpha, activeFragmentAlpha, activeSegmentAlpha, invalidSegmentAlpha, highlights, assignment)
    }

    /** Every alpha field holds its value in the top byte only. */
    ghost predicate Valid()
      reads this
    {
      && alpha & 0x00ff_ffff == 0
      && activeFragmentAlpha & 0x00ff_ffff == 0
      && activeSegmentAlpha & 0x00ff_ffff == 0
      && invalidSegmentAlpha & 0x00ff_ffff == 0
    }

    constructor (highlights: seq<bv64>, assignment: bv64 -> bv64, argbImpl: (bv64, bool, ColourState) -> bv32)
      ensures Valid()
      ensures this.highlights == highlights && this.assignment == assignment && this.argbImpl == argbImpl
      ensures seed == 0 && !colorFromSegmentId && argbCache == map[] && stateChanges == 0
      ensures GetAlpha() == 0x20 && GetActiveFragmentAlpha() == 0xd0
      ensures GetActiveSegmentAlpha() == 0x80 && GetInvalidSegmentAlpha() == 0
    {
      this.seed := 0;
      this.alpha := DEFAULT_ALPHA;
      this.activeFragmentAlpha := DEFAULT_ACTIVE_FRAGMENT_ALPHA;
      this.activeSegmentAlpha := DEFAULT_ACTIVE_SEGMENT_ALPHA;
      this.invalidSegmentAlpha := ZERO;
      this.highlights := highlights;
      this.assignment := assignment;
      this.colorFromSegmentId := false;
      this.argbCache := map[];
      this.stateChanges := 0;
      this.argbImpl := argbImpl;
    }

    /** argb(id): the transparent label is always colour 0, whatever the
        state; every other id is coloured by the generator from the current
        colouring mode and state. */
    function Argb(id: bv64): (c: bv32)
      reads this
      ensures id == Labels.TRANSPARENT ==> c == 0
      ensures id != Labels.TRANSPARENT ==> c == argbImpl(id, colorFromSegmentId, Observed())
    {
      if id == Labels.TRANSPARENT then ZERO else argbImpl(id, colorFromSegmentId, Observed())
    }

    /** A colour packed with the stream's alpha word carries that word in its
        top byte, and shifting it down reads back the getter's alpha. */
    lemma PackedAlphaIsAlpha(r: bv32, g: bv32, b: bv32)
      requires Valid() && r <= 0xff && g <= 0xff && b <= 0xff
      ensures ComposeArgb(r, g, b, alpha) & 0xff00_0000 == alpha
      ensures ComposeArgb(r, g, b, alpha) >> 24 == GetAlpha()
    {
      var c := ComposeArgb(r, g, b, alpha);
      assert c & 0xff00_0000 == alpha;
      assert c >> 24 == (c & 0xff00_0000) >> 24;
    }

    /** isActiveFragment: whether `id` is one of the active ids. */
    method IsActiveFragment(id: bv64) returns (active: bool)
      ensures active <==> id in highlights
    {
      var ids := highlights;
      var k := 0;
      while k < |ids|
        invariant 0 <= k <= |ids|
        invariant forall j :: 0 <= j < k ==> ids[j] != id
      {
        if id == ids[k] {
          return true;
        }
        k := k + 1;
      }
      return false;
    }

    /** isActiveSegment: whether some active id is assigned to the same
        segment as `id`. */
    method IsActiveSegment(id: bv64) returns (active: bool)
      ensures active <==> exists j :: 0 <= j < |highlights| && assignment(highlights[j]) == assignment(id)
    {
      var segment := assignment(id);
      var ids := highlights;
      var k := 0;
      while k < |ids|
        invariant 0 <= k <= |ids|
        invariant forall j :: 0 <= j < k ==> assignment(ids[j]) != segment
      {
        if assignment(ids[k]) == segment {
          return true;
        }
        k := k + 1;
      }
      return false;
    }

    /** setSeed: stores `s`, notifying only if it differs from the current seed. */
    method SetSeed(s: bv64)
      modifies this`seed, this`stateChanges
      ensures seed == s
      ensures stateChanges == old(stateChanges) + (if old(seed) != s then 1 else 0)
    {
      if seed != s {
        seed := s;
        stateChanges := stateChanges + 1;
      }
    }

    /** incSeed: the seed goes up by one, wrapping around at 64 bits; the
        seed always changes, so listeners are always notified. */
    method IncSeed()
      modifies this`seed, this`stateChanges
      ensures seed == old(seed) + 1
      ensures stateChanges == old(stateChanges) + 1
    {
      SetSeed(seed + 1);
    }

    /** decSeed: the seed goes down by one, wrapping around at 64 bits. */
    method DecSeed()
      modifies this`seed, this`stateChanges
      ensures seed == old(seed) - 1
      ensures stateChanges == old(stateChanges) + 1
    {
      SetSeed(seed - 1);
    }

    function GetSeed(): bv64
      reads this
    {
      seed
    }

    function GetAlpha(): (a: bv32)
      reads this
      ensures a <= 0xff
    {
      alpha >> 24
    }

    function GetActiveSegmentAlpha(): (a: bv32)
      reads this
      ensures a <= 0xff
    {
      activeSegmentAlpha >> 24
    }

    function GetInvalidSegmentAlpha(): (a: bv32)
      reads this
      ensures a <= 0xff
    {
      invalidSegmentAlpha >> 24
    }

    function GetActiveFragmentAlpha(): (a: bv32)
      reads this
      ensures a <= 0xff
    {
      activeFragmentAlpha >> 24
    }

    /** setAlpha: afterwards the getter reads `a` masked to a byte.  Nothing
        changes and nobody is notified when `a` already equals the getter;
        any other argument notifies, even one whose low byte equals the
        current alpha. */
    method SetAlpha(a: bv32)
      requires Valid()
      modifies this`alpha, this`stateChanges
      ensures Valid()
      ensures GetAlpha() == a & 0xff
      ensures old(GetAlpha()) == a ==> alpha == old(alpha) && stateChanges == old(stateChanges)
      ensures old(GetAlpha()) != a ==> alpha == AlphaWord(a) && stateChanges == old(stateChanges) + 1
    {
      if GetAlpha() != a {
        alpha := AlphaWord(a);
        stateChanges := stateChanges + 1;
      }
    }

    /** setActiveSegmentAlpha, as setAlpha. */
    method SetActiveSegmentAlpha(a: bv32)
      requires Valid()
      modifies this`activeSegmentAlpha, this`stateChanges
      ensures Valid()
      ensures GetActiveSegmentAlpha() == a & 0xff
      ensures old(GetActiveSegmentAlpha()) == a ==>
        activeSegmentAlpha == old(activeSegmentAlpha) && stateChanges == old(stateChanges)
      ensures old(GetActiveSegmentAlpha()) != a ==>
        activeSegmentAlpha == AlphaWord(a) && stateChanges == old(stateChanges) + 1
    {
      if GetActiveSegmentAlpha() != a {
        activeSegmentAlpha := AlphaWord(a);
        stateChanges := stateChanges + 1;
      }
    }

    /** setInvalidSegmentAlpha, as setAlpha. */
    method SetInvalidSegmentAlpha(a: bv32)
      requires Valid()
      modifies this`invalidSegmentAlpha, this`stateChanges
      ensures Valid()
      ensures GetInvalidSegmentAlpha() == a & 0xff
      ensures old(GetInvalidSegmentAlpha()) == a ==>
        invalidSegmentAlpha == old(invalidSegmentAlpha) && stateChanges == old(stateChanges)
      ensures old(GetInvalidSegmentAlpha()) != a ==>
        invalidSegmentAlpha == AlphaWord(a) && stateChanges == old(stateChanges) + 1
    {
      if GetInvalidSegmentAlpha() != a {
        invalidSegmentAlpha := AlphaWord(a);
        stateChanges := stateChanges + 1;
      }
    }

    /** setActiveFragmentAlpha, as setAlpha. */
    method SetActiveFragmentAlpha(a: bv32)
      requires Valid()
      modifies this`activeFragmentAlpha, this`stateChanges
      ensures Valid()
      ensures GetActiveFragmentAlpha() == a & 0xff
      ensures old(GetActiveFragmentAlpha()) == a ==>
        activeFragmentAlpha == old(activeFragmentAlpha) && stateChanges == old(stateChanges)
      ensures old(GetActiveFragmentAlpha()) != a ==>
        activeFragmentAlpha == AlphaWord(a) && stateChanges == old(stateChanges) + 1
    {
      if GetActiveFragmentAlpha() != a {
        activeFragmentAlpha := AlphaWord(a);
        stateChanges := stateChanges + 1;
      }
    }

    /** clearCache: the colour cache is empty afterwards, and listeners are notified. */
    method ClearCache()
      modifies this`argbCache, this`stateChanges
      ensures argbCache == map[]
      ensures stateChanges == old(stateChanges) + 1
    {
      argbCache := map[];
      stateChanges := stateChanges + 1;
    }

    /** setColorFromSegmentId: the property notifies only when its value changes. */
    method SetColorFromSegmentId(fromSegmentId: bool)
      modifies this`colorFromSegmentId, this`stateChanges
      ensures colorFromSegmentId == fromSegmentId
      ensures stateChanges == old(stateChanges) + (if old(colorFromSegmentId) != fromSegmentId then 1 else 0)
    {
      if colorFromSegmentId != fromSegmentId {
        colorFromSegmentId := fromSegmentId;
        stateChanges := stateChanges + 1;
      }
    }

    /** setHighlights: stores the selection, then clears the cache. */
    method SetHighlights(h: seq<bv64>)
      modifies this`highlights, this`argbCache, this`stateChanges
      ensures highlights == h && argbCache == map[]
      ensures stateChanges == old(stateChanges) + 1
    {
      highlights := h;
      ClearCache();
    }

    /** setAssignment: stores the assignment, then clears the cache. */
    method SetAssignment(a: bv64 -> bv64)
      modifies this`assignment, this`argbCache, this`stateChanges
      ensures assignment == a && argbCache == map[]
      ensures stateChanges == old(stateChanges) + 1
    {
      assignment := a;
      ClearCache();
    }

    /** setHighlightsAndAssignment: stores both, then clears the cache once. */
    method SetHighlightsAndAssignment(h: seq<bv64>, a: bv64 -> bv64)
      modifies this`highlights, this`assignment, this`argbCache, this`stateChanges
      ensures highlights == h && assignment == a && argbCache == map[]
      ensures stateChanges == old(stateChanges) + 1
    {
      highlights := h;
      assignment := a;
      ClearCache();
    }
  }

  /** An active fragment is always part of an active segment. */
  lemma ActiveFragmentIsActiveSegment(highlights: seq<bv64>, assignment: bv64 -> bv64, id: bv64)
    requires id in highlights
    ensures exists j :: 0 <= j < |highlights| && assignment(highlights[j]) == assignment(id)
  {
    var j :| 0 <= j < |highlights| && highlights[j] == id;
  }
}
