/**
 * The X-ray library header: the tube states `State()` reports, the spot-size
 * constants and the inline helpers that turn a wedge, step or family index
 * into the function code handed to `SetNUA`, `GetNUA` or `GetFamily`.
 */
module XrayHeader {

  /** `XR_STATE`: the library reports the state as a plain integer. */
  type XrState = int

  const XR_NOT_INIT_YET: XrState := 0
  const XR_NOT_READY: XrState := 1
  const XR_IS_COLD: XrState := 2
  const XR_IS_OFF: XrState := 3
  const XR_IS_AGING: XrState := 4
  const XR_IS_ON: XrState := 5
  const XR_IS_RAMPINGUP: XrState := 6
  const XR_IS_SHADOW: XrState := 7
  const XR_IS_CENTERING: XrState := 8
  const XR_DOES_TARGETCHECK: XrState := 9
  const XR_IS_PREWARNING: XrState := 10
  const XR_IS_AFTERHEATING: XrState := 11

  // ----- spot sizes -----

  const ACT_SPOTSIZE: int := -1
  const SPOTSIZE_SMALLEST: nat := 0
  const MAX_SPOTSIZES: nat := 5

  // ----- NUA function codes -----

  const NUA_WEDGE1: nat := 1
  const NUA_WEDGE2: nat := 2
  const NUA_WEDGECOUNT: nat := 2
  const NUA_STEPCOUNT: nat := 2
  const NUA_ISENABLED: nat := 1
  const NUA_KVFACTOR: nat := 2
  const NUA_KVOFFSET: nat := 3
  const NUA_UAOFFSET: nat := 4
  const NUA_WEDGEFACTOR1: nat := 5
  const NUA_WEDGEFACTOR2: nat := 6
  const NUA_REFGRAYLEVEL1: nat := 11
  const NUA_REFGRAYLEVEL4: nat := 14
  const NUA_REFKV1: nat := 21
  const NUA_REFKV2: nat := 22
  const NUA_REFUA1: nat := 23
  const NUA_REFUA2: nat := 24

  /** A C `UINT`. */
  predicate IsUint32(x: int) {
    0 <= x < 0x1_0000_0000
  }

  /** `x - 1` computed on `UINT`: 0 wraps round to the largest value. */
  function PredU(x: nat): (r: nat)
    requires IsUint32(x)
    ensures IsUint32(r)
    ensures x > 0 ==> r == x - 1
    ensures x == 0 ==> r == 0xFFFF_FFFF
  {
    (x - 1) % 0x1_0000_0000
  }

  /**
   * The debug `ASSERT((u - 1) <= (last - first))` the inline helpers make
   * before computing `first - 1 + u`.
   */
  predicate IndexAsserted(u: nat, first: nat, last: nat)
    requires IsUint32(u) && first <= last < 0x8000_0000
  {
    PredU(u) <= last - first
  }

  /** Because the subtraction is unsigned, the assertion rejects 0 as well as indices past the range. */
  lemma IndexAssertedRange(u: nat, first: nat, last: nat)
    requires IsUint32(u) && first <= last < 0x8000_0000
    ensures IndexAsserted(u, first, last) <==> 1 <= u <= last - first + 1
  {
  }

  /** The code `first - 1 + u` for a 1-based index `u` the assertion accepts. */
  function CodeFor(u: nat, first: nat, last: nat): (c: nat)
    requires IsUint32(u) && first <= last < 0x8000_0000
    requires IndexAsserted(u, first, last)
    ensures first <= c <= last
  {
    IndexAssertedRange(u, first, last);
    first - 1 + u
  }

  /** `NUA_SetWedgeFactor` and `NUA_WedgeFactor`: wedge 1 (Al) or 2 (Cu). */
  function WedgeFactorCode(wedge: nat): (c: nat)
    requires IsUint32(wedge) && IndexAsserted(wedge, NUA_WEDGEFACTOR1, NUA_WEDGEFACTOR2)
    ensures c == NUA_WEDGEFACTOR1 <==> wedge == NUA_WEDGE1
    ensures c == NUA_WEDGEFACTOR2 <==> wedge == NUA_WEDGE2
  {
    IndexAssertedRange(wedge, NUA_WEDGEFACTOR1, NUA_WEDGEFACTOR2);
    CodeFor(wedge, NUA_WEDGEFACTOR1, NUA_WEDGEFACTOR2)
  }

  /** `NUA_SetWedgekV` and `NUA_GetWedgekV`. */
  function WedgeKvCode(wedge: nat): (c: nat)
    requires IsUint32(wedge) && IndexAsserted(wedge, NUA_REFKV1, NUA_REFKV2)
    ensures c == NUA_REFKV1 <==> wedge == NUA_WEDGE1
    ensures c == NUA_REFKV2 <==> wedge == NUA_WEDGE2
  {
    IndexAssertedRange(wedge, NUA_REFKV1, NUA_REFKV2);
    CodeFor(wedge, NUA_REFKV1, NUA_REFKV2)
  }

  /** `NUA_SetWedgeuA` and `NUA_GetWedgeuA`. */
  function WedgeUaCode(wedge: nat): (c: nat)
    requires IsUint32(wedge) && IndexAsserted(wedge, NUA_REFUA1, NUA_REFUA2)
    ensures c == NUA_REFUA1 <==> wedge == NUA_WEDGE1
    ensures c == NUA_REFUA2 <==> wedge == NUA_WEDGE2
  {
    IndexAssertedRange(wedge, NUA_REFUA1, NUA_REFUA2);
    CodeFor(wedge, NUA_REFUA1, NUA_REFUA2)
  }

  /** `NUA_RefGrayLevel`: steps 1 to 4 (two steps on each of the two wedges). */
  function GrayLevelCode(step: nat): (c: nat)
    requires IsUint32(step) && IndexAsserted(step, NUA_REFGRAYLEVEL1, NUA_REFGRAYLEVEL4)
    ensures 1 <= step <= NUA_WEDGECOUNT * NUA_STEPCOUNT
    ensures c == 10 + step
  {
    IndexAssertedRange(step, NUA_REFGRAYLEVEL1, NUA_REFGRAYLEVEL4);
    CodeFor(step, NUA_REFGRAYLEVEL1, NUA_REFGRAYLEVEL4)
  }

  /** The code ranges of the helpers do not overlap each other or the scalar codes 1..4. */
  lemma CodeRangesDisjoint(a: nat, b: nat, c: nat, d: nat)
    requires IsUint32(a) && IndexAsserted(a, NUA_WEDGEFACTOR1, NUA_WEDGEFACTOR2)
    requires IsUint32(b) && IndexAsserted(b, NUA_REFGRAYLEVEL1, NUA_REFGRAYLEVEL4)
    requires IsUint32(c) && IndexAsserted(c, NUA_REFKV1, NUA_REFKV2)
    requires IsUint32(d) && IndexAsserted(d, NUA_REFUA1, NUA_REFUA2)
    ensures NUA_UAOFFSET < WedgeFactorCode(a) < GrayLevelCode(b) < WedgeKvCode(c) < WedgeUaCode(d)
  {
    IndexAssertedRange(a, NUA_WEDGEFACTOR1, NUA_WEDGEFACTOR2);
    IndexAssertedRange(b, NUA_REFGRAYLEVEL1, NUA_REFGRAYLEVEL4);
  }

  /**
   * The `ASSERT` is compiled only into debug builds. Without it the helpers
   * still compute `first - 1 + u` on `UINT`, and wedge 0 then names the code
   * just below the range: `NUA_SetWedgeFactor(0, f)` addresses `NUA_UAOFFSET`.
   */
  function UncheckedCode(u: nat, first: nat): (c: nat)
    requires IsUint32(u) && 1 <= first < 0x8000_0000
    ensures IsUint32(c)
    ensures u < 0x8000_0000 ==> c == first - 1 + u
  {
    (first - 1 + u) % 0x1_0000_0000
  }

  lemma WedgeZeroAliasesUaOffset()
    ensures !IndexAsserted(0, NUA_WEDGEFACTOR1, NUA_WEDGEFACTOR2)
    ensures UncheckedCode(0, NUA_WEDGEFACTOR1) == NUA_UAOFFSET
  {
  }

  // ----- families -----

  const FAM_COUNT: nat := 0
  const FAM_ACTID: nat := 1
  const FAM_ID1: nat := 2
  const FAM_ID9: nat := 10

  /** `FamilyID(uIdx)`: `ASSERT(uIdx <= FAM_ID9 - FAM_ID1)`, then `GetFamily(FAM_ID1 + uIdx)`. */
  function FamilyQuery(index: nat): (c: nat)
    requires index <= FAM_ID9 - FAM_ID1
    ensures FAM_ID1 <= c <= FAM_ID9
    ensures c != FAM_COUNT && c != FAM_ACTID
  {
    FAM_ID1 + index
  }

  /** The family query codes are one per index: the index can be read back from the code. */
  lemma FamilyQueryInjective(i: nat, j: nat)
    requires i <= FAM_ID9 - FAM_ID1 && j <= FAM_ID9 - FAM_ID1
    ensures FamilyQuery(i) == FamilyQuery(j) ==> i == j
    ensures FamilyQuery(i) - FAM_ID1 == i
  {
  }
}
