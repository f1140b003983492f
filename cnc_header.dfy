/**
 * The inline helpers of the CNC library header: the axis-index check, the
 * axis-type flag tests, the digital-output query word, the auto-sync state
 * bits and the `MoveBy` step word.
 */
module CncHeader {

  /** `CNC_MAX_AXIS`: programs of earlier versions were saved with six axes. */
  const CncMaxAxis: nat := 6

  /** `ALL_AXIS`, i.e. `UINT(-1)`. */
  const AllAxis: bv32 := 0xFFFF_FFFF

  /** A C `int`. */
  predicate IsInt32(x: int) {
    -0x8000_0000 <= x < 0x8000_0000
  }

  /** `unsigned(ax)`: the 32-bit pattern of `ax` read as an unsigned number. */
  function Unsigned(ax: int): (u: nat)
    requires IsInt32(ax)
    ensures u < 0x1_0000_0000
    ensures ax >= 0 ==> u == ax
    ensures ax < 0 ==> u >= 0x8000_0000
  {
    if ax >= 0 then ax else ax + 0x1_0000_0000
  }

  /** `AXIS_VALID(ax)`: `unsigned(ax) < CNC_MAX_AXIS`. */
  function AxisValid(ax: int): (r: bool)
    requires IsInt32(ax)
    ensures r <==> 0 <= ax < CncMaxAxis
  {
    Unsigned(ax) < CncMaxAxis
  }

  /** The "every axis" index is never a valid single axis. */
  lemma AllAxisIsNoAxis()
    ensures !AxisValid(-1) && Unsigned(-1) == AllAxis as nat
  {
  }

  /** `CNCZustand`: the library reports the state as a plain integer. */
  type CncState = int

  const CNC_NOT_INIT_YET: CncState := 0
  const CNC_DRIVING_REF: CncState := 1
  const CNC_WAS_STARTED: CncState := 2
  const CNC_STAND_STILL: CncState := 3
  const CNC_NOT_READY: CncState := 4

  // ----- CAxis::Type() flags -----

  const AXIS_UNUSED: bv32 := 0x000
  const AXIS_EXIST: bv32 := 0x001
  const AXIS_IS_ROT: bv32 := 0x002
  const AXIS_IGNORE_END: bv32 := 0x004
  const AXIS_ONLY_TWO_POS: bv32 := 0x008
  const AXIS_NOTOPTIONAL: bv32 := 0x010
  const AXIS_DISABLED_ON_REACHED: bv32 := 0x020
  const AXIS_STARTTO_POSAFTERREF: bv32 := 0x040
  const AXIS_CHECK_POSHWSWITCH: bv32 := 0x100
  const AXIS_CHECK_NEGHWSWITCH: bv32 := 0x200

  /** `HAS_NO_MASTER`: the master index of an axis that is no slave. */
  const HAS_NO_MASTER: int := -1

  /** The inline predicates of `CAxis` that read `Type()`. */
  datatype AxisQuery =
    | ShouldExist
    | IsRot
    | IgnoreEnd
    | IsTwoPosAxis
    | IsOptional
    | IsDisabledOnTargetReached
    | DoPosLimitCheck
    | DoNegLimitCheck

  /** The flag each predicate tests. */
  function FlagOf(q: AxisQuery): (f: bv32)
    ensures f != 0 && f & (f - 1) == 0
  {
    match q
    case ShouldExist => AXIS_EXIST
    case IsRot => AXIS_IS_ROT
    case IgnoreEnd => AXIS_IGNORE_END
    case IsTwoPosAxis => AXIS_ONLY_TWO_POS
    case IsOptional => AXIS_NOTOPTIONAL
    case IsDisabledOnTargetReached => AXIS_DISABLED_ON_REACHED
    case DoPosLimitCheck => AXIS_CHECK_POSHWSWITCH
    case DoNegLimitCheck => AXIS_CHECK_NEGHWSWITCH
  }

  /** The value of the inline predicate `q` for an axis whose `Type()` is `t`. */
  function Holds(q: AxisQuery, t: bv32): bool {
    match q
    case ShouldExist => t & AXIS_EXIST != 0
    case IsRot => t & AXIS_IS_ROT != 0
    case IgnoreEnd => t & AXIS_IGNORE_END != 0
    case IsTwoPosAxis => t & AXIS_ONLY_TWO_POS != 0
    case IsOptional => t & AXIS_NOTOPTIONAL == 0
    case IsDisabledOnTargetReached => t & AXIS_DISABLED_ON_REACHED != 0
    case DoPosLimitCheck => t & AXIS_CHECK_POSHWSWITCH != 0
    case DoNegLimitCheck => t & AXIS_CHECK_NEGHWSWITCH != 0
  }

  /**
   * Each predicate reads one bit of `Type()` and nothing else: two types that
   * agree on that bit give the same answer.
   */
  lemma ReadsOneBit(q: AxisQuery, t: bv32, u: bv32)
    requires t & FlagOf(q) == u & FlagOf(q)
    ensures Holds(q, t) == Holds(q, u)
  {
  }

  /**
   * Setting a predicate's bit makes it true and clearing it makes it false,
   * except for `IsOptional`, which is the negation of the `AXIS_NOTOPTIONAL` bit.
   */
  lemma SetAndClearBit(q: AxisQuery, t: bv32)
    ensures Holds(q, t | FlagOf(q)) == (q != IsOptional)
    ensures Holds(q, t & !FlagOf(q)) == (q == IsOptional)
  {
    MaskFacts(t, FlagOf(q));
  }

  lemma MaskFacts(t: bv32, f: bv32)
    requires f != 0
    ensures (t | f) & f == f
    ensures (t & !f) & f == 0
  {
  }

  /** An unused axis (type 0) does not exist, is optional and checks nothing. */
  lemma UnusedAxis(q: AxisQuery)
    ensures Holds(q, AXIS_UNUSED) <==> q == IsOptional
  {
  }

  /** `IsSlaveAxis()`: `MasterAxis() > HAS_NO_MASTER`. */
  function IsSlaveAxis(master: int): (r: bool)
    ensures r <==> master >= 0
  {
    master > HAS_NO_MASTER
  }

  // ----- digital outputs -----

  const QUERY_STATE: bv32 := 0x0000_0000
  const QUERY_CHANGABLE: bv32 := 0x0001_0000

  /**
   * The first argument `IsDigOutSet` (`changable` false) and
   * `IsDigOutChangable` (`changable` true) hand to `GetDigOut`.
   */
  function DigOutQuery(axisIdx: bv32, changable: bool): bv32 {
    if changable then axisIdx | QUERY_CHANGABLE else axisIdx | QUERY_STATE
  }

  /**
   * For an axis index below 0x10000 the query word carries the index in its
   * low 16 bits and the kind of query in bit 16, so both can be read back.
   */
  lemma DigOutQueryDecodes(axisIdx: bv32, changable: bool)
    requires axisIdx < 0x1_0000
    ensures DigOutQuery(axisIdx, changable) & 0xFFFF == axisIdx
    ensures (DigOutQuery(axisIdx, changable) & QUERY_CHANGABLE != 0) == changable
    ensures !changable ==> DigOutQuery(axisIdx, changable) == axisIdx
  {
  }

  // ----- auto-sync state -----

  /** The four bits `CncSync_Is*` read from `Zusynchron(CNC_SYNFKT_GET_SYNCSTATE)`. */
  datatype SyncState = SyncState(autoSyncEnabled: bool, joyInViewCoord: bool, autoSyncAllowed: bool, autoSyncBusy: bool)

  /** `CncSync_IsAutoSyncEnabled`, `IsJoyInViewCoord`, `IsAutoSyncAllowed`, `IsAutoSyncBusy`. */
  function ReadSync(word: bv32): SyncState {
    SyncState(word & 0x01 != 0, word & 0x02 != 0, word & 0x04 != 0, word & 0x08 != 0)
  }

  /** A sync-state word with exactly the given bits set. */
  function SyncWord(s: SyncState): (w: bv32)
    ensures w < 0x10
  {
    (if s.autoSyncEnabled then 0x01 else 0) | (if s.joyInViewCoord then 0x02 else 0)
      | (if s.autoSyncAllowed then 0x04 else 0) | (if s.autoSyncBusy then 0x08 else 0)
  }

  /** The four tests read back any combination of the four bits. */
  lemma SyncRoundTrip(s: SyncState)
    ensures ReadSync(SyncWord(s)) == s
  {
  }

  /** Bits above the four sync bits do not affect the tests. */
  lemma SyncIgnoresHigherBits(word: bv32)
    ensures ReadSync(word) == ReadSync(word & 0x0F)
    ensures SyncWord(ReadSync(word)) == word & 0x0F
  {
  }

  // ----- MoveBy -----

  const MOVE_POS: bv32 := 0x00
  const MOVE_NEG: bv32 := 0x01
  const MOVE_SMALLSTEP: bv32 := 0x00
  const MOVE_LARGESTEP: bv32 := 0x02

  /** The `dwWhat` word for a direction and a step size. */
  function MoveWhat(negative: bool, large: bool): bv32 {
    (if negative then MOVE_NEG else MOVE_POS) | (if large then MOVE_LARGESTEP else MOVE_SMALLSTEP)
  }

  /** Direction and step size occupy separate bits, so each can be read back alone. */
  lemma MoveBitsIndependent(negative: bool, large: bool)
    ensures (MoveWhat(negative, large) & MOVE_NEG != 0) == negative
    ensures (MoveWhat(negative, large) & MOVE_LARGESTEP != 0) == large
    ensures MoveWhat(negative, large) < 4
  {
  }
}
