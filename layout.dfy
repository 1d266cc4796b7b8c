/**
 * The design constants of constants/Layout.ts: the size scales, keyed by
 * their names, and the screen-width breakpoints.
 */
module Layout {

  datatype SpacingKey = Xs | Sm | Md | Lg | Xl | Xxl
  datatype RadiusKey = Sm | Md | Lg | Xl | Circle
  datatype IconSizeKey = Sm | Md | Lg | Xl | Xxl
  datatype ButtonSizeKey = Sm | Md | Lg | Xl

  function Spacing(k: SpacingKey): nat {
    match k
    case Xs => 4
    case Sm => 8
    case Md => 16
    case Lg => 24
    case Xl => 32
    case Xxl => 48
  }

  function BorderRadius(k: RadiusKey): nat {
    match k
    case Sm => 6
    case Md => 10
    case Lg => 16
    case Xl => 24
    case Circle => 999
  }

  function IconSize(k: IconSizeKey): nat {
    match k
    case Sm => 16
    case Md => 24
    case Lg => 32
    case Xl => 48
    case Xxl => 64
  }

  function ButtonSize(k: ButtonSizeKey): nat {
    match k
    case Sm => 32
    case Md => 44
    case Lg => 56
    case Xl => 80
  }

  const SmallPhoneBreakpoint: nat := 320
  const PhoneBreakpoint: nat := 375
  const TabletBreakpoint: nat := 768
  const DesktopBreakpoint: nat := 1024

  /** Position of a spacing name on its scale, smallest first. */
  function SpacingRank(k: SpacingKey): nat {
    match k
    case Xs => 0
    case Sm => 1
    case Md => 2
    case Lg => 3
    case Xl => 4
    case Xxl => 5
  }

  /** Position of a button-size name on its scale, smallest first. */
  function ButtonRank(k: ButtonSizeKey): nat {
    match k
    case Sm => 0
    case Md => 1
    case Lg => 2
    case Xl => 3
  }

  /** The spacing scale grows strictly with its names. */
  lemma SpacingScaleIncreasing(j: SpacingKey, k: SpacingKey)
    requires SpacingRank(j) < SpacingRank(k)
    ensures Spacing(j) < Spacing(k)
  {
  }

  /** The button scale grows strictly with its names. */
  lemma ButtonScaleIncreasing(j: ButtonSizeKey, k: ButtonSizeKey)
    requires ButtonRank(j) < ButtonRank(k)
    ensures ButtonSize(j) < ButtonSize(k)
  {
  }

  /** The breakpoints are in increasing order. */
  lemma BreakpointsIncreasing()
    ensures SmallPhoneBreakpoint < PhoneBreakpoint < TabletBreakpoint < DesktopBreakpoint
  {
  }
}
