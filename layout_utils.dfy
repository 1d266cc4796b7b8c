/**
 * The sizing helpers of constants/LayoutUtils.ts that compute a value from
 * their argument.  An omitted optional argument (`undefined`, which selects
 * the default `"md"`) is `None`.
 */
module LayoutUtils {
  import opened Common
  import Layout

  datatype CircularButtonStyle = CircularButtonStyle(
    width: nat,
    height: nat,
    borderRadius: nat,
    justifyContent: string,
    alignItems: string)

  datatype VerticalSpacingStyle = VerticalSpacingStyle(marginVertical: nat)
  datatype HorizontalSpacingStyle = HorizontalSpacingStyle(marginHorizontal: nat)

  function ButtonKeyOrDefault(size: Option<Layout.ButtonSizeKey>): Layout.ButtonSizeKey {
    match size
    case Some(k) => k
    case None => Layout.ButtonSizeKey.Md
  }

  function SpacingKeyOrDefault(size: Option<Layout.SpacingKey>): Layout.SpacingKey {
    match size
    case Some(k) => k
    case None => Layout.SpacingKey.Md
  }

  /** circularButton: a square of the chosen button size, rounded into a circle and centred. */
  function CircularButton(size: Option<Layout.ButtonSizeKey>): (s: CircularButtonStyle)
    ensures s.width == s.height
    ensures s.width == Layout.ButtonSize(ButtonKeyOrDefault(size))
    ensures size.None? ==> s.width == 44
    ensures s.borderRadius == 999
    ensures s.justifyContent == "center" && s.alignItems == "center"
  {
    var side := Layout.ButtonSize(ButtonKeyOrDefault(size));
    CircularButtonStyle(side, side, Layout.BorderRadius(Layout.RadiusKey.Circle), "center", "center")
  }

  /** verticalSpacing: vertical margin from the spacing scale, medium by default. */
  function VerticalSpacing(size: Option<Layout.SpacingKey>): (s: VerticalSpacingStyle)
    ensures size.Some? ==> s.marginVertical == Layout.Spacing(size.value)
    ensures size.None? ==> s.marginVertical == 16
  {
    VerticalSpacingStyle(Layout.Spacing(SpacingKeyOrDefault(size)))
  }

  /** horizontalSpacing: horizontal margin from the spacing scale, medium by default. */
  function HorizontalSpacing(size: Option<Layout.SpacingKey>): (s: HorizontalSpacingStyle)
    ensures size.Some? ==> s.marginHorizontal == Layout.Spacing(size.value)
    ensures size.None? ==> s.marginHorizontal == 16
  {
    HorizontalSpacingStyle(Layout.Spacing(SpacingKeyOrDefault(size)))
  }

  /**
   * A three-step function of the width: `small` below the first breakpoint,
   * `medium` below the second, `large` from there on.
   */
  function StepByWidth(width: real, first: real, second: real, small: nat, medium: nat, large: nat): nat {
    if width < first then small else if width < second then medium else large
  }

  /** With ordered breakpoints and growing steps, a wider width never gets a smaller step. */
  lemma StepByWidthMonotone(narrow: real, wide: real, first: real, second: real, small: nat, medium: nat, large: nat)
    requires narrow <= wide
    requires first <= second
    requires small <= medium <= large
    ensures StepByWidth(narrow, first, second, small, medium, large) <= StepByWidth(wide, first, second, small, medium, large)
  {
  }

  /** responsiveSpacing: medium spacing below the phone breakpoint, large below the tablet one, extra large from there on. */
  function ResponsiveSpacing(screenWidth: real): (r: nat)
    ensures screenWidth < 375.0 ==> r == 16
    ensures 375.0 <= screenWidth < 768.0 ==> r == 24
    ensures 768.0 <= screenWidth ==> r == 32
  {
    StepByWidth(screenWidth, Layout.PhoneBreakpoint as real, Layout.TabletBreakpoint as real,
                Layout.Spacing(Layout.SpacingKey.Md), Layout.Spacing(Layout.SpacingKey.Lg),
                Layout.Spacing(Layout.SpacingKey.Xl))
  }

  /** A wider screen never gets less spacing, and every width gets one of the three steps. */
  lemma ResponsiveSpacingMonotone(narrow: real, wide: real)
    requires narrow <= wide
    ensures ResponsiveSpacing(narrow) <= ResponsiveSpacing(wide)
    ensures ResponsiveSpacing(narrow) in {16, 24, 32}
  {
    Layout.BreakpointsIncreasing();
    Layout.SpacingScaleIncreasing(Layout.SpacingKey.Md, Layout.SpacingKey.Lg);
    Layout.SpacingScaleIncreasing(Layout.SpacingKey.Lg, Layout.SpacingKey.Xl);
    StepByWidthMonotone(narrow, wide, Layout.PhoneBreakpoint as real, Layout.TabletBreakpoint as real,
                        Layout.Spacing(Layout.SpacingKey.Md), Layout.Spacing(Layout.SpacingKey.Lg),
                        Layout.Spacing(Layout.SpacingKey.Xl));
  }

  /** The comparisons are strict: each breakpoint itself already belongs to the wider step. */
  lemma ResponsiveSpacingAtBreakpoints()
    ensures ResponsiveSpacing(Layout.PhoneBreakpoint as real) == Layout.Spacing(Layout.SpacingKey.Lg)
    ensures ResponsiveSpacing(Layout.TabletBreakpoint as real) == Layout.Spacing(Layout.SpacingKey.Xl)
  {
  }

  /** iconForButton: the icon size with the same name as the button size, medium by default. */
  function IconForButton(buttonSize: Option<Layout.ButtonSizeKey>): (r: nat)
    ensures buttonSize == Some(Layout.ButtonSizeKey.Sm) ==> r == 16
    ensures buttonSize == Some(Layout.ButtonSizeKey.Md) ==> r == 24
    ensures buttonSize == Some(Layout.ButtonSizeKey.Lg) ==> r == 32
    ensures buttonSize == Some(Layout.ButtonSizeKey.Xl) ==> r == 48
    ensures buttonSize.None? ==> r == 24
  {
    match ButtonKeyOrDefault(buttonSize)
    case Sm => Layout.IconSize(Layout.IconSizeKey.Sm)
    case Md => Layout.IconSize(Layout.IconSizeKey.Md)
    case Lg => Layout.IconSize(Layout.IconSizeKey.Lg)
    case Xl => Layout.IconSize(Layout.IconSizeKey.Xl)
  }

  /**
   * The icon chosen for a button size is smaller than the circular button of
   * that size, and both the icon and the button grow with the size name.
   */
  lemma IconFitsButton(size: Option<Layout.ButtonSizeKey>, larger: Layout.ButtonSizeKey)
    requires Layout.ButtonRank(ButtonKeyOrDefault(size)) <= Layout.ButtonRank(larger)
    ensures IconForButton(size) < CircularButton(size).width
    ensures IconForButton(size) <= IconForButton(Some(larger))
    ensures CircularButton(size).width <= CircularButton(Some(larger)).width
  {
    if Layout.ButtonRank(ButtonKeyOrDefault(size)) < Layout.ButtonRank(larger) {
      Layout.ButtonScaleIncreasing(ButtonKeyOrDefault(size), larger);
    }
  }
}
