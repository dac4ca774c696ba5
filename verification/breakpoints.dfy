/** Responsive breakpoints (`utils/breakpoints.ts`): a screen width is
    classified by the largest threshold it reaches. */
module Breakpoints {
  datatype Breakpoint = Xs | Sm | Md | Lg | Xl

  /** The `BREAKPOINTS` table: the minimum width of each class. */
  function MinWidth(b: Breakpoint): real {
    match b
    case Xs => 0.0
    case Sm => 375.0
    case Md => 768.0
    case Lg => 1024.0
    case Xl => 1440.0
  }

  /** Position of a class in increasing width order. */
  function Rank(b: Breakpoint): nat {
    match b
    case Xs => 0
    case Sm => 1
    case Md => 2
    case Lg => 3
    case Xl => 4
  }

  /** `getBreakpoint(width)`: checks from the widest class down. */
  function GetBreakpoint(width: real): (b: Breakpoint)
    ensures b != Xs ==> width >= MinWidth(b)
    ensures forall c :: Rank(c) > Rank(b) ==> width < MinWidth(c)
  {
    if width >= MinWidth(Xl) then Xl
    else if width >= MinWidth(Lg) then Lg
    else if width >= MinWidth(Md) then Md
    else if width >= MinWidth(Sm) then Sm
    else Xs
  }

  /** `isTablet(width)`. */
  function IsTablet(width: real): (t: bool)
    ensures t <==> width >= 768.0
  {
    width >= MinWidth(Md)
  }

  /** `isPhone(width)`. */
  function IsPhone(width: real): (p: bool)
    ensures p <==> width < 768.0
  {
    width < MinWidth(Md)
  }

  /** The thresholds increase strictly with rank. */
  lemma MinWidthIncreasing(a: Breakpoint, b: Breakpoint)
    ensures Rank(a) < Rank(b) <==> MinWidth(a) < MinWidth(b)
  {
  }

  /** A wider screen never gets a narrower class. */
  lemma GetBreakpointMonotone(w1: real, w2: real)
    requires w1 <= w2
    ensures Rank(GetBreakpoint(w1)) <= Rank(GetBreakpoint(w2))
  {
  }

  /** Every width is exactly one of tablet or phone, and the tablet classes
      are exactly md and wider. */
  lemma TabletPhonePartition(width: real)
    ensures IsTablet(width) != IsPhone(width)
    ensures IsTablet(width) <==> Rank(GetBreakpoint(width)) >= Rank(Md)
  {
  }
}
