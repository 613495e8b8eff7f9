/** The status badge: the look of a status string, matched without regard
    to case, and the size table. */
module StatusBadge {
  import opened Common
  import opened Text
  import opened Orders

  datatype BadgeStyle = BadgeStyle(bg: string, text: string, icon: string, iconColor: string)

  const FallbackStyle := BadgeStyle("bg-herb-surface", "text-herb-primaryDark", "help-outline", "#2B4D3F")

  /** The look for an already lower-cased status. */
  function StyleOfLower(status: string): (r: BadgeStyle)
    ensures status !in {"pending", "processing", "shipped", "delivered", "cancelled"} ==> r == FallbackStyle
  {
    if status == "pending" then BadgeStyle("bg-amber-100", "text-amber-700", "pending", "#D97706")
    else if status == "processing" then BadgeStyle("bg-blue-100", "text-blue-700", "hourglass-top", "#2563EB")
    else if status == "shipped" then BadgeStyle("bg-purple-100", "text-purple-700", "local-shipping", "#7C3AED")
    else if status == "delivered" then BadgeStyle("bg-green-100", "text-green-700", "check-circle", "#16A34A")
    else if status == "cancelled" then BadgeStyle("bg-red-100", "text-red-700", "cancel", "#DC2626")
    else FallbackStyle
  }

  /** `getStatusStyle`: the status is lower-cased before matching. */
  function StatusStyle(status: string): (r: BadgeStyle)
    ensures Lower(status) !in {"pending", "processing", "shipped", "delivered", "cancelled"} ==> r == FallbackStyle
    ensures Lower(status) == "pending" ==> r.icon == "pending"
    ensures Lower(status) == "processing" ==> r.icon == "hourglass-top"
    ensures Lower(status) == "shipped" ==> r.icon == "local-shipping"
    ensures Lower(status) == "delivered" ==> r.icon == "check-circle"
    ensures Lower(status) == "cancelled" ==> r.icon == "cancel"
  {
    StyleOfLower(Lower(status))
  }

  /** Matching ignores case: a status and its lower-cased form look alike,
      and so do any two statuses equal up to case. */
  lemma StatusStyleIgnoresCase(a: string, b: string)
    requires Lower(a) == Lower(b)
    ensures StatusStyle(a) == StatusStyle(b)
    ensures StatusStyle(Lower(a)) == StatusStyle(a)
  {
    LowerIdempotent(a);
  }

  /** Upper-case spellings of the known statuses get their own look. */
  lemma UpperCaseMatches()
    ensures StatusStyle("PENDING") == StatusStyle("pending")
    ensures StatusStyle("Delivered") == StatusStyle("delivered")
  {
    assert Lower("PENDING") == "pending";
    assert Lower("Delivered") == "delivered";
  }

  /** Among the order statuses, exactly 'failed' falls back to the default
      look; the other five have pairwise distinct icons. */
  lemma OrderStatusBadges(a: OrderStatus, b: OrderStatus)
    ensures StatusStyle(StatusName(a)) == FallbackStyle <==> a == Failed
    ensures a != Failed && b != Failed && StatusStyle(StatusName(a)).icon == StatusStyle(StatusName(b)).icon ==> a == b
  {
    LowerOfStatusName(a);
    LowerOfStatusName(b);
  }

  /** Stored status names are already lower case. */
  lemma LowerOfStatusName(st: OrderStatus)
    ensures Lower(StatusName(st)) == StatusName(st)
  {
    var s := StatusName(st);
    forall i | 0 <= i < |s|
      ensures Lower(s)[i] == s[i]
    {
      assert !IsAsciiUpper(s[i]);
    }
  }

  datatype BadgeSize = Small | Medium | Large

  datatype SizeClasses = SizeClasses(padding: string, fontSize: string, iconSize: int)

  /** The size, 'medium' when none is given. */
  function SizeOrDefault(size: Option<BadgeSize>): (r: BadgeSize)
    ensures size.None? ==> r == Medium
    ensures size.Some? ==> r == size.value
  {
    size.GetOr(Medium)
  }

  function Classes(size: BadgeSize): (r: SizeClasses)
    ensures r.iconSize in {12, 16, 18}
  {
    match size
    case Small => SizeClasses("px-2 py-1", "text-xs", 12)
    case Medium => SizeClasses("px-3 py-1.5", "text-sm", 16)
    case Large => SizeClasses("px-4 py-2", "text-base", 18)
  }

  /** Icons grow with the size, and each size has its own padding. */
  lemma ClassesGrow()
    ensures Classes(Small).iconSize < Classes(Medium).iconSize < Classes(Large).iconSize
    ensures Classes(Small).padding != Classes(Medium).padding
    ensures Classes(Medium).padding != Classes(Large).padding
    ensures Classes(Small).padding != Classes(Large).padding
  {
  }
}
