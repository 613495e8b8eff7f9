/** The rules of the alert dialog component: what a button press does, what
    the back button presses, and the type and style tables. */
module AlertDialog {
  import opened Common
  import opened Ui

  /** The effect of pressing a button: whether its callback runs and whether
      the dialog hides. */
  datatype PressEffect = PressEffect(invoked: bool, hides: bool)

  /** Some button in the dialog is loading. */
  predicate AnyLoading(buttons: seq<AlertButton>) {
    exists i :: 0 <= i < |buttons| && IsLoading(buttons[i])
  }

  /** `handleButtonPress`. The callback runs when present. The dialog hides
      unless the button is destructive, the button is loading, or any button
      of the dialog is loading. */
  function Press(buttons: seq<AlertButton>, b: AlertButton): (e: PressEffect)
    ensures e.invoked <==> b.hasOnPress
    ensures e.hides <==> b.style != Some(DestructiveStyle) && !IsLoading(b) && !AnyLoading(buttons)
  {
    PressEffect(b.hasOnPress, b.style != Some(DestructiveStyle) && !IsLoading(b) && !AnyLoading(buttons))
  }

  /** The store after a press of one of the shown dialog's buttons. */
  function PressInStore(s: UiState, b: AlertButton): (s': UiState)
    ensures Press(s.alert.content.buttons, b).hides ==> s' == HideAlert(s)
    ensures !Press(s.alert.content.buttons, b).hides ==> s' == s
  {
    if Press(s.alert.content.buttons, b).hides then HideAlert(s) else s
  }

  /** A dialog whose buttons include a loading one stays open whichever
      button is pressed. */
  lemma LoadingDialogStaysOpen(s: UiState, i: nat, b: AlertButton)
    requires i < |s.alert.content.buttons| && IsLoading(s.alert.content.buttons[i])
    ensures PressInStore(s, b) == s
  {
  }

  /** The first cancel button, if any. */
  function FirstCancel(buttons: seq<AlertButton>): (r: Option<nat>)
    ensures r.Some? <==> exists i :: 0 <= i < |buttons| && buttons[i].style == Some(CancelStyle)
    ensures r.Some? ==> r.value < |buttons| && buttons[r.value].style == Some(CancelStyle)
    ensures r.Some? ==> forall j :: 0 <= j < r.value ==> buttons[j].style != Some(CancelStyle)
  {
    if |buttons| == 0 then None
    else if buttons[0].style == Some(CancelStyle) then Some(0)
    else
      var rest := FirstCancel(buttons[1..]);
      assert forall i :: 1 <= i < |buttons| ==> buttons[i] == buttons[1..][i - 1];
      match rest
      case None => None
      case Some(k) => Some(k + 1)
  }

  /** `onRequestClose`: the button the back gesture presses. The first
      cancel button wins; without one, a lone button is pressed only when its
      style is exactly 'default'; otherwise nothing happens. */
  function BackRequest(buttons: seq<AlertButton>): (r: Option<AlertButton>)
    ensures FirstCancel(buttons).Some? ==> r == Some(buttons[FirstCancel(buttons).value])
    ensures FirstCancel(buttons).None? ==>
              (r.Some? <==> |buttons| == 1 && buttons[0].style == Some(DefaultStyle))
    ensures r.Some? ==> r.value in buttons
  {
    match FirstCancel(buttons)
    case Some(k) => Some(buttons[k])
    case None => if |buttons| == 1 && buttons[0].style == Some(DefaultStyle) then Some(buttons[0]) else None
  }

  /** A lone button without a style is not pressed by the back gesture,
      though it is drawn like a 'default' one. */
  lemma LoneUnstyledButtonIgnored(b: AlertButton)
    requires b.style == None
    ensures BackRequest([b]).None?
  {
  }

  /** The icon, colour and background class for a dialog type. */
  datatype TypeLook = TypeLook(icon: string, color: string, bgColor: string)

  function LookFor(alertType: string): (r: TypeLook)
    ensures alertType !in {"success", "error", "warning", "info", "confirmation"} ==>
              r == TypeLook("notifications", "#757575", "bg-gray-100")
  {
    if alertType == "success" then TypeLook("check-circle", "#4CAF50", "bg-green-100")
    else if alertType == "error" then TypeLook("error", "#F44336", "bg-red-100")
    else if alertType == "warning" then TypeLook("warning", "#FF9800", "bg-amber-100")
    else if alertType == "info" then TypeLook("info", "#2196F3", "bg-blue-100")
    else if alertType == "confirmation" then TypeLook("help-outline", "#607D8B", "bg-slate-100")
    else TypeLook("notifications", "#757575", "bg-gray-100")
  }

  /** The six looks (five types and the fallback) have pairwise distinct
      icons, so the icon identifies the type. */
  lemma LooksAreDistinct(a: string, b: string)
    requires a in {"success", "error", "warning", "info", "confirmation"}
    requires LookFor(a).icon == LookFor(b).icon
    ensures a == b
  {
  }

  /** `getButtonTextStyle`: red text exactly for a destructive button, gray
      exactly for a cancel button, the primary colour for every other. */
  function ButtonTextStyle(style: Option<ButtonStyle>): (r: string)
    ensures "text-red-600" <= r <==> style == Some(DestructiveStyle)
    ensures "text-gray-700" <= r <==> style == Some(CancelStyle)
    ensures "text-herb-primary" <= r <==> style != Some(DestructiveStyle) && style != Some(CancelStyle)
  {
    var (colour, font) := match style
      case Some(DestructiveStyle) => ("text-red-600", " font-poppins-semibold")
      case Some(CancelStyle) => ("text-gray-700", " font-poppins-medium")
      case _ => ("text-herb-primary", " font-poppins-semibold");
    ColourClass(colour, font);
    colour + font
  }

  /** Followed by any font class, each of the three colour classes starts
      the text exactly when it is the colour chosen. */
  lemma ColourClass(colour: string, font: string)
    requires colour == "text-red-600" || colour == "text-gray-700" || colour == "text-herb-primary"
    ensures "text-red-600" <= colour + font <==> colour == "text-red-600"
    ensures "text-gray-700" <= colour + font <==> colour == "text-gray-700"
    ensures "text-herb-primary" <= colour + font <==> colour == "text-herb-primary"
  {
    var r := colour + font;
    assert r[..|colour|] == colour;
    assert r[5] == colour[5];
    if colour[5] != 'r' { DiffersAt("text-red-600", r, 5); }
    if colour[5] != 'g' { DiffersAt("text-gray-700", r, 5); }
    if colour[5] != 'h' { DiffersAt("text-herb-primary", r, 5); }
  }

  /** Two strings that differ at index `i` are not prefix and whole. */
  lemma DiffersAt(p: string, r: string, i: nat)
    requires i < |p| && i < |r| && p[i] != r[i]
    ensures !(p <= r)
  {
  }

  /** Two buttons' texts look alike exactly when both are destructive, both
      cancel, or both neither; an unstyled button looks like a 'default' one. */
  lemma ButtonTextClasses(a: Option<ButtonStyle>, b: Option<ButtonStyle>)
    ensures ButtonTextStyle(None) == ButtonTextStyle(Some(DefaultStyle))
    ensures ButtonTextStyle(a) == ButtonTextStyle(b) <==>
              a == b || (a != Some(DestructiveStyle) && a != Some(CancelStyle)
                         && b != Some(DestructiveStyle) && b != Some(CancelStyle))
  {
  }
}
