/** The UI store: the one global alert dialog and the keyboard flag. */
module Ui {
  import opened Common

  /** A dialog button's style; a button may also have none. */
  datatype ButtonStyle = DefaultStyle | CancelStyle | DestructiveStyle

  /** A dialog button. The press callback itself is foreign code, so only
      whether one is present is kept. */
  datatype AlertButton = AlertButton(text: string, hasOnPress: bool, style: Option<ButtonStyle>, isLoading: Option<bool>)

  /** The button is loading: its flag is present and true. */
  predicate IsLoading(b: AlertButton) {
    b.isLoading == Some(true)
  }

  /** What `showAlert` is given: everything but visibility. The dialog's
      type is kept as a string, since the dialog also handles values outside
      its five known types. */
  datatype AlertContent = AlertContent(title: string, message: string, alertType: string, buttons: seq<AlertButton>)

  datatype AlertProps = AlertProps(isVisible: bool, content: AlertContent)

  datatype UiState = UiState(alert: AlertProps, isKeyboardVisible: bool)

  /** The state the alert store starts in. */
  function InitialUi(): UiState {
    UiState(AlertProps(false, AlertContent("", "", "info", [])), false)
  }

  /** The initial dialog is hidden, empty, of type "info" and has no buttons. */
  lemma InitialAlertIsEmpty()
    ensures !InitialUi().alert.isVisible && InitialUi().alert.content.buttons == []
    ensures InitialUi().alert.content.title == "" && InitialUi().alert.content.message == ""
    ensures InitialUi().alert.content.alertType == "info" && !InitialUi().isKeyboardVisible
  {
  }

  /** `showAlert`: the dialog becomes visible with exactly the given content. */
  function ShowAlert(s: UiState, content: AlertContent): (s': UiState)
    ensures s'.alert.isVisible && s'.alert.content == content
    ensures s'.isKeyboardVisible == s.isKeyboardVisible
  {
    s.(alert := AlertProps(true, content))
  }

  /** `hideAlert`: the dialog becomes invisible and keeps its content. */
  function HideAlert(s: UiState): (s': UiState)
    ensures !s'.alert.isVisible && s'.alert.content == s.alert.content
    ensures s'.isKeyboardVisible == s.isKeyboardVisible
  {
    s.(alert := s.alert.(isVisible := false))
  }

  /** Hiding twice is hiding once; showing then hiding leaves the shown
      content in place. */
  lemma HideAlertIdempotent(s: UiState, content: AlertContent)
    ensures HideAlert(HideAlert(s)) == HideAlert(s)
    ensures HideAlert(ShowAlert(s, content)).alert == AlertProps(false, content)
  {
  }

  /** `setKeyboardVisible`: only the keyboard flag changes. */
  function SetKeyboardVisible(s: UiState, visible: bool): (s': UiState)
    ensures s'.isKeyboardVisible == visible && s'.alert == s.alert
  {
    s.(isKeyboardVisible := visible)
  }
}
