/** The messages of the GUI exceptions (mqtt_stat/GUI/errors.py). A message
    argument is `None` or a string; a string is truthy when non-empty. */
module GuiErrors {
  import opened Wrappers

  const Prefix: string := "A GUI error has occurred:"
  const NotBuiltDefault: string := "The window has not yet been built."
  const AlreadyBuiltDefault: string := "The window has already been built."

  datatype GuiError =
    | WindowNotBuiltError(message: string)
    | WindowAlreadyBuiltError(message: string)

  predicate Truthy(message: Option<string>)
  {
    message.Some? && message.value != ""
  }

  /** `GUIError(message)`: the prefix, then a space and the message when the
      message is truthy; the bare prefix, with no trailing space, otherwise. */
  function GuiErrorMessage(message: Option<string>): (r: string)
    ensures Prefix <= r
    ensures r == Prefix <==> !Truthy(message)
    ensures Truthy(message) ==> r[|Prefix|] == ' ' && r[|Prefix| + 1..] == message.value
  {
    if Truthy(message) then Prefix + " " + message.value else Prefix
  }

  /** `WindowNotBuiltError(message)`: only `None` is replaced by the default
      text (the test is `is None`), so an empty string gives the bare prefix. */
  function NotBuilt(message: Option<string>): (e: GuiError)
    ensures e.WindowNotBuiltError?
    ensures message == None ==> e.message == Prefix + " " + NotBuiltDefault
    ensures message == Some("") ==> e.message == Prefix
    ensures Truthy(message) ==> e.message == Prefix + " " + message.value
  {
    WindowNotBuiltError(GuiErrorMessage(Some(if message.Some? then message.value else NotBuiltDefault)))
  }

  /** `WindowAlreadyBuiltError(message)`, with the same `is None` test. */
  function AlreadyBuilt(message: Option<string>): (e: GuiError)
    ensures e.WindowAlreadyBuiltError?
    ensures message == None ==> e.message == Prefix + " " + AlreadyBuiltDefault
    ensures message == Some("") ==> e.message == Prefix
    ensures Truthy(message) ==> e.message == Prefix + " " + message.value
  {
    WindowAlreadyBuiltError(GuiErrorMessage(Some(if message.Some? then message.value else AlreadyBuiltDefault)))
  }

  /** The message the module's documentation shows for `WindowNotBuiltError("Custom message")`. */
  lemma {:induction false} CustomNotBuiltMessage()
    ensures NotBuilt(Some("Custom message")).message == "A GUI error has occurred: Custom message"
  {
    assert Prefix + " " + "Custom message" == "A GUI error has occurred: Custom message";
  }

  /** Two messages that differ give different errors: the message is recoverable. */
  lemma {:induction false} MessageInjective(m1: string, m2: string)
    requires m1 != "" && m2 != "" && m1 != m2
    ensures GuiErrorMessage(Some(m1)) != GuiErrorMessage(Some(m2))
  {
    var r1, r2 := GuiErrorMessage(Some(m1)), GuiErrorMessage(Some(m2));
    assert r1[|Prefix| + 1..] == m1;
    assert r2[|Prefix| + 1..] == m2;
  }
}
