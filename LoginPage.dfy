/** The login screen: a four-digit PIN field, a submit button enabled only for a full PIN, and
    `handleLogin`, which calls the server action and shows its error or moves on to the dashboard. */
module LoginPage {
  import opened Browser
  import opened JsText
  import opened LoginActions

  const PinLength := 4
  const DashboardRoute := "/dashboard"
  const DefaultError := "Ein Fehler ist aufgetreten."
  const CallFailedError := "Ein Fehler ist aufgetreten. Bitte versuchen Sie es erneut."

  /** The field's `onChange`: `e.target.value.slice(0, 4)`. The field keeps the first four
      characters typed, and all of them when there are fewer. */
  function PinValue(typed: string): (pin: string)
    ensures |pin| <= PinLength
    ensures |pin| <= |typed| && pin == typed[..|pin|]
    ensures |typed| <= PinLength ==> pin == typed
    ensures |typed| >= PinLength ==> |pin| == PinLength
  {
    Prefix(typed, PinLength)
  }

  /** `disabled={isLoading || pin.length !== 4}`, negated. */
  predicate SubmitEnabled(isLoading: bool, pin: string) {
    !isLoading && |pin| == PinLength
  }

  /** With nothing in flight, the button is enabled after an input exactly when at least four
      characters were typed. */
  lemma SubmitEnabledAfterInput(typed: string)
    ensures SubmitEnabled(false, PinValue(typed)) <==> |typed| >= PinLength
  {
  }

  /** `result.error || "Ein Fehler ist aufgetreten."`. */
  function ShownError(error: string): (shown: string)
    ensures shown != ""
    ensures error != "" ==> shown == error
    ensures error == "" ==> shown == "Ein Fehler ist aufgetreten."
  {
    if error == "" then DefaultError else error
  }

  /** What the end of `handleLogin` shows: the error text set and the route pushed.
      `outcome` is the action's result, or `None` when the call itself threw. */
  datatype Ending = Ending(error: Option<string>, navigateTo: Option<string>)

  function Conclude(outcome: Option<LoginResult>): (e: Ending)
    ensures e.navigateTo.Some? <==> outcome == Some(LoginSuccess)
    ensures e.navigateTo.Some? ==> e.navigateTo.value == DashboardRoute && e.error.None?
    ensures outcome.None? ==> e == Ending(Some(CallFailedError), None)
    ensures outcome.Some? && outcome.value.LoginFailure? ==> e.error == Some(ShownError(outcome.value.error))
  {
    match outcome
    case None => Ending(Some(CallFailedError), None)
    case Some(LoginSuccess) => Ending(None, Some(DashboardRoute))
    case Some(LoginFailure(error)) => Ending(Some(ShownError(error)), None)
  }

  /** Since every failure of the server action carries a message, the page shows that message
      itself and never the fallback; a wrong PIN shows "Ungültige PIN". */
  lemma PageShowsActionError(pin: string, env: LoginEnv)
    ensures var result := Login(pin, env).result;
            result.LoginFailure? ==> Conclude(Some(result)).error == Some(result.error)
    ensures pin != ValidPin ==> Conclude(Some(Login(pin, env).result)) == Ending(Some("Ung\U{FC}ltige PIN"), None)
    ensures Conclude(Some(Login(pin, env).result)).navigateTo.Some? ==> pin == ValidPin
  {
  }

  /** The page component. */
  class Page {
    var pin: string
    var error: Option<string>
    var isLoading: bool
    /** The routes pushed onto the router, oldest first. */
    var navigations: seq<string>

    constructor ()
      ensures pin == "" && error.None? && !isLoading && navigations == []
    {
      pin := "";
      error := None;
      isLoading := false;
      navigations := [];
    }

    predicate CanSubmit()
      reads this
    {
      SubmitEnabled(isLoading, pin)
    }

    method OnPinChange(typed: string)
      modifies this
      ensures pin == PinValue(typed)
      ensures error == old(error) && isLoading == old(isLoading) && navigations == old(navigations)
    {
      pin := PinValue(typed);
    }

    /** The first half of `handleLogin`, up to the awaited call: loading on, error cleared; the
        PIN passed to the server action is returned. */
    method BeginLogin() returns (sent: string)
      modifies this
      ensures isLoading && error.None?
      ensures sent == pin && pin == old(pin) && navigations == old(navigations)
    {
      isLoading := true;
      error := None;
      sent := pin;
    }

    /** The second half, once the call has returned (`Some`) or thrown (`None`); the `finally`
        turns loading off. */
    method FinishLogin(outcome: Option<LoginResult>)
      modifies this
      ensures !isLoading
      ensures var e := Conclude(outcome);
              && (if e.error.Some? then error == e.error else error == old(error))
              && navigations == old(navigations) + (if e.navigateTo.Some? then [e.navigateTo.value] else [])
      ensures pin == old(pin)
    {
      match outcome {
        case None =>
          error := Some(CallFailedError);
        case Some(LoginSuccess) =>
          navigations := navigations + [DashboardRoute];
        case Some(LoginFailure(message)) =>
          error := Some(ShownError(message));
      }
      isLoading := false;
    }

    /** The whole `handleLogin`: the error is cleared first, so at the end it is exactly the
        error the outcome calls for, and loading is off again. */
    method HandleLogin(outcome: Option<LoginResult>) returns (sent: string)
      modifies this
      ensures sent == old(pin) && pin == old(pin)
      ensures !isLoading
      ensures error == Conclude(outcome).error
      ensures var e := Conclude(outcome);
              navigations == old(navigations) + (if e.navigateTo.Some? then [e.navigateTo.value] else [])
    {
      sent := BeginLogin();
      FinishLogin(outcome);
    }
  }
}
