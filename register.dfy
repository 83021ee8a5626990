/**
 * src/Pages/Register.tsx: player sign-up. The form record is PlayerForm's; the country
 * select adds Afghanistan.
 */
module Register {
  import opened Wrappers
  import opened Js
  import opened Browser
  import opened Session
  import PlayerForm

  const CountryOptions: seq<string> := ["np", "in", "us", "au", "af"]
  const RegisteredMessage: string := "Player registered successfully"
  const FallbackMessage: string := "Error registering player"

  /** `POST /player` with the four form fields as the body. */
  function RegisterRequest(form: PlayerForm.PlayerFormData): (r: Request)
    ensures r.verb == POST && r.path == "/player" && r.params == []
    ensures Own(r.body, "name") == form.name && Own(r.body, "email") == form.email
    ensures Own(r.body, "country") == form.country && Own(r.body, "password") == form.password
  {
    Request(POST, "/player", [], PlayerForm.Body(form))
  }

  /** `error.response?.data?.message || "Error registering player"` */
  function FailureMessage(reason: JsValue): (m: string)
    ensures var message := OptionalMember(OptionalMember(OptionalMember(reason, "response"), "data"), "message");
      m == if Truthy(message) then Text(message) else FallbackMessage
  {
    Text(Or(OptionalMember(OptionalMember(OptionalMember(reason, "response"), "data"), "message"), Str(FallbackMessage)))
  }

  /**
   * The interceptor rejects with the response data (or a string), not with the axios
   * error, so `error.response` is only found when the data itself has a `response`
   * field: otherwise the fallback message is shown.
   */
  lemma FallbackUnlessDataHasResponse(error: AxiosError)
    requires error.response.None? || !error.response.value.data.Obj? || "response" !in error.response.value.data.fields
    ensures FailureMessage(RejectionValue(error)) == FallbackMessage
  {
  }

  /** The blank sign-up form cannot be submitted. */
  lemma BlankFormIsNotSubmittable()
    ensures !PlayerForm.Submittable(PlayerForm.DefaultForm)
  {
  }

  /** Register offers every country of the edit form, and Afghanistan besides. */
  lemma CountriesExtendEditForm()
    ensures CountryOptions == PlayerForm.CountryOptions + ["af"]
  {
  }

  class RegisterPage {
    var form: PlayerForm.PlayerFormData
    const browser: Browser

    constructor (browser: Browser)
      ensures form == PlayerForm.DefaultForm && this.browser == browser
    {
      form := PlayerForm.DefaultForm;
      this.browser := browser;
    }

    method HandleInputChange(field: PlayerForm.Field, value: string)
      modifies this`form
      ensures form == PlayerForm.With(old(form), field, value)
    {
      form := PlayerForm.With(form, field, value);
    }

    /**
     * The Register button: nothing unless every required input is filled, then `handleSubmit`:
     * an alert and a full-page move to `/` on success, an alert on failure.
     */
    method Submit(reply: Result<JsValue, AxiosError>)
      modifies browser`effects
      ensures !PlayerForm.Submittable(form) ==> browser.effects == old(browser.effects)
      ensures PlayerForm.Submittable(form) && reply.Success? ==>
        browser.effects == old(browser.effects) + [Send(RegisterRequest(form)), Alert(RegisteredMessage), SetHref("/")]
      ensures PlayerForm.Submittable(form) && reply.Failure? ==>
        browser.effects == old(browser.effects)
                           + [Send(RegisterRequest(form)), Alert(FailureMessage(RejectionValue(reply.error)))]
    {
      if !PlayerForm.Submittable(form) {
        return;
      }
      browser.effects := browser.effects + [Send(RegisterRequest(form))];
      var response := Intercept(reply);
      if response.Success? {
        browser.effects := browser.effects + [Alert(RegisteredMessage), SetHref("/")];
      } else {
        browser.effects := browser.effects + [Alert(FailureMessage(response.error))];
      }
    }
  }
}
