/**
 * src/component/player/PlayerForm.tsx: the edit-player form PlayerTable opens. Its record
 * (name, email, country, password) is also the one Register uses.
 */
module PlayerForm {
  import opened Wrappers
  import opened Js
  import opened Browser
  import opened Session

  datatype Field = Name | Email | Country | Password

  datatype PlayerFormData = PlayerFormData(name: JsValue, email: JsValue, country: JsValue, password: JsValue)

  const DefaultForm: PlayerFormData := PlayerFormData(Str(""), Str(""), Str("np"), Str(""))

  const CountryOptions: seq<string> := ["np", "in", "us", "au"]

  const UpdatedMessage: string := "Player updated successfully"
  /** `alert("Error fetching data:", error.message)` shows its first argument only. */
  const UpdateFailedMessage: string := "Error fetching data:"

  /** The effect on `[user]`: each field from the user, or its default when that is falsy. */
  function Prefill(form: PlayerFormData, user: JsValue): (f: PlayerFormData)
    ensures !Truthy(user) ==> f == form
    ensures Truthy(user) ==>
      f.name == Or(Own(user, "name"), DefaultForm.name) && f.email == Or(Own(user, "email"), DefaultForm.email)
      && f.country == Or(Own(user, "country"), DefaultForm.country)
      && f.password == Or(Own(user, "password"), DefaultForm.password)
  {
    if Truthy(user) then
      TruthyIsNotNullish(user);
      PlayerFormData(Or(Member(user, "name").value, Str("")),
                     Or(Member(user, "email").value, Str("")),
                     Or(Member(user, "country").value, Str("np")),
                     Or(Member(user, "password").value, Str("")))
    else form
  }

  /** A user record with none of the four fields prefills exactly the defaults. */
  lemma PrefillFallsBackToDefaults(form: PlayerFormData, user: map<string, JsValue>)
    requires "name" !in user && "email" !in user && "country" !in user && "password" !in user
    ensures Prefill(form, Obj(user)) == DefaultForm
  {
  }

  /** Each prefilled field is either the user's truthy value or the default: never falsy but "". */
  lemma PrefilledCountryIsTruthy(form: PlayerFormData, user: JsValue)
    requires Truthy(user)
    ensures Truthy(Prefill(form, user).country)
  {
  }

  /** `{ ...prevState, [name]: value }` */
  function With(form: PlayerFormData, field: Field, value: string): (f: PlayerFormData)
    ensures field == Name ==> f == form.(name := Str(value))
    ensures field == Email ==> f == form.(email := Str(value))
    ensures field == Country ==> f == form.(country := Str(value))
    ensures field == Password ==> f == form.(password := Str(value))
  {
    match field
    case Name => form.(name := Str(value))
    case Email => form.(email := Str(value))
    case Country => form.(country := Str(value))
    case Password => form.(password := Str(value))
  }

  lemma WithChangesOneField(form: PlayerFormData, field: Field, value: string)
    ensures var f := With(form, field, value);
      (field != Name ==> f.name == form.name) && (field != Email ==> f.email == form.email)
      && (field != Country ==> f.country == form.country) && (field != Password ==> f.password == form.password)
  {
  }

  /** The text a controlled input shows for a state value: nothing for `null` or `undefined`. */
  function ControlValue(v: JsValue): (r: string)
    ensures Nullish(v) ==> r == ""
    ensures v.Str? ==> r == v.s
  {
    if Nullish(v) then "" else Text(v)
  }

  /**
   * The browser's constraint validation: the form submits only when no `required` text
   * input is empty. The country select always has a non-empty option selected.
   */
  predicate Submittable(form: PlayerFormData): (b: bool)
    ensures b ==> !Nullish(form.name) && !Nullish(form.email) && !Nullish(form.password)
    ensures form.name == Str("") || form.email == Str("") || form.password == Str("") ==> !b
    ensures form.name.Str? && form.email.Str? && form.password.Str? ==>
      (b <==> form.name.s != "" && form.email.s != "" && form.password.s != "")
  {
    ControlValue(form.name) != "" && ControlValue(form.email) != "" && ControlValue(form.password) != ""
  }

  /** Editing a record that holds no password cannot be submitted until one is typed. */
  lemma PasswordlessRecordBlocksSubmit(form: PlayerFormData, user: map<string, JsValue>)
    requires "password" !in user
    ensures !Submittable(Prefill(form, Obj(user)))
    ensures Submittable(With(Prefill(form, Obj(user)), Password, "x"))
        <==> ControlValue(Prefill(form, Obj(user)).name) != "" && ControlValue(Prefill(form, Obj(user)).email) != ""
  {
  }

  function Body(form: PlayerFormData): JsValue {
    Obj(map["name" := form.name, "email" := form.email, "country" := form.country, "password" := form.password])
  }

  /** `PUT /user/player/update/${user?.id}` with the form. */
  function UpdateRequest(user: JsValue, form: PlayerFormData): (r: Request)
    ensures r.verb == PUT && r.params == [] && r.body == Body(form)
    ensures r.path == "/user/player/update/" + Text(OptionalMember(user, "id"))
    ensures Nullish(user) ==> r.path == "/user/player/update/undefined"
  {
    Request(PUT, "/user/player/update/" + Text(OptionalMember(user, "id")), [], Body(form))
  }

  class PlayerEditor {
    var form: PlayerFormData
    const user: JsValue
    const browser: Browser

    constructor (user: JsValue, browser: Browser)
      ensures form == DefaultForm && this.user == user && this.browser == browser
    {
      form := DefaultForm;
      this.user := user;
      this.browser := browser;
    }

    method UserChanged()
      modifies this`form
      ensures form == Prefill(old(form), user)
    {
      form := Prefill(form, user);
    }

    method HandleInputChange(field: Field, value: string)
      modifies this`form
      ensures form == With(old(form), field, value)
    {
      form := With(form, field, value);
    }

    /**
     * The Sign Up button: nothing unless the form passes validation, then `handleSubmit`,
     * which alerts and calls `close()` on success and only alerts on failure.
     */
    method Submit(reply: Result<JsValue, AxiosError>)
      modifies browser`effects
      ensures !Submittable(form) ==> browser.effects == old(browser.effects)
      ensures Submittable(form) && reply.Success? ==>
        browser.effects == old(browser.effects) + [Send(UpdateRequest(user, form)), Alert(UpdatedMessage), Close]
      ensures Submittable(form) && reply.Failure? ==>
        browser.effects == old(browser.effects) + [Send(UpdateRequest(user, form)), Alert(UpdateFailedMessage)]
    {
      if !Submittable(form) {
        return;
      }
      browser.effects := browser.effects + [Send(UpdateRequest(user, form))];
      var response := Intercept(reply);
      if response.Success? {
        browser.effects := browser.effects + [Alert(UpdatedMessage), Close];
      } else {
        browser.effects := browser.effects + [Alert(UpdateFailedMessage)];
      }
    }
  }
}
