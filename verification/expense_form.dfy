/**
 * The add-expense form: its initial state, the submit handler's guard, the request
 * it sends, the reset after success, and the category options it offers.
 *
 * `parseFloat` and today's date are parameters, and the awaited `onSubmit` is given
 * as its outcome.
 */
module ExpenseForm {

  import opened Base
  import opened Schemas
  import Currency

  /** `formData`: every field is the text of an input. */
  datatype FormData = FormData(amount: string, description: string, category: string, date: string, currency: string)

  /** The form's state: its fields and the `loading` flag. */
  datatype Form = Form(data: FormData, loading: bool)

  /** The codes of `CURRENCIES`, in their order in the selector. */
  const CurrencyCodes: seq<string> := ["USD", "EUR", "INR", "GBP", "JPY", "AUD", "CAD"]

  /** Every currency the form offers has a rate, so the worker converts each of them. */
  lemma CurrencyCodesHaveRates()
    ensures forall i :: 0 <= i < |CurrencyCodes| ==> CurrencyCodes[i] in Currency.ExchangeRates
    ensures forall c :: c in Currency.ExchangeRates ==> c in CurrencyCodes
  {
  }

  /** The first render: empty text fields, today's date and rupees. */
  function InitialForm(today: string): (r: Form)
    ensures r.data.currency == "INR"
    ensures r.data.amount == "" && r.data.description == "" && r.data.category == ""
    ensures r.data.date == today && !r.loading
  {
    Form(FormData("", "", "", today, "INR"), false)
  }

  /** `!formData.amount || !formData.description || !formData.category` */
  predicate Incomplete(data: FormData)
  {
    data.amount == "" || data.description == "" || data.category == ""
  }

  /** The body handed to `onSubmit`. */
  function Payload(data: FormData, parse: string -> real): CreateExpense
  {
    CreateExpense(parse(data.amount), data.description, data.category, data.date, Some(data.currency))
  }

  /** What one submit does: the new state, the body sent if any, and whether `onCancel` ran. */
  datatype Submitted = Submitted(form: Form, sent: Option<CreateExpense>, cancelled: bool)

  /**
   * `handleSubmit`: an incomplete form sends nothing and changes nothing. Otherwise
   * the body is sent; on success the text fields are cleared, the date becomes today,
   * the currency is kept and `onCancel` runs; on failure the fields are left as they
   * were. Either way `loading` ends false.
   */
  function Submit(form: Form, today: string, parse: string -> real, outcome: Result<(), string>): (r: Submitted)
    ensures Incomplete(form.data) ==> r == Submitted(form, None, false)
    ensures !Incomplete(form.data) ==>
      && r.sent == Some(Payload(form.data, parse))
      && !r.form.loading
      && (r.cancelled <==> outcome.Success?)
      && (outcome.Success? ==>
            r.form.data == FormData("", "", "", today, form.data.currency))
      && (outcome.Failure? ==> r.form.data == form.data)
  {
    if Incomplete(form.data) then Submitted(form, None, false)
    else
      var sent := Payload(form.data, parse);
      match outcome
      case Success(_) => Submitted(Form(FormData("", "", "", today, form.data.currency), false), Some(sent), true)
      case Failure(_) => Submitted(Form(form.data, false), Some(sent), false)
  }

  /**
   * A body that passes the guard has a description, a category and a currency, so the
   * worker accepts it exactly when the parsed amount is positive and the date is set.
   */
  lemma SubmitPayloadAccepted(form: Form, today: string, parse: string -> real, outcome: Result<(), string>)
    requires !Incomplete(form.data)
    ensures var r := Submit(form, today, parse, outcome);
      r.sent.Some? &&
      (ValidateCreateExpense(r.sent.value).Success? <==> parse(form.data.amount) > 0.0 && form.data.date != "")
  {
  }

  /** The untouched form fails the guard: submitting it sends nothing and leaves it as it is. */
  lemma InitialFormSendsNothing(today: string, now: string, parse: string -> real, outcome: Result<(), string>)
    ensures Submit(InitialForm(today), now, parse, outcome) == Submitted(InitialForm(today), None, false)
  {
  }

  /** After a successful submit the form is incomplete, so submitting again sends nothing. */
  lemma SubmitTwiceSendsOnce(form: Form, today: string, parse: string -> real,
                             first: Result<(), string>, second: Result<(), string>)
    requires !Incomplete(form.data) && first.Success?
    ensures var once := Submit(form, today, parse, first);
      && once.sent.Some?
      && Submit(once.form, today, parse, second).sent.None?
  {
  }

  /** `(categories.length > 0 ? categories : DEFAULT_CATEGORIES).map(c => c.name)` */
  function CategoryOptions(categories: seq<Category>): (r: seq<string>)
    ensures |categories| > 0 ==> |r| == |categories| && forall i :: 0 <= i < |r| ==> r[i] == categories[i].name
    ensures |categories| == 0 ==> r == DefaultNames()
  {
    if |categories| > 0 then seq(|categories|, i requires 0 <= i < |categories| => categories[i].name)
    else DefaultNames()
  }

  /** A name is offered exactly when it is one of the user's categories, or a default when the user has none. */
  lemma CategoryOptionsMembers(categories: seq<Category>, name: string)
    ensures name in CategoryOptions(categories) <==>
      || (|categories| > 0 && exists i :: 0 <= i < |categories| && categories[i].name == name)
      || (|categories| == 0 && exists i :: 0 <= i < |DefaultCategories| && DefaultCategories[i].name == name)
  {
  }

  /**
   * The values of the `<select>`: first the "Select a category" option, whose value is
   * empty, then the category names.
   */
  function SelectOptions(categories: seq<Category>): (r: seq<string>)
    ensures |r| == |CategoryOptions(categories)| + 1
    ensures r[0] == "" && r[1..] == CategoryOptions(categories)
  {
    [""] + CategoryOptions(categories)
  }

  /**
   * The selector always offers a category after the placeholder, and nine when the user
   * has none; each of those nine passes the guard's category check.
   */
  lemma CategoryOptionsNonEmpty(categories: seq<Category>)
    ensures |CategoryOptions(categories)| >= 1
    ensures |SelectOptions(categories)| >= 2
    ensures |categories| == 0 ==> |CategoryOptions(categories)| == 9
    ensures |categories| == 0 ==> forall i :: 1 <= i < |SelectOptions(categories)| ==> SelectOptions(categories)[i] != ""
  {
  }

  /** Leaving the selector on its placeholder keeps the category empty, so submitting sends nothing. */
  lemma PlaceholderSendsNothing(form: Form, categories: seq<Category>, today: string,
                                parse: string -> real, outcome: Result<(), string>)
    requires form.data.category == SelectOptions(categories)[0]
    ensures Submit(form, today, parse, outcome) == Submitted(form, None, false)
  {
  }
}
