/** The state of the expense form and its transitions
    (components/ExpensesOutput/ManageExpense/ExpenseForm.js). */
module ExpenseForm {

  import opened Options
  import opened ExpensesContext

  /** The `value` of an input: the entered text, or `undefined`. */
  datatype Value = Text(text: string) | Undefined

  /** One entry of `inputs`: `{ value, isValid }`. */
  datatype Input = Input(value: Value, isValid: bool)

  /** The form's `inputs` state. */
  datatype FormState = FormState(amount: Input, date: Input, description: Input)

  /** The identifiers that `inputChangeHandler` is bound to. */
  datatype InputId = AmountId | DateId | DescriptionId

  /** What the form hands to `confirmHandler`: `{ amount, date, description }`. */
  datatype Draft = Draft(amount: real, date: Date, description: string)

  /** The outcome of one call of `submitHandler`. */
  datatype SubmitOutcome =
    | Confirmed(draft: Draft)       // confirmHandler(expenseData) was called
    | Rejected(next: FormState)     // setInputs(...) with the validity flags, then return
    | TypeError                     // `undefined.trim()` threw before any decision

  function Get(st: FormState, f: InputId): Input {
    match f
    case AmountId => st.amount
    case DateId => st.date
    case DescriptionId => st.description
  }

  // ---------------------------------------------------------------------------
  // JavaScript's String.prototype.trim

  /** The characters `trim` removes: WhiteSpace (TAB, VT, FF, ZWNBSP and every
      space separator) and LineTerminator (LF, CR, LS, PS). */
  predicate IsJsWhitespace(c: char) {
    c == '\U{0009}' || c == '\U{000B}' || c == '\U{000C}' || c == '\U{0020}' ||
    c == '\U{00A0}' || c == '\U{FEFF}' || c == '\U{1680}' ||
    ('\U{2000}' <= c <= '\U{200A}') || c == '\U{202F}' || c == '\U{205F}' || c == '\U{3000}' ||
    c == '\U{000A}' || c == '\U{000D}' || c == '\U{2028}' || c == '\U{2029}'
  }

  function TrimStart(s: string): (r: string)
    ensures |r| <= |s| && r == s[|s| - |r|..]
    ensures r == [] || !IsJsWhitespace(r[0])
    ensures forall k :: 0 <= k < |s| - |r| ==> IsJsWhitespace(s[k])
  {
    if s != [] && IsJsWhitespace(s[0]) then
      var r := TrimStart(s[1..]);
      assert forall k :: 1 <= k < |s| ==> s[1..][k - 1] == s[k];
      r
    else s
  }

  function TrimEnd(s: string): (r: string)
    ensures |r| <= |s| && r == s[..|r|]
    ensures r == [] || !IsJsWhitespace(r[|r| - 1])
    ensures forall k :: |r| <= k < |s| ==> IsJsWhitespace(s[k])
  {
    if s != [] && IsJsWhitespace(s[|s| - 1]) then TrimEnd(s[..|s| - 1]) else s
  }

  /** `s.trim()`: `s` without its leading and trailing whitespace (what each end
      keeps is stated by TrimStart and TrimEnd). */
  function Trim(s: string): (r: string)
    ensures |r| <= |s|
    ensures r == [] || (!IsJsWhitespace(r[0]) && !IsJsWhitespace(r[|r| - 1]))
    ensures r == [] <==> forall k :: 0 <= k < |s| ==> IsJsWhitespace(s[k])
  {
    TrimEnd(TrimStart(s))
  }

  // ---------------------------------------------------------------------------
  // The three validity predicates of submitHandler

  /** `+value`: `parseNumber` is the numeric conversion of a text, `None` for NaN;
      `+undefined` is NaN. */
  function NumberOf(v: Value, parseNumber: string -> Option<real>): (n: Option<real>)
    ensures v == Undefined ==> n == None
    ensures v.Text? ==> n == parseNumber(v.text)
  {
    match v
    case Text(s) => parseNumber(s)
    case Undefined => None
  }

  /** `new Date(value)`: `parseDate` is the date conversion of a text, `None` for
      "Invalid Date"; `new Date(undefined)` is an invalid date. */
  function DateOf(v: Value, parseDate: string -> Option<Date>): (d: Option<Date>)
    ensures v == Undefined ==> d == None
    ensures v.Text? ==> d == parseDate(v.text)
  {
    match v
    case Text(s) => parseDate(s)
    case Undefined => None
  }

  /** `!isNaN(+value) && +value > 0`: the text converts to a number greater than zero. */
  predicate AmountIsValid(v: Value, parseNumber: string -> Option<real>): (valid: bool)
    ensures valid <==> v.Text? && parseNumber(v.text).Some? && parseNumber(v.text).value > 0.0
  {
    var amount := NumberOf(v, parseNumber);
    amount.Some? && amount.value > 0.0
  }

  /** `new Date(value).toString() !== 'Invalid Date'`: the text converts to a date. */
  predicate DateIsValid(v: Value, parseDate: string -> Option<Date>): (valid: bool)
    ensures valid <==> v.Text? && parseDate(v.text).Some?
  {
    DateOf(v, parseDate).Some?
  }

  /** `description.trim().length > 0`: some character is not whitespace. */
  predicate DescriptionIsValid(description: string): (valid: bool)
    ensures valid <==> exists k :: 0 <= k < |description| && !IsJsWhitespace(description[k])
  {
    |Trim(description)| > 0
  }

  // ---------------------------------------------------------------------------
  // Transitions

  /** The initial `inputs`: every flag true; empty texts without defaults, the
      default record's texts with them. `amountText` is `Number.prototype.toString`
      and `isoText` is `Date.prototype.toISOString`. */
  function Initial(defaults: Option<Expense>, amountText: real -> string, isoText: Date -> string)
    : (st: FormState)
    ensures st.amount.isValid && st.date.isValid && st.description.isValid
    ensures defaults == None ==>
      st.amount.value == Text("") && st.date.value == Text("") && st.description.value == Text("")
    ensures defaults.Some? ==> st.description.value == Text(defaults.value.description)
    ensures defaults.Some? ==> st.amount.value == Text(amountText(defaults.value.amount))
    ensures defaults.Some? ==>
      var iso := isoText(defaults.value.date);
      st.date.value.Text? && st.date.value.text <= iso &&
      |st.date.value.text| == (if |iso| < 10 then |iso| else 10)
  {
    match defaults
    case None => FormState(Input(Text(""), true), Input(Text(""), true), Input(Text(""), true))
    case Some(d) =>
      var iso := isoText(d.date);
      FormState(
        Input(Text(amountText(d.amount)), true),
        Input(Text(if |iso| <= 10 then iso else iso[..10]), true),   // .slice(0, 10)
        Input(Text(d.description), true))
  }

  /** `inputChangeHandler(f, enteredValue)`. */
  function ChangeInput(st: FormState, f: InputId, enteredValue: string): (r: FormState)
    ensures Get(r, f) == Input(Text(enteredValue), true)
    ensures forall g :: g != f ==> Get(r, g) == Get(st, g)
  {
    var entry := Input(Text(enteredValue), true);
    match f
    case AmountId => st.(amount := entry)
    case DateId => st.(date := entry)
    case DescriptionId => st.(description := entry)
  }

  /** `submitHandler`: convert the three texts, check them, and either confirm or
      store the flags. The rejecting update reads the date and description texts
      from `curInputs.amount.date` and `curInputs.amount.description`, properties
      that the amount entry does not have, so both become `undefined`. */
  function Submit(st: FormState, parseNumber: string -> Option<real>, parseDate: string -> Option<Date>)
    : (out: SubmitOutcome)
    ensures out == TypeError <==> st.description.value == Undefined
    ensures out.Confirmed? ==>
      out.draft.amount > 0.0 &&
      exists k :: 0 <= k < |out.draft.description| && !IsJsWhitespace(out.draft.description[k])
  {
    var amount := NumberOf(st.amount.value, parseNumber);
    var date := DateOf(st.date.value, parseDate);
    match st.description.value
    case Undefined => TypeError
    case Text(description) =>
      var amountIsValid := AmountIsValid(st.amount.value, parseNumber);
      var dateIsValid := DateIsValid(st.date.value, parseDate);
      var descriptionIsValid := DescriptionIsValid(description);
      if !amountIsValid || !dateIsValid || !descriptionIsValid then
        Rejected(FormState(
          Input(st.amount.value, amountIsValid),
          Input(Undefined, dateIsValid),
          Input(Undefined, descriptionIsValid)))
      else
        Confirmed(Draft(amount.value, date.value, description))
  }

  /** `formIsInvalid`, which shows the aggregate error message: some entry's flag is false. */
  predicate FormIsInvalid(st: FormState): (invalid: bool)
    ensures invalid <==> exists f :: !Get(st, f).isValid
  {
    assert Get(st, AmountId) == st.amount && Get(st, DateId) == st.date;
    assert Get(st, DescriptionId) == st.description;
    !st.amount.isValid || !st.date.isValid || !st.description.isValid
  }

  // ---------------------------------------------------------------------------
  // Properties

  /** A submit with a text description confirms exactly when all three checks
      hold, and then hands over the converted amount and date and the raw text. */
  lemma SubmitConfirmsIffAllValid(st: FormState, parseNumber: string -> Option<real>,
                                  parseDate: string -> Option<Date>)
    requires st.description.value.Text?
    ensures var out := Submit(st, parseNumber, parseDate);
      out.Confirmed? <==>
        AmountIsValid(st.amount.value, parseNumber) && DateIsValid(st.date.value, parseDate) &&
        DescriptionIsValid(st.description.value.text)
    ensures var out := Submit(st, parseNumber, parseDate);
      out.Confirmed? ==>
        Some(out.draft.amount) == NumberOf(st.amount.value, parseNumber) &&
        Some(out.draft.date) == DateOf(st.date.value, parseDate) &&
        out.draft.description == st.description.value.text
  {
  }

  /** A rejected submit sets each flag to its own check, keeps the amount text and
      loses the date and description texts. */
  lemma RejectedSubmitState(st: FormState, parseNumber: string -> Option<real>,
                            parseDate: string -> Option<Date>)
    requires Submit(st, parseNumber, parseDate).Rejected?
    ensures var next := Submit(st, parseNumber, parseDate).next;
      st.description.value.Text? &&
      next.amount.isValid == AmountIsValid(st.amount.value, parseNumber) &&
      next.date.isValid == DateIsValid(st.date.value, parseDate) &&
      next.description.isValid == DescriptionIsValid(st.description.value.text) &&
      next.amount.value == st.amount.value &&
      next.date.value == Undefined && next.description.value == Undefined &&
      FormIsInvalid(next)
  {
  }

  /** A submit never confirms while the date text is `undefined`, and it throws
      while the description text is `undefined`. */
  lemma UndefinedTextsBlockConfirm(st: FormState, parseNumber: string -> Option<real>,
                                   parseDate: string -> Option<Date>)
    ensures st.description.value == Undefined <==> Submit(st, parseNumber, parseDate) == TypeError
    ensures st.date.value == Undefined ==> !Submit(st, parseNumber, parseDate).Confirmed?
  {
  }

  /** Submitting again right after a rejected submit throws: the description text
      is then `undefined`. */
  lemma ResubmitAfterRejectThrows(st: FormState, parseNumber: string -> Option<real>,
                                  parseDate: string -> Option<Date>)
    requires Submit(st, parseNumber, parseDate).Rejected?
    ensures Submit(Submit(st, parseNumber, parseDate).next, parseNumber, parseDate) == TypeError
  {
  }

  /** After a rejected submit, retyping the date and the description is needed
      (and, with valid entries, enough) before the form can confirm. */
  lemma RetypingRestoresSubmit(st: FormState, parseNumber: string -> Option<real>,
                               parseDate: string -> Option<Date>, dateText: string, descriptionText: string)
    requires Submit(st, parseNumber, parseDate).Rejected?
    requires AmountIsValid(st.amount.value, parseNumber)
    requires parseDate(dateText).Some? && DescriptionIsValid(descriptionText)
    ensures var next := Submit(st, parseNumber, parseDate).next;
      var retyped := ChangeInput(ChangeInput(next, DateId, dateText), DescriptionId, descriptionText);
      Submit(retyped, parseNumber, parseDate) ==
        Confirmed(Draft(NumberOf(st.amount.value, parseNumber).value, parseDate(dateText).value, descriptionText))
  {
  }

  /** A bad entry: "-5", "not-a-date" and "  " are all rejected, and the date and
      description texts do not survive. */
  lemma RejectsNegativeAmountBadDateBlankDescription(parseNumber: string -> Option<real>,
                                                     parseDate: string -> Option<Date>)
    requires parseNumber("-5") == Some(-5.0) && parseDate("not-a-date") == None
    ensures var st := FormState(Input(Text("-5"), true), Input(Text("not-a-date"), true), Input(Text("  "), true));
      Submit(st, parseNumber, parseDate) ==
        Rejected(FormState(Input(Text("-5"), false), Input(Undefined, false), Input(Undefined, false)))
  {
  }
}
