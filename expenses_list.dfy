/** The state and handlers of the `ExpensesList` component (web-ui/src/components/ExpensesList.js).
    Each handler is one atomic step; the responses of the HTTP calls it makes are parameters. */
module ExpensesListView {
  import opened Wrappers
  import opened Text
  import opened Records
  import opened Codec
  import opened LineParse
  import opened ImportRules
  import opened Aggregate

  /** The snackbar state; `severity` is one of MUI's "success", "info", "warning", "error". */
  datatype Notification = Notification(open: bool, message: string, severity: string)

  /** The add-expense form; every field holds the text of its input. */
  datatype ExpenseForm = ExpenseForm(
    date: string, description: string, amount: string, currency: string, category: string, period: string)

  datatype FormField = DateField | DescriptionField | AmountField | CurrencyField | CategoryField | PeriodField

  /** The body of `POST /expenses`; `amount` is `None` where `parseFloat` gives `NaN`, which
      JSON sends as null. */
  datatype ExpenseRequest = ExpenseRequest(
    date: Date, description: string, amount: Option<real>, currency: string, category: string, period: string)

  /** The body of `POST /import`. */
  datatype ImportPayload = ImportPayload(periodIdentifier: string, rawText: string)

  /** `event.target.value` of the category select: a list, or a comma-separated string when
      the browser autofills it. */
  datatype SelectValue = AsString(text: string) | AsList(items: seq<string>)

  /** Any of the five required fields is empty. */
  predicate Incomplete(f: ExpenseForm) {
    f.date == "" || f.description == "" || f.amount == "" || f.category == "" || f.period == ""
  }

  /** `new Date(value)` for the `yyyy-mm-dd` text of a date input; `None` where the date is
      invalid and `toISOString` raises. */
  function ParseFormDate(s: string): (r: Option<Date>)
    ensures r.Some? ==> ValidDate(r.value)
  {
    var f := SplitOn(s, '-');
    if |f| == 3 && |f[0]| == 4 && AllDigits(f[0]) && |f[1]| == 2 && AllDigits(f[1])
       && |f[2]| == 2 && AllDigits(f[2])
    then
      var d := Date(DigitsValue(f[2]), DigitsValue(f[1]), DigitsValue(f[0]));
      if ValidDate(d) then Some(d) else None
    else None
  }

  /** The `yyyy-mm-dd` text a date input holds for `d`. */
  function FormDate(d: Date): string
    requires ValidDate(d)
  {
    Padded(d.year, 4) + "-" + Padded(d.month, 2) + "-" + Padded(d.day, 2)
  }

  /** Every day a date input can hold is read back as that day. */
  lemma ParseFormDateOfFormat(d: Date)
    requires ValidDate(d)
    ensures ParseFormDate(FormDate(d)) == Some(d)
  {
    var p0, p1, p2 := Padded(d.year, 4), Padded(d.month, 2), Padded(d.day, 2);
    assert '-' !in p0 && '-' !in p1 && '-' !in p2;
    assert FormDate(d) == p0 + ['-'] + p1 + ['-'] + p2;
    SplitOnThree(p0, p1, p2, '-');
  }

  /** The request body the handler builds from a complete form, or `None` where building it
      raises. */
  function RequestOf(f: ExpenseForm): Option<ExpenseRequest> {
    match ParseFormDate(f.date)
    case None => None
    case Some(d) => Some(ExpenseRequest(d, f.description, ParseDecimal(f.amount), f.currency, f.category, f.period))
  }

  /** The sort the handlers apply to a fetched list, done on a copy as an array. */
  method SortResponse(data: seq<Expense>) returns (sorted: seq<Expense>)
    ensures sorted == SortByDate(data)
  {
    var a := new Expense[|data|](i requires 0 <= i < |data| => data[i]);
    assert a[..] == data;
    SortByDateInPlace(a);
    sorted := a[..];
  }

  /** Whatever the import handler sends, the server decodes to the text in the dialog and
      imports line by line; it never answers 400. */
  lemma ImportPayloadAccepted(stored: seq<Expense>, text: string, period: string)
    requires !IsBlank(text) && period != ""
    ensures ImportRequest(stored, Some(period), Some(EncodeImportText(text)))
         == Success(ImportBatch(stored, Lines(text), period))
  {
    assert text != "";
    ClientPayloadAccepted(stored, period, text);
  }

  /** The categories the add dialog offers for the list the categories fetch receives: "N/A"
      is not offered, and a server list without "N/A" is offered as it came. */
  lemma AddChoicesOfServerList(server: seq<string>)
    ensures forall c :: c in Without(["N/A"] + server, "N/A") <==> c in server && c != "N/A"
    ensures "N/A" !in server ==> Without(["N/A"] + server, "N/A") == server
  {
    if "N/A" !in server {
      WithoutAbsentAfter(server);
    }
  }

  lemma {:induction false} WithoutAbsentAfter(server: seq<string>)
    requires "N/A" !in server
    ensures Without(["N/A"] + server, "N/A") == server
    decreases |server|
  {
    if server != [] {
      var s := ["N/A"] + server;
      assert s[..|s| - 1] == ["N/A"] + server[..|server| - 1];
      WithoutAbsentAfter(server[..|server| - 1]);
      assert server[..|server| - 1] + [server[|server| - 1]] == server;
    }
  }

  class ExpensesList {
    var expenses: seq<Expense>
    var filteredExpenses: seq<Expense>
    var loading: bool
    var selectedCategories: seq<string>
    var availableCategories: seq<string>
    var openDialog: bool
    var newExpense: ExpenseForm
    var dialogLoading: bool
    var openImportDialog: bool
    var importText: string
    var importLoading: bool
    var notification: Notification

    /** The initial state; `today` is `new Date().toISOString().slice(0, 10)`. */
    constructor (today: string)
      ensures expenses == [] && filteredExpenses == [] && loading
      ensures selectedCategories == [] && availableCategories == []
      ensures !openDialog && newExpense == ExpenseForm(today, "", "", "CRC", "", "") && !dialogLoading
      ensures !openImportDialog && importText == "" && !importLoading
      ensures notification == Notification(false, "", "success")
    {
      expenses := [];
      filteredExpenses := [];
      loading := true;
      selectedCategories := [];
      availableCategories := [];
      openDialog := false;
      newExpense := ExpenseForm(today, "", "", "CRC", "", "");
      dialogLoading := false;
      openImportDialog := false;
      importText := "";
      importLoading := false;
      notification := Notification(false, "", "success");
    }

    /** `showNotification(message, severity = 'success')`. */
    method ShowNotification(message: string, severity: Option<string>)
      modifies this`notification
      ensures notification == Notification(true, message, severity.GetOr("success"))
    {
      notification := Notification(true, message, severity.GetOr("success"));
    }

    /** `hideNotification`: closes the snackbar, keeping its message and severity. */
    method HideNotification()
      modifies this`notification
      ensures notification == old(notification).(open := false)
      ensures notification.message == old(notification).message
      ensures notification.severity == old(notification).severity
    {
      notification := notification.(open := false);
    }

    /** The categories fetch: "N/A" first, then the server's list; a failed fetch changes
        nothing. */
    method ReceiveCategories(response: Option<seq<string>>)
      modifies this`availableCategories
      ensures response.Some? ==> availableCategories == ["N/A"] + response.value
      ensures response.None? ==> availableCategories == old(availableCategories)
    {
      if response.Some? {
        availableCategories := ["N/A"] + response.value;
      }
    }

    /** The categories the add dialog offers. */
    function AddChoices(): (r: seq<string>)
      reads this
      ensures forall c :: c in r <==> c in availableCategories && c != "N/A"
    {
      Without(availableCategories, "N/A")
    }

    /** `handleCategoryChange`. */
    method HandleCategoryChange(value: SelectValue)
      modifies this`selectedCategories
      ensures value.AsString? ==> selectedCategories == SplitOn(value.text, ',')
      ensures value.AsList? ==> selectedCategories == value.items
    {
      match value
      case AsString(s) => selectedCategories := SplitOn(s, ',');
      case AsList(items) => selectedCategories := items;
    }

    /** `clearFilters`. */
    method ClearFilters()
      modifies this`selectedCategories
      ensures selectedCategories == []
    {
      selectedCategories := [];
    }

    /** The expenses fetch on a change of period: nothing without a period; otherwise the
        sorted response becomes both lists, and loading ends either way. */
    method FetchExpenses(selectedPeriod: string, response: Option<seq<Expense>>)
      modifies this`loading, this`expenses, this`filteredExpenses
      ensures selectedPeriod == "" ==>
        loading == old(loading) && expenses == old(expenses) && filteredExpenses == old(filteredExpenses)
      ensures selectedPeriod != "" ==> !loading
      ensures selectedPeriod != "" && response.Some? ==>
        expenses == SortByDate(response.value) && filteredExpenses == expenses
      ensures response.None? ==> expenses == old(expenses) && filteredExpenses == old(filteredExpenses)
    {
      if selectedPeriod == "" {
        return;
      }
      loading := true;
      if response.Some? {
        var sorted := SortResponse(response.value);
        expenses := sorted;
        filteredExpenses := sorted;
      }
      loading := false;
    }

    /** The effect that refetches when the `refreshTrigger` prop changes. It does nothing
        without a period or while the prop is strictly equal to 0. */
    method RefreshExpenses(selectedPeriod: string, refreshTrigger: int, response: Option<seq<Expense>>)
      modifies this`expenses, this`filteredExpenses
      ensures selectedPeriod != "" && refreshTrigger != 0 && response.Some? ==>
        expenses == SortByDate(response.value) && filteredExpenses == expenses
      ensures selectedPeriod == "" || refreshTrigger == 0 || response.None? ==>
        expenses == old(expenses) && filteredExpenses == old(filteredExpenses)
    {
      if selectedPeriod == "" || refreshTrigger == 0 {
        return;
      }
      if response.Some? {
        var sorted := SortResponse(response.value);
        expenses := sorted;
        filteredExpenses := sorted;
      }
    }

    /** The filter effect. With categories selected, the filtered copy is sorted; with none,
        `filtered` is the `expenses` array itself, so the in-place sort reorders `expenses`
        too. */
    method FilterEffect()
      modifies this`expenses, this`filteredExpenses
      ensures |selectedCategories| > 0 ==>
        filteredExpenses == SortByDate(Filter(old(expenses), selectedCategories)) && expenses == old(expenses)
      ensures |selectedCategories| == 0 ==>
        expenses == SortByDate(old(expenses)) && filteredExpenses == expenses
    {
      if |selectedCategories| > 0 {
        var filtered := Filter(expenses, selectedCategories);
        var sorted := SortResponse(filtered);
        filteredExpenses := sorted;
      } else {
        var a := new Expense[|expenses|](i requires 0 <= i < |expenses| reads this => expenses[i]);
        assert a[..] == expenses;
        SortByDateInPlace(a);
        expenses := a[..];
        filteredExpenses := expenses;
      }
    }

    /** `handleExpenseChange(field, value)`. */
    method HandleExpenseChange(field: FormField, value: string)
      modifies this`newExpense
      ensures newExpense == match field
        case DateField => old(newExpense).(date := value)
        case DescriptionField => old(newExpense).(description := value)
        case AmountField => old(newExpense).(amount := value)
        case CurrencyField => old(newExpense).(currency := value)
        case CategoryField => old(newExpense).(category := value)
        case PeriodField => old(newExpense).(period := value)
    {
      match field
      case DateField => newExpense := newExpense.(date := value);
      case DescriptionField => newExpense := newExpense.(description := value);
      case AmountField => newExpense := newExpense.(amount := value);
      case CurrencyField => newExpense := newExpense.(currency := value);
      case CategoryField => newExpense := newExpense.(category := value);
      case PeriodField => newExpense := newExpense.(period := value);
    }

    /** `handleOpenDialog`: a fresh form for today, in the selected period or else in the
        current month (`thisMonth` is `new Date().toISOString().slice(0, 7)`). */
    method OpenDialog(selectedPeriod: string, today: string, thisMonth: string)
      modifies this`openDialog, this`newExpense
      ensures openDialog
      ensures newExpense == ExpenseForm(today, "", "", "CRC", "", if selectedPeriod != "" then selectedPeriod else thisMonth)
    {
      openDialog := true;
      newExpense := ExpenseForm(today, "", "", "CRC", "", if selectedPeriod != "" then selectedPeriod else thisMonth);
    }

    method CloseDialog()
      modifies this`openDialog
      ensures !openDialog
    {
      openDialog := false;
    }

    /** `handleAddExpense`. `postOk` says whether the POST succeeds and `refetch` is the reload
        that follows it (`None` when it fails). The result is the body sent, if any. */
    method HandleAddExpense(postOk: bool, refetch: Option<seq<Expense>>) returns (sent: Option<ExpenseRequest>)
      modifies this`notification, this`dialogLoading, this`expenses, this`filteredExpenses, this`openDialog
      ensures Incomplete(old(newExpense)) ==>
        sent.None? && notification == Notification(true, "Please fill in all fields", "warning")
        && dialogLoading == old(dialogLoading) && openDialog == old(openDialog)
        && expenses == old(expenses) && filteredExpenses == old(filteredExpenses)
      ensures !Incomplete(old(newExpense)) ==> !dialogLoading && sent == RequestOf(old(newExpense))
      ensures !Incomplete(old(newExpense)) && sent.Some? && postOk && refetch.Some? ==>
        expenses == SortByDate(refetch.value) && filteredExpenses == expenses
        && notification == Notification(true, "Expense added successfully!", "success") && !openDialog
      ensures !Incomplete(old(newExpense)) && (sent.None? || !postOk || refetch.None?) ==>
        notification == Notification(true, "Error adding expense. Please try again.", "error")
        && openDialog == old(openDialog) && expenses == old(expenses) && filteredExpenses == old(filteredExpenses)
    {
      if Incomplete(newExpense) {
        ShowNotification("Please fill in all fields", Some("warning"));
        return None;
      }
      dialogLoading := true;
      sent := RequestOf(newExpense);
      if sent.Some? && postOk && refetch.Some? {
        var sorted := SortResponse(refetch.value);
        expenses := sorted;
        filteredExpenses := sorted;
        ShowNotification("Expense added successfully!", Some("success"));
        CloseDialog();
      } else {
        ShowNotification("Error adding expense. Please try again.", Some("error"));
      }
      dialogLoading := false;
    }

    method OpenImportDialog()
      modifies this`openImportDialog, this`importText
      ensures openImportDialog && importText == ""
    {
      openImportDialog := true;
      importText := "";
    }

    method CloseImportDialog()
      modifies this`openImportDialog, this`importText
      ensures !openImportDialog && importText == ""
    {
      openImportDialog := false;
      importText := "";
    }

    method SetImportText(text: string)
      modifies this`importText
      ensures importText == text
    {
      importText := text;
    }

    /** `handleImportExpenses`. `response` is the `message` of a successful POST (`None` when
        the POST fails) and `refetch` the reload that follows. The result is the body sent. */
    method HandleImport(selectedPeriod: string, response: Option<string>, refetch: Option<seq<Expense>>)
      returns (sent: Option<ImportPayload>)
      modifies this`notification, this`importLoading, this`expenses, this`filteredExpenses
      modifies this`openImportDialog, this`importText
      ensures IsBlank(old(importText)) ==>
        sent.None? && notification == Notification(true, "Please paste some text to import", "warning")
      ensures !IsBlank(old(importText)) && selectedPeriod == "" ==>
        sent.None? && notification == Notification(true, "Please select a period first", "warning")
      ensures sent.None? ==>
        importLoading == old(importLoading) && importText == old(importText)
        && openImportDialog == old(openImportDialog)
        && expenses == old(expenses) && filteredExpenses == old(filteredExpenses)
      ensures !IsBlank(old(importText)) && selectedPeriod != "" ==>
        sent == Some(ImportPayload(selectedPeriod, EncodeImportText(old(importText)))) && !importLoading
      ensures sent.Some? && response.Some? && refetch.Some? ==>
        expenses == SortByDate(refetch.value) && filteredExpenses == expenses
        && notification == Notification(true, if response.value != "" then response.value else "Expenses imported successfully!", "success")
        && !openImportDialog && importText == ""
      ensures sent.Some? && (response.None? || refetch.None?) ==>
        notification == Notification(true, "Error importing expenses. Please check the format and try again.", "error")
        && expenses == old(expenses) && filteredExpenses == old(filteredExpenses)
        && openImportDialog == old(openImportDialog) && importText == old(importText)
    {
      TrimEmptyIffBlank(importText);
      if Trim(importText) == "" {
        ShowNotification("Please paste some text to import", Some("warning"));
        return None;
      }
      if selectedPeriod == "" {
        ShowNotification("Please select a period first", Some("warning"));
        return None;
      }
      importLoading := true;
      var payload := ImportPayload(selectedPeriod, EncodeImportText(importText));
      sent := Some(payload);
      if response.Some? && refetch.Some? {
        var sorted := SortResponse(refetch.value);
        expenses := sorted;
        filteredExpenses := sorted;
        ShowNotification(if response.value != "" then response.value else "Expenses imported successfully!", Some("success"));
        CloseImportDialog();
      } else {
        ShowNotification("Error importing expenses. Please check the format and try again.", Some("error"));
      }
      importLoading := false;
    }

    /** The Import button's `disabled`: while importing, or while the text is blank. */
    function ImportDisabled(): (d: bool)
      reads this
      ensures d <==> importLoading || IsBlank(importText)
    {
      TrimEmptyIffBlank(importText);
      importLoading || Trim(importText) == ""
    }
  }
}
