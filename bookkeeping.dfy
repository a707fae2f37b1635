/** The expense and settings reducers of app/context/AppContext.tsx: `addExpense`,
    `updateExpense`, `deleteExpense` and `updateSettings`. */
module Bookkeeping {
  import opened Seqs
  import opened Entities

  /** `Partial<Expense>` without the id. */
  datatype ExpensePatch = ExpensePatch(
    date: Option<string>, category: Option<string>, amount: Option<real>, note: Option<string>)

  /** `{ ...e, ...patch }` */
  function PatchExpense(e: Expense, q: ExpensePatch): Expense
  {
    e.(date := q.date.GetOr(e.date), category := q.category.GetOr(e.category),
       amount := q.amount.GetOr(e.amount), note := q.note.GetOr(e.note))
  }

  /** addExpense: appends the expense under a new id. */
  function AddExpense(prev: AppState, e: Expense, newId: Id): (next: AppState)
    ensures next.expenses == prev.expenses + [e.(id := newId)]
    ensures next.(expenses := prev.expenses) == prev
  {
    prev.(expenses := prev.expenses + [e.(id := newId)])
  }

  /** updateExpense: patches every expense carrying `id`; ids, order and all other lists are kept. */
  function UpdateExpense(prev: AppState, id: Id, patch: ExpensePatch): (next: AppState)
    ensures |next.expenses| == |prev.expenses|
    ensures forall k :: 0 <= k < |prev.expenses| ==> next.expenses[k].id == prev.expenses[k].id
    ensures forall k :: 0 <= k < |prev.expenses| && prev.expenses[k].id == id ==>
              next.expenses[k] == PatchExpense(prev.expenses[k], patch)
    ensures forall k :: 0 <= k < |prev.expenses| && prev.expenses[k].id != id ==>
              next.expenses[k] == prev.expenses[k]
    ensures next.(expenses := prev.expenses) == prev
  {
    prev.(expenses := seq(|prev.expenses|, k requires 0 <= k < |prev.expenses| =>
      if prev.expenses[k].id == id then PatchExpense(prev.expenses[k], patch) else prev.expenses[k]))
  }

  lemma UpdateExpenseIdempotent(s: AppState, id: Id, patch: ExpensePatch)
    ensures UpdateExpense(UpdateExpense(s, id, patch), id, patch) == UpdateExpense(s, id, patch)
  {
    var once := UpdateExpense(s, id, patch);
    assert UpdateExpense(once, id, patch).expenses == once.expenses;
  }

  /** deleteExpense: removes every expense carrying `id`, keeping the others in order. */
  function DeleteExpense(prev: AppState, id: Id): (next: AppState)
    ensures forall k :: 0 <= k < |next.expenses| ==> next.expenses[k].id != id && next.expenses[k] in prev.expenses
    ensures forall k :: 0 <= k < |prev.expenses| && prev.expenses[k].id != id ==> prev.expenses[k] in next.expenses
    ensures next.(expenses := prev.expenses) == prev
  {
    FilterMembers(prev.expenses, (e: Expense) => e.id != id);
    prev.(expenses := Filter(prev.expenses, (e: Expense) => e.id != id))
  }

  lemma AddThenDeleteExpense(prev: AppState, e: Expense, newId: Id)
    requires forall k :: 0 <= k < |prev.expenses| ==> prev.expenses[k].id != newId
    ensures DeleteExpense(AddExpense(prev, e, newId), newId) == prev
  {
    var f := (x: Expense) => x.id != newId;
    FilterConcat(prev.expenses, [e.(id := newId)], f);
    FilterKeepsAll(prev.expenses, f);
    FilterSingleton(e.(id := newId), f);
  }

  /** `Partial<AppSettings>`; the optional fields may be present but `undefined`. */
  datatype SettingsPatch = SettingsPatch(
    appName: Option<string>, appTagline: Option<Option<string>>, appIconUrl: Option<Option<string>>)

  /** updateSettings: `{ ...prev.appSettings, ...settings }`; nothing but the settings changes. */
  function UpdateSettings(prev: AppState, patch: SettingsPatch): (next: AppState)
    ensures patch.appName.Some? ==> next.appSettings.appName == patch.appName.value
    ensures patch.appName.None? ==> next.appSettings.appName == prev.appSettings.appName
    ensures patch.appTagline.Some? ==> next.appSettings.appTagline == patch.appTagline.value
    ensures patch.appTagline.None? ==> next.appSettings.appTagline == prev.appSettings.appTagline
    ensures patch.appIconUrl.Some? ==> next.appSettings.appIconUrl == patch.appIconUrl.value
    ensures patch.appIconUrl.None? ==> next.appSettings.appIconUrl == prev.appSettings.appIconUrl
    ensures next.(appSettings := prev.appSettings) == prev
  {
    var a := prev.appSettings;
    prev.(appSettings := AppSettings(patch.appName.GetOr(a.appName), patch.appTagline.GetOr(a.appTagline),
                                     patch.appIconUrl.GetOr(a.appIconUrl)))
  }
}
