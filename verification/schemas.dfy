/**
 * The shared record types and the request validators, written as predicates over
 * already-typed records: a zod object schema accepts exactly when every refinement
 * holds, and otherwise reports one message per failed refinement.
 */
module Schemas {

  import opened Base
  import opened Seqs

  /** A stored expense (`ExpenseSchema`): only `currency` may be missing. */
  datatype Expense = Expense(
    id: int, userId: string, amount: real, description: string, category: string,
    date: string, currency: Option<string>, createdAt: string, updatedAt: string)

  /** A stored category (`CategorySchema`). */
  datatype Category = Category(
    id: int, userId: string, name: string, color: string, icon: Option<string>,
    createdAt: string, updatedAt: string)

  /** An expense record as it arrives from JSON: any field may be missing. */
  datatype RawExpense = RawExpense(
    id: Option<int>, userId: Option<string>, amount: Option<real>, description: Option<string>,
    category: Option<string>, date: Option<string>, currency: Option<string>,
    createdAt: Option<string>, updatedAt: Option<string>)

  /** `ExpenseSchema.safeParse`: every field except `currency` is required. */
  function ParseExpense(raw: RawExpense): (r: Option<Expense>)
    ensures r.Some? <==>
      raw.id.Some? && raw.userId.Some? && raw.amount.Some? && raw.description.Some? &&
      raw.category.Some? && raw.date.Some? && raw.createdAt.Some? && raw.updatedAt.Some?
    ensures r.Some? ==>
      r.value == Expense(raw.id.value, raw.userId.value, raw.amount.value, raw.description.value,
                         raw.category.value, raw.date.value, raw.currency,
                         raw.createdAt.value, raw.updatedAt.value)
  {
    match (raw.id, raw.userId, raw.amount, raw.description, raw.category, raw.date, raw.createdAt, raw.updatedAt)
    case (Some(id), Some(u), Some(a), Some(d), Some(c), Some(dt), Some(ca), Some(ua)) =>
      Some(Expense(id, u, a, d, c, dt, raw.currency, ca, ua))
    case _ => None
  }

  /** The body of `POST /api/expenses`. */
  datatype CreateExpense = CreateExpense(
    amount: real, description: string, category: string, date: string, currency: Option<string>)

  /** The body of `POST /api/categories`. */
  datatype CreateCategory = CreateCategory(name: string, color: string, icon: Option<string>)

  /** A budget request; zod numbers need not be whole, so month and year are reals. */
  datatype CreateBudget = CreateBudget(category: string, amount: real, month: real, year: real)

  /** `CreateExpenseSchema`: the issues zod reports, in field order. */
  function CreateExpenseIssues(e: CreateExpense): seq<string>
  {
    (if e.amount > 0.0 then [] else ["Amount must be positive"]) +
    (if |e.description| >= 1 then [] else ["Description is required"]) +
    (if |e.category| >= 1 then [] else ["Category is required"]) +
    (if |e.date| >= 1 then [] else ["Date is required"])
  }

  function ValidateCreateExpense(e: CreateExpense): (r: Result<CreateExpense, seq<string>>)
    ensures r.Success? <==>
      e.amount > 0.0 && e.description != "" && e.category != "" && e.date != ""
    ensures r.Success? ==> r.value == e
    ensures r.Failure? ==>
      && ("Amount must be positive" in r.error <==> e.amount <= 0.0)
      && ("Description is required" in r.error <==> e.description == "")
      && ("Category is required" in r.error <==> e.category == "")
      && ("Date is required" in r.error <==> e.date == "")
  {
    var issues := CreateExpenseIssues(e);
    if issues == [] then Success(e) else Failure(issues)
  }

  /** `CreateCategorySchema`: name and color required, icon optional. */
  function ValidateCreateCategory(c: CreateCategory): (r: Result<CreateCategory, seq<string>>)
    ensures r.Success? <==> c.name != "" && c.color != ""
    ensures r.Success? ==> r.value == c
    ensures r.Failure? ==>
      && ("Category name is required" in r.error <==> c.name == "")
      && ("Color is required" in r.error <==> c.color == "")
  {
    var issues :=
      (if |c.name| >= 1 then [] else ["Category name is required"]) +
      (if |c.color| >= 1 then [] else ["Color is required"]);
    if issues == [] then Success(c) else Failure(issues)
  }

  /** `CreateBudgetSchema`: a named category, a positive amount, a month 1..12, a year from 2020. */
  function ValidateCreateBudget(b: CreateBudget): (r: Result<CreateBudget, seq<string>>)
    ensures r.Success? <==>
      b.category != "" && b.amount > 0.0 && 1.0 <= b.month <= 12.0 && b.year >= 2020.0
    ensures r.Success? ==> r.value == b
    ensures r.Failure? ==>
      && ("Category is required" in r.error <==> b.category == "")
      && ("Budget amount must be positive" in r.error <==> b.amount <= 0.0)
  {
    var issues :=
      (if |b.category| >= 1 then [] else ["Category is required"]) +
      (if b.amount > 0.0 then [] else ["Budget amount must be positive"]) +
      (if b.month >= 1.0 then [] else ["Number must be greater than or equal to 1"]) +
      (if b.month <= 12.0 then [] else ["Number must be less than or equal to 12"]) +
      (if b.year >= 2020.0 then [] else ["Number must be greater than or equal to 2020"]);
    if issues == [] then Success(b) else Failure(issues)
  }

  /** One entry of `DEFAULT_CATEGORIES`. */
  datatype CategorySeed = CategorySeed(name: string, color: string, icon: string)

  const DefaultCategories: seq<CategorySeed> := [
    CategorySeed("Food & Dining", "#ef4444", "utensils"),
    CategorySeed("Transportation", "#3b82f6", "car"),
    CategorySeed("Shopping", "#8b5cf6", "shopping-bag"),
    CategorySeed("Entertainment", "#f59e0b", "music"),
    CategorySeed("Bills & Utilities", "#10b981", "receipt"),
    CategorySeed("Healthcare", "#ec4899", "heart"),
    CategorySeed("Education", "#06b6d4", "book"),
    CategorySeed("Travel", "#84cc16", "plane"),
    CategorySeed("Other", "#6b7280", "more-horizontal")
  ]

  /** `DEFAULT_CATEGORIES.map(c => c.name)` */
  function DefaultNames(): (r: seq<string>)
    ensures |r| == |DefaultCategories|
    ensures forall i :: 0 <= i < |r| ==> r[i] == DefaultCategories[i].name
  {
    seq(|DefaultCategories|, i requires 0 <= i < |DefaultCategories| => DefaultCategories[i].name)
  }

  /** Nine defaults with pairwise distinct names, "Other" last, every color non-empty. */
  lemma DefaultCategoriesShape()
    ensures |DefaultCategories| == 9
    ensures NoDups(DefaultNames())
    ensures Last(DefaultCategories).name == "Other"
    ensures forall i :: 0 <= i < 9 ==> DefaultCategories[i].color != ""
  {
    var n := DefaultNames();
    assert n == ["Food & Dining", "Transportation", "Shopping", "Entertainment",
                 "Bills & Utilities", "Healthcare", "Education", "Travel", "Other"];
  }

  /** No default has an empty name. */
  lemma DefaultNamesNonEmpty()
    ensures forall i :: 0 <= i < |DefaultCategories| ==> DefaultCategories[i].name != ""
  {
  }
}
