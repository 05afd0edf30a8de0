/**
 * The expense list: each row's badge colour comes from the user's category of the
 * same name, and each amount carries a currency prefix.
 */
module ExpenseList {

  import opened Base
  import opened Schemas
  import UseApi

  /** The colour used when no category supplies one. */
  const FallbackColor: string := "#6b7280"

  /** `categories.find(cat => cat.name === name)` */
  function FindByName(categories: seq<Category>, name: string): (r: Option<nat>)
    ensures r.None? <==> forall i :: 0 <= i < |categories| ==> categories[i].name != name
    ensures r.Some? ==>
      && r.value < |categories|
      && categories[r.value].name == name
      && forall i :: 0 <= i < r.value ==> categories[i].name != name
  {
    if categories == [] then None
    else if categories[0].name == name then Some(0)
    else match FindByName(categories[1..], name)
      case None => None
      case Some(i) => Some(i + 1)
  }

  /**
   * `getCategoryColor`: the colour of the first category with that name, unless it is
   * empty; with no such category, the fallback grey.
   */
  function CategoryColor(categories: seq<Category>, name: string): (r: string)
    ensures (forall i :: 0 <= i < |categories| ==> categories[i].name != name) ==> r == FallbackColor
    ensures r != FallbackColor ==>
      exists i :: 0 <= i < |categories| && categories[i].name == name && categories[i].color == r
  {
    match FindByName(categories, name)
    case Some(i) => if categories[i].color != "" then categories[i].color else FallbackColor
    case None => FallbackColor
  }

  /** The first category of that name decides: its colour, or the grey when it has none. */
  lemma CategoryColorOfFirst(categories: seq<Category>, name: string, i: nat)
    requires i < |categories| && categories[i].name == name
    requires forall j :: 0 <= j < i ==> categories[j].name != name
    ensures CategoryColor(categories, name) ==
      (if categories[i].color != "" then categories[i].color else FallbackColor)
  {
    var r := FindByName(categories, name);
    assert r.Some?;
  }

  /** A later category of the same name never changes the colour. */
  lemma CategoryColorIgnoresLater(categories: seq<Category>, name: string, c: Category)
    requires exists i :: 0 <= i < |categories| && categories[i].name == name
    ensures CategoryColor(categories + [c], name) == CategoryColor(categories, name)
  {
    var r := FindByName(categories, name);
    var i := r.value;
    var longer := categories + [c];
    assert forall j :: 0 <= j <= i ==> longer[j] == categories[j];
    CategoryColorOfFirst(categories, name, i);
    CategoryColorOfFirst(longer, name, i);
  }

  /**
   * Adding a category, whatever the server answers, never recolours an expense whose
   * category name the list already had.
   */
  lemma AddCategoryKeepsColors(prev: seq<Category>, resp: UseApi.Response<Category>, name: string)
    requires exists i :: 0 <= i < |prev| && prev[i].name == name
    ensures CategoryColor(UseApi.AddCategory(prev, resp).state, name) == CategoryColor(prev, name)
  {
    if resp.ok {
      CategoryColorIgnoresLater(prev, name, resp.body);
    }
  }

  /**
   * `(currency === 'INR' || !currency) ? '₹' : currency === 'USD' ? '$' : currency + ' '`,
   * the one rule behind both amounts of a row.
   */
  function CurrencyPrefix(currency: Option<string>): (r: string)
    ensures r == "₹" <==> !Truthy(currency) || currency.value == "INR"
    ensures r == "$" <==> currency == Some("USD")
    ensures r != "₹" && r != "$" ==> Truthy(currency) && r == currency.value + " "
  {
    if currency == Some("INR") || !Truthy(currency) then "₹"
    else if currency.value == "USD" then "$"
    else currency.value + " "
  }

  /** Any other code is shown in full: dropping the trailing space recovers it. */
  lemma CurrencyPrefixShowsCode(code: string)
    requires code != "" && code != "INR" && code != "USD"
    ensures var p := CurrencyPrefix(Some(code));
      |p| == |code| + 1 && p[..|code|] == code && p[|code|] == ' '
  {
  }

  /** What one row shows next to the expense's own fields. */
  datatype Row = Row(id: int, color: string, prefix: string)

  /** The list, or the "No expenses yet" state. */
  datatype ListView = EmptyState | Rows(rows: seq<Row>)

  /** The empty state exactly when there are no expenses; otherwise one row per expense, in order. */
  function List(expenses: seq<Expense>, categories: seq<Category>): (r: ListView)
    ensures r.EmptyState? <==> expenses == []
    ensures r.Rows? ==>
      && |r.rows| == |expenses|
      && forall i :: 0 <= i < |expenses| ==>
           && r.rows[i].id == expenses[i].id
           && r.rows[i].color == CategoryColor(categories, expenses[i].category)
           && r.rows[i].prefix == CurrencyPrefix(expenses[i].currency)
  {
    if |expenses| == 0 then EmptyState
    else Rows(seq(|expenses|, i requires 0 <= i < |expenses| =>
      Row(expenses[i].id, CategoryColor(categories, expenses[i].category), CurrencyPrefix(expenses[i].currency))))
  }
}
