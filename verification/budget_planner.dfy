/**
 * The budget planner: editable spending and saving targets, and a habit tracker
 * that keeps, for every target's name, four weeks of seven check boxes.
 *
 * Both target tables and the grid are plain objects, so they are `Dict`s: spreading
 * `...prev` and writing one key keeps every other key, in its place.
 */
module BudgetPlanner {

  import opened Base
  import opened Seqs
  import opened JsObject

  /** Weeks of check boxes, each a row of days. */
  type Weeks = seq<seq<bool>>

  /** The initial `spendings` state. */
  const InitialSpendings: Dict<real> :=
    Dict(["Groceries", "Transport", "Entertainment", "Utilities"],
         map["Groceries" := 5000.0, "Transport" := 2000.0, "Entertainment" := 1500.0, "Utilities" := 1200.0])

  /** The initial `savings` state. */
  const InitialSavings: Dict<real> :=
    Dict(["Emergency Fund", "Investments", "Travel"],
         map["Emergency Fund" := 3000.0, "Investments" := 2000.0, "Travel" := 1000.0])

  /** `Array(4).fill(null).map(() => Array(7).fill(false))` */
  function Blank(): Weeks
  {
    seq(4, _ => seq(7, _ => false))
  }

  /** `cats.forEach(cat => { grid[cat] = <blank> })`, starting from `{}`. */
  function GridFor(cats: seq<string>): (r: Dict<Weeks>)
    ensures Valid(r)
    ensures forall c :: c in r.vals <==> c in cats
    ensures forall c :: c in r.vals ==> r.vals[c] == Blank()
  {
    if cats == [] then Empty() else Put(GridFor(DropLast(cats)), Last(cats), Blank())
  }

  /** The grid built when nothing was saved: one blank entry for each spending and each saving. */
  function FreshGrid(spendings: Dict<real>, savings: Dict<real>): Dict<Weeks>
    requires Valid(spendings) && Valid(savings)
  {
    GridFor(spendings.keys + savings.keys)
  }

  /** The grid has a box for day `d` of week `w` of `cat`. */
  predicate HasBox(grid: Dict<Weeks>, cat: string, w: int, d: int)
  {
    && cat in grid.vals
    && 0 <= w < |grid.vals[cat]|
    && 0 <= d < |grid.vals[cat][w]|
  }

  /** `habitGrid[cat]?.[w]?.[d] || false`: a missing category, week or day reads as unchecked. */
  predicate Checked(grid: Dict<Weeks>, cat: string, w: int, d: int)
  {
    HasBox(grid, cat, w, d) && grid.vals[cat][w][d]
  }

  /** Every target has four weeks of seven boxes, and no box is checked. */
  lemma FreshGridShape(spendings: Dict<real>, savings: Dict<real>)
    requires Valid(spendings) && Valid(savings)
    ensures var g := FreshGrid(spendings, savings);
      && (forall c :: c in g.vals <==> c in spendings.vals || c in savings.vals)
      && (forall c :: c in g.vals ==> |g.vals[c]| == 4 && forall w :: 0 <= w < 4 ==> |g.vals[c][w]| == 7)
      && (forall c, w, d :: !Checked(g, c, w, d))
  {
  }

  /** The planner's own grid holds exactly its seven targets. */
  lemma InitialGridTargets()
    ensures var g := FreshGrid(InitialSpendings, InitialSavings);
      forall c :: c in g.vals <==>
        c in ["Groceries", "Transport", "Entertainment", "Utilities", "Emergency Fund", "Investments", "Travel"]
  {
    assert Valid(InitialSpendings) && Valid(InitialSavings);
    FreshGridShape(InitialSpendings, InitialSavings);
  }

  /** `weekArr.map((v, dIdx) => dIdx === day ? !v : v)` */
  function FlipDay(row: seq<bool>, d: int): seq<bool>
  {
    seq(|row|, j requires 0 <= j < |row| => if j == d then !row[j] else row[j])
  }

  /** `prev[cat].map((weekArr, wIdx) => wIdx === week ? <flip> : weekArr)` */
  function FlipCell(weeks: Weeks, w: int, d: int): Weeks
  {
    seq(|weeks|, i requires 0 <= i < |weeks| => if i == w then FlipDay(weeks[i], d) else weeks[i])
  }

  /**
   * `handleHabitCheck(cat, week, day)`: a category without an entry makes `prev[cat].map`
   * throw; otherwise exactly the box at (`week`, `day`) of `cat` flips, when it exists.
   */
  function HabitCheck(grid: Dict<Weeks>, cat: string, w: int, d: int): (r: Result<Dict<Weeks>, string>)
    requires Valid(grid)
    ensures r.Failure? <==> cat !in grid.vals
    ensures r.Success? ==>
      && Valid(r.value)
      && r.value.keys == grid.keys
      && (forall c :: c in r.value.vals <==> c in grid.vals)
      && (forall c :: c in grid.vals && c != cat ==> r.value.vals[c] == grid.vals[c])
      && |r.value.vals[cat]| == |grid.vals[cat]|
      && (forall i :: 0 <= i < |grid.vals[cat]| ==> |r.value.vals[cat][i]| == |grid.vals[cat][i]|)
      && (forall c, i, j :: HasBox(r.value, c, i, j) <==> HasBox(grid, c, i, j))
      && (forall c, i, j :: Checked(r.value, c, i, j) <==>
            if c == cat && i == w && j == d then HasBox(grid, c, i, j) && !Checked(grid, c, i, j)
            else Checked(grid, c, i, j))
  {
    if cat !in grid.vals then Failure("Cannot read properties of undefined (reading 'map')")
    else Success(Put(grid, cat, FlipCell(grid.vals[cat], w, d)))
  }

  /** Checking the same box twice gives back the grid as it was. */
  lemma HabitCheckTwice(grid: Dict<Weeks>, cat: string, w: int, d: int)
    requires Valid(grid) && cat in grid.vals
    ensures HabitCheck(grid, cat, w, d).Success?
    ensures HabitCheck(HabitCheck(grid, cat, w, d).value, cat, w, d) == Success(grid)
  {
    var weeks := grid.vals[cat];
    var once := HabitCheck(grid, cat, w, d).value;
    assert FlipCell(FlipCell(weeks, w, d), w, d) == weeks by {
      forall i | 0 <= i < |weeks| ensures FlipCell(FlipCell(weeks, w, d), w, d)[i] == weeks[i] {
        if i == w {
          assert FlipDay(FlipDay(weeks[i], d), d) == weeks[i];
        }
      }
    }
    assert once.vals[cat := weeks] == grid.vals;
  }

  /**
   * `handleSpendChange` and `handleSaveChange`, `{ ...prev, [key]: value }`: that one
   * key is set, every other key and the listing order stay as they were, and a name
   * that was not a target yet is added last.
   */
  function SetTarget(targets: Dict<real>, key: string, value: real): (r: Dict<real>)
    requires Valid(targets)
    ensures Valid(r)
    ensures Get(r, key) == Some(value)
    ensures forall k :: k != key ==> Get(r, k) == Get(targets, k)
    ensures r.keys == (if key in targets.vals then targets.keys else targets.keys + [key])
  {
    Put(targets, key, value)
  }

  /** A later edit of the same target overrides an earlier one. */
  lemma SetTargetLastWins(targets: Dict<real>, key: string, a: real, b: real)
    requires Valid(targets)
    ensures SetTarget(SetTarget(targets, key, a), key, b) == SetTarget(targets, key, b)
  {
    var once := SetTarget(targets, key, a);
    assert once.vals[key := b] == targets.vals[key := b];
  }
}
