/**
 * Default-category seeding in `GET /api/expenses`: when the user owns no category
 * row, the nine defaults are inserted in list order; otherwise nothing happens.
 */
module Seeding {

  import opened Base
  import opened Seqs
  import opened Schemas

  /** A row of the `categories` table, without the ids and timestamps the store assigns. */
  datatype CategoryRow = CategoryRow(userId: string, name: string, color: string, icon: Option<string>)

  /** `SELECT * FROM categories WHERE user_id = ?`, in insertion order. */
  function RowsOf(store: seq<CategoryRow>, user: string): seq<CategoryRow>
  {
    if store == [] then []
    else RowsOf(DropLast(store), user) + (if Last(store).userId == user then [Last(store)] else [])
  }

  lemma {:induction false} RowsOfAppend(a: seq<CategoryRow>, b: seq<CategoryRow>, user: string)
    ensures RowsOf(a + b, user) == RowsOf(a, user) + RowsOf(b, user)
    decreases |b|
  {
    if b == [] {
      assert a + b == a;
    } else {
      assert DropLast(a + b) == a + DropLast(b);
      RowsOfAppend(a, DropLast(b), user);
    }
  }

  /** The rows the seeding loop inserts for `user`, one per default, in list order. */
  function DefaultRows(user: string): (r: seq<CategoryRow>)
    ensures |r| == |DefaultCategories|
    ensures forall i :: 0 <= i < |r| ==>
      r[i] == CategoryRow(user, DefaultCategories[i].name, DefaultCategories[i].color,
                          Some(DefaultCategories[i].icon))
  {
    seq(|DefaultCategories|, i requires 0 <= i < |DefaultCategories| =>
      CategoryRow(user, DefaultCategories[i].name, DefaultCategories[i].color,
                  Some(DefaultCategories[i].icon)))
  }

  lemma {:induction false} RowsOfUniform(rows: seq<CategoryRow>, owner: string, user: string)
    requires forall i :: 0 <= i < |rows| ==> rows[i].userId == owner
    ensures RowsOf(rows, user) == if owner == user then rows else []
  {
    if rows != [] {
      RowsOfUniform(DropLast(rows), owner, user);
    }
  }

  /** `SELECT COUNT(*)` followed by the insert loop, run when the count is zero. */
  function SeedDefaults(store: seq<CategoryRow>, user: string): seq<CategoryRow>
  {
    if |RowsOf(store, user)| == 0 then store + DefaultRows(user) else store
  }

  /**
   * A user with no category row ends up owning exactly the defaults, in list order;
   * a user with at least one keeps the store as it was; nobody else's rows change,
   * and nothing already stored is altered.
   */
  lemma SeedDefaultsSpec(store: seq<CategoryRow>, user: string, other: string)
    requires other != user
    ensures var r := SeedDefaults(store, user);
      && (|RowsOf(store, user)| == 0 ==>
            |RowsOf(r, user)| == 9 &&
            forall i :: 0 <= i < 9 ==>
              RowsOf(r, user)[i] == CategoryRow(user, DefaultCategories[i].name, DefaultCategories[i].color,
                                                Some(DefaultCategories[i].icon)))
      && (|RowsOf(store, user)| > 0 ==> r == store)
      && RowsOf(r, other) == RowsOf(store, other)
      && r[..|store|] == store
  {
    DefaultCategoriesShape();
    if |RowsOf(store, user)| == 0 {
      SeededRowsOfUser(store, user);
      RowsOfAppend(store, DefaultRows(user), other);
      RowsOfUniform(DefaultRows(user), user, other);
    }
  }

  /** A user with no row owns, after seeding, exactly the rows the loop inserted. */
  lemma SeededRowsOfUser(store: seq<CategoryRow>, user: string)
    requires |RowsOf(store, user)| == 0
    ensures RowsOf(SeedDefaults(store, user), user) == DefaultRows(user)
  {
    RowsOfAppend(store, DefaultRows(user), user);
    RowsOfUniform(DefaultRows(user), user, user);
  }

  /** Seeding twice in a row is the same as seeding once. */
  lemma SeedDefaultsIdempotent(store: seq<CategoryRow>, user: string)
    ensures SeedDefaults(SeedDefaults(store, user), user) == SeedDefaults(store, user)
  {
    if |RowsOf(store, user)| == 0 {
      DefaultCategoriesShape();
      RowsOfAppend(store, DefaultRows(user), user);
      RowsOfUniform(DefaultRows(user), user, user);
    }
  }
}
