/** The relational store the handlers query: one map from id to row per
    table, serial id counters, and the query shapes the handlers use. A
    lookup that may match several rows returns the one with the lowest id;
    an update or a count by a non-key column touches every matching row. */
module Store {
  import opened Wrappers
  import opened Time
  import opened Responses
  import opened Models

  // ---- ordering keys ----

  lemma {:induction false} MinExists(s: set<int>)
    requires |s| > 0
    ensures exists m :: m in s && forall k :: k in s ==> m <= k
    decreases |s|
  {
    assert exists y :: y in s by {
      if forall y :: y !in s {
        assert false;
      }
    }
    var x :| x in s;
    if s == {x} {
      assert forall k :: k in s ==> x <= k;
    } else {
      MinExists(s - {x});
      var m :| m in s - {x} && forall k :: k in s - {x} ==> m <= k;
      var least := if x < m then x else m;
      forall k | k in s
        ensures least <= k
      {
        if k != x {
          assert k in s - {x};
        }
      }
      assert least in s;
    }
  }

  /** The least key of a non-empty set. */
  function MinKey(s: set<int>): (m: int)
    requires s != {}
    ensures m in s && forall k :: k in s ==> m <= k
  {
    assert |s| > 0;
    MinExists(s);
    var m :| m in s && forall k :: k in s ==> m <= k;
    m
  }

  /** The keys of a set in ascending order (`ORDER BY id`). */
  function SortedKeys(s: set<int>): (r: seq<int>)
    ensures |r| == |s|
    ensures forall i :: 0 <= i < |r| ==> r[i] in s
    ensures forall k :: k in s ==> k in r
    ensures forall i, j :: 0 <= i < j < |r| ==> r[i] < r[j]
    decreases |s|
  {
    if s == {} then []
    else
      var m := MinKey(s);
      var rest := SortedKeys(s - {m});
      SortedCons(m, rest, s);
      [m] + rest
  }

  lemma SortedCons(m: int, rest: seq<int>, s: set<int>)
    requires m in s && forall k :: k in s ==> m <= k
    requires |rest| == |s - {m}|
    requires forall i :: 0 <= i < |rest| ==> rest[i] in s - {m}
    requires forall k :: k in s - {m} ==> k in rest
    requires forall i, j :: 0 <= i < j < |rest| ==> rest[i] < rest[j]
    ensures |[m] + rest| == |s|
    ensures forall i :: 0 <= i < |[m] + rest| ==> ([m] + rest)[i] in s
    ensures forall k :: k in s ==> k in [m] + rest
    ensures forall i, j :: 0 <= i < j < |[m] + rest| ==> ([m] + rest)[i] < ([m] + rest)[j]
  {
    var r := [m] + rest;
    assert forall i :: 1 <= i < |r| ==> r[i] == rest[i - 1];
    forall k | k in s
      ensures k in r
    {
      if k != m {
        assert k in s - {m};
      }
    }
  }

  // ---- selections ----

  /** The keys of the rows `keep` selects (`WHERE`). */
  function Selected<T>(table: map<int, T>, keep: T -> bool): (ks: set<int>)
    ensures forall k :: k in ks <==> k in table && keep(table[k])
  {
    set k | k in table && keep(table[k])
  }

  /** `COUNT(*)` of a selection: the number of matching rows. */
  function Count<T>(table: map<int, T>, keep: T -> bool): (n: nat)
    ensures n == |Selected(table, keep)|
    ensures n <= |table|
    ensures n == 0 <==> forall k :: k in table ==> !keep(table[k])
    ensures n == |table| <==> forall k :: k in table ==> keep(table[k])
  {
    CountBounds(table, keep);
    |Selected(table, keep)|
  }

  /** A selection is no larger than its table; it is empty exactly when no
      row matches, and as large as the table exactly when every row does. */
  lemma CountBounds<T>(table: map<int, T>, keep: T -> bool)
    ensures |Selected(table, keep)| <= |table|
    ensures |Selected(table, keep)| == 0 <==> forall k :: k in table ==> !keep(table[k])
    ensures |Selected(table, keep)| == |table| <==> forall k :: k in table ==> keep(table[k])
  {
    var ks := Selected(table, keep);
    SubsetCard(ks, table.Keys);
    assert |table| == |table.Keys|;
    if ks == {} {
      if table.Keys != {} {
        var k := MinKey(table.Keys);
        assert |table.Keys| == |table.Keys - {k}| + 1;
      }
    } else {
      var m := MinKey(ks);
      assert |ks| == |ks - {m}| + 1;
      if exists k :: k in table && !keep(table[k]) {
        var k :| k in table && !keep(table[k]);
        SubsetCard(ks, table.Keys - {k});
      } else {
        assert ks == table.Keys;
      }
    }
  }

  lemma SubsetCard(a: set<int>, b: set<int>)
    requires a <= b
    ensures |a| <= |b|
  {
    assert b == a + (b - a);
  }

  /** `get_result` on a selection: the row with the lowest id, or the
      store's not-found error when nothing matches. */
  function First<T>(table: map<int, T>, keep: T -> bool): (r: Result<T, StoreError>)
    ensures r.Err? <==> Selected(table, keep) == {}
    ensures r.Err? ==> r.error == NotFound
    ensures r.Ok? ==> keep(r.value)
    ensures r.Ok? ==> r.value == table[MinKey(Selected(table, keep))]
  {
    var ks := Selected(table, keep);
    if ks == {} then Err(NotFound) else Ok(table[MinKey(ks)])
  }

  /** `find(id)`: the row with that key, or not-found. */
  function Find<T>(table: map<int, T>, id: int): (r: Result<T, StoreError>)
    ensures r.Ok? <==> id in table
    ensures r.Ok? ==> r.value == table[id]
    ensures r.Err? ==> r.error == NotFound
  {
    if id in table then Ok(table[id]) else Err(NotFound)
  }

  /** `UPDATE ... SET ... WHERE`: `f` applied to every selected row; the
      number of rows affected is `Count(table, keep)`. */
  function UpdateWhere<T>(table: map<int, T>, keep: T -> bool, f: T -> T): (r: map<int, T>)
    ensures r.Keys == table.Keys
    ensures forall k :: k in table ==> r[k] == if keep(table[k]) then f(table[k]) else table[k]
  {
    map k | k in table :: if keep(table[k]) then f(table[k]) else table[k]
  }

  // ---- pages ----

  const PageSize: int := 10

  /** The database's refusal of a negative `OFFSET`. */
  const NegativeOffsetMessage: string := "OFFSET must not be negative"

  /** `(page * 10) as i64`: the product is an i32 computation. */
  function PageOffset(page: int): (off: int)
    ensures InI32(off)
    ensures InI32(page * PageSize) ==> off == page * PageSize
  {
    WrapI32(page * PageSize)
  }

  /** How many of `total` rows a page starting at `off` holds. */
  function PageLength(total: nat, off: nat): (n: nat)
    ensures n <= PageSize
    ensures off + n <= total || n == 0
  {
    if off >= total then 0 else if total - off < PageSize then total - off else PageSize
  }

  /** `ORDER BY id LIMIT 10 OFFSET page * 10` over a selection. */
  function ListPage<T>(table: map<int, T>, keep: T -> bool, page: int): (r: Result<seq<T>, StoreError>)
    ensures r.Err? <==> PageOffset(page) < 0
    ensures r.Err? ==> r.error == DatabaseError(NegativeOffsetMessage)
    ensures r.Ok? ==>
      var ks := SortedKeys(Selected(table, keep));
      var off := PageOffset(page);
      && |r.value| <= PageSize
      && |r.value| == PageLength(|ks|, off)
      && forall i :: 0 <= i < |r.value| ==> r.value[i] == table[ks[off + i]]
  {
    var off := PageOffset(page);
    if off < 0 then Err(DatabaseError(NegativeOffsetMessage))
    else
      var ks := SortedKeys(Selected(table, keep));
      var n := PageLength(|ks|, off);
      Ok(seq(n, i requires 0 <= i < n => table[ks[off + i]]))
  }

  /** Every row of a page is a selected row of the table, and every
      selected row whose rank falls in the page's window is on it. */
  lemma ListPageSound<T>(table: map<int, T>, keep: T -> bool, page: int)
    requires ListPage(table, keep, page).Ok?
    ensures var rows := ListPage(table, keep, page).value;
      var ks := SortedKeys(Selected(table, keep));
      var off := PageOffset(page);
      && (forall i :: 0 <= i < |rows| ==> keep(rows[i]) && ks[off + i] in table)
      && (forall j :: off <= j < |ks| && j < off + PageSize ==> rows[j - off] == table[ks[j]])
  {
    var ks := SortedKeys(Selected(table, keep));
    assert forall i :: 0 <= i < |ks| ==> ks[i] in Selected(table, keep);
  }

  // ---- the tables ----

  class Database {
    var products: map<int, Product>
    var profiles: map<int, Profile>
    var reports: map<Uuid, Report>
    var users: map<int, UserRow>
    /** The next value of each table's serial id. */
    var productSeq: int
    var profileSeq: int
    var userSeq: int

    /** Every row sits under its own id, below its table's next serial id. */
    predicate Valid()
      reads this
    {
      && (forall id :: id in products ==> products[id].id == id && id < productSeq)
      && (forall id :: id in profiles ==> profiles[id].id == id && id < profileSeq)
      && (forall id :: id in reports ==> reports[id].id == id)
      && (forall id :: id in users ==> users[id].id == id && id < userSeq)
    }

    constructor ()
      ensures Valid()
      ensures products == map[] && profiles == map[] && reports == map[] && users == map[]
      ensures productSeq == 1 && profileSeq == 1 && userSeq == 1
    {
      products := map[];
      profiles := map[];
      reports := map[];
      users := map[];
      productSeq := 1;
      profileSeq := 1;
      userSeq := 1;
    }
  }

  // ---- selections the handlers share ----

  function HasBarcode(barcode: string): Product -> bool {
    (p: Product) => p.barcode == barcode
  }

  function InStage(stage: StageEnum): Product -> bool {
    (p: Product) => p.stage == stage
  }

  function AnyProduct(): Product -> bool {
    (p: Product) => true
  }

  function AnyReport(): Report -> bool {
    (r: Report) => true
  }

  function UploadedBy(uploaderId: int): Report -> bool {
    (r: Report) => r.uploaderId == uploaderId
  }

  function AnyUser(): UserRow -> bool {
    (u: UserRow) => true
  }

  function HasRole(role: RoleEnum): UserRow -> bool {
    (u: UserRow) => u.role == role
  }

  function HasUsername(username: string): UserRow -> bool {
    (u: UserRow) => u.username == Some(username)
  }

  function HasWechatId(openid: string): UserRow -> bool {
    (u: UserRow) => u.wechatId == Some(openid)
  }
}
