/** The tables behind the repositories, as in-memory state, and the
    observable meaning of each query the services issue: lookups hide
    soft-deleted rows, a product delete only sets the flag, a cart update
    writes quantity and the update stamps, a listing is one LIMIT/OFFSET
    window of the ordered rows. */
module Repository {
  import opened Options
  import opened Grpc
  import opened Entity
  import opened QueryBuilder
  import Uuid

  /** The "product" table, soft-deleted rows included, keyed by id. */
  class ProductTable {
    var rows: map<string, Product>

    /** Every row is stored under its own id (the primary key). */
    ghost predicate Valid()
      reads this
    {
      KeyedById(rows)
    }

    constructor(rows: map<string, Product>)
      requires KeyedById(rows)
      ensures Valid() && this.rows == rows
    {
      this.rows := rows;
    }
  }

  /** The object-storage bucket, as the set of keys it holds. */
  class ObjectStore {
    var keys: set<string>

    constructor(keys: set<string>)
      ensures this.keys == keys
    {
      this.keys := keys;
    }
  }

  predicate KeyedById(rows: map<string, Product>)
  {
    forall k :: k in rows ==> rows[k].id == k
  }

  /** Cart ids are generated UUIDs, stored in their canonical form. */
  predicate CanonicalIds(rows: seq<CartItem>)
  {
    forall i :: 0 <= i < |rows| ==> Uuid.Canonical(rows[i].id)
  }

  /** No two cart rows share an id (the primary key). */
  predicate DistinctIds(rows: seq<CartItem>)
  {
    forall i, j :: 0 <= i < j < |rows| ==> rows[i].id != rows[j].id
  }

  /** The "user_cart" table, in row order. */
  class CartTable {
    var rows: seq<CartItem>

    ghost predicate Valid()
      reads this
    {
      DistinctIds(rows) && CanonicalIds(rows)
    }

    constructor(rows: seq<CartItem>)
      requires DistinctIds(rows) && CanonicalIds(rows)
      ensures Valid() && this.rows == rows
    {
      this.rows := rows;
    }
  }

  /** The "user" table, in row order. */
  class UserTable {
    var rows: seq<User>

    constructor(rows: seq<User>)
      ensures this.rows == rows
    {
      this.rows := rows;
    }
  }

  /** What an INSERT that hits an existing primary key returns. */
  const DuplicateKeyError: Error := Plain("duplicate key value violates unique constraint")

  /** `GetProductById`: the row, unless it is missing or soft-deleted. */
  function GetProductById(rows: map<string, Product>, id: string): (r: Option<Product>)
    ensures r.Some? <==> id in rows && !rows[id].isDeleted
    ensures r.Some? ==> r.value == rows[id]
  {
    if id in rows && !rows[id].isDeleted then Some(rows[id]) else None
  }

  /** Does some cart row carry this id? */
  predicate HasCartId(rows: seq<CartItem>, id: string)
  {
    exists i :: 0 <= i < |rows| && rows[i].id == id
  }

  /** `FindByID`: the first row with that id. */
  function FindById(rows: seq<CartItem>, id: string): (r: Option<CartItem>)
    ensures r.Some? <==> HasCartId(rows, id)
    ensures r.Some? ==> exists i :: 0 <= i < |rows| && rows[i] == r.value && r.value.id == id
  {
    if rows == [] then None
    else if rows[0].id == id then Some(rows[0])
    else
      var r := FindById(rows[1..], id);
      assert forall i :: 0 <= i < |rows[1..]| ==> rows[1..][i] == rows[i + 1];
      r
  }

  /** `FindByUserIDAndProductID`: the first row of this user for this product. */
  function FindByUserAndProduct(rows: seq<CartItem>, userId: string, productId: string): (r: Option<CartItem>)
    ensures r.None? <==> forall i :: 0 <= i < |rows| ==> !(rows[i].userId == userId && rows[i].productId == productId)
    ensures r.Some? ==> exists i :: 0 <= i < |rows| && rows[i] == r.value
    ensures r.Some? ==> r.value.userId == userId && r.value.productId == productId
  {
    if rows == [] then None
    else if rows[0].userId == userId && rows[0].productId == productId then Some(rows[0])
    else
      var r := FindByUserAndProduct(rows[1..], userId, productId);
      assert forall i :: 0 <= i < |rows[1..]| ==> rows[1..][i] == rows[i + 1];
      r
  }

  /** `FindByUserID`: this user's rows, in row order. */
  function FindByUser(rows: seq<CartItem>, userId: string): (r: seq<CartItem>)
    ensures |r| <= |rows|
    ensures forall k :: 0 <= k < |r| ==> r[k].userId == userId
    ensures forall k :: 0 <= k < |r| ==> r[k] in rows
  {
    if rows == [] then []
    else
      var rest := FindByUser(rows[1..], userId);
      assert forall k :: 0 <= k < |rest| ==> rest[k] in rows[1..];
      if rows[0].userId == userId then [rows[0]] + rest else rest
  }

  /** `FindByUserID` reads the table front to back: the rows of a
      concatenation are the rows of each part, in order. */
  lemma {:induction false} FindByUserAppend(a: seq<CartItem>, b: seq<CartItem>, userId: string)
    ensures FindByUser(a + b, userId) == FindByUser(a, userId) + FindByUser(b, userId)
    decreases |a|
  {
    if a == [] {
      assert a + b == b;
    } else {
      assert (a + b)[0] == a[0] && (a + b)[1..] == a[1..] + b;
      FindByUserAppend(a[1..], b, userId);
    }
  }

  /** A single row is returned iff it is the user's. */
  lemma FindByUserSingle(x: CartItem, userId: string)
    ensures FindByUser([x], userId) == if x.userId == userId then [x] else []
  {
    assert [x][1..] == [];
  }

  /** `Update`: every row with the item's id takes its quantity and update
      stamps; nothing else is written. */
  function ApplyUpdate(rows: seq<CartItem>, item: CartItem): (r: seq<CartItem>)
    ensures |r| == |rows|
  {
    seq(|rows|, i requires 0 <= i < |rows| =>
      if rows[i].id == item.id
      then rows[i].(quantity := item.quantity, updatedAt := item.updatedAt, updatedBy := item.updatedBy)
      else rows[i])
  }

  /** `Delete`: every row with that id is removed; the rest keep their order. */
  function DeleteById(rows: seq<CartItem>, id: string): (r: seq<CartItem>)
    ensures |r| <= |rows|
    ensures !HasCartId(r, id)
    ensures forall k :: 0 <= k < |r| ==> r[k] in rows
  {
    if rows == [] then []
    else
      var rest := DeleteById(rows[1..], id);
      assert forall k :: 0 <= k < |rest| ==> rest[k] in rows[1..];
      if rows[0].id == id then rest else [rows[0]] + rest
  }

  /** An update writes only quantity and the update stamps, and only on
      rows carrying the item's id. */
  lemma UpdateWritesOnlyQuantityAndStamps(rows: seq<CartItem>, item: CartItem, i: nat)
    requires i < |rows|
    ensures ApplyUpdate(rows, item)[i].id == rows[i].id
    ensures ApplyUpdate(rows, item)[i].userId == rows[i].userId
    ensures ApplyUpdate(rows, item)[i].productId == rows[i].productId
    ensures ApplyUpdate(rows, item)[i].createdAt == rows[i].createdAt
    ensures ApplyUpdate(rows, item)[i].createdBy == rows[i].createdBy
    ensures rows[i].id != item.id ==> ApplyUpdate(rows, item)[i] == rows[i]
    ensures rows[i].id == item.id ==> ApplyUpdate(rows, item)[i].quantity == item.quantity
  {
  }

  /** Deleting one id removes exactly the row with it: with distinct ids the
      table shrinks by one and every other row survives in order. */
  lemma DeleteRemovesExactlyOne(rows: seq<CartItem>, k: nat)
    requires DistinctIds(rows) && k < |rows|
    ensures DeleteById(rows, rows[k].id) == rows[..k] + rows[k + 1..]
  {
    assert forall i :: 0 <= i < |rows| && i != k ==> rows[i].id != rows[k].id by {
      forall i | 0 <= i < |rows| && i != k
        ensures rows[i].id != rows[k].id
      {
        if i < k {
          assert rows[i].id != rows[k].id;
        } else {
          assert rows[k].id != rows[i].id;
        }
      }
    }
    DeleteUnique(rows, k);
  }

  /** The induction behind `DeleteRemovesExactlyOne`: only row `k` carries
      its id. */
  lemma {:induction false} DeleteUnique(rows: seq<CartItem>, k: nat)
    requires k < |rows|
    requires forall i :: 0 <= i < |rows| && i != k ==> rows[i].id != rows[k].id
    ensures DeleteById(rows, rows[k].id) == rows[..k] + rows[k + 1..]
    decreases |rows|
  {
    var tail := rows[1..];
    var id := rows[k].id;
    if k == 0 {
      assert forall i :: 0 <= i < |tail| ==> tail[i].id != id by {
        assert forall i :: 0 <= i < |tail| ==> tail[i] == rows[i + 1];
      }
      DeleteAbsent(tail, id);
      assert rows[..0] + rows[1..] == tail;
    } else {
      assert tail[k - 1] == rows[k] && rows[0].id != id;
      assert forall i :: 0 <= i < |tail| && i != k - 1 ==> tail[i].id != id by {
        assert forall i :: 0 <= i < |tail| ==> tail[i] == rows[i + 1];
      }
      DeleteUnique(tail, k - 1);
      assert DeleteById(rows, id) == [rows[0]] + DeleteById(tail, id);
      SpliceCons(rows, k);
    }
  }

  /** Removing position `k > 0` commutes with taking off the head. */
  lemma SpliceCons<T>(s: seq<T>, k: nat)
    requires 0 < k < |s|
    ensures [s[0]] + (s[1..][..k - 1] + s[1..][k..]) == s[..k] + s[k + 1..]
  {
    assert s[1..][..k - 1] == s[1..k] && s[1..][k..] == s[k + 1..];
    assert s[..k] == [s[0]] + s[1..k];
  }

  /** Deleting an id no row carries changes nothing. */
  lemma {:induction false} DeleteAbsent(rows: seq<CartItem>, id: string)
    requires forall i :: 0 <= i < |rows| ==> rows[i].id != id
    ensures DeleteById(rows, id) == rows
    decreases |rows|
  {
    if rows != [] {
      DeleteAbsent(rows[1..], id);
    }
  }

  /** `GetUserByEmail`: the first live account with that email. */
  function GetUserByEmail(rows: seq<User>, email: string): (r: Option<User>)
    ensures r.None? <==> forall i :: 0 <= i < |rows| ==> !(rows[i].email == email && !rows[i].isDeleted)
    ensures r.Some? ==> r.value in rows && r.value.email == email && !r.value.isDeleted
  {
    if rows == [] then None
    else if rows[0].email == email && !rows[0].isDeleted then Some(rows[0])
    else GetUserByEmail(rows[1..], email)
  }

  /** The password update writes only the hash and the update stamps, and
      only on rows carrying the account's id. */
  lemma SetPasswordWritesOnlyHashAndStamps(rows: seq<User>, userId: string, hash: string, now: int,
                                           updatedBy: string, i: nat)
    requires i < |rows|
    ensures var r := SetPassword(rows, userId, hash, now, updatedBy);
            && r[i].id == rows[i].id && r[i].email == rows[i].email && r[i].fullName == rows[i].fullName
            && r[i].roleCode == rows[i].roleCode && r[i].createdAt == rows[i].createdAt
            && r[i].createdBy == rows[i].createdBy && r[i].isDeleted == rows[i].isDeleted
            && (rows[i].id != userId ==> r[i] == rows[i])
            && (rows[i].id == userId ==>
                  r[i].password == hash && r[i].updatedAt == Some(now) && r[i].updatedBy == Some(updatedBy))
  {
  }

  /** `UpdateUserPassword`: every row with that id takes the new hash and
      the update stamps. */
  function SetPassword(rows: seq<User>, userId: string, hash: string, now: int, updatedBy: string): (r: seq<User>)
    ensures |r| == |rows|
  {
    seq(|rows|, i requires 0 <= i < |rows| =>
      if rows[i].id == userId
      then rows[i].(password := hash, updatedAt := Some(now), updatedBy := Some(updatedBy))
      else rows[i])
  }

  /** The fallback clause handed to the builder. */
  const DefaultOrderBy: string := "ORDER BY created_at DESC"

  /** The public listing's sortable columns, as written. */
  const PublicSortFieldsAsWritten: map<string, bool> := map["id" := true, "name" := true, "price" := true]

  /** The public listing's sortable columns including the one the service
      sorts by when the caller gives no sort. */
  const PublicSortFields: map<string, bool> := PublicSortFieldsAsWritten["created_at" := true]

  /** The admin listing's sortable columns. */
  const AdminSortFields: map<string, bool> :=
    map["id" := true, "name" := true, "price" := true, "created_at" := true, "updated_at" := true,
        "deleted_at" := true, "created_by" := true, "updated_by" := true, "deleted_by" := true]

  /** `(page - 1) * limit`, computed in int32. */
  function Offset(page: int32, limit: int32): int32
  {
    Wrap32(Wrap32(page - 1) * limit)
  }

  /** `ordered` lists every key of the table exactly once: it is an
      arrangement of the table's rows. */
  predicate ListsEveryKeyOnce(ordered: seq<string>, table: map<string, Product>)
  {
    && (forall i :: 0 <= i < |ordered| ==> ordered[i] in table)
    && (forall id :: id in table ==> id in ordered)
    && (forall i, j :: 0 <= i < j < |ordered| ==> ordered[i] != ordered[j])
  }

  /** The LIMIT/OFFSET window of `rows`. */
  function Window(rows: seq<Product>, offset: nat, limit: nat): (w: seq<Product>)
    ensures |w| <= limit
    ensures offset < |rows| ==> |w| == if offset + limit <= |rows| then limit else |rows| - offset
    ensures forall k :: 0 <= k < |w| ==> offset + k < |rows| && w[k] == rows[offset + k]
  {
    if offset >= |rows| then []
    else if offset + limit <= |rows| then rows[offset..offset + limit]
    else rows[offset..]
  }

  /** The table's rows, in the order the database arranges them for the
      clause (`ordered` lists every key once). */
  function Arranged(ordered: seq<string>, table: map<string, Product>): (r: seq<Product>)
    requires forall i :: 0 <= i < |ordered| ==> ordered[i] in table
    ensures |r| == |ordered|
    ensures forall i :: 0 <= i < |ordered| ==> r[i] == table[ordered[i]]
  {
    seq(|ordered|, i requires 0 <= i < |ordered| && ordered[i] in table => table[ordered[i]])
  }

  /** The rows a non-admin listing sees: the live ones, order kept. */
  function Live(rows: seq<Product>): (r: seq<Product>)
    ensures |r| <= |rows|
    ensures forall k :: 0 <= k < |r| ==> !r[k].isDeleted && r[k] in rows
  {
    if rows == [] then []
    else
      var rest := Live(rows[1..]);
      assert forall k :: 0 <= k < |rest| ==> rest[k] in rows[1..];
      if rows[0].isDeleted then rest else [rows[0]] + rest
  }

  /** The live filter keeps order: the live rows of a concatenation are
      the live rows of each part. */
  lemma {:induction false} LiveAppend(a: seq<Product>, b: seq<Product>)
    ensures Live(a + b) == Live(a) + Live(b)
    decreases |a|
  {
    if a == [] {
      assert a + b == b;
    } else {
      assert (a + b)[0] == a[0] && (a + b)[1..] == a[1..] + b;
      LiveAppend(a[1..], b);
    }
  }

  /** A single row is kept iff it is not soft-deleted. */
  lemma LiveSingle(p: Product)
    ensures Live([p]) == if p.isDeleted then [] else [p]
  {
    assert [p][1..] == [];
  }

  /** The ids `COUNT(id) ... WHERE is_deleted = FALSE` counts. */
  function LiveKeys(table: map<string, Product>): set<string>
  {
    set k | k in table && !table[k].isDeleted
  }

  /** Listing every key once, the live rows number as many as the live
      keys: the public total is the source's count. */
  lemma {:induction false} LiveArrangedCount(ordered: seq<string>, table: map<string, Product>)
    requires forall i :: 0 <= i < |ordered| ==> ordered[i] in table
    requires forall i, j :: 0 <= i < j < |ordered| ==> ordered[i] != ordered[j]
    ensures |Live(Arranged(ordered, table))| == |set k | k in ordered && k in table && !table[k].isDeleted|
    decreases |ordered|
  {
    if ordered == [] {
      assert Arranged(ordered, table) == [];
    } else {
      HeadNotInTail(ordered);
      LiveArrangedCount(ordered[1..], table);
      LiveArrangedCons(ordered, table);
      LiveKeySetCons(ordered, table);
    }
  }

  /** The live keys of a non-empty key list: the head's, if live, and those
      of the tail, which do not include the head. */
  lemma LiveKeySetCons(ordered: seq<string>, table: map<string, Product>)
    requires ordered != [] && ordered[0] in table && ordered[0] !in ordered[1..]
    ensures var s := set k | k in ordered && k in table && !table[k].isDeleted;
            var s' := set k | k in ordered[1..] && k in table && !table[k].isDeleted;
            |s| == (if table[ordered[0]].isDeleted then 0 else 1) + |s'|
  {
    var x := ordered[0];
    var s := set k | k in ordered && k in table && !table[k].isDeleted;
    var s' := set k | k in ordered[1..] && k in table && !table[k].isDeleted;
    assert forall k :: k in ordered <==> k == x || k in ordered[1..];
    if table[x].isDeleted {
      assert s == s';
    } else {
      assert s == s' + {x};
    }
  }

  /** Arranging a non-empty key list puts the head's row first and keeps
      the live filter's order. */
  lemma LiveArrangedCons(ordered: seq<string>, table: map<string, Product>)
    requires ordered != [] && forall i :: 0 <= i < |ordered| ==> ordered[i] in table
    ensures |Live(Arranged(ordered, table))| ==
            (if table[ordered[0]].isDeleted then 0 else 1) + |Live(Arranged(ordered[1..], table))|
  {
    assert Arranged(ordered, table) == [table[ordered[0]]] + Arranged(ordered[1..], table);
    LiveAppend([table[ordered[0]]], Arranged(ordered[1..], table));
    LiveSingle(table[ordered[0]]);
  }

  /** A sequence without repeats: its head is not in its tail, and its tail
      has no repeats. */
  lemma HeadNotInTail(s: seq<string>)
    requires s != [] && forall i, j :: 0 <= i < j < |s| ==> s[i] != s[j]
    ensures s[0] !in s[1..]
    ensures forall i, j :: 0 <= i < j < |s[1..]| ==> s[1..][i] != s[1..][j]
  {
    var rest := s[1..];
    assert forall i :: 0 <= i < |rest| ==> rest[i] == s[i + 1];
  }

  /** Listing every key of the table once, the live rows are exactly as
      many as the table's live keys. */
  lemma LiveListingCount(ordered: seq<string>, table: map<string, Product>)
    requires forall i :: 0 <= i < |ordered| ==> ordered[i] in table
    requires forall id :: id in table ==> id in ordered
    requires forall i, j :: 0 <= i < j < |ordered| ==> ordered[i] != ordered[j]
    ensures |Live(Arranged(ordered, table))| == |LiveKeys(table)|
  {
    LiveArrangedCount(ordered, table);
    assert (set k | k in ordered && k in table && !table[k].isDeleted) == LiveKeys(table);
  }

  /** Listing every key of the table once, there are as many rows as keys:
      the admin total is the source's count. */
  lemma {:induction false} ArrangedCount(ordered: seq<string>, table: map<string, Product>)
    requires forall i :: 0 <= i < |ordered| ==> ordered[i] in table
    requires forall id :: id in table ==> id in ordered
    requires forall i, j :: 0 <= i < j < |ordered| ==> ordered[i] != ordered[j]
    ensures |Arranged(ordered, table)| == |table|
  {
    DistinctCount(ordered);
    assert (set k | k in ordered) == table.Keys;
  }

  /** A sequence without repeats has as many distinct elements as
      positions. */
  lemma {:induction false} DistinctCount(s: seq<string>)
    requires forall i, j :: 0 <= i < j < |s| ==> s[i] != s[j]
    ensures |set k | k in s| == |s|
    decreases |s|
  {
    if s == [] {
      assert (set k | k in s) == {};
    } else {
      HeadNotInTail(s);
      DistinctCount(s[1..]);
      assert (set k | k in s) == (set k | k in s[1..]) + {s[0]};
    }
  }

  /** What a listing query returns: one page of rows and the count of all
      rows the caller may see. */
  datatype Fetched = Fetched(products: seq<Product>, total: nat)

  /** A listing query over the rows it may see, already in clause order:
      count them, stop early when there are none, build the ORDER BY clause
      from the allow-list, and read one window. The database refuses a
      negative LIMIT or OFFSET. */
  function ListQuery(rows: seq<Product>, page: int32, limit: int32, sort: seq<SortRequest>,
                     allowed: map<string, bool>): (r: Result<Fetched, Error>)
    ensures r.Success? ==> r.value.total == |rows|
    ensures rows == [] ==> r == Success(Fetched([], 0))
    ensures rows != [] && r.Success? ==>
              && limit >= 0 && Offset(page, limit) >= 0
              && r.value.products == Window(rows, Offset(page, limit), limit)
    ensures rows != [] ==>
              (r.Success? <==>
                 && OrderByClause(sort, allowed, DefaultOrderBy).Success?
                 && limit >= 0 && Offset(page, limit) >= 0)
  {
    if rows == [] then Success(Fetched([], 0))
    else match OrderByClause(sort, allowed, DefaultOrderBy)
      case Failure(e) => Failure(Plain("invalid sort parameter"))
      case Success(_) =>
        var offset := Offset(page, limit);
        if limit < 0 || offset < 0 then Failure(Plain("failed to fetch products"))
        else Success(Fetched(Window(rows, offset, limit), |rows|))
  }
}
