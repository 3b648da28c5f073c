/** The admin-failure list: two equality queries and a filter, against a scan of every job. */
module FailureIndex {
  import opened Text

  /** A stored job document. `usersCreated` is None when the document has no such field; the parsed job then
      counts 0. `adminCreated` is None for a null as well as for a missing field. */
  datatype Row = Row(
    id: string, adminCreated: Option<bool>, status: string, usersCreated: Option<nat>, usersExisting: nat,
    hasPayload: bool, createdAt: int)

  predicate IsAdminFailure(r: Row) {
    || r.adminCreated == Some(false)
    || (r.adminCreated.None? && r.status == "COMPLETED" && (r.usersCreated.None? || r.usersCreated.value == 0)
        && r.usersExisting == 0 && r.hasPayload)
  }

  /** The flag decides where there is one; otherwise a failure is a completed job of a stored request for which no
      user was created and none existed. */
  lemma FailureTable(r: Row)
    ensures r.adminCreated.Some? ==> (IsAdminFailure(r) <==> !r.adminCreated.value)
    ensures r.adminCreated.None? && (r.status != "COMPLETED" || !r.hasPayload) ==> !IsAdminFailure(r)
    ensures r.adminCreated.None? && r.status == "COMPLETED" && r.hasPayload ==>
              (IsAdminFailure(r) <==> r.usersExisting + (if r.usersCreated.Some? then r.usersCreated.value else 0) == 0)
  {
  }

  datatype Field = AdminCreatedIsFalse | UsersCreatedIsZero

  /** The store's equality query sees the stored field, not the parsed default. */
  predicate Matches(r: Row, f: Field) {
    match f
    case AdminCreatedIsFalse => r.adminCreated == Some(false)
    case UsersCreatedIsZero => r.usersCreated == Some(0)
  }

  /** One of the two queries returns the row. */
  predicate Seen(r: Row) {
    Matches(r, AdminCreatedIsFalse) || Matches(r, UsersCreatedIsZero)
  }

  predicate DistinctIds(rows: seq<Row>) {
    forall i, j :: 0 <= i < j < |rows| ==> rows[i].id != rows[j].id
  }

  predicate NewestFirst(rows: seq<Row>) {
    forall i, j :: 0 <= i < j < |rows| ==> rows[i].createdAt >= rows[j].createdAt
  }

  // ---- Sorting, newest first, keeping the order of equals ----

  function Insert(x: Row, rows: seq<Row>): (r: seq<Row>)
    ensures forall y :: y in r ==> y == x || y in rows
  {
    if rows == [] || x.createdAt >= rows[0].createdAt then [x] + rows else [rows[0]] + Insert(x, rows[1..])
  }

  function SortNewestFirst(rows: seq<Row>): seq<Row> {
    if rows == [] then [] else Insert(rows[0], SortNewestFirst(rows[1..]))
  }

  lemma {:induction false} InsertSorts(x: Row, rows: seq<Row>)
    requires NewestFirst(rows)
    ensures NewestFirst(Insert(x, rows))
  {
    if rows != [] && x.createdAt < rows[0].createdAt {
      InsertSorts(x, rows[1..]);
      var rest := Insert(x, rows[1..]);
      forall i | 0 <= i < |rest| ensures rows[0].createdAt >= rest[i].createdAt {
        assert rest[i] in rest;
      }
    }
  }

  lemma {:induction false} InsertAdds(x: Row, rows: seq<Row>)
    ensures multiset(Insert(x, rows)) == multiset(rows) + multiset{x}
  {
    if rows != [] && x.createdAt < rows[0].createdAt {
      InsertAdds(x, rows[1..]);
      assert rows == [rows[0]] + rows[1..];
    }
  }

  lemma {:induction false} SortSorts(rows: seq<Row>)
    ensures NewestFirst(SortNewestFirst(rows)) && multiset(SortNewestFirst(rows)) == multiset(rows)
  {
    if rows != [] {
      SortSorts(rows[1..]);
      InsertSorts(rows[0], SortNewestFirst(rows[1..]));
      InsertAdds(rows[0], SortNewestFirst(rows[1..]));
      assert rows == [rows[0]] + rows[1..];
    }
  }

  // ---- The list ----

  /** `found` as a dictionary in insertion order: setting a key that is there keeps its place. */
  function Put(found: seq<Row>, r: Row): seq<Row> {
    if exists i :: 0 <= i < |found| && found[i].id == r.id then found else found + [r]
  }

  /** No completed job without admin flag and users lacks the field the second query asks for. */
  predicate FieldsStored(rows: seq<Row>) {
    forall r :: r in rows && r.adminCreated.None? && r.status == "COMPLETED" && r.usersExisting == 0 && r.hasPayload ==>
      r.usersCreated.Some?
  }

  /** The list holds, newest first and each once, the jobs flagged as failed and the unflagged ones that completed
      with a stored zero and no existing user; it agrees with a scan of every job exactly when the field is stored
      wherever the scan would rely on its default. */
  method ListAdminFailures(rows: seq<Row>) returns (list: seq<Row>)
    requires DistinctIds(rows)
    ensures NewestFirst(list)
    ensures forall r :: multiset(list)[r] ==
              if r in rows && (r.adminCreated == Some(false)
                               || (r.adminCreated.None? && r.status == "COMPLETED" && r.usersCreated == Some(0)
                                   && r.usersExisting == 0 && r.hasPayload))
              then 1 else 0
    ensures (forall r :: r in rows && IsAdminFailure(r) ==> r in multiset(list)) <==> FieldsStored(rows)
  {
    var found: seq<Row> := [];
    var fields := [AdminCreatedIsFalse, UsersCreatedIsZero];
    for q := 0 to |fields|
      invariant DistinctIds(found)
      invariant forall r :: r in found <==>
                  r in rows && IsAdminFailure(r) && exists p :: 0 <= p < q && Matches(r, fields[p])
    {
      ghost var before := found;
      for n := 0 to |rows|
        invariant DistinctIds(found)
        invariant forall r :: r in found <==>
                    r in before || (r in rows[..n] && IsAdminFailure(r) && Matches(r, fields[q]))
      {
        assert rows[..n + 1] == rows[..n] + [rows[n]];
        if Matches(rows[n], fields[q]) && IsAdminFailure(rows[n]) {
          PutRow(rows, found, rows[n]);
          found := Put(found, rows[n]);
        }
      }
      assert rows[..|rows|] == rows;
    }
    list := SortNewestFirst(found);
    SortSorts(found);
    forall r ensures multiset(list)[r] ==
              if r in rows && IsAdminFailure(r) && Seen(r) then 1 else 0
    {
      OnceEach(found, r);
      assert fields[0] == AdminCreatedIsFalse && fields[1] == UsersCreatedIsZero;
    }
  }

  lemma PutRow(rows: seq<Row>, found: seq<Row>, x: Row)
    requires DistinctIds(rows) && DistinctIds(found) && x in rows && forall r :: r in found ==> r in rows
    ensures DistinctIds(Put(found, x)) && forall r :: r in Put(found, x) <==> r in found || r == x
  {
    if exists i :: 0 <= i < |found| && found[i].id == x.id {
      var i :| 0 <= i < |found| && found[i].id == x.id;
      assert found[i] in rows;
    }
  }

  lemma {:induction false} OnceEach(rows: seq<Row>, r: Row)
    requires DistinctIds(rows)
    ensures multiset(rows)[r] == if r in rows then 1 else 0
  {
    if rows != [] {
      assert rows == [rows[0]] + rows[1..];
      OnceEach(rows[1..], r);
    }
  }

  /** A completed job without an admin, stored before the counters existed: a failure neither query returns. */
  lemma MissedFailure(id: string, createdAt: int)
    ensures var r := Row(id, None, "COMPLETED", None, 0, true, createdAt);
            IsAdminFailure(r) && !Seen(r) && !FieldsStored([r])
  {
    var r := Row(id, None, "COMPLETED", None, 0, true, createdAt);
    assert r in [r];
  }
}
