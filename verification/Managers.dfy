/**
 The manager of a tenant-aware table: every query is scoped to the tenant of the context, every insert
 stamped with it, and neither is possible without a context.
 */
module Managers {
  import opened Schema

  datatype Row<T> = Row(tenant: TenantId, fields: T)

  datatype ManagerError = TenantContextMissing | MultipleRows

  function Scoped<T>(rows: map<int, Row<T>>, tenant: TenantId): map<int, Row<T>>
  {
    map k | k in rows && rows[k].tenant == tenant :: rows[k]
  }

  /** The rows of a tenant that a lookup matches. */
  function Hits<T>(rows: map<int, Row<T>>, tenant: TenantId, matches: T -> bool): set<int>
  {
    set k | k in rows && rows[k].tenant == tenant && matches(rows[k].fields)
  }

  /** Every row of another tenant is as it was, and none has come to be. */
  ghost predicate OthersUntouched<T(!new)>(before: map<int, Row<T>>, after: map<int, Row<T>>, tenant: TenantId)
  {
    forall k ::
      && (k in before && before[k].tenant != tenant ==> k in after && after[k] == before[k])
      && (k in after && after[k].tenant != tenant ==> k in before && before[k] == after[k])
  }

  lemma OnlyElement(s: set<int>, k: int)
    requires k in s && |s| == 1
    ensures s == {k}
  {
    var rest := s - {k};
    assert |rest| == 0;
  }

  lemma TwoElements(s: set<int>) returns (x: int, y: int)
    requires |s| > 1
    ensures x in s && y in s && x != y
  {
    EmptyOrNot(s);
    x :| x in s;
    var rest := s - {x};
    assert |rest| > 0;
    EmptyOrNot(rest);
    y :| y in rest;
  }

  class TenantManager<T(!new)> {
    var rows: map<int, Row<T>>

    constructor (rows: map<int, Row<T>>)
      ensures this.rows == rows
    {
      this.rows := rows;
    }

    method GetQueryset(context: Option<TenantId>) returns (r: Result<map<int, Row<T>>, ManagerError>)
      ensures context.None? ==> r == Err(TenantContextMissing)
      ensures context.Some? ==> r.Ok? && forall k ::
                (k in r.value <==> k in rows && rows[k].tenant == context.value) && (k in r.value ==> r.value[k] == rows[k])
    {
      if context.None? {
        return Err(TenantContextMissing);
      }
      r := Ok(Scoped(rows, context.value));
    }

    /** An explicit tenant argument takes precedence over the context, which must be set all the same. */
    method Create(context: Option<TenantId>, explicit: Option<TenantId>, id: int, fields: T) returns (r: Result<Row<T>, ManagerError>)
      requires id !in rows
      modifies this
      ensures context.None? ==> r == Err(TenantContextMissing) && rows == old(rows)
      ensures context.Some? ==>
                var row := Row(if explicit.Some? then explicit.value else context.value, fields);
                r == Ok(row) && rows == old(rows)[id := row]
    {
      if context.None? {
        return Err(TenantContextMissing);
      }
      var row := Row(if explicit.Some? then explicit.value else context.value, fields);
      rows := rows[id := row];
      r := Ok(row);
    }

    /** The one matching row of the tenant, or a new one; never a row of another tenant. */
    method GetOrCreate(context: Option<TenantId>, explicit: Option<TenantId>, matches: T -> bool, id: int, fields: T)
      returns (r: Result<(int, bool), ManagerError>)
      requires id !in rows
      modifies this
      ensures context.None? ==> r == Err(TenantContextMissing) && rows == old(rows)
      ensures context.Some? ==>
                var tenant := if explicit.Some? then explicit.value else context.value;
                && OthersUntouched(old(rows), rows, tenant)
                && match r
                   case Err(e) =>
                     && e == MultipleRows && rows == old(rows)
                     && exists x, y :: x != y && x in old(rows) && old(rows)[x].tenant == tenant && matches(old(rows)[x].fields)
                                       && y in old(rows) && old(rows)[y].tenant == tenant && matches(old(rows)[y].fields)
                   case Ok((k, created)) =>
                     if created then
                       && k == id && rows == old(rows)[id := Row(tenant, fields)]
                       && forall x :: x in old(rows) && old(rows)[x].tenant == tenant ==> !matches(old(rows)[x].fields)
                     else
                       && rows == old(rows)
                       && k in old(rows) && old(rows)[k].tenant == tenant && matches(old(rows)[k].fields)
                       && forall x :: x in old(rows) && old(rows)[x].tenant == tenant && matches(old(rows)[x].fields) ==> x == k
    {
      if context.None? {
        return Err(TenantContextMissing);
      }
      var tenant := if explicit.Some? then explicit.value else context.value;
      var hits := Hits(rows, tenant, matches);
      if |hits| > 1 {
        ghost var x, y := TwoElements(hits);
        return Err(MultipleRows);
      }
      if |hits| == 0 {
        assert forall x :: x in rows && rows[x].tenant == tenant && matches(rows[x].fields) ==> x in hits;
        rows := rows[id := Row(tenant, fields)];
        return Ok((id, true));
      }
      EmptyOrNot(hits);
      var k :| k in hits;
      OnlyElement(hits, k);
      assert forall x :: x in rows && rows[x].tenant == tenant && matches(rows[x].fields) ==> x in hits;
      r := Ok((k, false));
    }

    /** The one matching row of the tenant gets the new fields and keeps its tenant, or a new row is made. */
    method UpdateOrCreate(context: Option<TenantId>, explicit: Option<TenantId>, matches: T -> bool, id: int, fields: T)
      returns (r: Result<(int, bool), ManagerError>)
      requires id !in rows
      modifies this
      ensures context.None? ==> r == Err(TenantContextMissing) && rows == old(rows)
      ensures context.Some? ==>
                var tenant := if explicit.Some? then explicit.value else context.value;
                && OthersUntouched(old(rows), rows, tenant)
                && match r
                   case Err(e) =>
                     && e == MultipleRows && rows == old(rows)
                     && exists x, y :: x != y && x in old(rows) && old(rows)[x].tenant == tenant && matches(old(rows)[x].fields)
                                       && y in old(rows) && old(rows)[y].tenant == tenant && matches(old(rows)[y].fields)
                   case Ok((k, created)) =>
                     && rows == old(rows)[k := Row(tenant, fields)]
                     && if created then
                          k == id && forall x :: x in old(rows) && old(rows)[x].tenant == tenant ==> !matches(old(rows)[x].fields)
                        else
                          && k in old(rows) && old(rows)[k].tenant == tenant && matches(old(rows)[k].fields)
                          && forall x :: x in old(rows) && old(rows)[x].tenant == tenant && matches(old(rows)[x].fields) ==> x == k
    {
      r := GetOrCreate(context, explicit, matches, id, fields);
      if r.Ok? && !r.value.1 {
        rows := rows[r.value.0 := rows[r.value.0].(fields := fields)];
      }
    }

    method AllTenants() returns (all: map<int, Row<T>>)
      ensures all == rows
    {
      all := rows;
    }
  }

  /** An insert is visible to the tenant it is stamped with, and to no other. */
  lemma InsertIsScoped<T>(rows: map<int, Row<T>>, id: int, row: Row<T>, tenant: TenantId)
    requires id !in rows
    ensures Scoped(rows[id := row], tenant)
         == if row.tenant == tenant then Scoped(rows, tenant)[id := row] else Scoped(rows, tenant)
  {
  }
}
