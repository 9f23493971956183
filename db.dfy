/** The database behind the Prisma client: one table per entity, the
    uniqueness of user e-mails the schema enforces, and `findMany`'s
    filter, ordering and `skip`/`take` window. */
module Db {
  import opened Js
  import opened Entities
  import opened Http

  class Store {
    var users: map<Id, User>
    var clients: map<Id, Client>
    var addresses: map<Id, Address>
    var vendors: map<Id, Vendor>
    var weddings: map<Id, Wedding>
    var tasks: map<Id, Task>

    constructor()
      ensures users == map[] && clients == map[] && addresses == map[]
      ensures vendors == map[] && weddings == map[] && tasks == map[]
      ensures Valid() && RefsIntact()
    {
      users, clients, addresses := map[], map[], map[];
      vendors, weddings, tasks := map[], map[], map[];
    }

    /** The schema's unique index on `User.email`, and the normal form
        (lower case, trimmed) every handler that writes an e-mail gives it. */
    ghost predicate Valid()
      reads this
    {
      ValidUsers(users)
    }

    /** Every reference column points at an existing row. */
    ghost predicate RefsIntact()
      reads this
    {
      Intact(vendors, weddings, tasks, addresses, clients, users)
    }

    // The writes the handlers make through `prisma.<model>.create`,
    // `update` and `delete`. A reference column written must point at an
    // existing row for the references to stay intact.

    /** `prisma.user.findUnique({ where: { email } })`: the lookup goes
        through the unique index, so it compares the e-mail exactly as
        given. */
    method FindByEmail(e: string) returns (r: Option<Id>)
      requires UniqueEmails(users)
      ensures r == Holder(users, e)
    {
      if exists k :: k in users && users[k].email == e {
        var k :| k in users && users[k].email == e;
        r := Some(k);
      } else {
        r := None;
      }
    }

    method PutUser(k: Id, u: User)
      modifies this
      ensures users == old(users)[k := u]
      ensures clients == old(clients) && addresses == old(addresses) && vendors == old(vendors)
      ensures weddings == old(weddings) && tasks == old(tasks)
      ensures old(RefsIntact()) ==> RefsIntact()
    {
      IntactAfterWrite(vendors, weddings, tasks, addresses, clients, users,
                       vendors, weddings, tasks, addresses, clients, users[k := u]);
      users := users[k := u];
    }

    method PutClient(k: Id, c: Client)
      modifies this
      ensures clients == old(clients)[k := c]
      ensures users == old(users) && addresses == old(addresses) && vendors == old(vendors)
      ensures weddings == old(weddings) && tasks == old(tasks)
      ensures old(RefsIntact()) ==> RefsIntact()
    {
      IntactAfterWrite(vendors, weddings, tasks, addresses, clients, users,
                       vendors, weddings, tasks, addresses, clients[k := c], users);
      clients := clients[k := c];
    }

    method PutAddress(k: Id, a: Address)
      modifies this
      ensures addresses == old(addresses)[k := a]
      ensures users == old(users) && clients == old(clients) && vendors == old(vendors)
      ensures weddings == old(weddings) && tasks == old(tasks)
      ensures old(RefsIntact()) ==> RefsIntact()
    {
      IntactAfterWrite(vendors, weddings, tasks, addresses, clients, users,
                       vendors, weddings, tasks, addresses[k := a], clients, users);
      addresses := addresses[k := a];
    }

    method PutVendor(k: Id, v: Vendor)
      modifies this
      ensures vendors == old(vendors)[k := v]
      ensures users == old(users) && clients == old(clients) && addresses == old(addresses)
      ensures weddings == old(weddings) && tasks == old(tasks)
      ensures old(RefsIntact()) && VendorRefsOk(v, addresses) ==> RefsIntact()
    {
      if VendorRefsOk(v, addresses) {
        IntactAfterWrite(vendors, weddings, tasks, addresses, clients, users,
                         vendors[k := v], weddings, tasks, addresses, clients, users);
      }
      vendors := vendors[k := v];
    }

    method PutWedding(k: Id, w: Wedding)
      modifies this
      ensures weddings == old(weddings)[k := w]
      ensures users == old(users) && clients == old(clients) && addresses == old(addresses)
      ensures vendors == old(vendors) && tasks == old(tasks)
      ensures old(RefsIntact()) && WeddingRefsOk(w, addresses, clients) ==> RefsIntact()
    {
      if WeddingRefsOk(w, addresses, clients) {
        IntactAfterWrite(vendors, weddings, tasks, addresses, clients, users,
                         vendors, weddings[k := w], tasks, addresses, clients, users);
      }
      weddings := weddings[k := w];
    }

    method PutTask(k: Id, t: Task)
      modifies this
      ensures tasks == old(tasks)[k := t]
      ensures users == old(users) && clients == old(clients) && addresses == old(addresses)
      ensures vendors == old(vendors) && weddings == old(weddings)
      ensures old(RefsIntact()) && TaskRefsOk(t, weddings, users) ==> RefsIntact()
    {
      if TaskRefsOk(t, weddings, users) {
        IntactAfterWrite(vendors, weddings, tasks, addresses, clients, users,
                         vendors, weddings, tasks[k := t], addresses, clients, users);
      }
      tasks := tasks[k := t];
    }
  }

  ghost predicate Intact(vendors: map<Id, Vendor>, weddings: map<Id, Wedding>, tasks: map<Id, Task>,
                         addresses: map<Id, Address>, clients: map<Id, Client>, users: map<Id, User>)
  {
    && (forall k :: k in vendors ==> VendorRefsOk(vendors[k], addresses))
    && (forall k :: k in weddings ==> WeddingRefsOk(weddings[k], addresses, clients))
    && (forall k :: k in tasks ==> TaskRefsOk(tasks[k], weddings, users))
  }

  /** A write that only adds rows to the referenced tables, and leaves each
      referencing row as it was or gives it references into the new tables,
      keeps every reference intact. */
  lemma IntactAfterWrite(
    v: map<Id, Vendor>, w: map<Id, Wedding>, t: map<Id, Task>,
    a: map<Id, Address>, c: map<Id, Client>, u: map<Id, User>,
    v': map<Id, Vendor>, w': map<Id, Wedding>, t': map<Id, Task>,
    a': map<Id, Address>, c': map<Id, Client>, u': map<Id, User>)
    requires a.Keys <= a'.Keys && c.Keys <= c'.Keys && u.Keys <= u'.Keys && w.Keys <= w'.Keys
    requires forall k :: k in v' ==> (k in v && v'[k] == v[k]) || VendorRefsOk(v'[k], a')
    requires forall k :: k in w' ==> (k in w && w'[k] == w[k]) || WeddingRefsOk(w'[k], a', c')
    requires forall k :: k in t' ==> (k in t && t'[k] == t[k]) || TaskRefsOk(t'[k], w', u')
    ensures Intact(v, w, t, a, c, u) ==> Intact(v', w', t', a', c', u')
  {
    if Intact(v, w, t, a, c, u) {
      forall k | k in v' ensures VendorRefsOk(v'[k], a') {
        if k in v && v'[k] == v[k] {
          assert VendorRefsOk(v[k], a);
        }
      }
      forall k | k in w' ensures WeddingRefsOk(w'[k], a', c') {
        if k in w && w'[k] == w[k] {
          assert WeddingRefsOk(w[k], a, c);
        }
      }
      forall k | k in t' ensures TaskRefsOk(t'[k], w', u') {
        if k in t && t'[k] == t[k] {
          assert TaskRefsOk(t[k], w, u);
        }
      }
    }
  }

  ghost predicate ValidUsers(users: map<Id, User>) {
    UniqueEmails(users) && (forall k :: k in users ==> IsNormalEmail(users[k].email))
  }

  ghost predicate UniqueEmails(users: map<Id, User>) {
    forall a, b :: a in users && b in users && users[a].email == users[b].email ==> a == b
  }

  /** The user holding e-mail `e`, when there is one; with unique e-mails
      there is at most one. */
  ghost function Holder(users: map<Id, User>, e: string): (r: Option<Id>)
    requires UniqueEmails(users)
    ensures r.Some? <==> exists k :: k in users && users[k].email == e
    ensures r.Some? ==> r.value in users && users[r.value].email == e
    ensures r.Some? ==> forall k :: k in users && users[k].email == e ==> k == r.value
  {
    if exists k :: k in users && users[k].email == e then
      var k :| k in users && users[k].email == e; Some(k)
    else None
  }

  /** Lower case and trimmed: what `NormalEmail` produces and leaves alone. */
  predicate IsNormalEmail(e: string) {
    IsTrimmed(e) && IsLowered(e)
  }

  /** A row other than `self` already holds `email` (Prisma's P2002). */
  predicate EmailTaken(users: map<Id, User>, email: string, self: Option<Id>) {
    exists k :: k in users && Some(k) != self && users[k].email == email
  }

  predicate RefIn<R>(r: Option<Id>, table: map<Id, R>) {
    r.None? || r.value in table
  }

  predicate VendorRefsOk(v: Vendor, addresses: map<Id, Address>) {
    RefIn(v.addressId, addresses)
  }

  predicate WeddingRefsOk(w: Wedding, addresses: map<Id, Address>, clients: map<Id, Client>) {
    RefIn(w.locationId, addresses) && RefIn(w.spouse1Id, clients) && RefIn(w.spouse2Id, clients)
  }

  predicate TaskRefsOk(t: Task, weddings: map<Id, Wedding>, users: map<Id, User>) {
    t.weddingId in weddings && RefIn(t.assignedToId, users) && RefIn(t.completedById, users)
  }

  // ---------------------------------------------------------------------------
  // findMany: the rows that satisfy `where`, in `orderBy` order (rows that
  // tie come in no particular order), then `skip` and `take`.

  ghost predicate TotalPreorder<R(!new)>(le: (R, R) -> bool) {
    && (forall a, b :: le(a, b) || le(b, a))
    && (forall a, b, c :: le(a, b) && le(b, c) ==> le(a, c))
  }

  predicate SortedBy<R>(rows: map<Id, R>, le: (R, R) -> bool, ids: seq<Id>)
    requires forall i :: 0 <= i < |ids| ==> ids[i] in rows
  {
    forall i, j :: 0 <= i < j < |ids| ==> le(rows[ids[i]], rows[ids[j]])
  }

  predicate Distinct(ids: seq<Id>) {
    forall i, j :: 0 <= i < j < |ids| ==> ids[i] != ids[j]
  }

  /** `ids` lists every kept row exactly once, in order. */
  predicate Arranged<R>(rows: map<Id, R>, keep: R -> bool, le: (R, R) -> bool, ids: seq<Id>) {
    && (forall i :: 0 <= i < |ids| ==> ids[i] in rows && keep(rows[ids[i]]))
    && (forall k :: k in rows && keep(rows[k]) ==> k in ids)
    && Distinct(ids)
    && SortedBy(rows, le, ids)
  }

  /** Insert `x` after every row that orders before it. */
  ghost function Insert<R(!new)>(rows: map<Id, R>, le: (R, R) -> bool, ids: seq<Id>, x: Id): (r: seq<Id>)
    requires TotalPreorder(le)
    requires x in rows && x !in ids
    requires forall i :: 0 <= i < |ids| ==> ids[i] in rows
    requires Distinct(ids) && SortedBy(rows, le, ids)
    ensures |r| == |ids| + 1
    ensures forall i :: 0 <= i < |r| ==> r[i] in rows
    ensures forall k :: k in r <==> k in ids || k == x
    ensures Distinct(r) && SortedBy(rows, le, r)
  {
    if ids == [] then [x]
    else if le(rows[x], rows[ids[0]]) then
      assert forall j :: 0 <= j < |ids| ==> le(rows[x], rows[ids[j]]) by {
        forall j | 0 < j < |ids| ensures le(rows[x], rows[ids[j]]) {
          assert le(rows[ids[0]], rows[ids[j]]);
        }
      }
      Prepend(rows, le, x, ids);
      [x] + ids
    else
      var rest := Insert(rows, le, ids[1..], x);
      var r := [ids[0]] + rest;
      assert le(rows[ids[0]], rows[x]);
      assert forall j :: 0 <= j < |rest| ==> le(rows[ids[0]], rows[rest[j]]) && rest[j] != ids[0] by {
        forall j | 0 <= j < |rest| ensures le(rows[ids[0]], rows[rest[j]]) && rest[j] != ids[0] {
          if rest[j] != x {
            assert rest[j] in ids[1..];
            var m :| 0 <= m < |ids[1..]| && ids[1..][m] == rest[j];
            assert ids[m + 1] == rest[j];
          } else {
            assert ids[0] in ids;
          }
        }
      }
      Prepend(rows, le, ids[0], rest);
      r
  }

  /** A row that orders before every listed one and is not among them can
      go first. */
  lemma Prepend<R>(rows: map<Id, R>, le: (R, R) -> bool, y: Id, ids: seq<Id>)
    requires y in rows && forall i :: 0 <= i < |ids| ==> ids[i] in rows
    requires Distinct(ids) && SortedBy(rows, le, ids)
    requires forall j :: 0 <= j < |ids| ==> le(rows[y], rows[ids[j]]) && ids[j] != y
    ensures forall i :: 0 <= i < |[y] + ids| ==> ([y] + ids)[i] in rows
    ensures Distinct([y] + ids) && SortedBy(rows, le, [y] + ids)
  {
    var r := [y] + ids;
    assert forall j :: 0 < j < |r| ==> r[j] == ids[j - 1];
  }

  /** Whatever the rows, there is an order in which the database can list
      the kept ones. */
  lemma {:induction false} ArrangementExists<R(!new)>(rows: map<Id, R>, keep: R -> bool, le: (R, R) -> bool)
    requires TotalPreorder(le)
    ensures exists ids :: Arranged(rows, keep, le, ids)
    decreases |rows|
  {
    if rows == map[] {
      assert Arranged(rows, keep, le, []);
    } else {
      var x :| x in rows;
      var rest := rows - {x};
      assert |rest| < |rows| by {
        assert rest.Keys == rows.Keys - {x};
      }
      ArrangementExists(rest, keep, le);
      var ids :| Arranged(rest, keep, le, ids);
      assert forall i :: 0 <= i < |ids| ==> ids[i] in rows && rest[ids[i]] == rows[ids[i]];
      assert SortedBy(rows, le, ids);
      if keep(rows[x]) {
        var r := Insert(rows, le, ids, x);
        forall i | 0 <= i < |r| ensures keep(rows[r[i]]) {
          if r[i] != x {
            assert r[i] in r;
            var m :| 0 <= m < |ids| && ids[m] == r[i];
          }
        }
        assert Arranged(rows, keep, le, r);
      } else {
        assert Arranged(rows, keep, le, ids);
      }
    }
  }

  /** `skip` and `take`. A negative `skip` is refused by the client; a
      negative `take` pages backwards: `skip` counts from the end and the
      last `-take` rows before that point are kept, in order. */
  function Window<T>(s: seq<T>, skip: Option<int>, take: Option<int>): (r: Result<seq<T>, Failure>)
    ensures r.Err? <==> skip.Some? && skip.value < 0
    ensures r.Err? ==> r.error == Uncoded
    ensures r.Ok? ==> exists a, b :: 0 <= a <= b <= |s| && r.value == s[a..b]
  {
    var k := if skip.Some? then skip.value else 0;
    if k < 0 then Err(Uncoded)
    else
      var from := if k <= |s| then k else |s|;
      match take
      case None => assert s[from..] == s[from..|s|]; Ok(s[from..])
      case Some(t) =>
        if t >= 0 then
          var to := if t <= |s| - from then from + t else |s|;
          Ok(s[from..to])
        else
          var to := |s| - from;
          var start := if -t <= to then to + t else 0;
          Ok(s[start..to])
  }

  /** Forward paging: the window starts `skip` rows in and holds at most
      `take` of the rows that follow. */
  lemma WindowForward<T>(s: seq<T>, skip: nat, take: Option<nat>)
    ensures Window(s, Some(skip), take).Ok?
    ensures var w := Window(s, Some(skip), take).value;
      && (take.Some? ==> |w| == if skip + take.value <= |s| then take.value
                                else if skip <= |s| then |s| - skip else 0)
      && (take.None? ==> |w| == if skip <= |s| then |s| - skip else 0)
      && (forall i :: 0 <= i < |w| ==> w[i] == s[skip + i])
  {
  }

  /** `prisma.<model>.findMany({ where, orderBy, skip, take })`. */
  method FindMany<R(!new)>(rows: map<Id, R>, keep: R -> bool, le: (R, R) -> bool,
                           skip: Option<int>, take: Option<int>)
    returns (r: Result<seq<Id>, Failure>)
    requires TotalPreorder(le)
    ensures r.Err? <==> skip.Some? && skip.value < 0
    ensures r.Err? ==> r.error == Uncoded
    ensures r.Ok? ==> exists ids :: Arranged(rows, keep, le, ids) && Window(ids, skip, take) == r
    ensures r.Ok? ==> forall i :: 0 <= i < |r.value| ==> r.value[i] in rows && keep(rows[r.value[i]])
  {
    ArrangementExists(rows, keep, le);
    var ids :| Arranged(rows, keep, le, ids);
    r := Window(ids, skip, take);
    if r.Ok? {
      var a, b :| 0 <= a <= b <= |ids| && r.value == ids[a..b];
      forall i | 0 <= i < |r.value| ensures r.value[i] in rows && keep(rows[r.value[i]]) {
        assert r.value[i] == ids[a + i];
      }
    }
    assert Arranged(rows, keep, le, ids) && Window(ids, skip, take) == r;
  }

  /** Without `skip` and `take` the window is the whole arrangement: every
      kept row, once. */
  lemma UnpagedListsAll<T>(s: seq<T>)
    ensures Window(s, None, None) == Ok(s)
  {
  }

  /** The JSON of each listed row. */
  function RowsOf<R>(rows: map<Id, R>, ids: seq<Id>, view: (Id, R) -> Obj): seq<Obj> {
    seq(|ids|, i requires 0 <= i < |ids| => if ids[i] in rows then view(ids[i], rows[ids[i]]) else map[])
  }

  // ---------------------------------------------------------------------------
  // Orderings used by `orderBy`.

  /** Ascending order of strings, code point by code point (the database's
      collation is not modelled). */
  predicate LexLe(a: string, b: string)
    decreases |a|
  {
    a == [] || (b != [] && (a[0] < b[0] || (a[0] == b[0] && LexLe(a[1..], b[1..]))))
  }

  lemma {:induction false} LexLeTotal(a: string, b: string)
    ensures LexLe(a, b) || LexLe(b, a)
    decreases |a|
  {
    if a != [] && b != [] && a[0] == b[0] {
      LexLeTotal(a[1..], b[1..]);
    }
  }

  lemma {:induction false} LexLeTransitive(a: string, b: string, c: string)
    requires LexLe(a, b) && LexLe(b, c)
    ensures LexLe(a, c)
    decreases |a|
  {
    if a != [] && b != [] && c != [] && a[0] == b[0] && b[0] == c[0] {
      LexLeTransitive(a[1..], b[1..], c[1..]);
    }
  }

  lemma LexLeIsTotalPreorder<R(!new)>(key: R -> string, le: (R, R) -> bool)
    requires forall x, y :: le(x, y) == LexLe(key(x), key(y))
    ensures TotalPreorder(le)
  {
    forall x: R, y: R ensures le(x, y) || le(y, x) {
      LexLeTotal(key(x), key(y));
    }
    forall x: R, y: R, z: R | le(x, y) && le(y, z)
      ensures le(x, z)
    {
      LexLeTransitive(key(x), key(y), key(z));
    }
  }
}
