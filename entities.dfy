/** The six stored entities and their JSON form.

    The database schema is not part of this model. Column types and
    nullability follow what the route handlers write: a column a handler
    fills from a trimmed string is a `string`, a reference a handler may
    clear is an `Option<Id>`, and a column a handler copies unchanged from
    the request body keeps the body's `Value`. Dates are integers
    (milliseconds since the epoch). */
module Entities {
  import opened Js

  /** Row identifiers are strings (the handlers pass `req.params.id` to the
      store unchanged). */
  type Id = string

  datatype Role = ADMIN | USER | SUPPORT

  function RoleName(r: Role): string {
    match r
    case ADMIN => "ADMIN"
    case USER => "USER"
    case SUPPORT => "SUPPORT"
  }

  /** The enum value a string names, if any. */
  function RoleOf(s: string): (r: Option<Role>)
    ensures r.Some? ==> RoleName(r.value) == s
    ensures r.None? ==> s !in {"ADMIN", "USER", "SUPPORT"}
  {
    if s == "ADMIN" then Some(ADMIN)
    else if s == "USER" then Some(USER)
    else if s == "SUPPORT" then Some(SUPPORT)
    else None
  }

  /** The schema's default for a user created without a role. */
  const DefaultRole: Role := USER

  datatype User = User(name: string, email: string, phone: Option<string>,
                       password: string, role: Role, createdAt: int)

  datatype Client = Client(name: string, email: Option<string>, phone: Option<string>,
                           notes: Value, createdAt: int)

  datatype Address = Address(street: string, city: string, state: string, zip: string,
                             createdAt: int)

  datatype Vendor = Vendor(name: string, addressId: Option<Id>, email: Option<string>,
                           phone: Option<string>, rating: Value, notes: Value, createdAt: int)

  datatype Wedding = Wedding(date: int, locationId: Option<Id>, spouse1Id: Option<Id>,
                             spouse2Id: Option<Id>, createdAt: int)

  datatype Task = Task(name: string, priority: int, dueDate: int, weddingId: Id,
                       assignedToId: Option<Id>, currentStatus: Value, completedOn: Option<int>,
                       completedById: Option<Id>, notes: Value, createdAt: int)

  // ---------------------------------------------------------------------------
  // JSON form of a row, with every column, and Prisma's `select`.

  function Nullable(o: Option<string>): Value {
    if o.Some? then Str(o.value) else Null
  }

  function NullableNum(o: Option<int>): Value {
    if o.Some? then Num(o.value) else Null
  }

  function UserRow(id: Id, u: User): Obj {
    map["id" := Str(id), "name" := Str(u.name), "email" := Str(u.email),
        "phone" := Nullable(u.phone), "password" := Str(u.password),
        "role" := Str(RoleName(u.role)), "createdAt" := Num(u.createdAt)]
  }

  function ClientRow(id: Id, c: Client): Obj {
    map["id" := Str(id), "name" := Str(c.name), "email" := Nullable(c.email),
        "phone" := Nullable(c.phone), "notes" := c.notes, "createdAt" := Num(c.createdAt)]
  }

  function AddressRow(id: Id, a: Address): Obj {
    map["id" := Str(id), "street" := Str(a.street), "city" := Str(a.city),
        "state" := Str(a.state), "zip" := Str(a.zip), "createdAt" := Num(a.createdAt)]
  }

  function VendorRow(id: Id, v: Vendor): Obj {
    map["id" := Str(id), "name" := Str(v.name), "addressId" := Nullable(v.addressId),
        "email" := Nullable(v.email), "phone" := Nullable(v.phone), "rating" := v.rating,
        "notes" := v.notes, "createdAt" := Num(v.createdAt)]
  }

  function WeddingRow(id: Id, w: Wedding): Obj {
    map["id" := Str(id), "date" := Num(w.date), "locationId" := Nullable(w.locationId),
        "spouse1Id" := Nullable(w.spouse1Id), "spouse2Id" := Nullable(w.spouse2Id),
        "createdAt" := Num(w.createdAt)]
  }

  function TaskRow(id: Id, t: Task): Obj {
    map["id" := Str(id), "name" := Str(t.name), "priority" := Num(t.priority),
        "dueDate" := Num(t.dueDate), "weddingId" := Str(t.weddingId),
        "assignedToId" := Nullable(t.assignedToId), "currentStatus" := t.currentStatus,
        "completedOn" := NullableNum(t.completedOn), "completedById" := Nullable(t.completedById),
        "notes" := t.notes, "createdAt" := Num(t.createdAt)]
  }

  /** Prisma's `select`: keep only the listed columns. */
  function Select(o: Obj, keys: set<string>): (r: Obj)
    ensures r.Keys == o.Keys * keys
    ensures forall k :: k in r ==> r[k] == o[k]
  {
    map k | k in o && k in keys :: o[k]
  }

  /** The user columns every users route selects: all but the password. */
  const UserPublic: set<string> := {"id", "name", "email", "phone", "role", "createdAt"}

  /** A user as every users route answers it never carries the password
      hash, and carries every other column unchanged. */
  lemma UserViewHidesPassword(id: Id, u: User)
    ensures "password" !in Select(UserRow(id, u), UserPublic)
    ensures Select(UserRow(id, u), UserPublic).Keys == UserRow(id, u).Keys - {"password"}
  {
  }
}
