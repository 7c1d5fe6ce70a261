/** The DatabaseStorage of server/storage.ts over in-memory tables: a
    `Store` object holds one sequence of rows per table and one serial
    counter per table; its methods are the inserts and updates, and the
    filtered reads are functions of the table contents. */
module Storage {
  import opened Wrappers
  import opened Seqs
  import opened Schema

  /** JavaScript truthiness of an optional number: `undefined` and 0 are falsy. */
  predicate Truthy(n: Option<int>)
  {
    n.Some? && n.value != 0
  }

  // ---------------------------------------------------------------- lookups by id

  function UserByUsername(users: seq<User>, username: string): (r: Option<User>)
    ensures r.Some? ==> r.value in users && r.value.username == username
    ensures r.None? <==> forall u :: u in users ==> u.username != username
  {
    match FindIndex(users, (u: User) => u.username == username)
    case None => None
    case Some(k) => Some(users[k])
  }

  function ApartmentById(apts: seq<Apartment>, id: Id): (r: Option<Apartment>)
    ensures r.Some? ==> r.value in apts && r.value.id == id
    ensures r.None? <==> forall a :: a in apts ==> a.id != id
  {
    match FindIndex(apts, (a: Apartment) => a.id == id)
    case None => None
    case Some(k) => Some(apts[k])
  }

  function RequestById(reqs: seq<MaintenanceRequest>, id: Id): (r: Option<MaintenanceRequest>)
    ensures r.Some? ==> r.value in reqs && r.value.id == id
    ensures r.None? <==> forall m :: m in reqs ==> m.id != id
  {
    match FindIndex(reqs, (m: MaintenanceRequest) => m.id == id)
    case None => None
    case Some(k) => Some(reqs[k])
  }

  function VisitorById(vs: seq<Visitor>, id: Id): (r: Option<Visitor>)
    ensures r.Some? ==> r.value in vs && r.value.id == id
    ensures r.None? <==> forall v :: v in vs ==> v.id != id
  {
    match FindIndex(vs, (v: Visitor) => v.id == id)
    case None => None
    case Some(k) => Some(vs[k])
  }

  // ---------------------------------------------------------------- filtered reads

  /** getApartmentsByTenant: the apartments whose tenant is `tenantId`. */
  function ApartmentsByTenant(apts: seq<Apartment>, tenantId: Id): (r: seq<Apartment>)
    ensures forall a :: a in r <==> a in apts && a.tenantId == Some(tenantId)
  {
    Filter(apts, (a: Apartment) => a.tenantId == Some(tenantId))
  }

  /** getApartments: the apartments of owner `ownerId` when it is truthy,
      otherwise every apartment. */
  function GetApartments(apts: seq<Apartment>, ownerId: Option<Id>): (r: seq<Apartment>)
    ensures Truthy(ownerId) ==> forall a :: a in r <==> a in apts && a.ownerId == ownerId
    ensures !Truthy(ownerId) ==> r == apts
  {
    if Truthy(ownerId) then Filter(apts, (a: Apartment) => a.ownerId == ownerId) else apts
  }

  /** getMaintenanceRequests: the requests of tenant `tenantId` when it is
      truthy, otherwise every request. */
  function GetMaintenanceRequests(reqs: seq<MaintenanceRequest>, tenantId: Option<Id>): (r: seq<MaintenanceRequest>)
    ensures Truthy(tenantId) ==> forall m :: m in r <==> m in reqs && m.tenantId == tenantId.value
    ensures !Truthy(tenantId) ==> r == reqs
  {
    if Truthy(tenantId) then Filter(reqs, (m: MaintenanceRequest) => m.tenantId == tenantId.value) else reqs
  }

  /** getPaymentsByTenant: the payments made by tenant `tenantId`. */
  function PaymentsByTenant(pays: seq<Payment>, tenantId: Id): (r: seq<Payment>)
    ensures forall p :: p in r <==> p in pays && p.tenantId == tenantId
  {
    Filter(pays, (p: Payment) => p.tenantId == tenantId)
  }

  /** The ids of the apartments owned by `ownerId`. */
  function OwnedApartmentIds(apts: seq<Apartment>, ownerId: Id): set<Id>
  {
    set a | a in apts && a.ownerId == Some(ownerId) :: a.id
  }

  /** getPaymentsByOwner (declared, with no body in the store): the payments
      made for apartments that `ownerId` owns. */
  function PaymentsByOwner(pays: seq<Payment>, apts: seq<Apartment>, ownerId: Id): (r: seq<Payment>)
    ensures forall p :: p in r <==> p in pays && exists a :: a in apts && a.ownerId == Some(ownerId) && a.id == p.apartmentId
  {
    var owned := OwnedApartmentIds(apts, ownerId);
    Filter(pays, (p: Payment) => p.apartmentId in owned)
  }

  /** The rows getVisitors selects: those of apartment `apartmentId` when it
      is truthy, otherwise all of them. */
  function VisitorsOfApartment(vs: seq<Visitor>, apartmentId: Option<Id>): (r: seq<Visitor>)
    ensures Truthy(apartmentId) ==> forall v :: v in r <==> v in vs && v.apartmentId == apartmentId.value
    ensures !Truthy(apartmentId) ==> r == vs
  {
    if Truthy(apartmentId) then Filter(vs, (v: Visitor) => v.apartmentId == apartmentId.value) else vs
  }

  /** A visitor as getVisitors returns it: `pendingApproval === true`. */
  function StrictApproval(v: Visitor): Visitor
  {
    v.(pendingApproval := Some(v.pendingApproval == Some(true)))
  }

  /** getVisitors: the selected rows, in table order, each with its
      `pendingApproval` made a strict boolean (anything but true is false). */
  function GetVisitors(vs: seq<Visitor>, apartmentId: Option<Id>): (r: seq<Visitor>)
    ensures |r| == |VisitorsOfApartment(vs, apartmentId)|
    ensures forall i :: 0 <= i < |r| ==>
              var v := VisitorsOfApartment(vs, apartmentId)[i];
              r[i].pendingApproval == Some(v.pendingApproval == Some(true))
              && r[i].(pendingApproval := v.pendingApproval) == v
    ensures forall w :: w in r ==> w.pendingApproval.Some?
    ensures Truthy(apartmentId) ==> forall w :: w in r ==> w.apartmentId == apartmentId.value
    ensures forall v :: v in VisitorsOfApartment(vs, apartmentId) ==> StrictApproval(v) in r
  {
    var rows := VisitorsOfApartment(vs, apartmentId);
    seq(|rows|, i requires 0 <= i < |rows| => StrictApproval(rows[i]))
  }

  function CreatedAt(a: Announcement): int
  {
    a.createdAt
  }

  /** getAnnouncements: every announcement, newest first. */
  function GetAnnouncements(anns: seq<Announcement>): (r: seq<Announcement>)
    ensures forall i, j :: 0 <= i < j < |r| ==> r[i].createdAt >= r[j].createdAt
    ensures multiset(r) == multiset(anns)
  {
    var sorted := SortDesc(anns, CreatedAt);
    assert SortedDesc(sorted, CreatedAt);
    sorted
  }

  // ---------------------------------------------------------------- partial updates

  /** The `.set({...})` of an update on `visitors`: each field either kept
      (`undefined`) or overwritten. */
  datatype VisitorPatch = VisitorPatch(
    status: Field<VisitorStatus>,
    actualEntryAt: Field<Option<Time>>,
    actualExitAt: Field<Option<Time>>,
    approvedBy: Field<Option<Id>>,
    pendingApproval: Field<Option<bool>>)

  function ApplyVisitorPatch(v: Visitor, p: VisitorPatch): Visitor
  {
    v.(status := Write(p.status, v.status),
       actualEntryAt := Write(p.actualEntryAt, v.actualEntryAt),
       actualExitAt := Write(p.actualExitAt, v.actualExitAt),
       approvedBy := Write(p.approvedBy, v.approvedBy),
       pendingApproval := Write(p.pendingApproval, v.pendingApproval))
  }

  /** The set clause updateVisitorStatus builds. A date is always truthy,
      so a given time is written; `approvedBy || undefined` drops a 0 id;
      `pendingApproval` is written whenever it is defined. */
  function StatusSetClause(status: VisitorStatus, entryAt: Option<Time>, exitAt: Option<Time>,
                           approvedBy: Option<Id>, pendingApproval: Option<bool>): VisitorPatch
  {
    VisitorPatch(
      Set(status),
      if entryAt.Some? then Set(entryAt) else Keep,
      if exitAt.Some? then Set(exitAt) else Keep,
      if Truthy(approvedBy) then Set(approvedBy) else Keep,
      if pendingApproval.Some? then Set(pendingApproval) else Keep)
  }

  /** What updateVisitorStatus does to one row, stated field by field:
      status always written, the two times and the approver only when
      given (and truthy), the flag only when defined, nothing else. */
  ghost predicate StatusUpdated(before: Visitor, after: Visitor, status: VisitorStatus,
                                entryAt: Option<Time>, exitAt: Option<Time>,
                                approvedBy: Option<Id>, pendingApproval: Option<bool>)
  {
    && after.status == status
    && after.actualEntryAt == (if entryAt.Some? then entryAt else before.actualEntryAt)
    && after.actualExitAt == (if exitAt.Some? then exitAt else before.actualExitAt)
    && after.approvedBy == (if Truthy(approvedBy) then approvedBy else before.approvedBy)
    && after.pendingApproval == (if pendingApproval.Some? then pendingApproval else before.pendingApproval)
    && after.id == before.id && after.name == before.name && after.purpose == before.purpose
    && after.apartmentId == before.apartmentId && after.expectedAt == before.expectedAt
    && after.contactNumber == before.contactNumber
  }

  /** The visitors table after `patch` is applied to the rows with key `id`. */
  function PatchVisitors(vs: seq<Visitor>, id: Id, patch: VisitorPatch): (r: seq<Visitor>)
    ensures |r| == |vs|
    ensures forall i :: 0 <= i < |vs| ==> r[i].id == vs[i].id
    ensures forall i :: 0 <= i < |vs| && vs[i].id != id ==> r[i] == vs[i]
    ensures forall i :: 0 <= i < |vs| && vs[i].id == id ==> r[i] == ApplyVisitorPatch(vs[i], patch)
  {
    MapWhere(vs, (v: Visitor) => v.id == id, (v: Visitor) => ApplyVisitorPatch(v, patch))
  }

  /** Applying the set clause to the rows with key `id` updates each of
      them as `StatusUpdated` says, and the row found under that key is
      among the patched rows. */
  lemma SetClauseUpdates(vs: seq<Visitor>, id: Id, status: VisitorStatus, entryAt: Option<Time>, exitAt: Option<Time>,
                         approvedBy: Option<Id>, pendingApproval: Option<bool>)
    ensures var patch := StatusSetClause(status, entryAt, exitAt, approvedBy, pendingApproval);
            forall i :: 0 <= i < |vs| && vs[i].id == id ==>
              StatusUpdated(vs[i], PatchVisitors(vs, id, patch)[i], status, entryAt, exitAt, approvedBy, pendingApproval)
    ensures var patch := StatusSetClause(status, entryAt, exitAt, approvedBy, pendingApproval);
            VisitorById(vs, id).Some? ==>
              && ApplyVisitorPatch(VisitorById(vs, id).value, patch) in PatchVisitors(vs, id, patch)
              && StatusUpdated(VisitorById(vs, id).value, ApplyVisitorPatch(VisitorById(vs, id).value, patch),
                               status, entryAt, exitAt, approvedBy, pendingApproval)
  {
    var patch := StatusSetClause(status, entryAt, exitAt, approvedBy, pendingApproval);
    var found := VisitorById(vs, id);
    if found.Some? {
      var k :| 0 <= k < |vs| && vs[k] == found.value;
      assert PatchVisitors(vs, id, patch)[k] == ApplyVisitorPatch(found.value, patch);
    }
  }

  /** A partial update of a maintenance request (`Partial<InsertMaintenanceRequest>`). */
  datatype MaintenancePatch = MaintenancePatch(
    apartmentId: Field<Id>,
    tenantId: Field<Id>,
    description: Field<string>,
    status: Field<MaintenanceStatus>,
    updatedAt: Field<Time>)

  function ApplyMaintenancePatch(m: MaintenanceRequest, p: MaintenancePatch): MaintenanceRequest
  {
    m.(apartmentId := Write(p.apartmentId, m.apartmentId),
       tenantId := Write(p.tenantId, m.tenantId),
       description := Write(p.description, m.description),
       status := Write(p.status, m.status),
       updatedAt := Write(p.updatedAt, m.updatedAt))
  }

  /** A partial update of an apartment (`Partial<InsertApartment>`). */
  datatype ApartmentPatch = ApartmentPatch(
    number: Field<string>,
    building: Field<string>,
    tenantId: Field<Option<Id>>,
    ownerId: Field<Option<Id>>,
    rent: Field<int>,
    status: Field<ApartmentStatus>,
    area: Field<int>,
    amenities: Field<Option<seq<string>>>,
    lastMaintenanceDate: Field<Option<Time>>,
    societyName: Field<string>)

  function ApplyApartmentPatch(a: Apartment, p: ApartmentPatch): Apartment
  {
    a.(number := Write(p.number, a.number),
       building := Write(p.building, a.building),
       tenantId := Write(p.tenantId, a.tenantId),
       ownerId := Write(p.ownerId, a.ownerId),
       rent := Write(p.rent, a.rent),
       status := Write(p.status, a.status),
       area := Write(p.area, a.area),
       amenities := Write(p.amenities, a.amenities),
       lastMaintenanceDate := Write(p.lastMaintenanceDate, a.lastMaintenanceDate),
       societyName := Write(p.societyName, a.societyName))
  }

  // ---------------------------------------------------------------- createUser seed rows

  /** The society name the corrected seeding gives the sample apartment;
      the source gives none. The empty name is the one the client's
      new-property form starts from. */
  const SeedSocietyName: string := ""

  /** The sample apartment a new tenant receives, with a society name. */
  function TenantSeedApartment(tenantId: Id, now: Time): NewApartment
  {
    NewApartment("101", "Block A", Some(tenantId), None, 1200, Some(Occupied), 1000,
                 Some(["AC", "Parking"]), Some(now), SeedSocietyName)
  }

  /** The column values an apartment insert hands the database. The insert
      schema always carries a society name, but an object written out by
      hand, as the seeding does, may leave the column out. */
  datatype ApartmentValues = ApartmentValues(
    number: string,
    building: string,
    tenantId: Option<Id>,
    ownerId: Option<Id>,
    rent: int,
    status: Option<ApartmentStatus>,
    area: int,
    amenities: Option<seq<string>>,
    lastMaintenanceDate: Option<Time>,
    societyName: Option<string>)

  /** The values of an insert that passed the insert schema. */
  function ValuesOf(a: NewApartment): ApartmentValues
  {
    ApartmentValues(a.number, a.building, a.tenantId, a.ownerId, a.rent, a.status, a.area,
                    a.amenities, a.lastMaintenanceDate, Some(a.societyName))
  }

  const SocietyNameMissing := "null value in column society_name violates not-null constraint"

  /** An apartment insert as the database checks it: society_name is NOT
      NULL with no default, so values without it are refused; any other
      values are stored, with the column defaults filled in. */
  function InsertApartmentRow(id: Id, v: ApartmentValues): (r: Result<Apartment>)
    ensures r.Err? <==> v.societyName.None?
    ensures r.Err? ==> r.message == SocietyNameMissing
    ensures r.Ok? ==> r.value.id == id && r.value.number == v.number && r.value.building == v.building
                      && r.value.tenantId == v.tenantId && r.value.ownerId == v.ownerId
                      && r.value.rent == v.rent && r.value.area == v.area
                      && r.value.amenities == v.amenities && r.value.lastMaintenanceDate == v.lastMaintenanceDate
                      && r.value.societyName == v.societyName.value
                      && r.value.status == (if v.status.Some? then v.status.value else Vacant)
  {
    match v.societyName
    case None => Err(SocietyNameMissing)
    case Some(name) =>
      Ok(ApartmentRow(id, NewApartment(v.number, v.building, v.tenantId, v.ownerId, v.rent, v.status,
                                       v.area, v.amenities, v.lastMaintenanceDate, name)))
  }

  /** Every insert the schema lets through is accepted, and stores the row
      `ApartmentRow` describes. */
  lemma SchemaInsertAccepted(id: Id, a: NewApartment)
    ensures InsertApartmentRow(id, ValuesOf(a)) == Ok(ApartmentRow(id, a))
  {
  }

  /** The sample apartment's values exactly as createUser writes them: the
      columns of the corrected sample apartment, without a society name. */
  function TenantSeedValuesAsWritten(tenantId: Id, now: Time): ApartmentValues
  {
    ApartmentValues("101", "Block A", Some(tenantId), None, 1200, Some(Occupied), 1000,
                    Some(["AC", "Parking"]), Some(now), None)
  }

  /** As written, the sample apartment differs from the corrected one only
      in leaving out the society name, and the database refuses it. */
  lemma TenantSeedAsWrittenRefused(id: Id, tenantId: Id, now: Time)
    ensures TenantSeedValuesAsWritten(tenantId, now)
            == ValuesOf(TenantSeedApartment(tenantId, now)).(societyName := None)
    ensures InsertApartmentRow(id, TenantSeedValuesAsWritten(tenantId, now)) == Err(SocietyNameMissing)
  {
  }

  /** With the society name given, the insert is accepted and stores the
      very row the corrected seeding adds for a tenant. */
  lemma TenantSeedCorrectedAccepted(id: Id, tenantId: Id, now: Time)
    ensures InsertApartmentRow(id, ValuesOf(TenantSeedApartment(tenantId, now)))
            == Ok(SeedApartments(Tenant, tenantId, id, now)[0])
  {
    SchemaInsertAccepted(id, TenantSeedApartment(tenantId, now));
  }

  function TenantSeedRequest(apartmentId: Id, tenantId: Id): NewMaintenanceRequest
  {
    NewMaintenanceRequest(apartmentId, tenantId, "AC needs servicing", MaintenanceStatus.Pending, None)
  }

  function TenantSeedPayment(apartmentId: Id, tenantId: Id, now: Time): NewPayment
  {
    NewPayment(apartmentId, tenantId, 1200, now, Rent)
  }

  function TenantSeedVisitor(apartmentId: Id, tenantId: Id, now: Time): NewVisitor
  {
    NewVisitor("John Smith", "Friendly visit", Upcoming, apartmentId, now + DayMillis,
               Some(tenantId), "555-0123", Some(false))
  }

  function ManagerSeedAnnouncement(managerId: Id): NewAnnouncement
  {
    NewAnnouncement("Welcome to the Community",
                    "Please join us for the monthly community meeting this weekend.",
                    managerId, Some(true))
  }

  /** The rows createUser adds to each table for a new user `uid` of role
      `role`, given the next serial key of each table: one apartment,
      request, payment and visitor for a tenant, one announcement for a
      manager, nothing otherwise. */
  function SeedApartments(role: Role, uid: Id, aid: Id, now: Time): seq<Apartment>
  {
    if role == Tenant then [ApartmentRow(aid, TenantSeedApartment(uid, now))] else []
  }

  function SeedRequests(role: Role, uid: Id, aid: Id, rid: Id, now: Time): seq<MaintenanceRequest>
  {
    if role == Tenant then [MaintenanceRow(rid, TenantSeedRequest(aid, uid), now)] else []
  }

  function SeedPayments(role: Role, uid: Id, aid: Id, pid: Id, now: Time): seq<Payment>
  {
    if role == Tenant then [PaymentRow(pid, TenantSeedPayment(aid, uid, now))] else []
  }

  function SeedVisitors(role: Role, uid: Id, aid: Id, vid: Id, now: Time): seq<Visitor>
  {
    if role == Tenant then [VisitorRow(vid, TenantSeedVisitor(aid, uid, now))] else []
  }

  function SeedAnnouncements(role: Role, uid: Id, nid: Id, now: Time): seq<Announcement>
  {
    if role == Manager then [AnnouncementRow(nid, ManagerSeedAnnouncement(uid), now)] else []
  }

  /** What the seeding gives each role: a tenant an occupied apartment let
      to them, a pending request and a rent payment equal to the rent for
      it, and an upcoming visitor not awaiting approval; a manager one
      important announcement of theirs; every other role nothing. */
  lemma SeedRowsByRole(role: Role, uid: Id, aid: Id, rid: Id, pid: Id, vid: Id, nid: Id, now: Time)
    ensures role == Tenant ==>
              var a, m := SeedApartments(role, uid, aid, now), SeedRequests(role, uid, aid, rid, now);
              var p, v := SeedPayments(role, uid, aid, pid, now), SeedVisitors(role, uid, aid, vid, now);
              && |a| == |m| == |p| == |v| == 1
              && a[0].status == Occupied && a[0].tenantId == Some(uid) && a[0].rent == 1200
              && m[0].status == MaintenanceStatus.Pending && m[0].apartmentId == a[0].id && m[0].tenantId == uid
              && p[0].kind == Rent && p[0].amount == a[0].rent && p[0].apartmentId == a[0].id && p[0].tenantId == uid
              && v[0].status == Upcoming && v[0].pendingApproval == Some(false) && v[0].apartmentId == a[0].id
              && SeedAnnouncements(role, uid, nid, now) == []
    ensures role == Manager ==>
              var n := SeedAnnouncements(role, uid, nid, now);
              && |n| == 1 && n[0].important && n[0].createdBy == uid
              && SeedApartments(role, uid, aid, now) == [] && SeedRequests(role, uid, aid, rid, now) == []
              && SeedPayments(role, uid, aid, pid, now) == [] && SeedVisitors(role, uid, aid, vid, now) == []
    ensures role != Tenant && role != Manager ==>
              && SeedApartments(role, uid, aid, now) == [] && SeedRequests(role, uid, aid, rid, now) == []
              && SeedPayments(role, uid, aid, pid, now) == [] && SeedVisitors(role, uid, aid, vid, now) == []
              && SeedAnnouncements(role, uid, nid, now) == []
  {
  }

  // ---------------------------------------------------------------- the store

  /** Every key lies in [1, next) and no two rows share one: what a serial
      primary key guarantees. */
  ghost predicate KeysOk<T>(s: seq<T>, key: T -> int, next: int)
  {
    && 1 <= next
    && (forall i :: 0 <= i < |s| ==> 1 <= key(s[i]) < next)
    && (forall i, j :: 0 <= i < j < |s| ==> key(s[i]) != key(s[j]))
  }

  const UsernameTaken := "duplicate key value violates unique constraint on username"

  class Store {
    var users: seq<User>
    var apartments: seq<Apartment>
    var requests: seq<MaintenanceRequest>
    var payments: seq<Payment>
    var visitors: seq<Visitor>
    var announcements: seq<Announcement>

    var nextUserId: Id
    var nextApartmentId: Id
    var nextRequestId: Id
    var nextPaymentId: Id
    var nextVisitorId: Id
    var nextAnnouncementId: Id

    /** Serial keys are distinct and already handed out; usernames are unique. */
    ghost predicate Valid()
      reads this
    {
      && KeysOk(users, (u: User) => u.id, nextUserId)
      && KeysOk(apartments, (a: Apartment) => a.id, nextApartmentId)
      && KeysOk(requests, (m: MaintenanceRequest) => m.id, nextRequestId)
      && KeysOk(payments, (p: Payment) => p.id, nextPaymentId)
      && KeysOk(visitors, (v: Visitor) => v.id, nextVisitorId)
      && KeysOk(announcements, (a: Announcement) => a.id, nextAnnouncementId)
      && (forall i, j :: 0 <= i < j < |users| ==> users[i].username != users[j].username)
    }

    constructor ()
      ensures Valid()
      ensures users == [] && apartments == [] && requests == [] && payments == []
      ensures visitors == [] && announcements == []
      ensures nextUserId == nextApartmentId == nextRequestId == 1
      ensures nextPaymentId == nextVisitorId == nextAnnouncementId == 1
    {
      users, apartments, requests, payments, visitors, announcements := [], [], [], [], [], [];
      nextUserId, nextApartmentId, nextRequestId := 1, 1, 1;
      nextPaymentId, nextVisitorId, nextAnnouncementId := 1, 1, 1;
    }

    // ---- inserts

    method CreateApartment(a: NewApartment) returns (r: Apartment)
      requires Valid()
      modifies this`apartments, this`nextApartmentId
      ensures Valid()
      ensures r == ApartmentRow(old(nextApartmentId), a)
      ensures forall x :: x in old(apartments) ==> x.id != r.id
      ensures apartments == old(apartments) + [r]
    {
      r := ApartmentRow(nextApartmentId, a);
      apartments := apartments + [r];
      nextApartmentId := nextApartmentId + 1;
    }

    method CreateMaintenanceRequest(m: NewMaintenanceRequest, now: Time) returns (r: MaintenanceRequest)
      requires Valid()
      modifies this`requests, this`nextRequestId
      ensures Valid()
      ensures r == MaintenanceRow(old(nextRequestId), m, now)
      ensures forall x :: x in old(requests) ==> x.id != r.id
      ensures requests == old(requests) + [r]
    {
      r := MaintenanceRow(nextRequestId, m, now);
      requests := requests + [r];
      nextRequestId := nextRequestId + 1;
    }

    method CreatePayment(p: NewPayment) returns (r: Payment)
      requires Valid()
      modifies this`payments, this`nextPaymentId
      ensures Valid()
      ensures r == PaymentRow(old(nextPaymentId), p)
      ensures forall x :: x in old(payments) ==> x.id != r.id
      ensures payments == old(payments) + [r]
    {
      r := PaymentRow(nextPaymentId, p);
      payments := payments + [r];
      nextPaymentId := nextPaymentId + 1;
    }

    method CreateVisitor(v: NewVisitor) returns (r: Visitor)
      requires Valid()
      modifies this`visitors, this`nextVisitorId
      ensures Valid()
      ensures r == VisitorRow(old(nextVisitorId), v)
      ensures forall x :: x in old(visitors) ==> x.id != r.id
      ensures visitors == old(visitors) + [r]
    {
      r := VisitorRow(nextVisitorId, v);
      visitors := visitors + [r];
      nextVisitorId := nextVisitorId + 1;
    }

    method CreateAnnouncement(a: NewAnnouncement, now: Time) returns (r: Announcement)
      requires Valid()
      modifies this`announcements, this`nextAnnouncementId
      ensures Valid()
      ensures r == AnnouncementRow(old(nextAnnouncementId), a, now)
      ensures forall x :: x in old(announcements) ==> x.id != r.id
      ensures announcements == old(announcements) + [r]
    {
      r := AnnouncementRow(nextAnnouncementId, a, now);
      announcements := announcements + [r];
      nextAnnouncementId := nextAnnouncementId + 1;
    }

    /** The insert into `users`, for a username not yet taken. */
    method InsertUser(u: NewUser) returns (r: User)
      requires Valid()
      requires forall x :: x in users ==> x.username != u.username
      modifies this`users, this`nextUserId
      ensures Valid()
      ensures r == User(old(nextUserId), u.username, u.password, u.role, u.name)
      ensures users == old(users) + [r]
    {
      r := User(nextUserId, u.username, u.password, u.role, u.name);
      users := users + [r];
      nextUserId := nextUserId + 1;
    }

    /** The sample rows createUser inserts for a new user `uid` of role `role`. */
    method Seed(role: Role, uid: Id, now: Time)
      requires Valid()
      modifies this`apartments, this`nextApartmentId, this`requests, this`nextRequestId,
               this`payments, this`nextPaymentId, this`visitors, this`nextVisitorId,
               this`announcements, this`nextAnnouncementId
      ensures Valid()
      ensures var aid := old(nextApartmentId);
              && apartments == old(apartments) + SeedApartments(role, uid, aid, now)
              && requests == old(requests) + SeedRequests(role, uid, aid, old(nextRequestId), now)
              && payments == old(payments) + SeedPayments(role, uid, aid, old(nextPaymentId), now)
              && visitors == old(visitors) + SeedVisitors(role, uid, aid, old(nextVisitorId), now)
              && announcements == old(announcements) + SeedAnnouncements(role, uid, old(nextAnnouncementId), now)
    {
      SeedRowsByRole(role, uid, old(nextApartmentId), nextRequestId, nextPaymentId, nextVisitorId,
                     nextAnnouncementId, now);
      if role == Tenant {
        SeedTenant(uid, now);
      } else if role == Manager {
        var _ := CreateAnnouncement(ManagerSeedAnnouncement(uid), now);
      }
    }

    /** A tenant's sample rows: the apartment, then a request, a payment and
        a visitor for it. */
    method SeedTenant(uid: Id, now: Time)
      requires Valid()
      modifies this`apartments, this`nextApartmentId, this`requests, this`nextRequestId,
               this`payments, this`nextPaymentId, this`visitors, this`nextVisitorId
      ensures Valid()
      ensures var aid := old(nextApartmentId);
              && apartments == old(apartments) + [ApartmentRow(aid, TenantSeedApartment(uid, now))]
              && requests == old(requests) + [MaintenanceRow(old(nextRequestId), TenantSeedRequest(aid, uid), now)]
              && payments == old(payments) + [PaymentRow(old(nextPaymentId), TenantSeedPayment(aid, uid, now))]
              && visitors == old(visitors) + [VisitorRow(old(nextVisitorId), TenantSeedVisitor(aid, uid, now))]
    {
      var apartment := CreateApartment(TenantSeedApartment(uid, now));
      var _ := CreateMaintenanceRequest(TenantSeedRequest(apartment.id, uid), now);
      var _ := CreatePayment(TenantSeedPayment(apartment.id, uid, now));
      var _ := CreateVisitor(TenantSeedVisitor(apartment.id, uid, now));
    }

    /** createUser: inserts the user (refused, changing nothing, when the
        username is taken), then the sample rows of its role. */
    method CreateUser(u: NewUser, now: Time) returns (r: Option<User>)
      requires Valid()
      modifies this
      ensures Valid()
      ensures r.None? <==> exists x :: x in old(users) && x.username == u.username
      ensures r.None? ==> unchanged(this)
      ensures r.Some? ==> r.value == User(old(nextUserId), u.username, u.password, u.role, u.name)
                          && users == old(users) + [r.value]
      ensures r.Some? ==>
                var uid, aid := r.value.id, old(nextApartmentId);
                && apartments == old(apartments) + SeedApartments(u.role, uid, aid, now)
                && requests == old(requests) + SeedRequests(u.role, uid, aid, old(nextRequestId), now)
                && payments == old(payments) + SeedPayments(u.role, uid, aid, old(nextPaymentId), now)
                && visitors == old(visitors) + SeedVisitors(u.role, uid, aid, old(nextVisitorId), now)
                && announcements == old(announcements) + SeedAnnouncements(u.role, uid, old(nextAnnouncementId), now)
    {
      if UserByUsername(users, u.username).Some? {
        return None;
      }
      var user := InsertUser(u);
      r := Some(user);
      Seed(u.role, user.id, now);
    }

    /** createUser as the source writes it: the user row is stored first;
        for a tenant the sample apartment's insert is then refused (it has
        no society name), so the call fails with the user already stored
        and no sample rows; any other role fares as in CreateUser. */
    method CreateUserAsWritten(u: NewUser, now: Time) returns (r: Result<User>)
      requires Valid()
      modifies this`users, this`nextUserId, this`announcements, this`nextAnnouncementId
      ensures Valid()
      ensures apartments == old(apartments) && requests == old(requests)
              && payments == old(payments) && visitors == old(visitors)
      ensures UserByUsername(old(users), u.username).Some? ==> r == Err(UsernameTaken) && unchanged(this)
      ensures r.Ok? <==> u.role != Tenant && UserByUsername(old(users), u.username).None?
      ensures u.role == Tenant && UserByUsername(old(users), u.username).None? ==>
                && r == Err(SocietyNameMissing)
                && users == old(users) + [User(old(nextUserId), u.username, u.password, u.role, u.name)]
                && announcements == old(announcements)
      ensures r.Ok? ==>
                && r.value == User(old(nextUserId), u.username, u.password, u.role, u.name)
                && users == old(users) + [r.value]
                && announcements == old(announcements) + SeedAnnouncements(u.role, r.value.id, old(nextAnnouncementId), now)
    {
      if UserByUsername(users, u.username).Some? {
        return Err(UsernameTaken);
      }
      var user := InsertUser(u);
      if u.role == Tenant {
        var inserted := InsertApartmentRow(nextApartmentId, TenantSeedValuesAsWritten(user.id, now));
        return Err(inserted.message);
      }
      if u.role == Manager {
        var _ := CreateAnnouncement(ManagerSeedAnnouncement(user.id), now);
      }
      r := Ok(user);
    }

    // ---- updates

    /** updateApartment: rewrites the fields `update` sets on the apartment
        with key `id` and returns it, or returns nothing when there is none. */
    method UpdateApartment(id: Id, update: ApartmentPatch) returns (r: Option<Apartment>)
      requires Valid()
      modifies this`apartments
      ensures Valid()
      ensures |apartments| == |old(apartments)|
      ensures forall i :: 0 <= i < |apartments| ==>
                apartments[i] == if old(apartments[i]).id == id then ApplyApartmentPatch(old(apartments[i]), update)
                                 else old(apartments[i])
      ensures r.None? <==> ApartmentById(old(apartments), id).None?
      ensures r.Some? ==> r.value == ApplyApartmentPatch(ApartmentById(old(apartments), id).value, update)
                          && r.value in apartments
    {
      var found := ApartmentById(apartments, id);
      apartments := MapWhere(apartments, (a: Apartment) => a.id == id,
                             (a: Apartment) => ApplyApartmentPatch(a, update));
      r := if found.Some? then Some(ApplyApartmentPatch(found.value, update)) else None;
      if found.Some? {
        ghost var k :| 0 <= k < |old(apartments)| && old(apartments)[k] == found.value;
        assert apartments[k] == r.value;
      }
    }

    /** updateMaintenanceRequest: rewrites the fields `data` sets on the
        request with key `id` and returns it, or null when there is none. */
    method UpdateMaintenanceRequest(id: Id, data: MaintenancePatch) returns (r: Option<MaintenanceRequest>)
      requires Valid()
      modifies this`requests
      ensures Valid()
      ensures |requests| == |old(requests)|
      ensures forall i :: 0 <= i < |requests| ==>
                requests[i] == if old(requests[i]).id == id then ApplyMaintenancePatch(old(requests[i]), data)
                               else old(requests[i])
      ensures r.None? <==> RequestById(old(requests), id).None?
      ensures r.Some? ==> r.value == ApplyMaintenancePatch(RequestById(old(requests), id).value, data)
                          && r.value in requests
    {
      var found := RequestById(requests, id);
      requests := MapWhere(requests, (m: MaintenanceRequest) => m.id == id,
                           (m: MaintenanceRequest) => ApplyMaintenancePatch(m, data));
      r := if found.Some? then Some(ApplyMaintenancePatch(found.value, data)) else None;
      if found.Some? {
        ghost var k :| 0 <= k < |old(requests)| && old(requests)[k] == found.value;
        assert requests[k] == r.value;
      }
    }

    /** updateVisitorStatus: on the visitor with key `id`, writes the status
        and, when given, the entry time, exit time, approver and approval
        flag; every other field and every other visitor stays as it was. */
    method UpdateVisitorStatus(id: Id, status: VisitorStatus, entryAt: Option<Time>, exitAt: Option<Time>,
                               approvedBy: Option<Id>, pendingApproval: Option<bool>)
      returns (r: Option<Visitor>)
      requires Valid()
      requires status != VisitorStatus.Pending
      modifies this`visitors
      ensures Valid()
      ensures |visitors| == |old(visitors)|
      ensures forall i :: 0 <= i < |visitors| && old(visitors[i]).id != id ==> visitors[i] == old(visitors[i])
      ensures forall i :: 0 <= i < |visitors| && old(visitors[i]).id == id ==>
                StatusUpdated(old(visitors[i]), visitors[i], status, entryAt, exitAt, approvedBy, pendingApproval)
      ensures r.None? <==> VisitorById(old(visitors), id).None?
      ensures r.Some? ==> r.value in visitors
                          && StatusUpdated(VisitorById(old(visitors), id).value, r.value,
                                           status, entryAt, exitAt, approvedBy, pendingApproval)
    {
      var patch := StatusSetClause(status, entryAt, exitAt, approvedBy, pendingApproval);
      var found := VisitorById(visitors, id);
      SetClauseUpdates(visitors, id, status, entryAt, exitAt, approvedBy, pendingApproval);
      visitors := PatchVisitors(visitors, id, patch);
      r := if found.Some? then Some(ApplyVisitorPatch(found.value, patch)) else None;
    }

    /** updateVisitorApprovalStatus: sets only the approval flag of the
        visitor with key `id`, or returns nothing when there is none. */
    method UpdateVisitorApprovalStatus(id: Id, pendingApproval: bool) returns (r: Option<Visitor>)
      requires Valid()
      modifies this`visitors
      ensures Valid()
      ensures |visitors| == |old(visitors)|
      ensures forall i :: 0 <= i < |visitors| ==>
                visitors[i] == if old(visitors[i]).id == id then old(visitors[i]).(pendingApproval := Some(pendingApproval))
                               else old(visitors[i])
      ensures r.None? <==> VisitorById(old(visitors), id).None?
      ensures r.Some? ==> r.value == VisitorById(old(visitors), id).value.(pendingApproval := Some(pendingApproval))
                          && r.value in visitors
    {
      var patch := VisitorPatch(Keep, Keep, Keep, Keep, Set(Some(pendingApproval)));
      var found := VisitorById(visitors, id);
      visitors := MapWhere(visitors, (v: Visitor) => v.id == id, (v: Visitor) => ApplyVisitorPatch(v, patch));
      r := if found.Some? then Some(ApplyVisitorPatch(found.value, patch)) else None;
      if found.Some? {
        ghost var k :| 0 <= k < |old(visitors)| && old(visitors)[k] == found.value;
        assert visitors[k] == r.value;
      }
    }
  }
}
