/** The client-side insert validators of client/schema.ts. A form holds the
    raw values a user typed (enumerations still as strings, numbers as
    reals); checking it either rejects it or yields the typed record with
    the validator's defaults filled in. */
module Validators {
  import opened Wrappers
  import opened Schema

  const MinPasswordLength: nat := 6

  /** The length of a string as JavaScript counts it, in UTF-16 code units:
      a character beyond the Basic Multilingual Plane takes two. */
  function Utf16Length(s: string): (n: nat)
    ensures |s| <= n <= 2 * |s|
    ensures n == 0 <==> s == []
  {
    if s == [] then 0
    else Utf16Length(s[..|s| - 1]) + (if s[|s| - 1] as int >= 0x1_0000 then 2 else 1)
  }

  /** A JavaScript number that is a positive integer (`z.number().int().positive()`). */
  predicate IsPositiveInteger(x: real)
  {
    x > 0.0 && x.Floor as real == x
  }

  datatype UserForm = UserForm(username: string, password: string, role: string, name: string)

  function CheckUser(f: UserForm): (r: Option<NewUser>)
    ensures r.Some? <==> |f.username| >= 1 && Utf16Length(f.password) >= MinPasswordLength && |f.name| >= 1
                         && exists x :: RoleName(x) == f.role
    ensures r.Some? ==> r.value.username == f.username && r.value.password == f.password
                        && RoleName(r.value.role) == f.role && r.value.name == f.name
  {
    match ParseRole(f.role)
    case None => None
    case Some(role) =>
      if f.username == [] || Utf16Length(f.password) < MinPasswordLength || f.name == [] then None
      else Some(NewUser(f.username, f.password, role, f.name))
  }

  datatype ApartmentForm = ApartmentForm(
    number: string,
    building: string,
    tenantId: Option<Id>,
    ownerId: Option<Id>,
    rent: real,
    status: Option<string>,
    area: real,
    amenities: Option<seq<string>>,
    lastMaintenanceDate: Option<Time>,
    societyName: string)

  function CheckApartment(f: ApartmentForm): (r: Option<NewApartment>)
    ensures r.Some? <==> |f.number| >= 1 && |f.building| >= 1 && |f.societyName| >= 1
                         && IsPositiveInteger(f.rent) && IsPositiveInteger(f.area)
                         && (f.status.Some? ==> exists x :: ApartmentStatusName(x) == f.status.value)
    ensures r.Some? ==> r.value.rent as real == f.rent && r.value.area as real == f.area
                        && r.value.rent > 0 && r.value.area > 0
    ensures r.Some? ==> r.value.number == f.number && r.value.building == f.building
                        && r.value.tenantId == f.tenantId && r.value.ownerId == f.ownerId
                        && r.value.societyName == f.societyName && r.value.amenities == f.amenities
                        && r.value.lastMaintenanceDate == f.lastMaintenanceDate
    ensures r.Some? ==> r.value.status.Some?
    ensures r.Some? && f.status.None? ==> r.value.status == Some(Vacant)
    ensures r.Some? && f.status.Some? ==> ApartmentStatusName(r.value.status.value) == f.status.value
  {
    var status := match f.status case None => Some(DefaultApartmentStatus) case Some(s) => ParseApartmentStatus(s);
    if f.number == [] || f.building == [] || f.societyName == []
       || !IsPositiveInteger(f.rent) || !IsPositiveInteger(f.area) || status.None?
    then None
    else Some(NewApartment(f.number, f.building, f.tenantId, f.ownerId, f.rent.Floor, status,
                           f.area.Floor, f.amenities, f.lastMaintenanceDate, f.societyName))
  }

  datatype MaintenanceForm = MaintenanceForm(apartmentId: Id, tenantId: Id, description: string, status: string, updatedAt: Option<Time>)

  function CheckMaintenanceRequest(f: MaintenanceForm): (r: Option<NewMaintenanceRequest>)
    ensures r.Some? <==> |f.description| >= 1 && exists x :: MaintenanceStatusName(x) == f.status
    ensures r.Some? ==> MaintenanceStatusName(r.value.status) == f.status && r.value.description == f.description
    ensures r.Some? ==> r.value.apartmentId == f.apartmentId && r.value.tenantId == f.tenantId
                        && r.value.updatedAt == f.updatedAt
  {
    match ParseMaintenanceStatus(f.status)
    case None => None
    case Some(s) =>
      if f.description == [] then None
      else Some(NewMaintenanceRequest(f.apartmentId, f.tenantId, f.description, s, f.updatedAt))
  }

  datatype PaymentForm = PaymentForm(apartmentId: Id, tenantId: Id, amount: real, date: Time, kind: string)

  /** A payment form that passed the validator; the amount need not be whole. */
  datatype CheckedPayment = CheckedPayment(apartmentId: Id, tenantId: Id, amount: real, date: Time, kind: PaymentType)

  function CheckPayment(f: PaymentForm): (r: Option<CheckedPayment>)
    ensures r.Some? <==> f.amount > 0.0 && exists x :: PaymentTypeName(x) == f.kind
    ensures r.Some? ==> r.value.amount == f.amount && PaymentTypeName(r.value.kind) == f.kind
    ensures r.Some? ==> r.value.apartmentId == f.apartmentId && r.value.tenantId == f.tenantId
                        && r.value.date == f.date
  {
    match ParsePaymentType(f.kind)
    case None => None
    case Some(k) =>
      if f.amount <= 0.0 then None
      else Some(CheckedPayment(f.apartmentId, f.tenantId, f.amount, f.date, k))
  }

  datatype VisitorForm = VisitorForm(
    name: string,
    purpose: string,
    status: string,
    apartmentId: Id,
    expectedAt: Time,
    approvedBy: Option<Id>,
    contactNumber: string,
    pendingApproval: Option<bool>)

  function CheckVisitor(f: VisitorForm): (r: Option<NewVisitor>)
    ensures r.Some? <==> |f.name| >= 1 && |f.purpose| >= 1 && |f.contactNumber| >= 1
                         && exists x :: VisitorStatusName(x) == f.status
    ensures r.Some? ==> VisitorStatusName(r.value.status) == f.status
    ensures r.Some? ==> r.value.name == f.name && r.value.purpose == f.purpose
                        && r.value.apartmentId == f.apartmentId && r.value.expectedAt == f.expectedAt
                        && r.value.approvedBy == f.approvedBy && r.value.contactNumber == f.contactNumber
    ensures r.Some? ==> r.value.pendingApproval == Some(f.pendingApproval == Some(true))
  {
    match ParseVisitorStatus(f.status)
    case None => None
    case Some(s) =>
      if f.name == [] || f.purpose == [] || f.contactNumber == [] then None
      else
        var pending := match f.pendingApproval case None => false case Some(b) => b;
        Some(NewVisitor(f.name, f.purpose, s, f.apartmentId, f.expectedAt, f.approvedBy,
                        f.contactNumber, Some(pending)))
  }

  datatype AnnouncementForm = AnnouncementForm(title: string, content: string, createdBy: Id, important: Option<bool>)

  function CheckAnnouncement(f: AnnouncementForm): (r: Option<NewAnnouncement>)
    ensures r.Some? <==> |f.title| >= 1 && |f.content| >= 1
    ensures r.Some? ==> r.value.important == Some(f.important == Some(true))
    ensures r.Some? ==> r.value.title == f.title && r.value.content == f.content && r.value.createdBy == f.createdBy
  {
    if f.title == [] || f.content == [] then None
    else
      var important := match f.important case None => false case Some(b) => b;
      Some(NewAnnouncement(f.title, f.content, f.createdBy, Some(important)))
  }

  /** zod's `.min(6)` counts UTF-16 code units, so three characters from
      beyond the Basic Multilingual Plane make a password long enough. */
  lemma {:induction false} ThreeAstralCharactersSuffice(f: UserForm)
    requires |f.password| == 3 && forall i :: 0 <= i < 3 ==> f.password[i] as int >= 0x1_0000
    requires |f.username| >= 1 && |f.name| >= 1 && f.role == "tenant"
    ensures CheckUser(f).Some?
  {
    var p := f.password;
    assert p[..2][..1] == p[..1];
    assert p[..1][..0] == [];
    assert p[..3] == p;
    assert Utf16Length(p[..1]) == 2;
    assert Utf16Length(p[..2]) == 4;
    assert Utf16Length(p) == 6;
    assert RoleName(Tenant) == f.role;
  }
}
