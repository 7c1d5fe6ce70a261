/** The record shapes of shared/schema.ts: the closed enumerations, one row
    type per table, the insert shapes (rows without their generated columns)
    and the column defaults the database fills in. */
module Schema {
  import opened Wrappers

  /** A value of a serial primary key; the database hands out 1, 2, 3, … */
  type Id = int

  /** A timestamp, in milliseconds since the epoch. */
  type Time = int

  /** One day, in milliseconds. */
  const DayMillis: int := 24 * 60 * 60 * 1000

  // ---------------------------------------------------------------- enums

  datatype Role = Tenant | Manager | Owner | Visitor | Security

  function RoleName(r: Role): string
  {
    match r
    case Tenant => "tenant"
    case Manager => "manager"
    case Owner => "owner"
    case Visitor => "visitor"
    case Security => "security"
  }

  /** The role a `role` string denotes. The string is accepted exactly when
      it is one of the five role names, as the insert schemas' `z.enum`
      checks. */
  function ParseRole(s: string): (r: Option<Role>)
    ensures r.Some? ==> RoleName(r.value) == s
    ensures r.None? ==> forall x :: RoleName(x) != s
  {
    if s == "tenant" then Some(Tenant)
    else if s == "manager" then Some(Manager)
    else if s == "owner" then Some(Owner)
    else if s == "visitor" then Some(Role.Visitor)
    else if s == "security" then Some(Security)
    else None
  }

  datatype ApartmentStatus = Vacant | Occupied

  /** The value the `status` column of `apartments` takes when none is given. */
  const DefaultApartmentStatus: ApartmentStatus := Vacant

  function ApartmentStatusName(s: ApartmentStatus): string
  {
    match s
    case Vacant => "vacant"
    case Occupied => "occupied"
  }

  function ParseApartmentStatus(s: string): (r: Option<ApartmentStatus>)
    ensures r.Some? ==> ApartmentStatusName(r.value) == s
    ensures r.None? ==> forall x :: ApartmentStatusName(x) != s
  {
    if s == "vacant" then Some(Vacant)
    else if s == "occupied" then Some(Occupied)
    else None
  }

  datatype MaintenanceStatus = Pending | InProgress | Completed | Denied

  function MaintenanceStatusName(s: MaintenanceStatus): string
  {
    match s
    case Pending => "pending"
    case InProgress => "in_progress"
    case Completed => "completed"
    case Denied => "denied"
  }

  function ParseMaintenanceStatus(s: string): (r: Option<MaintenanceStatus>)
    ensures r.Some? ==> MaintenanceStatusName(r.value) == s
    ensures r.None? ==> forall x :: MaintenanceStatusName(x) != s
  {
    if s == "pending" then Some(MaintenanceStatus.Pending)
    else if s == "in_progress" then Some(InProgress)
    else if s == "completed" then Some(Completed)
    else if s == "denied" then Some(Denied)
    else None
  }

  datatype PaymentType = Rent | MaintenanceFee

  function PaymentTypeName(t: PaymentType): string
  {
    match t
    case Rent => "rent"
    case MaintenanceFee => "maintenance"
  }

  function ParsePaymentType(s: string): (r: Option<PaymentType>)
    ensures r.Some? ==> PaymentTypeName(r.value) == s
    ensures r.None? ==> forall x :: PaymentTypeName(x) != s
  {
    if s == "rent" then Some(Rent)
    else if s == "maintenance" then Some(MaintenanceFee)
    else None
  }

  datatype VisitorStatus = Upcoming | Current | Past | Pending

  function VisitorStatusName(s: VisitorStatus): string
  {
    match s
    case Upcoming => "upcoming"
    case Current => "current"
    case Past => "past"
    case Pending => "pending"
  }

  function ParseVisitorStatus(s: string): (r: Option<VisitorStatus>)
    ensures r.Some? ==> VisitorStatusName(r.value) == s
    ensures r.None? ==> forall x :: VisitorStatusName(x) != s
  {
    if s == "upcoming" then Some(Upcoming)
    else if s == "current" then Some(Current)
    else if s == "past" then Some(Past)
    else if s == "pending" then Some(VisitorStatus.Pending)
    else None
  }

  /** Each enumeration's name is read back as the value it names. */
  lemma NamesRoundTrip(r: Role, a: ApartmentStatus, m: MaintenanceStatus, t: PaymentType, v: VisitorStatus)
    ensures ParseRole(RoleName(r)) == Some(r)
    ensures ParseApartmentStatus(ApartmentStatusName(a)) == Some(a)
    ensures ParseMaintenanceStatus(MaintenanceStatusName(m)) == Some(m)
    ensures ParsePaymentType(PaymentTypeName(t)) == Some(t)
    ensures ParseVisitorStatus(VisitorStatusName(v)) == Some(v)
  {
  }

  // ---------------------------------------------------------------- rows

  /** A row of `users`; `username` is unique across the table. The two
      timestamp columns are not modelled. */
  datatype User = User(id: Id, username: string, password: string, role: Role, name: string)

  /** A row of `apartments`; `tenantId` and `ownerId` are nullable. */
  datatype Apartment = Apartment(
    id: Id,
    number: string,
    building: string,
    tenantId: Option<Id>,
    ownerId: Option<Id>,
    rent: int,
    status: ApartmentStatus,
    area: int,
    amenities: Option<seq<string>>,
    lastMaintenanceDate: Option<Time>,
    societyName: string)

  /** A row of `maintenance_requests`. */
  datatype MaintenanceRequest = MaintenanceRequest(
    id: Id,
    apartmentId: Id,
    tenantId: Id,
    description: string,
    status: MaintenanceStatus,
    createdAt: Time,
    updatedAt: Time)

  /** A row of `payments`; the `type` column is `kind` here. */
  datatype Payment = Payment(id: Id, apartmentId: Id, tenantId: Id, amount: int, date: Time, kind: PaymentType)

  /** A row of `visitors`; `pendingApproval` is a nullable boolean column. */
  datatype Visitor = Visitor(
    id: Id,
    name: string,
    purpose: string,
    status: VisitorStatus,
    apartmentId: Id,
    expectedAt: Time,
    actualEntryAt: Option<Time>,
    actualExitAt: Option<Time>,
    approvedBy: Option<Id>,
    contactNumber: string,
    pendingApproval: Option<bool>)

  /** A row of `announcements`. */
  datatype Announcement = Announcement(id: Id, title: string, content: string, createdAt: Time, createdBy: Id, important: bool)

  // ---------------------------------------------------------------- insert shapes

  /** An insert into `users`: the row without `id`. */
  datatype NewUser = NewUser(username: string, password: string, role: Role, name: string)

  /** An insert into `apartments`: the row without `id`; `status` may be
      left out. */
  datatype NewApartment = NewApartment(
    number: string,
    building: string,
    tenantId: Option<Id>,
    ownerId: Option<Id>,
    rent: int,
    status: Option<ApartmentStatus>,
    area: int,
    amenities: Option<seq<string>>,
    lastMaintenanceDate: Option<Time>,
    societyName: string)

  /** An insert into `maintenance_requests`: the row without `id` and
      `createdAt`; `updatedAt` may be left out. */
  datatype NewMaintenanceRequest = NewMaintenanceRequest(
    apartmentId: Id,
    tenantId: Id,
    description: string,
    status: MaintenanceStatus,
    updatedAt: Option<Time>)

  /** An insert into `payments`: the row without `id`. */
  datatype NewPayment = NewPayment(apartmentId: Id, tenantId: Id, amount: int, date: Time, kind: PaymentType)

  /** An insert into `visitors`: the row without `id`, `actualEntryAt` and
      `actualExitAt`; `approvedBy` and `pendingApproval` may be left out. */
  datatype NewVisitor = NewVisitor(
    name: string,
    purpose: string,
    status: VisitorStatus,
    apartmentId: Id,
    expectedAt: Time,
    approvedBy: Option<Id>,
    contactNumber: string,
    pendingApproval: Option<bool>)

  /** An insert into `announcements`: the row without `id` and `createdAt`;
      `important` may be left out. */
  datatype NewAnnouncement = NewAnnouncement(title: string, content: string, createdBy: Id, important: Option<bool>)

  // ---------------------------------------------------------------- defaults

  /** The apartment row stored for an insert: a missing status is vacant. */
  function ApartmentRow(id: Id, a: NewApartment): (r: Apartment)
    ensures r.id == id && r.number == a.number && r.building == a.building
    ensures r.tenantId == a.tenantId && r.ownerId == a.ownerId
    ensures r.rent == a.rent && r.area == a.area && r.societyName == a.societyName
    ensures r.amenities == a.amenities && r.lastMaintenanceDate == a.lastMaintenanceDate
    ensures a.status.None? ==> r.status == Vacant
    ensures a.status.Some? ==> r.status == a.status.value
  {
    Apartment(id, a.number, a.building, a.tenantId, a.ownerId, a.rent,
              match a.status case None => DefaultApartmentStatus case Some(s) => s,
              a.area, a.amenities, a.lastMaintenanceDate, a.societyName)
  }

  /** The request row stored for an insert at time `now`: both timestamps
      default to `now`. */
  function MaintenanceRow(id: Id, m: NewMaintenanceRequest, now: Time): (r: MaintenanceRequest)
    ensures r.id == id && r.status == m.status && r.createdAt == now
    ensures r.apartmentId == m.apartmentId && r.tenantId == m.tenantId && r.description == m.description
    ensures r.updatedAt == (if m.updatedAt.Some? then m.updatedAt.value else now)
  {
    MaintenanceRequest(id, m.apartmentId, m.tenantId, m.description, m.status, now,
                       match m.updatedAt case None => now case Some(t) => t)
  }

  /** The payment row stored for an insert: every column as inserted. */
  function PaymentRow(id: Id, p: NewPayment): (r: Payment)
    ensures r.id == id && r.apartmentId == p.apartmentId && r.tenantId == p.tenantId
    ensures r.amount == p.amount && r.date == p.date && r.kind == p.kind
  {
    Payment(id, p.apartmentId, p.tenantId, p.amount, p.date, p.kind)
  }

  /** The visitor row stored for an insert: no entry or exit time yet, and
      a missing `pendingApproval` is false. */
  function VisitorRow(id: Id, v: NewVisitor): (r: Visitor)
    ensures r.id == id && r.status == v.status && r.apartmentId == v.apartmentId
    ensures r.actualEntryAt.None? && r.actualExitAt.None?
    ensures r.name == v.name && r.purpose == v.purpose && r.expectedAt == v.expectedAt
    ensures r.contactNumber == v.contactNumber && r.approvedBy == v.approvedBy
    ensures r.pendingApproval == Some(if v.pendingApproval.Some? then v.pendingApproval.value else false)
  {
    Visitor.Visitor(id, v.name, v.purpose, v.status, v.apartmentId, v.expectedAt, None, None,
            v.approvedBy, v.contactNumber,
            Some(match v.pendingApproval case None => false case Some(b) => b))
  }

  /** The announcement row stored for an insert at time `now`: a missing
      `important` is false. */
  function AnnouncementRow(id: Id, a: NewAnnouncement, now: Time): (r: Announcement)
    ensures r.id == id && r.createdAt == now && r.createdBy == a.createdBy
    ensures r.title == a.title && r.content == a.content
    ensures r.important == (a.important == Some(true))
  {
    Announcement(id, a.title, a.content, now, a.createdBy,
                 match a.important case None => false case Some(b) => b)
  }
}
