/** The request handlers of server/routes.ts. Each decision a handler takes
    before touching the store (authentication, role gate, status-string
    validation, existence) is a pure function returning the HTTP status
    code; each handler that writes is a method over a `Store` whose
    contract ties its status code to that function and states the write,
    and each read-only handler is a function of the store. */
module Routes {
  import opened Wrappers
  import opened Schema
  import opened Storage

  /** A user id taken from a session: a row of `users`, so a serial key. */
  type UserId = n: int | 1 <= n witness 1

  /** The authenticated caller (`req.user`); `None` is a request without a
      session. */
  datatype Actor = Actor(id: UserId, role: Role)

  /** What a read-only handler answers: a status code and the rows sent. */
  datatype Reply<T> = Reply(code: int, rows: seq<T>)

  // ---------------------------------------------------------------- role groups

  /** The roles requireAdmin lets through. */
  predicate InAdminGroup(role: Role)
  {
    role == Manager || role == Owner || role == Security
  }

  /** The roles that may move a pending visitor to current or past. */
  predicate MayDecideVisitor(role: Role)
  {
    role == Owner || role == Tenant || role == Manager
  }

  /** A visitor transition that is an approval or a denial: out of
      "pending" into "current" or "past". */
  predicate IsDecision(from: VisitorStatus, to: VisitorStatus)
  {
    from == VisitorStatus.Pending && (to == Current || to == Past)
  }

  /** requireAdmin: 403 for anyone outside the admin group, unauthenticated
      callers included (they get 403 here, not 401). */
  function AdminGate(actor: Option<Actor>): (code: Option<int>)
    ensures code.None? <==> actor.Some? && InAdminGroup(actor.value.role)
    ensures code.Some? ==> code.value == 403
    ensures actor.Some? && (actor.value.role == Tenant || actor.value.role == Role.Visitor) ==> code == Some(403)
  {
    if actor.None? || !InAdminGroup(actor.value.role) then Some(403) else None
  }

  // ---------------------------------------------------------------- decisions

  /** The answer of PATCH /api/maintenance/:id before and after the write:
      400 for a status outside the four, 403 when a non-manager targets
      anything but "pending", 404 when no request has the id. The current
      status is never consulted. */
  function MaintenancePatchCode(actor: Option<Actor>, status: string, found: bool): (code: int)
    ensures actor.None? ==> code == 401
    ensures actor.Some? && ParseMaintenanceStatus(status).None? ==> code == 400
    ensures code == 403 <==> actor.Some? && ParseMaintenanceStatus(status).Some?
                             && ParseMaintenanceStatus(status).value != MaintenanceStatus.Pending
                             && actor.value.role != Manager
    ensures code == 404 <==> actor.Some? && ParseMaintenanceStatus(status).Some? && !found
                             && (ParseMaintenanceStatus(status).value == MaintenanceStatus.Pending
                                 || actor.value.role == Manager)
    ensures code == 200 <==> actor.Some? && ParseMaintenanceStatus(status).Some? && found
                             && (ParseMaintenanceStatus(status).value == MaintenanceStatus.Pending
                                 || actor.value.role == Manager)
  {
    if actor.None? then 401
    else match ParseMaintenanceStatus(status)
      case None => 400
      case Some(target) =>
        if target != MaintenanceStatus.Pending && actor.value.role != Manager then 403
        else if !found then 404
        else 200
  }

  /** The answer of PATCH /api/apartments/:id: the admin gate, then 404 for
      a missing apartment (checked before ownership), then 403 for an owner
      who does not own it, then 400 for a body that is not a partial
      apartment. */
  function ApartmentPatchCode(actor: Option<Actor>, found: Option<Apartment>, bodyOk: bool): (code: int)
    ensures !(actor.Some? && InAdminGroup(actor.value.role)) ==> code == 403
    ensures actor.Some? && InAdminGroup(actor.value.role) && found.None? ==> code == 404
    ensures actor.Some? && actor.value.role == Owner && found.Some? && found.value.ownerId != Some(actor.value.id)
            ==> code == 403
    ensures actor.Some? && InAdminGroup(actor.value.role) && found.Some? && !bodyOk
              && (actor.value.role == Owner ==> found.value.ownerId == Some(actor.value.id))
            ==> code == 400
    ensures code == 200 <==> actor.Some? && InAdminGroup(actor.value.role) && found.Some? && bodyOk
                             && (actor.value.role == Owner ==> found.value.ownerId == Some(actor.value.id))
  {
    if AdminGate(actor).Some? then 403
    else if found.None? then 404
    else if actor.value.role == Owner && found.value.ownerId != Some(actor.value.id) then 403
    else if !bodyOk then 400
    else 200
  }

  /** The target status PATCH /api/visitors/:id/status accepts: only
      "upcoming", "current" or "past" (so not "pending"). */
  function VisitorTarget(status: string): (r: Option<VisitorStatus>)
    ensures r.Some? <==> status == "upcoming" || status == "current" || status == "past"
    ensures r.Some? ==> r.value != VisitorStatus.Pending && VisitorStatusName(r.value) == status
  {
    match ParseVisitorStatus(status)
    case Some(s) => if s == VisitorStatus.Pending then None else Some(s)
    case None => None
  }

  /** The answer of PATCH /api/visitors/:id/status: 400 for a target
      outside the three, before any read; 404 for an unknown visitor; 403
      when a pending visitor would be approved or denied by a role other
      than owner, tenant or manager; every other transition allowed. */
  function VisitorPatchCode(actor: Option<Actor>, status: string, found: Option<Visitor>): (code: int)
    ensures actor.None? ==> code == 401
    ensures actor.Some? && VisitorTarget(status).None? ==> code == 400
    ensures actor.Some? && VisitorTarget(status).Some? && found.None? ==> code == 404
    ensures code == 403 <==> actor.Some? && VisitorTarget(status).Some? && found.Some?
                             && IsDecision(found.value.status, VisitorTarget(status).value)
                             && !MayDecideVisitor(actor.value.role)
    ensures code == 200 <==> actor.Some? && VisitorTarget(status).Some? && found.Some?
                             && (IsDecision(found.value.status, VisitorTarget(status).value)
                                 ==> MayDecideVisitor(actor.value.role))
  {
    if actor.None? then 401
    else match VisitorTarget(status)
      case None => 400
      case Some(target) =>
        if found.None? then 404
        else if IsDecision(found.value.status, target) && !MayDecideVisitor(actor.value.role) then 403
        else 200
  }

  /** The answer of the security-only visitor endpoints (request-approval
      and notify): 403 for any other role, then 404 for an unknown id. */
  function SecurityOnlyCode(actor: Option<Actor>, found: bool): (code: int)
    ensures actor.None? ==> code == 401
    ensures actor.Some? && actor.value.role != Security ==> code == 403
    ensures code == 404 <==> actor.Some? && actor.value.role == Security && !found
    ensures code == 200 <==> actor.Some? && actor.value.role == Security && found
  {
    if actor.None? then 401
    else if actor.value.role != Security then 403
    else if !found then 404
    else 200
  }

  /** The answer of POST /api/payments/upi: 400 unless both the UPI id and
      the amount are truthy; 500 when the insert is refused, which happens
      when the payment would have no apartment (`apartmentId` is falsy, and
      the column is NOT NULL) or an apartment no row has (the column is a
      foreign key); the handler's catch gives the 500. `apartmentKnown`
      says whether some apartment has the key `apartmentId`. */
  function UpiPaymentCode(actor: Option<Actor>, upiId: Option<string>, amount: Option<int>,
                          apartmentId: Option<Id>, apartmentKnown: bool): (code: int)
    ensures actor.None? ==> code == 401
    ensures actor.Some? && (upiId.None? || upiId.value == [] || !Truthy(amount)) ==> code == 400
    ensures actor.Some? && upiId.Some? && upiId.value != [] && Truthy(amount)
              && (!Truthy(apartmentId) || !apartmentKnown)
            ==> code == 500
    ensures code == 201 <==> actor.Some? && upiId.Some? && upiId.value != [] && Truthy(amount)
                             && Truthy(apartmentId) && apartmentKnown
  {
    if actor.None? then 401
    else if upiId.None? || upiId.value == [] || !Truthy(amount) then 400
    else if !Truthy(apartmentId) || !apartmentKnown then 500
    else 201
  }

  // ---------------------------------------------------------------- read-only handlers

  /** GET /api/maintenance: a tenant sees only their own requests, every
      other role sees them all. */
  function ListMaintenance(store: Store, actor: Option<Actor>): (r: Reply<MaintenanceRequest>)
    reads store
    ensures actor.None? ==> r.code == 401 && r.rows == []
    ensures actor.Some? ==> r.code == 200
    ensures actor.Some? && actor.value.role == Tenant ==>
              forall m :: m in r.rows <==> m in store.requests && m.tenantId == actor.value.id
    ensures actor.Some? && actor.value.role != Tenant ==> r.rows == store.requests
  {
    if actor.None? then Reply(401, [])
    else Reply(200, GetMaintenanceRequests(store.requests,
                                           if actor.value.role == Tenant then Some(actor.value.id) else None))
  }

  /** GET /api/payments: manager and security see every payment, an owner
      the payments for apartments they own, anyone else their own. */
  function ListPayments(store: Store, actor: Option<Actor>): (r: Reply<Payment>)
    reads store
    ensures actor.None? ==> r.code == 401 && r.rows == []
    ensures actor.Some? ==> r.code == 200
    ensures actor.Some? && (actor.value.role == Manager || actor.value.role == Security) ==> r.rows == store.payments
    ensures actor.Some? && actor.value.role == Owner ==>
              forall p :: p in r.rows <==> p in store.payments
                                           && exists a :: a in store.apartments && a.ownerId == Some(actor.value.id)
                                                          && a.id == p.apartmentId
    ensures actor.Some? && (actor.value.role == Tenant || actor.value.role == Role.Visitor) ==>
              forall p :: p in r.rows <==> p in store.payments && p.tenantId == actor.value.id
  {
    if actor.None? then Reply(401, [])
    else match actor.value.role
      case Manager => Reply(200, store.payments)
      case Owner => Reply(200, PaymentsByOwner(store.payments, store.apartments, actor.value.id))
      case Security => Reply(200, store.payments)
      case _ => Reply(200, PaymentsByTenant(store.payments, actor.value.id))
  }

  /** GET /api/apartments: whoever asks sees the apartments they rent,
      whatever their role — never those they only own. */
  function ListTenantApartments(store: Store, actor: Option<Actor>): (r: Reply<Apartment>)
    reads store
    ensures actor.None? ==> r.code == 401 && r.rows == []
    ensures actor.Some? ==> r.code == 200
                            && forall a :: a in r.rows <==> a in store.apartments && a.tenantId == Some(actor.value.id)
  {
    if actor.None? then Reply(401, [])
    else Reply(200, ApartmentsByTenant(store.apartments, actor.value.id))
  }

  /** GET /api/apartments/all: admin group only; an owner sees the
      apartments they own, manager and security see all. */
  function ListAllApartments(store: Store, actor: Option<Actor>): (r: Reply<Apartment>)
    reads store
    ensures AdminGate(actor).Some? ==> r.code == 403 && r.rows == []
    ensures AdminGate(actor).None? ==> r.code == 200
    ensures actor.Some? && actor.value.role == Owner ==>
              forall a :: a in r.rows <==> a in store.apartments && a.ownerId == Some(actor.value.id)
    ensures actor.Some? && (actor.value.role == Manager || actor.value.role == Security) ==>
              r.rows == store.apartments
  {
    if AdminGate(actor).Some? then Reply(403, [])
    else Reply(200, GetApartments(store.apartments,
                                  if actor.value.role == Owner then Some(actor.value.id) else None))
  }

  /** The apartment whose visitors GET /api/visitors shows a tenant: the
      id of the first apartment they rent, or `undefined` when they rent
      none. */
  function FirstTenantApartment(store: Store, tenantId: UserId): (r: Option<Id>)
    reads store
    ensures r.None? <==> forall a :: a in store.apartments ==> a.tenantId != Some(tenantId)
    ensures r.Some? ==> exists a :: a in store.apartments && a.tenantId == Some(tenantId) && a.id == r.value
  {
    var rented := ApartmentsByTenant(store.apartments, tenantId);
    if rented == [] then None
    else
      assert rented[0] in rented;
      Some(rented[0].id)
  }

  /** GET /api/visitors: a tenant sees the visitors of their first rented
      apartment only, or every visitor when they rent none; every other
      role sees every visitor. Each row comes back with a strict boolean
      approval flag. */
  function ListVisitors(store: Store, actor: Option<Actor>): (r: Reply<Visitor>)
    reads store
    ensures actor.None? ==> r.code == 401 && r.rows == []
    ensures actor.Some? ==> r.code == 200 && forall w :: w in r.rows ==> w.pendingApproval.Some?
    ensures actor.Some? && actor.value.role != Tenant ==> |r.rows| == |store.visitors|
    ensures actor.Some? && actor.value.role == Tenant && FirstTenantApartment(store, actor.value.id).None? ==>
              |r.rows| == |store.visitors|
    ensures actor.Some? && actor.value.role == Tenant && Truthy(FirstTenantApartment(store, actor.value.id)) ==>
              forall w :: w in r.rows ==> w.apartmentId == FirstTenantApartment(store, actor.value.id).value
    ensures actor.Some? && actor.value.role == Tenant && Truthy(FirstTenantApartment(store, actor.value.id)) ==>
              forall v :: v in store.visitors && v.apartmentId == FirstTenantApartment(store, actor.value.id).value
                ==> StrictApproval(v) in r.rows
    ensures actor.Some? && (actor.value.role != Tenant || FirstTenantApartment(store, actor.value.id).None?) ==>
              forall v :: v in store.visitors ==> StrictApproval(v) in r.rows
    ensures actor.Some? && actor.value.role != Tenant ==> r.rows == GetVisitors(store.visitors, None)
    ensures actor.Some? && actor.value.role == Tenant ==>
              r.rows == GetVisitors(store.visitors, FirstTenantApartment(store, actor.value.id))
  {
    if actor.None? then Reply(401, [])
    else if actor.value.role == Tenant then
      Reply(200, GetVisitors(store.visitors, FirstTenantApartment(store, actor.value.id)))
    else Reply(200, GetVisitors(store.visitors, None))
  }

  /** GET /api/announcements: every announcement, newest first. */
  function ListAnnouncements(store: Store, actor: Option<Actor>): (r: Reply<Announcement>)
    reads store
    ensures actor.None? ==> r.code == 401 && r.rows == []
    ensures actor.Some? ==> r.code == 200 && multiset(r.rows) == multiset(store.announcements)
                            && forall i, j :: 0 <= i < j < |r.rows| ==> r.rows[i].createdAt >= r.rows[j].createdAt
  {
    if actor.None? then Reply(401, []) else Reply(200, GetAnnouncements(store.announcements))
  }

  /** POST /api/visitors/:id/notify: security only; it logs and writes
      nothing, so the store is left as it was. */
  method Notify(store: Store, actor: Option<Actor>, id: Id) returns (code: int)
    ensures code == SecurityOnlyCode(actor, VisitorById(store.visitors, id).Some?)
  {
    code := SecurityOnlyCode(actor, VisitorById(store.visitors, id).Some?);
  }

  // ---------------------------------------------------------------- handlers that write

  /** POST /api/maintenance: a valid body is stored with status "pending",
      whatever status it carried. */
  method PostMaintenance(store: Store, actor: Option<Actor>, body: Option<NewMaintenanceRequest>, now: Time)
    returns (code: int, created: Option<MaintenanceRequest>)
    requires store.Valid()
    modifies store`requests, store`nextRequestId
    ensures store.Valid()
    ensures code == (if actor.None? then 401 else if body.None? then 400 else 201)
    ensures code != 201 ==> unchanged(store) && created.None?
    ensures code == 201 ==> created.Some? && created.value.status == MaintenanceStatus.Pending
                            && created.value == MaintenanceRow(old(store.nextRequestId),
                                                               body.value.(status := MaintenanceStatus.Pending), now)
                            && store.requests == old(store.requests) + [created.value]
  {
    if actor.None? {
      return 401, None;
    }
    if body.None? {
      return 400, None;
    }
    var request := store.CreateMaintenanceRequest(body.value.(status := MaintenanceStatus.Pending), now);
    return 201, Some(request);
  }

  /** PATCH /api/maintenance/:id: writes only the status, and only when
      MaintenancePatchCode answers 200; a rejected request changes nothing. */
  method PatchMaintenance(store: Store, actor: Option<Actor>, id: Id, status: string)
    returns (code: int, updated: Option<MaintenanceRequest>)
    requires store.Valid()
    modifies store`requests
    ensures store.Valid()
    ensures code == MaintenancePatchCode(actor, status, RequestById(old(store.requests), id).Some?)
    ensures code != 200 ==> unchanged(store) && updated.None?
    ensures code == 200 ==>
              var target := ParseMaintenanceStatus(status).value;
              && updated == Some(RequestById(old(store.requests), id).value.(status := target))
              && |store.requests| == |old(store.requests)|
              && forall i :: 0 <= i < |store.requests| ==>
                   store.requests[i] == if old(store.requests[i]).id == id
                                        then old(store.requests[i]).(status := target)
                                        else old(store.requests[i])
  {
    if actor.None? {
      return 401, None;
    }
    var target := ParseMaintenanceStatus(status);
    if target.None? {
      return 400, None;
    }
    if target.value != MaintenanceStatus.Pending && actor.value.role != Manager {
      return 403, None;
    }
    if RequestById(store.requests, id).None? {
      return 404, None;
    }
    updated := store.UpdateMaintenanceRequest(id, MaintenancePatch(Keep, Keep, Keep, Set(target.value), Keep));
    code := 200;
  }

  /** POST /api/payments: a valid body is stored as given. */
  method PostPayment(store: Store, actor: Option<Actor>, body: Option<NewPayment>)
    returns (code: int, created: Option<Payment>)
    requires store.Valid()
    modifies store`payments, store`nextPaymentId
    ensures store.Valid()
    ensures code == (if actor.None? then 401 else if body.None? then 400 else 201)
    ensures code != 201 ==> unchanged(store) && created.None?
    ensures code == 201 ==> created == Some(PaymentRow(old(store.nextPaymentId), body.value))
                            && store.payments == old(store.payments) + [created.value]
  {
    if actor.None? {
      return 401, None;
    }
    if body.None? {
      return 400, None;
    }
    var payment := store.CreatePayment(body.value);
    return 201, Some(payment);
  }

  /** POST /api/payments/upi: records a payment by the caller, dated now,
      of type `rent` unless the body names one. The apartment id is a
      foreign key, so a payment for an apartment the store does not hold is
      refused by the insert and answered with 500. */
  method PostUpiPayment(store: Store, actor: Option<Actor>, upiId: Option<string>, amount: Option<int>,
                        apartmentId: Option<Id>, kind: Option<PaymentType>, now: Time)
    returns (code: int, created: Option<Payment>)
    requires store.Valid()
    modifies store`payments, store`nextPaymentId
    ensures store.Valid()
    ensures code == UpiPaymentCode(actor, upiId, amount, apartmentId,
                                   apartmentId.Some? && ApartmentById(old(store.apartments), apartmentId.value).Some?)
    ensures code != 201 ==> unchanged(store) && created.None?
    ensures code == 201 ==> created.Some? && store.payments == old(store.payments) + [created.value]
    ensures code == 201 ==>
              var p := created.value;
              && p.id == old(store.nextPaymentId) && p.tenantId == actor.value.id && p.date == now
              && p.amount == amount.value && p.apartmentId == apartmentId.value
              && p.kind == (if kind.Some? then kind.value else Rent)
  {
    code := UpiPaymentCode(actor, upiId, amount, apartmentId,
                           apartmentId.Some? && ApartmentById(store.apartments, apartmentId.value).Some?);
    if code != 201 {
      return code, None;
    }
    var payment := store.CreatePayment(NewPayment(apartmentId.value, actor.value.id, amount.value, now,
                                                  if kind.Some? then kind.value else Rent));
    created := Some(payment);
  }

  /** POST /api/apartments: admin group only; a valid body is stored. */
  method PostApartment(store: Store, actor: Option<Actor>, body: Option<NewApartment>)
    returns (code: int, created: Option<Apartment>)
    requires store.Valid()
    modifies store`apartments, store`nextApartmentId
    ensures store.Valid()
    ensures code == (if AdminGate(actor).Some? then 403 else if body.None? then 400 else 201)
    ensures code != 201 ==> unchanged(store) && created.None?
    ensures code == 201 ==> created == Some(ApartmentRow(old(store.nextApartmentId), body.value))
                            && store.apartments == old(store.apartments) + [created.value]
  {
    if AdminGate(actor).Some? {
      return 403, None;
    }
    if body.None? {
      return 400, None;
    }
    var apartment := store.CreateApartment(body.value);
    return 201, Some(apartment);
  }

  /** PATCH /api/apartments/:id: writes the body's fields when
      ApartmentPatchCode answers 200; a rejected request changes nothing. */
  method PatchApartment(store: Store, actor: Option<Actor>, id: Id, body: Option<ApartmentPatch>)
    returns (code: int, updated: Option<Apartment>)
    requires store.Valid()
    modifies store`apartments
    ensures store.Valid()
    ensures code == ApartmentPatchCode(actor, ApartmentById(old(store.apartments), id), body.Some?)
    ensures code != 200 ==> unchanged(store) && updated.None?
    ensures code == 200 ==>
              && updated == Some(ApplyApartmentPatch(ApartmentById(old(store.apartments), id).value, body.value))
              && |store.apartments| == |old(store.apartments)|
              && forall i :: 0 <= i < |store.apartments| ==>
                   store.apartments[i] == if old(store.apartments[i]).id == id
                                          then ApplyApartmentPatch(old(store.apartments[i]), body.value)
                                          else old(store.apartments[i])
  {
    var apartment := ApartmentById(store.apartments, id);
    code := ApartmentPatchCode(actor, apartment, body.Some?);
    if code != 200 {
      return code, None;
    }
    updated := store.UpdateApartment(id, body.value);
  }

  /** POST /api/visitors: a valid body is stored with status "upcoming",
      whatever status it carried. */
  method PostVisitor(store: Store, actor: Option<Actor>, body: Option<NewVisitor>)
    returns (code: int, created: Option<Visitor>)
    requires store.Valid()
    modifies store`visitors, store`nextVisitorId
    ensures store.Valid()
    ensures code == (if actor.None? then 401 else if body.None? then 400 else 201)
    ensures code != 201 ==> unchanged(store) && created.None?
    ensures code == 201 ==> created.Some? && created.value.status == Upcoming
                            && created.value == VisitorRow(old(store.nextVisitorId), body.value.(status := Upcoming))
                            && store.visitors == old(store.visitors) + [created.value]
  {
    if actor.None? {
      return 401, None;
    }
    if body.None? {
      return 400, None;
    }
    var visitor := store.CreateVisitor(body.value.(status := Upcoming));
    return 201, Some(visitor);
  }

  /** PATCH /api/visitors/:id/status: when VisitorPatchCode answers 200,
      writes the target status, the entry time (only for "current") or
      exit time (only for "past"), the caller as approver, and clears the
      approval flag; a rejected request changes nothing. */
  method PatchVisitorStatus(store: Store, actor: Option<Actor>, id: Id, status: string, now: Time)
    returns (code: int, updated: Option<Visitor>)
    requires store.Valid()
    modifies store`visitors
    ensures store.Valid()
    ensures code == VisitorPatchCode(actor, status, VisitorById(old(store.visitors), id))
    ensures code != 200 ==> unchanged(store) && updated.None?
    ensures code == 200 ==>
              var before, target := VisitorById(old(store.visitors), id).value, VisitorTarget(status).value;
              && updated.Some?
              && updated.value.status == target
              && updated.value.actualEntryAt == (if target == Current then Some(now) else before.actualEntryAt)
              && updated.value.actualExitAt == (if target == Past then Some(now) else before.actualExitAt)
              && updated.value.approvedBy == Some(actor.value.id as Id)
              && updated.value.pendingApproval == Some(false)
              && updated.value.(status := before.status, actualEntryAt := before.actualEntryAt,
                                actualExitAt := before.actualExitAt, approvedBy := before.approvedBy,
                                pendingApproval := before.pendingApproval) == before
              && |store.visitors| == |old(store.visitors)|
              && (forall i :: 0 <= i < |store.visitors| && old(store.visitors[i]).id == id ==>
                    store.visitors[i] == updated.value)
              && (forall i :: 0 <= i < |store.visitors| && old(store.visitors[i]).id != id ==>
                    store.visitors[i] == old(store.visitors[i]))
  {
    if actor.None? {
      return 401, None;
    }
    var target := VisitorTarget(status);
    if target.None? {
      return 400, None;
    }
    var visitor := VisitorById(store.visitors, id);
    if visitor.None? {
      return 404, None;
    }
    if IsDecision(visitor.value.status, target.value) && !MayDecideVisitor(actor.value.role) {
      return 403, None;
    }
    var t := target.value;
    updated := store.UpdateVisitorStatus(id, t, if t == Current then Some(now) else None,
                                         if t == Past then Some(now) else None,
                                         Some(actor.value.id as Id), Some(false));
    if updated.None? {
      assert false;
      return 404, None;
    }
    code := 200;
  }

  /** POST /api/visitors/:id/request-approval: security only; sets the
      approval flag of the visitor and nothing else — its status is neither
      checked nor changed. */
  method RequestApproval(store: Store, actor: Option<Actor>, id: Id)
    returns (code: int, updated: Option<Visitor>)
    requires store.Valid()
    modifies store`visitors
    ensures store.Valid()
    ensures code == SecurityOnlyCode(actor, VisitorById(old(store.visitors), id).Some?)
    ensures code != 200 ==> unchanged(store) && updated.None?
    ensures code == 200 ==>
              && updated == Some(VisitorById(old(store.visitors), id).value.(pendingApproval := Some(true)))
              && |store.visitors| == |old(store.visitors)|
              && forall i :: 0 <= i < |store.visitors| ==>
                   store.visitors[i] == if old(store.visitors[i]).id == id
                                        then old(store.visitors[i]).(pendingApproval := Some(true))
                                        else old(store.visitors[i])
  {
    code := SecurityOnlyCode(actor, VisitorById(store.visitors, id).Some?);
    if code != 200 {
      return code, None;
    }
    updated := store.UpdateVisitorApprovalStatus(id, true);
    if updated.None? {
      assert false;
      return 500, None;
    }
  }

  /** POST /api/announcements: admin group (manager, owner or security);
      the caller is recorded as author, whoever the body names. */
  method PostAnnouncement(store: Store, actor: Option<Actor>, body: Option<NewAnnouncement>, now: Time)
    returns (code: int, created: Option<Announcement>)
    requires store.Valid()
    modifies store`announcements, store`nextAnnouncementId
    ensures store.Valid()
    ensures code == (if AdminGate(actor).Some? then 403 else if body.None? then 400 else 201)
    ensures code != 201 ==> unchanged(store) && created.None?
    ensures code == 201 ==> created.Some? && created.value.createdBy == actor.value.id
                            && created.value == AnnouncementRow(old(store.nextAnnouncementId),
                                                                body.value.(createdBy := actor.value.id), now)
                            && store.announcements == old(store.announcements) + [created.value]
  {
    if AdminGate(actor).Some? {
      return 403, None;
    }
    if body.None? {
      return 400, None;
    }
    var announcement := store.CreateAnnouncement(body.value.(createdBy := actor.value.id), now);
    return 201, Some(announcement);
  }

  // ---------------------------------------------------------------- the flows, step by step

  /** A store holding one visitor, pending, as only the store (not the API,
      which creates "upcoming" ones) can make it. */
  method StoreWithPendingVisitor(now: Time) returns (store: Store, v: Visitor)
    ensures fresh(store) && store.Valid() && store.visitors == [v] && v.id == 1
    ensures v.status == VisitorStatus.Pending && v.pendingApproval == Some(false)
  {
    store := new Store();
    v := store.CreateVisitor(NewVisitor("Ann", "Delivery", VisitorStatus.Pending, 1, now, None, "555", Some(false)));
  }

  /** Security asks for approval: the flag is raised, the status kept. */
  method GuardRequestsApproval(now: Time)
  {
    var store, v := StoreWithPendingVisitor(now);
    assert VisitorById(store.visitors, 1) == Some(v);
    var code, flagged := RequestApproval(store, Some(Actor(1, Security)), 1);
    assert code == 200;
    assert flagged.value.pendingApproval == Some(true) && flagged.value.status == VisitorStatus.Pending;
  }

  /** Security may not let a pending visitor in itself: 403, nothing written. */
  method GuardMayNotAdmitPendingVisitor(now: Time)
  {
    var store, v := StoreWithPendingVisitor(now);
    assert VisitorById(store.visitors, 1) == Some(v);
    assert VisitorTarget("current") == Some(Current);
    var code, updated := PatchVisitorStatus(store, Some(Actor(1, Security)), 1, "current", now);
    assert code == 403 && store.visitors == [v];
  }

  /** The tenant's approval lets the visitor in: entry time recorded, the
      tenant recorded as approver, the flag cleared. */
  method TenantAdmitsPendingVisitor(now: Time)
  {
    var store, v := StoreWithPendingVisitor(now);
    assert VisitorById(store.visitors, 1) == Some(v);
    assert VisitorTarget("current") == Some(Current);
    var code, approved := PatchVisitorStatus(store, Some(Actor(2, Tenant)), 1, "current", now);
    assert code == 200;
    assert approved.value.status == Current && approved.value.actualEntryAt == Some(now);
    assert approved.value.pendingApproval == Some(false) && approved.value.approvedBy == Some(2);
  }

  /** A store holding one maintenance request, in progress. */
  method StoreWithRequestInProgress(now: Time) returns (store: Store, m: MaintenanceRequest)
    ensures fresh(store) && store.Valid() && store.requests == [m] && m.id == 1 && m.status == InProgress
  {
    store := new Store();
    m := store.CreateMaintenanceRequest(NewMaintenanceRequest(1, 2, "Leaking tap", InProgress, None), now);
  }

  /** A tenant may not complete a request: 403, nothing written. */
  method TenantMayNotCompleteRequest(now: Time)
  {
    var store, m := StoreWithRequestInProgress(now);
    var code, request := PatchMaintenance(store, Some(Actor(2, Tenant)), 1, "completed");
    assert code == 403 && store.requests == [m];
  }

  /** A manager may. */
  method ManagerCompletesRequest(now: Time)
  {
    var store, m := StoreWithRequestInProgress(now);
    assert RequestById(store.requests, 1) == Some(m);
    var code, request := PatchMaintenance(store, Some(Actor(3, Manager)), 1, "completed");
    assert code == 200 && request == Some(m.(status := Completed));
  }
}
