/** The visitor page of the client (client/src/pages/visitors.tsx): its
    `getVisitorStatus` helper (declared but called nowhere on the page),
    the grouping of the visitor list into tabs, and the checks and shaping
    done before a visitor is submitted. */
module VisitorsPage {
  import opened Wrappers
  import opened Seqs
  import opened Schema

  /** A tab key of the grouping, and the value `getVisitorStatus` returns:
      one per visitor status, plus "awaiting_approval". */
  datatype Tab = StatusTab(status: VisitorStatus) | AwaitingApproval

  /** getVisitorStatus: the status a visitor would be shown with, "awaiting
      approval" only when it is pending AND flagged. The page declares it
      but never calls it. */
  function GetVisitorStatus(v: Visitor): (t: Tab)
    ensures t == AwaitingApproval <==> v.status == VisitorStatus.Pending && v.pendingApproval == Some(true)
    ensures t != AwaitingApproval ==> t == StatusTab(v.status)
  {
    if v.status == VisitorStatus.Pending && v.pendingApproval == Some(true) then AwaitingApproval
    else StatusTab(v.status)
  }

  /** The tab a visitor is grouped under: any flagged visitor goes to
      "awaiting_approval", whatever its status; every other visitor goes to
      the tab of its status. */
  function TabOf(v: Visitor): (t: Tab)
    ensures t == AwaitingApproval <==> v.pendingApproval == Some(true)
    ensures t != AwaitingApproval ==> t == StatusTab(v.status)
  {
    if v.pendingApproval == Some(true) then AwaitingApproval else StatusTab(v.status)
  }

  function InTab(t: Tab): Visitor -> bool
  {
    v => TabOf(v) == t
  }

  /** The accumulator of the `visitorsByStatus` reduce: one list per tab. */
  datatype Buckets = Buckets(upcoming: seq<Visitor>, current: seq<Visitor>, past: seq<Visitor>,
                             pending: seq<Visitor>, awaitingApproval: seq<Visitor>)
  {
    function Get(t: Tab): seq<Visitor>
    {
      match t
      case AwaitingApproval => awaitingApproval
      case StatusTab(s) =>
        match s
        case Upcoming => upcoming
        case Current => current
        case Past => past
        case Pending => pending
    }

    /** `acc[t].push(v)`: appends to the one list and leaves the others. */
    function Push(t: Tab, v: Visitor): (b: Buckets)
      ensures b.Get(t) == Get(t) + [v]
      ensures forall u :: u != t ==> b.Get(u) == Get(u)
    {
      match t
      case AwaitingApproval => this.(awaitingApproval := awaitingApproval + [v])
      case StatusTab(s) =>
        match s
        case Upcoming => this.(upcoming := upcoming + [v])
        case Current => this.(current := current + [v])
        case Past => this.(past := past + [v])
        case Pending => this.(pending := pending + [v])
    }

    function Total(): nat
    {
      |upcoming| + |current| + |past| + |pending| + |awaitingApproval|
    }
  }

  /** The five empty lists the reduce starts from. */
  const NoBuckets := Buckets([], [], [], [], [])

  /** What the grouping computes: each tab holds, in list order, exactly the
      visitors whose tab it is. */
  function Grouped(vs: seq<Visitor>): (b: Buckets)
    ensures forall t :: b.Get(t) == Filter(vs, InTab(t))
    ensures forall t, v :: v in b.Get(t) <==> v in vs && TabOf(v) == t
  {
    Buckets(Filter(vs, InTab(StatusTab(Upcoming))), Filter(vs, InTab(StatusTab(Current))),
            Filter(vs, InTab(StatusTab(Past))), Filter(vs, InTab(StatusTab(VisitorStatus.Pending))),
            Filter(vs, InTab(AwaitingApproval)))
  }

  /** Grouping a list with one more visitor pushes that visitor onto its
      own tab and leaves the other tabs as they were. */
  lemma GroupedSnoc(vs: seq<Visitor>, v: Visitor)
    ensures Grouped(vs + [v]) == Grouped(vs).Push(TabOf(v), v)
  {
    assert (vs + [v])[..|vs + [v]| - 1] == vs;
    var g, h := Grouped(vs + [v]), Grouped(vs).Push(TabOf(v), v);
    forall t
      ensures g.Get(t) == h.Get(t)
    {
    }
    assert g.upcoming == h.Get(StatusTab(Upcoming));
    assert g.current == h.Get(StatusTab(Current));
    assert g.past == h.Get(StatusTab(Past));
    assert g.pending == h.Get(StatusTab(VisitorStatus.Pending));
    assert g.awaitingApproval == h.Get(AwaitingApproval);
  }

  /** One step of the reduce over `vs`: the groups of the first `i + 1`
      visitors are those of the first `i` with visitor `i` pushed. */
  lemma GroupStep(vs: seq<Visitor>, i: nat)
    requires i < |vs|
    ensures Grouped(vs[..i + 1]) == Grouped(vs[..i]).Push(TabOf(vs[i]), vs[i])
  {
    assert vs[..i + 1] == vs[..i] + [vs[i]];
    GroupedSnoc(vs[..i], vs[i]);
  }

  /** The `visitorsByStatus` reduce: starts from five empty lists and
      pushes each visitor onto the list of its tab. */
  method GroupByStatus(vs: seq<Visitor>) returns (acc: Buckets)
    ensures acc == Grouped(vs)
  {
    acc := NoBuckets;
    var i := 0;
    assert vs[..0] == [];
    while i < |vs|
      invariant 0 <= i <= |vs|
      invariant acc == Grouped(vs[..i])
    {
      GroupStep(vs, i);
      acc := acc.Push(TabOf(vs[i]), vs[i]);
      i := i + 1;
    }
    assert vs[..i] == vs;
  }

  /** Grouping keeps list order within each tab: the visitors of a later
      part of the list come after those of an earlier part, in every tab. */
  lemma GroupedAppend(a: seq<Visitor>, b: seq<Visitor>, t: Tab)
    ensures Grouped(a + b).Get(t) == Grouped(a).Get(t) + Grouped(b).Get(t)
  {
    FilterAppend(a, b, InTab(t));
  }

  /** No visitor is lost or counted twice: the tab sizes add up to the
      length of the list. */
  lemma {:induction false} GroupedTotal(vs: seq<Visitor>)
    ensures Grouped(vs).Total() == |vs|
  {
    if vs != [] {
      var init, last := vs[..|vs| - 1], vs[|vs| - 1];
      assert vs == init + [last];
      GroupedTotal(init);
      GroupedSnoc(init, last);
    }
  }

  /** For a visitor the flag rule keeps consistent (flagged only while
      pending), getVisitorStatus names the very tab the grouping puts it
      under. */
  lemma StatusAgreesWithGrouping(v: Visitor)
    requires v.pendingApproval == Some(true) ==> v.status == VisitorStatus.Pending
    ensures GetVisitorStatus(v) == TabOf(v)
  {
  }

  /** The converse fails: for a flagged visitor that is not pending (which
      a security request-approval on an upcoming visitor produces) the
      grouping says "awaiting_approval" while getVisitorStatus says its own
      status. */
  lemma FlaggedUpcomingStatusDisagrees(v: Visitor)
    requires v.status == Upcoming && v.pendingApproval == Some(true)
    ensures TabOf(v) == AwaitingApproval && GetVisitorStatus(v) == StatusTab(Upcoming)
    ensures GetVisitorStatus(v) != TabOf(v)
  {
  }

  // ---------------------------------------------------------------- submission

  /** The visitor form as the mutation receives it; `None` stands for a
      missing or empty (falsy) value. */
  datatype VisitorDraft = VisitorDraft(name: string, purpose: string, contactNumber: string,
                                       apartmentId: Option<int>, expectedAt: Option<Time>)

  const InvalidApartmentMessage := "Valid apartment ID is required"

  /** createVisitorMutation before the request: rejects a missing or
      non-positive apartment id, fills in the expected time with `now`, and
      sends status "pending" with the approval flag false. */
  function PrepareVisitorBody(d: VisitorDraft, now: Time): (r: Result<NewVisitor>)
    ensures r.Err? <==> d.apartmentId.None? || d.apartmentId.value <= 0
    ensures r.Err? ==> r.message == InvalidApartmentMessage
    ensures r.Ok? ==> r.value.status == VisitorStatus.Pending && r.value.pendingApproval == Some(false)
                      && r.value.apartmentId == d.apartmentId.value && r.value.apartmentId > 0
                      && r.value.expectedAt == (if d.expectedAt.Some? then d.expectedAt.value else now)
                      && r.value.name == d.name && r.value.purpose == d.purpose
                      && r.value.contactNumber == d.contactNumber && r.value.approvedBy.None?
  {
    if d.apartmentId.None? || d.apartmentId.value <= 0 then Err(InvalidApartmentMessage)
    else
      var expectedAt := if d.expectedAt.Some? then d.expectedAt.value else now;
      Ok(NewVisitor(d.name, d.purpose, VisitorStatus.Pending, d.apartmentId.value, expectedAt, None,
                    d.contactNumber, Some(false)))
  }

  /** What the page submits, once the server has accepted it, is stored as
      "upcoming" (the server overrides the "pending" the page sends) and
      unflagged. It is therefore grouped in the upcoming bucket, which no
      tab of the page shows, and never in the pending one where security
      could ask for approval. The lemma takes the server's acceptance of
      the body as given: the page sends the expected time as a string, and
      whether the server's schema takes a string for that timestamp column
      is not part of this model. */
  lemma SubmittedVisitorLandsUpcoming(d: VisitorDraft, now: Time, id: Id)
    requires PrepareVisitorBody(d, now).Ok?
    ensures var row := VisitorRow(id, PrepareVisitorBody(d, now).value.(status := Upcoming));
            && row.status == Upcoming && row.pendingApproval == Some(false)
            && TabOf(row) == StatusTab(Upcoming) && GetVisitorStatus(row) == StatusTab(Upcoming)
  {
  }
}
