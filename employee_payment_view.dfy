/** The employee payments page: the status filter and the pending list over the
    populated payments `GET /` returns, the customer columns drawn from the populated
    owner, the action each button posts, and the storage keys logout removes. */
module EmployeePaymentView {
  import opened Base
  import opened Text
  import opened PaymentSchema
  import StatusFilter
  import Documents
  import PaymentStore
  import UserModel
  import AuthMiddleware
  import PaymentRoutes

  const UnknownCustomer: string := "Unknown Customer"
  const NotAvailable: string := "N/A"

  /** The `action` the approve button posts. */
  const ApproveAction: string := "complete"

  /** The `action` the reject button posts. */
  const RejectAction: string := "fail"

  /** The storage keys that hold the session. */
  const SessionKeys: set<string> := {"token", "userData", "userType"}

  function StatusOf(p: PaymentRoutes.PopulatedPayment): Status
  {
    p.payment.status
  }

  /** `filteredPayments` */
  function FilteredPayments(ps: seq<PaymentRoutes.PopulatedPayment>, filter: string): seq<PaymentRoutes.PopulatedPayment>
  {
    StatusFilter.Filtered(ps, StatusOf, filter)
  }

  /** `pendingPayments`: it takes no filter, so it is the same whatever filter is
      selected. */
  function PendingPayments(ps: seq<PaymentRoutes.PopulatedPayment>): seq<PaymentRoutes.PopulatedPayment>
  {
    StatusFilter.Keep(ps, StatusOf, "pending")
  }

  /** The pending list holds exactly the pending payments, each as often as in the list,
      in list order; it is what the "pending" filter shows, whatever filter is selected.
      "all" shows the list, any other filter the payments whose status it names. */
  lemma PaymentListsSpec(ps: seq<PaymentRoutes.PopulatedPayment>, filter: string)
    ensures forall p :: multiset(PendingPayments(ps))[p] == if p.payment.status == Pending then multiset(ps)[p] else 0
    ensures forall i :: 0 <= i < |PendingPayments(ps)| ==> PendingPayments(ps)[i].payment.status == Pending
    ensures PendingPayments(ps) == FilteredPayments(ps, "pending")
    ensures FilteredPayments(ps, StatusFilter.AllFilter) == ps
    ensures filter != StatusFilter.AllFilter ==>
      forall p :: multiset(FilteredPayments(ps, filter))[p] == if p.payment.status.Name() == filter then multiset(ps)[p] else 0
  {
    StatusFilter.FilteredSpec(ps, StatusOf, filter);
    StatusFilter.KeepCounts(ps, StatusOf, "pending");
    forall p ensures (StatusOf(p).Name() == "pending") == (p.payment.status == Pending) {
    }
  }

  /** `getUserDisplayName` */
  function DisplayName(o: PaymentRoutes.Owner): (r: string)
    ensures r != ""
  {
    match o
    case NoOwner => UnknownCustomer
    case OwnerId(id) => if id == "" then UnknownCustomer else "Customer (ID: " + id + ")"
    case OwnerDoc(fullName, _, _, _) => if TruthyText(fullName) then fullName.value else UnknownCustomer
  }

  /** `getUserAccount` */
  function AccountColumn(o: PaymentRoutes.Owner): (r: string)
    ensures r != ""
  {
    match o
    case OwnerDoc(_, accountNumber, _, _) => if TruthyText(accountNumber) then accountNumber.value else NotAvailable
    case _ => NotAvailable
  }

  /** `getUserUsername` */
  function UsernameColumn(o: PaymentRoutes.Owner): (r: string)
    ensures r != ""
  {
    match o
    case OwnerDoc(_, _, username, _) => if TruthyText(username) then username.value else NotAvailable
    case _ => NotAvailable
  }

  /** A bare id is shown as such and only the populated fields are shown as columns:
      a missing owner shows "Unknown Customer" and "N/A" twice. */
  lemma OwnerColumnsSpec(id: string)
    ensures DisplayName(PaymentRoutes.NoOwner) == UnknownCustomer
    ensures AccountColumn(PaymentRoutes.NoOwner) == NotAvailable && UsernameColumn(PaymentRoutes.NoOwner) == NotAvailable
    ensures id != "" ==> DisplayName(PaymentRoutes.OwnerId(id)) == "Customer (ID: " + id + ")"
    ensures AccountColumn(PaymentRoutes.OwnerId(id)) == NotAvailable && UsernameColumn(PaymentRoutes.OwnerId(id)) == NotAvailable
  {
  }

  /** On the list `GET /` returns, every row shows its owner's stored full name,
      account number and username when the owner exists and the field is non-empty,
      and "Unknown Customer" / "N/A" otherwise; since the route always populates, the
      "Customer (ID: ...)" form never appears. */
  lemma ListedRowsShowStoredCustomer(records: seq<Payment>, customers: seq<UserModel.Customer>,
                                     caller: AuthMiddleware.Principal)
    requires PaymentRoutes.ListAllPayments(records, customers, caller).AllListed?
    ensures var ps := PaymentRoutes.ListAllPayments(records, customers, caller).payments;
      forall i :: 0 <= i < |ps| ==>
        var c := UserModel.FindById(customers, ps[i].payment.userId);
        && DisplayName(ps[i].owner) == (if c.Some? && c.value.fullName != "" then c.value.fullName else UnknownCustomer)
        && AccountColumn(ps[i].owner) == (if c.Some? && c.value.accountNumber != "" then c.value.accountNumber else NotAvailable)
        && UsernameColumn(ps[i].owner) == (if c.Some? && c.value.username != "" then c.value.username else NotAvailable)
        && !ps[i].owner.OwnerId?
  {
    var ps := PaymentRoutes.ListAllPayments(records, customers, caller).payments;
    forall i | 0 <= i < |ps|
      ensures ps[i].owner == PaymentRoutes.PopulateOwner(ps[i].payment, customers)
    {
      PaymentRoutes.ListAllSpec(records, customers, caller);
    }
  }

  /** The body each button posts to `/verify/:paymentId`. */
  function ActionBody(approve: bool): JsValue
  {
    Str(if approve then ApproveAction else RejectAction)
  }

  /** Approving a pending payment through the route completes it and rejecting it
      fails it; nothing else in the store changes. */
  lemma ButtonsSetTheStatus(records: seq<Payment>, caller: AuthMiddleware.Principal, paymentIdParam: string,
                            approve: bool, now: nat, random: nat)
    requires random < 10000
    requires PaymentStore.ValidRecords(records)
    requires AuthMiddleware.RequireEmployee(caller).Next?
    requires Documents.Cast(PaymentRoutes.SanitizeInput(Str(paymentIdParam))).Some?
    requires var id := Documents.Cast(PaymentRoutes.SanitizeInput(Str(paymentIdParam))).value;
      PaymentStore.IndexOfId(records, id).Some?
      && records[PaymentStore.IndexOfId(records, id).value].status == Pending
    ensures var (resp, after) := PaymentRoutes.Verify(records, caller, paymentIdParam, ActionBody(approve), now, random);
      && resp.Verified?
      && resp.paymentStatus == (if approve then Completed else Failed)
      && var k := PaymentStore.IndexOfId(records, Documents.Cast(PaymentRoutes.SanitizeInput(Str(paymentIdParam))).value).value;
         after == records[k := records[k].(status := if approve then Completed else Failed)]
  {
    ActionSurvivesSanitizing(approve);
    PaymentRoutes.VerifyPendingSucceeds(records, caller, paymentIdParam, ActionBody(approve), now, random);
  }

  /** Both actions pass the route's sanitizer unchanged. */
  lemma ActionSurvivesSanitizing(approve: bool)
    ensures PaymentRoutes.SanitizeInput(ActionBody(approve)) == if approve then "complete" else "fail"
  {
    var act := if approve then ApproveAction else RejectAction;
    assert forall i :: 0 <= i < |act| ==> act[i] != '<' && act[i] != '>' && !IsWhitespace(act[i]);
    assert NoAngleBrackets(act);
    assert UserModel.NoSurroundingWhitespace(act);
  }

  /** `handleLogout`: the three session keys are gone and every other key keeps its value. */
  function Logout(storage: map<string, string>): (r: map<string, string>)
    ensures forall k :: k in r <==> k in storage && k !in SessionKeys
    ensures forall k :: k in r ==> r[k] == storage[k]
  {
    storage - SessionKeys
  }
}
