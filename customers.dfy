/** The customer find-or-create step of `formatOrderToSale`, keyed by the billing phone. */
module Customers {
  import opened Wrappers
  import Php
  import opened Orders
  import opened Database

  /** `$f_name`, `$l_name`: a name part PHP considers empty becomes "". */
  function FirstNameOf(billing: Address): string {
    if Php.Empty(billing.firstName) then "" else billing.firstName
  }

  function LastNameOf(billing: Address): string {
    if Php.Empty(billing.lastName) then "" else billing.lastName
  }

  /** An optional billing field: null when PHP considers it empty. */
  function Nullable(s: string): Option<string> {
    if Php.Empty(s) then None else Some(s)
  }

  /** `$f_name . ' ' . $l_name`. */
  function FullName(billing: Address): string {
    FirstNameOf(billing) + " " + LastNameOf(billing)
  }

  /** The lookup runs only for a non-empty phone, and then returns the first matching customer. */
  function LookupCustomer(contacts: seq<Contact>, b: int, phone: string): (r: Option<nat>)
    ensures r.Some? ==>
      && !Php.Empty(phone) && r.value < |contacts|
      && CustomerMatches(contacts[r.value], b, phone)
      && forall j :: 0 <= j < r.value ==> !CustomerMatches(contacts[j], b, phone)
    ensures r.None? ==>
      Php.Empty(phone) || forall j :: 0 <= j < |contacts| ==> !CustomerMatches(contacts[j], b, phone)
  {
    if Php.Empty(phone) then None else FindCustomer(contacts, b, phone, 0)
  }

  /**
   * `$customer_data` for a new customer (its id is assigned on insert). When the full
   * name trims to something PHP considers empty, the email stands in as first name and name.
   */
  function NewCustomerData(b: int, userId: int, billing: Address, refNo: nat): (c: Contact)
    ensures c.contactType == Customer && c.businessId == b && c.refNo == refNo
    ensures c.mobile == billing.phone && c.createdBy == userId && c.customerGroupId == None
    ensures c.email == Nullable(billing.email) && c.lastName == LastNameOf(billing)
    ensures Php.Empty(Php.Trim(FullName(billing))) ==> c.firstName == c.email && c.name == c.email
    ensures !Php.Empty(Php.Trim(FullName(billing))) ==>
      c.firstName == Some(FirstNameOf(billing)) && c.name == Some(FullName(billing))
  {
    var data := Contact(
      0, b, Customer,
      Some(FirstNameOf(billing)), LastNameOf(billing), Some(FullName(billing)),
      Nullable(billing.email), refNo, billing.phone,
      Nullable(billing.city), Nullable(billing.state), Nullable(billing.country),
      userId,
      Nullable(billing.address1), Nullable(billing.address2), Nullable(billing.postcode),
      None);
    if Php.Empty(Php.Trim(data.name.value)) then data.(firstName := data.email, name := data.email) else data
  }

  /** A blank billing name (only trim characters) makes the email the customer's name. */
  lemma BlankNameUsesEmail(b: int, userId: int, billing: Address, refNo: nat)
    requires forall k :: 0 <= k < |billing.firstName| ==> Php.IsTrimChar(billing.firstName[k])
    requires forall k :: 0 <= k < |billing.lastName| ==> Php.IsTrimChar(billing.lastName[k])
    ensures NewCustomerData(b, userId, billing, refNo).name == Nullable(billing.email)
    ensures NewCustomerData(b, userId, billing, refNo).firstName == Nullable(billing.email)
  {
    var f, l := FirstNameOf(billing), LastNameOf(billing);
    assert forall k :: 0 <= k < |f| ==> Php.IsTrimChar(f[k]);
    assert forall k :: 0 <= k < |l| ==> Php.IsTrimChar(l[k]);
    var name := FullName(billing);
    assert name == f + " " + l;
    assert forall k :: 0 <= k < |name| ==> Php.IsTrimChar(name[k]) by {
      forall k | 0 <= k < |name| ensures Php.IsTrimChar(name[k]) {
        if k < |f| { assert name[k] == f[k]; }
        else if k > |f| { assert name[k] == l[k - |f| - 1]; }
      }
    }
  }

  /** The customer the order is booked to, and the tables after resolving it. */
  datatype Resolution = Resolution(tables: Tables, customer: Contact)

  /**
   * An existing customer with the billing phone is reused and nothing changes;
   * otherwise the business's reference counter advances and exactly one new
   * customer, numbered with it, is appended.
   */
  function ResolveCustomerSpec(t: Tables, b: int, userId: int, billing: Address): (r: Resolution)
    ensures var found := LookupCustomer(t.contacts, b, billing.phone);
      found.Some? ==> r.tables == t && r.customer == t.contacts[found.value]
    ensures var found := LookupCustomer(t.contacts, b, billing.phone);
      found.None? ==>
        && r.customer.id == t.nextContactId
        && r.customer.contactType == Customer
        && r.customer.refNo == RefCount(t.refCounts, b) + 1
        && r.tables == t.(contacts := t.contacts + [r.customer],
                          nextContactId := t.nextContactId + 1,
                          refCounts := t.refCounts[b := r.customer.refNo])
  {
    match LookupCustomer(t.contacts, b, billing.phone)
    case Some(i) => Resolution(t, t.contacts[i])
    case None =>
      var n := RefCount(t.refCounts, b) + 1;
      var c := NewCustomerData(b, userId, billing, n).(id := t.nextContactId);
      Resolution(t.(contacts := t.contacts + [c], nextContactId := t.nextContactId + 1, refCounts := t.refCounts[b := n]), c)
  }

  /** Resolving the customer keeps the auto-increment and reference-count invariants of the tables. */
  lemma {:induction false} ResolutionKeepsConsistent(t: Tables, b: int, userId: int, billing: Address)
    requires Consistent(t)
    ensures Consistent(ResolveCustomerSpec(t, b, userId, billing).tables)
  {
    var r := ResolveCustomerSpec(t, b, userId, billing);
    if LookupCustomer(t.contacts, b, billing.phone).None? {
      var u := r.tables;
      forall i | 0 <= i < |u.contacts|
        ensures u.contacts[i].id < u.nextContactId
        ensures u.contacts[i].refNo <= RefCount(u.refCounts, u.contacts[i].businessId)
      {
        if i < |t.contacts| {
          assert u.contacts[i] == t.contacts[i];
        } else {
          assert u.contacts[i] == r.customer;
        }
      }
    }
  }

  /** A newly created customer's reference number and id are used by no other contact of the business. */
  lemma NewCustomerIsUnique(t: Tables, b: int, userId: int, billing: Address)
    requires Consistent(t)
    requires LookupCustomer(t.contacts, b, billing.phone).None?
    ensures var r := ResolveCustomerSpec(t, b, userId, billing);
      forall i :: 0 <= i < |t.contacts| && t.contacts[i].businessId == b ==>
        t.contacts[i].refNo != r.customer.refNo && t.contacts[i].id != r.customer.id
  {
  }

  /** Find-or-create against the contacts table, in the order the controller issues the calls. */
  method ResolveCustomer(db: Store, b: int, userId: int, billing: Address) returns (c: Contact)
    requires db.Valid()
    modifies db
    ensures db.Valid()
    ensures Resolution(db.State(), c) == ResolveCustomerSpec(old(db.State()), b, userId, billing)
  {
    ghost var t := db.State();
    var found := LookupCustomer(db.contacts, b, billing.phone);
    if found.Some? {
      return db.contacts[found.value];
    }
    var refCount := db.SetAndGetReferenceCount(b);
    var data := NewCustomerData(b, userId, billing, refCount);
    c := db.CreateContact(data);
    assert c == ResolveCustomerSpec(t, b, userId, billing).customer;
    assert db.State() == t.(contacts := t.contacts + [c], nextContactId := t.nextContactId + 1,
                            refCounts := t.refCounts[b := refCount]);
  }
}
