/** The customer part of `handleSaleComplete`: the customer store is searched by exact name;
    the first match has its purchase total and visit count raised, otherwise a new customer is
    created. */
module Customers {
  import opened Wrappers
  import opened Seqs

  /** A stored customer. The two accumulators may be missing on records created elsewhere;
      `(x || 0)` reads a missing one as 0. */
  datatype Customer = Customer(
    name: string,
    phone: string,
    totalPurchases: Option<int>,
    visitCount: Option<int>,
    lastPurchaseDate: string)

  /** `Customer.filter({ name })[0]`: the position of the first customer with exactly this name
      (case-sensitive, no trimming). */
  function FindCustomer(customers: seq<Customer>, name: string): (k: Option<nat>)
    ensures k.Some? ==> k.value < |customers| && customers[k.value].name == name
    ensures k.Some? ==> forall j :: 0 <= j < k.value ==> customers[j].name != name
    ensures k.None? <==> forall j :: 0 <= j < |customers| ==> customers[j].name != name
  {
    if customers == [] then None
    else if customers[0].name == name then Some(0)
    else match FindCustomer(customers[1..], name)
      case None => None
      case Some(k) => Some(k + 1)
  }

  /** The customer record after a purchase of `amount` on `today`. */
  function Visited(c: Customer, amount: int, today: string): Customer {
    c.(totalPurchases := Some(c.totalPurchases.GetOr(0) + amount),
       visitCount := Some(c.visitCount.GetOr(0) + 1),
       lastPurchaseDate := today)
  }

  function NewCustomer(name: string, phone: string, amount: int, today: string): Customer {
    Customer(name, phone, Some(amount), Some(1), today)
  }

  /** The customer store after a sale of `amount` to `name` ("" for no customer). */
  function UpsertCustomer(customers: seq<Customer>, name: string, phone: string, amount: int, today: string): seq<Customer> {
    if name == "" then customers
    else match FindCustomer(customers, name)
      case Some(k) => customers[k := Visited(customers[k], amount, today)]
      case None => customers + [NewCustomer(name, phone, amount, today)]
  }

  // ----- properties -----

  /** The first customer with the name is the one `FindCustomer` returns. */
  lemma FirstWithName(customers: seq<Customer>, name: string, k: nat)
    requires k < |customers| && customers[k].name == name
    requires forall j :: 0 <= j < k ==> customers[j].name != name
    ensures FindCustomer(customers, name) == Some(k)
    decreases k
  {
    if k > 0 {
      assert customers[0].name != name;
      assert forall j :: 0 <= j < k - 1 ==> customers[1..][j] == customers[j + 1];
      FirstWithName(customers[1..], name, k - 1);
    }
  }

  /** No customer name, no change; a known name updates the first customer with that name and
      nobody else, keeping its name and phone; an unknown name appends one new customer. */
  lemma UpsertCases(customers: seq<Customer>, name: string, phone: string, amount: int, today: string)
    ensures name == "" ==> UpsertCustomer(customers, name, phone, amount, today) == customers
    ensures name != "" && (forall j :: 0 <= j < |customers| ==> customers[j].name != name) ==>
      UpsertCustomer(customers, name, phone, amount, today)
        == customers + [Customer(name, phone, Some(amount), Some(1), today)]
    ensures forall k ::
      (&& 0 <= k < |customers| && customers[k].name == name && name != ""
       && (forall j :: 0 <= j < k ==> customers[j].name != name)) ==>
      UpsertCustomer(customers, name, phone, amount, today)
        == customers[k := customers[k].(
             totalPurchases := Some(customers[k].totalPurchases.GetOr(0) + amount),
             visitCount := Some(customers[k].visitCount.GetOr(0) + 1),
             lastPurchaseDate := today)]
  {
    forall k |
      && 0 <= k < |customers| && customers[k].name == name && name != ""
      && (forall j :: 0 <= j < k ==> customers[j].name != name)
      ensures UpsertCustomer(customers, name, phone, amount, today)
        == customers[k := customers[k].(
             totalPurchases := Some(customers[k].totalPurchases.GetOr(0) + amount),
             visitCount := Some(customers[k].visitCount.GetOr(0) + 1),
             lastPurchaseDate := today)]
    {
      UpsertKnown(customers, name, phone, amount, today, k);
    }
  }

  lemma UpsertKnown(customers: seq<Customer>, name: string, phone: string, amount: int, today: string, k: nat)
    requires k < |customers| && customers[k].name == name && name != ""
    requires forall j :: 0 <= j < k ==> customers[j].name != name
    ensures UpsertCustomer(customers, name, phone, amount, today) == customers[k := Visited(customers[k], amount, today)]
  {
    FirstWithName(customers, name, k);
  }

  /** No two customers share a name. */
  predicate UniqueNames(customers: seq<Customer>) {
    forall i, j :: 0 <= i < j < |customers| ==> customers[i].name != customers[j].name
  }

  /** The upsert never creates a second customer with an existing name. */
  lemma UpsertKeepsNamesUnique(customers: seq<Customer>, name: string, phone: string, amount: int, today: string)
    requires UniqueNames(customers)
    ensures UniqueNames(UpsertCustomer(customers, name, phone, amount, today))
  {
    var r := UpsertCustomer(customers, name, phone, amount, today);
    if name != "" && FindCustomer(customers, name).Some? {
      var k := FindCustomer(customers, name).value;
      assert forall i :: 0 <= i < |r| ==> r[i].name == customers[i].name;
    }
  }

  /** One checkout by the customer: its total, the phone typed in and the day. */
  datatype Purchase = Purchase(amount: int, phone: string, date: string)

  function Sum(purchases: seq<Purchase>): int {
    if purchases == [] then 0 else Sum(purchases[..|purchases| - 1]) + purchases[|purchases| - 1].amount
  }

  /** The customer store after the given checkouts, in order, all by the same name. */
  function UpsertAll(customers: seq<Customer>, name: string, purchases: seq<Purchase>): seq<Customer> {
    if purchases == [] then customers
    else
      var last := purchases[|purchases| - 1];
      UpsertCustomer(UpsertAll(customers, name, purchases[..|purchases| - 1]), name, last.phone, last.amount, last.date)
  }

  lemma SumStep(purchases: seq<Purchase>)
    requires purchases != []
    ensures Sum(purchases) == Sum(purchases[..|purchases| - 1]) + purchases[|purchases| - 1].amount
  { }

  /** A name nobody has: the first checkout creates the customer with its phone, later ones add
      to it; the date is the last checkout's. */
  lemma {:induction false} RepeatedPurchasesNew(customers: seq<Customer>, name: string, purchases: seq<Purchase>)
    requires name != "" && |purchases| > 0
    requires forall j :: 0 <= j < |customers| ==> customers[j].name != name
    ensures UpsertAll(customers, name, purchases)
      == customers + [Customer(name, purchases[0].phone, Some(Sum(purchases)), Some(|purchases|), purchases[|purchases| - 1].date)]
    decreases |purchases|
  {
    var n := |purchases|;
    var init := purchases[..n - 1];
    var last := purchases[n - 1];
    SumStep(purchases);
    if n == 1 {
      assert init == [];
    } else {
      var mid := customers + [Customer(name, purchases[0].phone, Some(Sum(init)), Some(n - 1), init[n - 2].date)];
      assert UpsertAll(customers, name, init) == mid by {
        RepeatedPurchasesNew(customers, name, init);
        assert init[0] == purchases[0];
      }
      NewCustomerVisits(customers, name, purchases[0].phone, Sum(init), n - 1, init[n - 2].date, last);
    }
  }

  /** A later checkout by the customer the first checkout appended adds to that customer. */
  lemma NewCustomerVisits(customers: seq<Customer>, name: string, phone: string, sum: int, visits: int, date: string, p: Purchase)
    requires name != ""
    requires forall j :: 0 <= j < |customers| ==> customers[j].name != name
    ensures UpsertCustomer(customers + [Customer(name, phone, Some(sum), Some(visits), date)], name, p.phone, p.amount, p.date)
      == customers + [Customer(name, phone, Some(sum + p.amount), Some(visits + 1), p.date)]
  {
    var before := customers + [Customer(name, phone, Some(sum), Some(visits), date)];
    FirstWithName(before, name, |customers|);
    assert before[|customers| := Visited(before[|customers|], p.amount, p.date)]
      == customers + [Customer(name, phone, Some(sum + p.amount), Some(visits + 1), p.date)];
  }

  /** The search by name is the generic first-match search. */
  lemma FindCustomerIsFirstIndex(customers: seq<Customer>, name: string)
    ensures FindCustomer(customers, name) == FirstIndex(customers, (c: Customer) => c.name == name)
  {
    var f := FirstIndex(customers, (c: Customer) => c.name == name);
    if f.Some? {
      FirstWithName(customers, name, f.value);
    }
  }

  /** Another visit by the first holder of a name keeps it the first holder. */
  lemma VisitKeepsFirst(customers: seq<Customer>, name: string, k: nat, c: Customer)
    requires FindCustomer(customers, name) == Some(k) && c.name == name
    ensures FindCustomer(customers[k := c], name) == Some(k)
  {
    var after := customers[k := c];
    forall j | 0 <= j < k ensures after[j].name != name {
      assert after[j] == customers[j];
    }
    FirstWithName(after, name, k);
  }

  /** The record of the first holder of a name after visits totalling `sum`, `visits` times,
      the last one on `date`. */
  function Accumulated(c: Customer, sum: int, visits: int, date: string): Customer {
    c.(totalPurchases := Some(c.totalPurchases.GetOr(0) + sum),
       visitCount := Some(c.visitCount.GetOr(0) + visits),
       lastPurchaseDate := date)
  }

  /** One more checkout by the first holder of a name adds to its accumulators. */
  lemma AccumulateStep(customers: seq<Customer>, name: string, k: nat, sum: int, visits: int, date: string, p: Purchase)
    requires name != "" && FindCustomer(customers, name) == Some(k)
    ensures UpsertCustomer(customers[k := Accumulated(customers[k], sum, visits, date)], name, p.phone, p.amount, p.date)
      == customers[k := Accumulated(customers[k], sum + p.amount, visits + 1, p.date)]
  {
    var prev := Accumulated(customers[k], sum, visits, date);
    var before := customers[k := prev];
    var next := Visited(prev, p.amount, p.date);
    assert UpsertCustomer(before, name, p.phone, p.amount, p.date) == before[k := next] by {
      VisitKeepsFirst(customers, name, k, prev);
    }
    assert next == Accumulated(customers[k], sum + p.amount, visits + 1, p.date);
    assert before[k := next] == customers[k := next];
  }

  /** A name whose first holder is at `k`: every checkout adds to that customer only; its phone
      is kept and its date is the last checkout's. */
  lemma {:induction false} RepeatedPurchasesKnown(customers: seq<Customer>, name: string, purchases: seq<Purchase>, k: nat)
    requires name != "" && |purchases| > 0
    requires FindCustomer(customers, name) == Some(k)
    ensures UpsertAll(customers, name, purchases)
      == customers[k := Accumulated(customers[k], Sum(purchases), |purchases|, purchases[|purchases| - 1].date)]
    decreases |purchases|
  {
    var n := |purchases|;
    var init := purchases[..n - 1];
    var last := purchases[n - 1];
    if n == 1 {
      assert init == [];
      assert Visited(customers[k], last.amount, last.date) == Accumulated(customers[k], Sum(purchases), n, last.date) by {
        SumStep(purchases);
      }
    } else {
      var mid := customers[k := Accumulated(customers[k], Sum(init), n - 1, init[n - 2].date)];
      assert UpsertAll(customers, name, init) == mid by {
        RepeatedPurchasesKnown(customers, name, init, k);
      }
      assert UpsertCustomer(mid, name, last.phone, last.amount, last.date)
        == customers[k := Accumulated(customers[k], Sum(purchases), n, last.date)] by {
        AccumulateStep(customers, name, k, Sum(init), n - 1, init[n - 2].date, last);
        SumStep(purchases);
      }
    }
  }

  /** Accumulators add up: after N checkouts by a name with totals T1..TN, possibly on different
      days, the matching customer holds the sum of the totals, N more visits and the last day,
      and no other customer changes. A new customer keeps the first checkout's phone. */
  lemma RepeatedPurchases(customers: seq<Customer>, name: string, purchases: seq<Purchase>)
    requires name != "" && |purchases| > 0
    ensures FindCustomer(customers, name).None? ==>
      UpsertAll(customers, name, purchases)
        == customers + [Customer(name, purchases[0].phone, Some(Sum(purchases)), Some(|purchases|), purchases[|purchases| - 1].date)]
    ensures FindCustomer(customers, name).Some? ==>
      var k := FindCustomer(customers, name).value;
      UpsertAll(customers, name, purchases)
        == customers[k := Accumulated(customers[k], Sum(purchases), |purchases|, purchases[|purchases| - 1].date)]
  {
    match FindCustomer(customers, name)
    case None => RepeatedPurchasesNew(customers, name, purchases);
    case Some(k) => RepeatedPurchasesKnown(customers, name, purchases, k);
  }
}
