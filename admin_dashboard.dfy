/** The dashboard's headline figures and the business-information dialog gate. */
module AdminDashboard {
  import opened Wrappers
  import opened Domain
  import Lists

  /** `reduce((sum, o) => sum + totalAmount, 0)`, folded from the left. */
  function TotalRevenue(orders: seq<OrderWithCustomerDetails>): nat {
    if orders == [] then 0
    else TotalRevenue(orders[..|orders| - 1]) + orders[|orders| - 1].order.totalAmount
  }

  lemma {:induction false} TotalRevenueAppend(a: seq<OrderWithCustomerDetails>, b: seq<OrderWithCustomerDetails>)
    ensures TotalRevenue(a + b) == TotalRevenue(a) + TotalRevenue(b)
    decreases |b|
  {
    if b == [] {
      assert a + b == a;
    } else {
      var b' := b[..|b| - 1];
      assert (a + b)[..|a + b| - 1] == a + b';
      assert (a + b)[|a + b| - 1] == b[|b| - 1];
      TotalRevenueAppend(a, b');
    }
  }

  /** Revenue is the sum of the amounts: 0 for no orders, and each order adds its own amount. */
  lemma TotalRevenueSum(o: OrderWithCustomerDetails, rest: seq<OrderWithCustomerDetails>)
    ensures TotalRevenue([]) == 0
    ensures TotalRevenue([o] + rest) == o.order.totalAmount + TotalRevenue(rest)
  {
    TotalRevenueAppend([o], rest);
    assert [o][..0] == [];
  }

  /** No single order exceeds the revenue. */
  lemma {:induction false} TotalRevenueBound(orders: seq<OrderWithCustomerDetails>, i: nat)
    requires i < |orders|
    ensures orders[i].order.totalAmount <= TotalRevenue(orders)
    decreases |orders|
  {
    if i < |orders| - 1 {
      TotalRevenueBound(orders[..|orders| - 1], i);
    }
  }

  function IsPendingKeep(): OrderWithCustomerDetails -> bool {
    (o: OrderWithCustomerDetails) => o.order.status == Pending
  }

  /** `filter(status === 'pending').length`. */
  function PendingCount(orders: seq<OrderWithCustomerDetails>): (n: nat)
    ensures n <= |orders|
  {
    |Lists.Filter(orders, IsPendingKeep())|
  }

  /** Every order is counted iff every order is pending. */
  lemma AllPending(orders: seq<OrderWithCustomerDetails>)
    ensures PendingCount(orders) == |orders| <==> forall i :: 0 <= i < |orders| ==> orders[i].order.status == Pending
  {
    if forall i :: 0 <= i < |orders| ==> orders[i].order.status == Pending {
      Lists.FilterKeepsAll(orders, IsPendingKeep());
    } else {
      var i :| 0 <= i < |orders| && orders[i].order.status != Pending;
      Lists.FilterDropsRejected(orders, IsPendingKeep(), i);
    }
  }

  /** The count is zero iff no order is pending. */
  lemma NonePending(orders: seq<OrderWithCustomerDetails>)
    ensures PendingCount(orders) == 0 <==> forall i :: 0 <= i < |orders| ==> orders[i].order.status != Pending
  {
    var kept := Lists.Filter(orders, IsPendingKeep());
    if |kept| > 0 {
      assert kept[0] in orders && IsPendingKeep()(kept[0]);
      var i :| 0 <= i < |orders| && orders[i] == kept[0];
    }
  }

  /** `currentLogo?.image?.getDirectURL() || null`: no logo, or an empty address, gives none. */
  function LogoUrl(currentLogo: Option<Blob>): (url: Option<string>)
    ensures url.Some? <==> currentLogo.Some? && currentLogo.value.url != ""
    ensures url.Some? ==> url.value == currentLogo.value.url
  {
    if currentLogo.Some? && currentLogo.value.url != "" then Some(currentLogo.value.url) else None
  }

  /** What the business-information dialog is given: the loaded contact details and the logo address. */
  datatype BusinessInfoProps = BusinessInfoProps(contactInfo: BusinessContactInfo, logoUrl: Option<string>)

  /**
   * `showBusinessInfo && contactInfo && <BusinessInfoModal …/>`: the dialog is
   * mounted only when asked for and once the contact details have loaded.
   */
  function BusinessInfoDialog(requested: bool, contactInfo: Option<BusinessContactInfo>, currentLogo: Option<Blob>): (d: Option<BusinessInfoProps>)
    ensures d.Some? <==> requested && contactInfo.Some?
    ensures d.Some? ==> d.value.contactInfo == contactInfo.value && d.value.logoUrl == LogoUrl(currentLogo)
  {
    if requested && contactInfo.Some? then Some(BusinessInfoProps(contactInfo.value, LogoUrl(currentLogo))) else None
  }
}
