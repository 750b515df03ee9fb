/**
 * The data hooks' own logic: the polling queries' name filter and fail-soft
 * fallback, the admin-email shortcut and the carousel stubs. The query
 * library's scheduling (intervals, refetch on focus, caching) is not modelled;
 * each function below is one run of a query function.
 */
module Queries {
  import opened Wrappers
  import opened Domain
  import Text

  /** The one address that is treated as an administrator without asking the backend. */
  const AdminEmail: string := "arjun.tapse@gmail.com"

  /** `order.customer && order.customer.name`: a customer is present and has a name. */
  predicate HasNamedCustomer(o: OrderWithCustomerDetails) {
    o.customer.Some? && o.customer.value.name != ""
  }

  /** Drops the partially populated records, keeping the others in order. */
  function KeepNamed(orders: seq<OrderWithCustomerDetails>): (r: seq<OrderWithCustomerDetails>)
    ensures |r| <= |orders|
    ensures forall o :: o in r <==> o in orders && HasNamedCustomer(o)
  {
    if orders == [] then []
    else (if HasNamedCustomer(orders[0]) then [orders[0]] else []) + KeepNamed(orders[1..])
  }

  /** The filter works record by record, so it keeps the relative order of what it keeps. */
  lemma {:induction false} KeepNamedAppend(a: seq<OrderWithCustomerDetails>, b: seq<OrderWithCustomerDetails>)
    ensures KeepNamed(a + b) == KeepNamed(a) + KeepNamed(b)
    decreases |a|
  {
    if a == [] {
      assert a + b == b;
    } else {
      assert (a + b)[0] == a[0];
      assert (a + b)[1..] == a[1..] + b;
      KeepNamedAppend(a[1..], b);
    }
  }

  /** A list whose records all have a named customer passes the filter unchanged. */
  lemma {:induction false} KeepNamedIdentity(orders: seq<OrderWithCustomerDetails>)
    requires forall k :: 0 <= k < |orders| ==> HasNamedCustomer(orders[k])
    ensures KeepNamed(orders) == orders
  {
    if orders != [] {
      KeepNamedIdentity(orders[1..]);
    }
  }

  /**
   * One run of the admin polling query. Without an actor it returns the empty
   * list; a failed backend call is logged and also yields the empty list.
   */
  function OrdersForPolling(hasActor: bool, response: Result<seq<OrderWithCustomerDetails>>): (r: seq<OrderWithCustomerDetails>)
    ensures !hasActor || response.Err? ==> r == []
    ensures forall o :: o in r <==> hasActor && response.Ok? && o in response.value && HasNamedCustomer(o)
  {
    if !hasActor then []
    else
      match response
      case Err(_) => []
      case Ok(orders) => KeepNamed(orders)
  }

  /** One run of the all-orders admin query: the same guard, filter and fallback. */
  function AllOrdersAdmin(hasActor: bool, response: Result<seq<OrderWithCustomerDetails>>): (r: seq<OrderWithCustomerDetails>)
    ensures !hasActor || response.Err? ==> r == []
    ensures forall o :: o in r <==> hasActor && response.Ok? && o in response.value && HasNamedCustomer(o)
  {
    if !hasActor then []
    else
      match response
      case Err(_) => []
      case Ok(orders) => KeepNamed(orders)
  }

  /** Both admin queries hand their consumer the same list for the same backend answer. */
  lemma AdminQueriesAgree(hasActor: bool, response: Result<seq<OrderWithCustomerDetails>>)
    ensures AllOrdersAdmin(hasActor, response) == OrdersForPolling(hasActor, response)
  {
  }

  /** What the admin query decides on its own, before any backend call. */
  datatype AdminCheck = Answer(isAdmin: bool) | AskBackend

  /** `profile?.email?.toLowerCase() === AdminEmail`. */
  predicate IsAdminEmail(profile: Option<UserProfile>) {
    profile.Some? && Text.Lower(profile.value.email) == AdminEmail
  }

  /**
   * The admin query: false without an actor, true for the dedicated admin
   * address, and otherwise the backend's `isCallerAdmin` decides.
   */
  function IsAdminQuery(hasActor: bool, profile: Option<UserProfile>): (r: AdminCheck)
    ensures !hasActor ==> r == Answer(false)
    ensures r == Answer(true) <==> hasActor && IsAdminEmail(profile)
    ensures r.AskBackend? <==> hasActor && !IsAdminEmail(profile)
  {
    if !hasActor then Answer(false)
    else if IsAdminEmail(profile) then Answer(true)
    else AskBackend
  }

  /** The query's final value, given what the backend would answer if asked. */
  function IsAdmin(hasActor: bool, profile: Option<UserProfile>, backendSaysAdmin: bool): (r: bool)
    ensures r <==> hasActor && (IsAdminEmail(profile) || backendSaysAdmin)
  {
    match IsAdminQuery(hasActor, profile)
    case Answer(b) => b
    case AskBackend => backendSaysAdmin
  }

  /** The admin address matches whatever its letter case. */
  lemma AdminEmailAnyCase(hasActor: bool, p: UserProfile)
    requires hasActor
    requires p.email == "Arjun.Tapse@Gmail.com"
    ensures IsAdminQuery(hasActor, Some(p)) == Answer(true)
  {
    var e := p.email;
    forall i | 0 <= i < |e|
      ensures Text.LowerChar(e[i]) == AdminEmail[i]
    {
    }
    Text.LowerByChars(e, AdminEmail);
  }

  datatype CarouselItem = CarouselItem(id: nat, title: string, url: string, image: Blob, createdAt: int)

  /** The carousel query; the backend has no carousel yet, so the list is always empty. */
  function CarouselItems(hasActor: bool): (r: seq<CarouselItem>)
    ensures |r| == 0
  {
    []
  }

  const ActorMissing: string := "Actor not available"
  const CarouselNotImplemented: string := "Carousel management not yet implemented in backend"

  /** Add, update and delete of a carousel item: each fails, first on the actor check. */
  function CarouselMutation(hasActor: bool): (r: Result<()>)
    ensures r.Err?
    ensures r.message == (if hasActor then CarouselNotImplemented else ActorMissing)
  {
    if !hasActor then Err(ActorMissing) else Err(CarouselNotImplemented)
  }
}
