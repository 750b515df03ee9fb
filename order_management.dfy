/**
 * The admin order view: new-order detection over polled snapshots, the
 * highlight set and its scheduled clears, and the per-order display logic.
 *
 * Detection is kept twice: as a pure transition system (DetectorState,
 * OnSnapshot, OnClear) that the lemmas reason about, and as the class
 * Detector whose fields the view's effects overwrite, proved against it.
 * Each `setTimeout(…, 15000)` is one pending clear; the timer firing is the
 * abstract ClearFired event.
 */
module OrderManagement {
  import opened Wrappers
  import opened Domain
  import Text
  import Sorting

  /** `snapshot.map(o => o.order.id)`. */
  function OrderIds(snapshot: seq<OrderWithCustomerDetails>): (ids: seq<nat>)
    ensures |ids| == |snapshot|
    ensures forall i :: 0 <= i < |ids| ==> ids[i] == snapshot[i].order.id
  {
    seq(|snapshot|, i requires 0 <= i < |snapshot| => snapshot[i].order.id)
  }

  /** `current.filter(id => !previous.includes(id))`. */
  function DiffNewIds(previous: seq<nat>, current: seq<nat>): (r: seq<nat>)
    ensures |r| <= |current|
    ensures forall id :: id in r <==> id in current && id !in previous
  {
    if current == [] then []
    else (if current[0] in previous then [] else [current[0]]) + DiffNewIds(previous, current[1..])
  }

  /** The diff keeps snapshot order: it works one identifier at a time. */
  lemma {:induction false} DiffNewIdsAppend(previous: seq<nat>, a: seq<nat>, b: seq<nat>)
    ensures DiffNewIds(previous, a + b) == DiffNewIds(previous, a) + DiffNewIds(previous, b)
    decreases |a|
  {
    if a == [] {
      assert a + b == b;
    } else {
      assert (a + b)[0] == a[0];
      assert (a + b)[1..] == a[1..] + b;
      DiffNewIdsAppend(previous, a[1..], b);
    }
  }

  /** Identifiers the backend marks `isNew`, in snapshot order. */
  function FlaggedIds(snapshot: seq<OrderWithCustomerDetails>): (r: seq<nat>)
    ensures forall id :: id in r <==> exists o :: o in snapshot && o.isNew && o.order.id == id
  {
    if snapshot == [] then []
    else
      assert forall o :: o in snapshot <==> o == snapshot[0] || o in snapshot[1..];
      (if snapshot[0].isNew then [snapshot[0].order.id] else []) + FlaggedIds(snapshot[1..])
  }

  lemma {:induction false} FlaggedIdsSnoc(snapshot: seq<OrderWithCustomerDetails>, o: OrderWithCustomerDetails)
    ensures FlaggedIds(snapshot + [o]) == FlaggedIds(snapshot) + (if o.isNew then [o.order.id] else [])
    decreases |snapshot|
  {
    if snapshot == [] {
      assert snapshot + [o] == [o];
    } else {
      assert (snapshot + [o])[0] == snapshot[0];
      assert (snapshot + [o])[1..] == snapshot[1..] + [o];
      FlaggedIdsSnoc(snapshot[1..], o);
    }
  }

  /** The state the view keeps across snapshots. */
  datatype DetectorState = DetectorState(
    previousIds: seq<nat>,    // the previous snapshot's identifiers
    highlighted: set<nat>,    // identifiers currently shown as new
    hasNewOrders: bool,       // the banner flag
    pendingClears: nat)       // scheduled clears that have not fired yet

  const Initial: DetectorState := DetectorState([], {}, false, 0)

  /** The diff-detected identifiers of a snapshot; empty on an empty snapshot or before any snapshot was recorded. */
  function DetectedByDiff(s: DetectorState, snapshot: seq<OrderWithCustomerDetails>): (r: seq<nat>)
    ensures |snapshot| == 0 || |s.previousIds| == 0 ==> r == []
    ensures forall id :: id in r <==> |s.previousIds| > 0 && id in OrderIds(snapshot) && id !in s.previousIds
  {
    if |snapshot| > 0 && |s.previousIds| > 0 then DiffNewIds(s.previousIds, OrderIds(snapshot)) else []
  }

  /** One aggregated notification per snapshot: the number of diff-detected orders. */
  datatype StepResult = StepResult(state: DetectorState, notice: Option<nat>)

  /**
   * The first effect: when the snapshot is non-empty and a previous list was
   * recorded, the diff-detected identifiers (if any) replace the highlight
   * set, raise the banner, schedule a clear and give one notification; a
   * non-empty snapshot's identifiers become the previous list.
   */
  function DiffEffect(s: DetectorState, snapshot: seq<OrderWithCustomerDetails>): StepResult {
    var diff := DetectedByDiff(s, snapshot);
    var state := DetectorState(
      if |snapshot| > 0 then OrderIds(snapshot) else s.previousIds,
      if diff != [] then set id | id in diff else s.highlighted,
      s.hasNewOrders || diff != [],
      s.pendingClears + if diff != [] then 1 else 0);
    StepResult(state, if diff != [] then Some(|diff|) else None)
  }

  /**
   * The second effect: every `isNew` identifier is added to the (possibly
   * just replaced) highlight set; if there was any, the banner is raised and
   * a clear is scheduled.
   */
  function FlagEffect(s: DetectorState, snapshot: seq<OrderWithCustomerDetails>): DetectorState {
    var flagged := FlaggedIds(snapshot);
    if flagged == [] then s
    else s.(highlighted := s.highlighted + (set id | id in flagged), hasNewOrders := true,
            pendingClears := s.pendingClears + 1)
  }

  /** Both effects of the view on one snapshot, in their order. */
  function OnSnapshot(s: DetectorState, snapshot: seq<OrderWithCustomerDetails>): (r: StepResult)
    ensures |snapshot| == 0 ==> r.state == s && r.notice == None
    ensures |snapshot| > 0 ==> r.state.previousIds == OrderIds(snapshot)
    ensures |s.previousIds| == 0 ==> r.notice == None && r.state.highlighted == s.highlighted + (set id | id in FlaggedIds(snapshot))
    ensures r.notice.Some? <==> exists id :: id in OrderIds(snapshot) && id !in s.previousIds && |s.previousIds| > 0
    ensures r.notice.Some? ==> r.notice.value == |DetectedByDiff(s, snapshot)| && r.notice.value > 0
    ensures forall k :: 0 <= k < |snapshot| && snapshot[k].isNew ==> snapshot[k].order.id in r.state.highlighted
    ensures forall id :: id in r.state.highlighted <==>
      (exists o :: o in snapshot && o.isNew && o.order.id == id) ||
      (if r.notice.Some? then id in OrderIds(snapshot) && id !in s.previousIds else id in s.highlighted)
  {
    var d := DiffEffect(s, snapshot);
    var diff := DetectedByDiff(s, snapshot);
    assert diff != [] ==> diff[0] in diff;
    assert |snapshot| == 0 ==> FlaggedIds(snapshot) == [];
    StepResult(FlagEffect(d.state, snapshot), d.notice)
  }

  /** A scheduled clear fires: it empties the whole set, whichever batch scheduled it. */
  function OnClear(s: DetectorState): (r: DetectorState)
    requires s.pendingClears > 0
    ensures r.highlighted == {} && !r.hasNewOrders
    ensures r.previousIds == s.previousIds && r.pendingClears == s.pendingClears - 1
  {
    s.(highlighted := {}, hasNewOrders := false, pendingClears := s.pendingClears - 1)
  }

  /** The banner shows exactly when something is highlighted, and nothing stays highlighted without a clear pending. */
  predicate Consistent(s: DetectorState) {
    && (s.hasNewOrders <==> s.highlighted != {})
    && (s.pendingClears == 0 ==> s.highlighted == {})
  }

  lemma InitialConsistent()
    ensures Consistent(Initial)
  {
  }

  lemma OnSnapshotConsistent(s: DetectorState, snapshot: seq<OrderWithCustomerDetails>)
    requires Consistent(s)
    ensures Consistent(OnSnapshot(s, snapshot).state)
  {
    var r := OnSnapshot(s, snapshot);
    var diff := DetectedByDiff(s, snapshot);
    var flagged := FlaggedIds(snapshot);
    if diff != [] {
      assert diff[0] in r.state.highlighted;
    }
    if flagged != [] {
      assert flagged[0] in r.state.highlighted;
    }
  }

  lemma OnClearConsistent(s: DetectorState)
    requires Consistent(s) && s.pendingClears > 0
    ensures Consistent(OnClear(s))
  {
  }

  /**
   * Timers are never cancelled: a clear scheduled by an earlier batch also
   * wipes a batch detected after it, while that batch's own clear is still
   * pending.
   */
  lemma EarlierClearWipesLaterBatch(s: DetectorState, snapshot: seq<OrderWithCustomerDetails>, k: nat)
    requires s.pendingClears > 0
    requires k < |snapshot| && snapshot[k].isNew
    ensures snapshot[k].order.id in OnSnapshot(s, snapshot).state.highlighted
    ensures OnSnapshot(s, snapshot).state.pendingClears > s.pendingClears
    ensures OnClear(OnSnapshot(s, snapshot).state).highlighted == {}
    ensures OnClear(OnSnapshot(s, snapshot).state).pendingClears >= s.pendingClears
    ensures && snapshot[k].order.id !in OnClear(OnSnapshot(s, snapshot).state).highlighted
            && OnClear(OnSnapshot(s, snapshot).state).pendingClears > 0
  {
    assert snapshot[k] in snapshot;
    assert snapshot[k].order.id in FlaggedIds(snapshot);
  }

  function Record(id: nat, isNew: bool): OrderWithCustomerDetails {
    OrderWithCustomerDetails(
      Some(CustomerProfile("c", "Asha", "a@x.in", "Pune", "1")),
      Order(id, Pending, 0, 0, "c", []), 0, isNew)
  }

  /** Cold start: the first snapshot flags nothing and only records its identifiers. */
  lemma ColdStartFlagsNothing()
    ensures OnSnapshot(Initial, [Record(1, false), Record(2, false)]) ==
      StepResult(DetectorState([1, 2], {}, false, 0), None)
  {
    var snap := [Record(1, false), Record(2, false)];
    assert OrderIds(snap) == [1, 2];
    assert FlaggedIds(snap) == [];
  }

  /** Previous {#1}, next {#1, #2} with #2 not flagged: #2 alone is detected, with one notification of count 1. */
  lemma SecondSnapshotDetectsNewOrder()
    ensures OnSnapshot(DetectorState([1], {}, false, 0), [Record(1, false), Record(2, false)]) ==
      StepResult(DetectorState([1, 2], {2}, true, 1), Some(1))
  {
    var snap := [Record(1, false), Record(2, false)];
    assert OrderIds(snap) == [1, 2];
    assert FlaggedIds(snap) == [];
    assert DiffNewIds([1], [1, 2]) == [2];
  }

  /** Two orders arriving together give one notification reporting 2. */
  lemma TwoNewOrdersOneNotice()
    ensures OnSnapshot(DetectorState([1], {}, false, 0), [Record(1, false), Record(2, false), Record(3, false)]).notice == Some(2)
  {
    var snap := [Record(1, false), Record(2, false), Record(3, false)];
    assert OrderIds(snap) == [1, 2, 3];
    assert DiffNewIds([1], [1, 2, 3]) == [2, 3];
  }

  /** The notification text; the plural "s" appears exactly when the count exceeds one. */
  function NoticeText(count: nat): (text: string)
    ensures |text| > 11 && (text[|text| - 11] == 's' <==> count > 1)
    ensures |text| >= 2 + |Text.NatToString(count)|
    ensures text[2..2 + |Text.NatToString(count)|] == Text.NatToString(count)
  {
    var digits := Text.NatToString(count);
    var text := "\U{1F389} " + digits + " new order" + (if count > 1 then "s" else "") + " received!";
    assert text[2..2 + |digits|] == digits;
    text
  }

  /** Per card: shown as new when highlighted or flagged by the backend. */
  predicate IsNewOrder(highlighted: set<nat>, o: OrderWithCustomerDetails) {
    o.order.id in highlighted || o.isNew
  }

  /** The comparator `b.createdAt - a.createdAt`: newest first. */
  predicate NewerFirst(a: OrderWithCustomerDetails, b: OrderWithCustomerDetails) {
    a.order.createdAt >= b.order.createdAt
  }

  /** The cards, newest first; a permutation of the polled list. */
  function SortedOrders(orders: seq<OrderWithCustomerDetails>): (r: seq<OrderWithCustomerDetails>)
    ensures multiset(r) == multiset(orders)
    ensures forall i, j :: 0 <= i < j < |r| ==> r[i].order.createdAt >= r[j].order.createdAt
  {
    var le := (a: OrderWithCustomerDetails, b: OrderWithCustomerDetails) => NewerFirst(a, b);
    Sorting.SortSorted(orders, le);
    Sorting.Sort(orders, le)
  }

  /** The Accept button is offered only for pending orders. */
  predicate AcceptOffered(status: OrderStatus) {
    status == Pending
  }

  /** What one admin order card shows. */
  datatype AdminCard = AdminCard(record: OrderWithCustomerDetails, caption: string, showsNew: bool, showsAccept: bool)

  function Card(highlighted: set<nat>, o: OrderWithCustomerDetails): (c: AdminCard)
    ensures c.record == o
    ensures c.showsNew <==> o.order.id in highlighted || o.isNew
    ensures c.showsAccept <==> o.order.status == Pending
    ensures c.caption == "Pending" <==> o.order.status.Pending? || o.order.status.Other?
  {
    AdminCard(o, StatusLabel(o.order.status), IsNewOrder(highlighted, o), AcceptOffered(o.order.status))
  }

  /** Once a clear has fired, a card is marked new only on the backend's flag. */
  lemma ClearedCardsShowBackendFlag(s: DetectorState, o: OrderWithCustomerDetails)
    requires s.pendingClears > 0
    ensures Card(OnClear(s).highlighted, o).showsNew <==> o.isNew
  {
  }

  /** Right after a snapshot every order in it that is new against a non-empty previous list is marked new. */
  lemma DetectedCardsShowNew(s: DetectorState, snapshot: seq<OrderWithCustomerDetails>, k: nat)
    requires |s.previousIds| > 0 && k < |snapshot| && snapshot[k].order.id !in s.previousIds
    ensures Card(OnSnapshot(s, snapshot).state.highlighted, snapshot[k]).showsNew
  {
    assert snapshot[k].order.id == OrderIds(snapshot)[k];
  }

  /** A status change the view asks the backend for. */
  datatype StatusUpdate = StatusUpdate(orderId: nat, status: OrderStatus)

  /** Accepting an order ships it. */
  function AcceptRequest(o: Order): (u: StatusUpdate)
    ensures u.orderId == o.id && u.status == Shipped
  {
    StatusUpdate(o.id, Shipped)
  }

  /** How a finished status mutation is reported: a success re-fetches, a failure shows the error. */
  datatype Feedback = Refetch(toast: string) | ShowError(toast: string)

  /** `toast.error(error.message || fallback)`, or the success toast followed by `refetch()`. */
  function MutationFeedback(outcome: Result<()>, success: string, fallback: string): (f: Feedback)
    ensures f.Refetch? <==> outcome.Ok?
    ensures outcome.Err? && outcome.message != "" ==> f == ShowError(outcome.message)
    ensures outcome.Err? && outcome.message == "" ==> f == ShowError(fallback)
  {
    match outcome
    case Ok(_) => Refetch(success)
    case Err(m) => ShowError(if m != "" then m else fallback)
  }

  /** The view's detection state as a class whose effects overwrite its fields. */
  class Detector {
    var previousIds: seq<nat>
    var newOrderIds: set<nat>
    var hasNewOrders: bool
    var pendingClears: nat

    function State(): DetectorState
      reads this
    {
      DetectorState(previousIds, newOrderIds, hasNewOrders, pendingClears)
    }

    constructor ()
      ensures State() == Initial
    {
      previousIds, newOrderIds, hasNewOrders, pendingClears := [], {}, false, 0;
    }

    /** The first effect on a new snapshot: diff against the previous identifier list. */
    method DetectByDiff(snapshot: seq<OrderWithCustomerDetails>) returns (notice: Option<nat>)
      modifies this
      ensures State() == DiffEffect(old(State()), snapshot).state
      ensures notice == DiffEffect(old(State()), snapshot).notice
    {
      ghost var s0 := State();
      notice := None;
      if |snapshot| > 0 {
        var currentIds := OrderIds(snapshot);
        if |previousIds| > 0 {
          var newIds := DiffNewIds(previousIds, currentIds);
          assert newIds == DetectedByDiff(s0, snapshot);
          if |newIds| > 0 {
            newOrderIds := set id | id in newIds;
            hasNewOrders := true;
            notice := Some(|newIds|);
            pendingClears := pendingClears + 1;
          }
        }
        previousIds := currentIds;
      }
    }

    /** The second effect: copy the set and add each backend-flagged identifier. */
    method AddFlagged(snapshot: seq<OrderWithCustomerDetails>)
      modifies this
      ensures State() == FlagEffect(old(State()), snapshot)
    {
      var updated := newOrderIds;
      var anyFlagged := false;
      var i := 0;
      while i < |snapshot|
        modifies {}
        invariant 0 <= i <= |snapshot|
        invariant updated == newOrderIds + (set id | id in FlaggedIds(snapshot[..i]))
        invariant anyFlagged <==> FlaggedIds(snapshot[..i]) != []
      {
        FlaggedIdsSnoc(snapshot[..i], snapshot[i]);
        assert snapshot[..i + 1] == snapshot[..i] + [snapshot[i]];
        if snapshot[i].isNew {
          updated := updated + {snapshot[i].order.id};
          anyFlagged := true;
        }
        i := i + 1;
      }
      assert snapshot[..i] == snapshot;
      if anyFlagged {
        newOrderIds := updated;
        hasNewOrders := true;
        pendingClears := pendingClears + 1;
      }
    }

    /** Both effects, in the order the view declares them. */
    method ProcessSnapshot(snapshot: seq<OrderWithCustomerDetails>) returns (notice: Option<nat>)
      modifies this
      ensures State() == OnSnapshot(old(State()), snapshot).state
      ensures notice == OnSnapshot(old(State()), snapshot).notice
    {
      notice := DetectByDiff(snapshot);
      AddFlagged(snapshot);
    }

    /** One scheduled clear fires. */
    method ClearFired()
      requires pendingClears > 0
      modifies this
      ensures State() == OnClear(old(State()))
    {
      newOrderIds := {};
      hasNewOrders := false;
      pendingClears := pendingClears - 1;
    }
  }
}
