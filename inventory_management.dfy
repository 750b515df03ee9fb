/**
 * The inventory screen: a buffer of pending stock edits keyed by product id,
 * saved in one batch, and the name search over the catalogue.
 */
module InventoryManagement {
  import opened Wrappers
  import opened Domain
  import Text
  import Lists

  /** One entry of the batch sent to the backend. */
  datatype InventoryUpdate = InventoryUpdate(productId: nat, stock: int)

  /** What pressing "Save All" did. */
  datatype SaveOutcome = NothingToSave | Saved(updates: set<InventoryUpdate>) | Failed(updates: set<InventoryUpdate>)

  /** `parseInt(value) || 0`: unparseable input counts as 0. `parsed` is the parse result. */
  function EnteredStock(parsed: Option<int>): (stock: int)
    ensures parsed.None? ==> stock == 0
    ensures parsed.Some? ==> stock == parsed.value
  {
    match parsed
    case None => 0
    case Some(v) => v
  }

  /** The batch: one update per pending entry, carrying the pending value. */
  function Payload(pending: map<nat, int>): (updates: set<InventoryUpdate>)
    ensures forall id :: id in pending ==> InventoryUpdate(id, pending[id]) in updates
    ensures forall u :: u in updates ==> u.productId in pending && pending[u.productId] == u.stock
  {
    set id | id in pending :: InventoryUpdate(id, pending[id])
  }

  /** No two updates of the batch name the same product, so the batch has as many updates as there are entries. */
  lemma PayloadSize(pending: map<nat, int>)
    ensures |Payload(pending)| == |pending|
  {
    var updates := Payload(pending);
    var ids := set u | u in updates :: u.productId;
    assert ids == pending.Keys;
    InjectiveImage(updates);
  }

  /** Projecting a batch to its product ids loses nothing when no id repeats. */
  lemma {:induction false} InjectiveImage(updates: set<InventoryUpdate>)
    requires forall u, v :: u in updates && v in updates && u.productId == v.productId ==> u == v
    ensures |set u | u in updates :: u.productId| == |updates|
    decreases |updates|
  {
    if updates != {} {
      var u :| u in updates;
      var rest := updates - {u};
      InjectiveImage(rest);
      var restIds := set v | v in rest :: v.productId;
      assert (set v | v in updates :: v.productId) == restIds + {u.productId};
      assert u.productId !in restIds;
    }
  }

  /** The "New Stock" cell: the pending value if there is one, else the current stock. */
  function DisplayedStock(pending: map<nat, int>, p: Product): (shown: int)
    ensures p.id in pending ==> shown == pending[p.id]
    ensures p.id !in pending ==> shown == p.stock
  {
    if p.id in pending then pending[p.id] else p.stock
  }

  /** A row is highlighted as changed when the displayed value differs from the current stock. */
  predicate HasChanged(pending: map<nat, int>, p: Product) {
    DisplayedStock(pending, p) != p.stock
  }

  /** Only a pending entry can mark a row as changed; with no entries nothing is. */
  lemma ChangedNeedsEntry(pending: map<nat, int>, p: Product)
    ensures HasChanged(pending, p) ==> p.id in pending
    ensures pending == map[] ==> !HasChanged(pending, p)
  {
  }

  predicate SaveDisabled(pending: map<nat, int>, saving: bool) {
    |pending| == 0 || saving
  }

  /** The table: the products whose lower-cased name contains the lower-cased term, in catalogue order. */
  function InventorySearch(products: seq<Product>, term: string): (r: seq<Product>)
    ensures forall i :: 0 <= i < |r| ==> r[i] in products && Text.Contains(Text.Lower(r[i].name), Text.Lower(term))
    ensures forall i :: 0 <= i < |products| && Text.Contains(Text.Lower(products[i].name), Text.Lower(term)) ==>
              products[i] in r
  {
    Lists.Filter(products, (p: Product) => Text.Contains(Text.Lower(p.name), Text.Lower(term)))
  }

  class StockEditor {
    var stockUpdates: map<nat, int>

    constructor ()
      ensures stockUpdates == map[]
    {
      stockUpdates := map[];
    }

    /** `handleStockChange`: sets the entry of one product, overwriting any earlier value. */
    method HandleStockChange(productId: nat, parsed: Option<int>)
      modifies this
      ensures stockUpdates == old(stockUpdates)[productId := EnteredStock(parsed)]
    {
      var value := if parsed.Some? then parsed.value else 0;
      stockUpdates := stockUpdates[productId := value];
    }

    /**
     * `handleSaveAll`: with no entries nothing is sent; otherwise the whole
     * batch is sent and the entries are dropped only if the backend accepts it.
     */
    method HandleSaveAll(backendAccepts: bool) returns (outcome: SaveOutcome)
      modifies this
      ensures old(stockUpdates) == map[] ==> outcome == NothingToSave && stockUpdates == old(stockUpdates)
      ensures old(stockUpdates) != map[] && backendAccepts ==>
                outcome == Saved(Payload(old(stockUpdates))) && stockUpdates == map[]
      ensures old(stockUpdates) != map[] && !backendAccepts ==>
                outcome == Failed(Payload(old(stockUpdates))) && stockUpdates == old(stockUpdates)
    {
      if |stockUpdates| == 0 {
        assert stockUpdates == map[];
        return NothingToSave;
      }
      var updates := set id | id in stockUpdates :: InventoryUpdate(id, stockUpdates[id]);
      if backendAccepts {
        stockUpdates := map[];
        outcome := Saved(updates);
      } else {
        outcome := Failed(updates);
      }
    }
  }

  /** After an edit the edited row shows the entered value and every other row is as before. */
  lemma EditShowsValue(pending: map<nat, int>, productId: nat, parsed: Option<int>, p: Product)
    ensures p.id == productId ==> DisplayedStock(pending[productId := EnteredStock(parsed)], p) == EnteredStock(parsed)
    ensures p.id != productId ==> DisplayedStock(pending[productId := EnteredStock(parsed)], p) == DisplayedStock(pending, p)
  {
  }
}
