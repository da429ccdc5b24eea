/**
 * The product-category table of production1.js: weight classification,
 * the guarded price and stock setters, the restock status shown in the
 * table and the report, the packaging go/no-go and the cost guards.
 */
module Production {
  import opened Common
  import opened Text

  /** A category's weight limit: grams, or the open-ended "custom". */
  datatype Weight = Grams(limit: int) | Custom

  datatype Category = Category(name: string, weight: Weight, price: int, stock: int, restockAlert: int)

  /** The table used when nothing is stored under 'categories'. */
  const DefaultCategories: seq<Category> := [
    Category("Small", Grams(100), 0, 0, 10),
    Category("Medium", Grams(250), 0, 0, 10),
    Category("Large", Grams(500), 0, 0, 10),
    Category("Extra Large", Grams(1000), 0, 0, 10),
    Category("Family Pack", Grams(2000), 0, 0, 10),
    Category("Bulk Pack", Grams(5000), 0, 0, 10),
    Category("Premium", Custom, 0, 0, 10)
  ]

  /** Weights above this always classify as "Premium". */
  const PremiumAbove: int := 5000

  // ----- Classification (the assign-category handler) -----

  /** A category with a numeric limit of at least `weight`. */
  predicate Fits(c: Category, weight: int) {
    c.weight.Grams? && weight <= c.weight.limit
  }

  /** The first category, in table order, that `weight` fits. */
  function FirstFit(table: seq<Category>, weight: int): (r: Option<nat>)
    ensures r.Some? ==> r.value < |table| && Fits(table[r.value], weight)
    ensures r.Some? ==> forall j :: 0 <= j < r.value ==> !Fits(table[j], weight)
    ensures r.None? <==> forall j :: 0 <= j < |table| ==> !Fits(table[j], weight)
  {
    FirstIndex(table, (c: Category) => Fits(c, weight))
  }

  /**
   * The category name shown for a parsed weight (`None` is NaN): "N/A"
   * for NaN, "Premium" above 5000, otherwise the first category the weight
   * fits, or "N/A" when none does.
   */
  function Classify(table: seq<Category>, weight: Option<int>): (r: string)
    ensures weight.None? ==> r == "N/A"
    ensures weight.Some? && weight.value > PremiumAbove ==> r == "Premium"
    ensures weight.Some? && weight.value <= PremiumAbove && FirstFit(table, weight.value).None? ==> r == "N/A"
    ensures weight.Some? && weight.value <= PremiumAbove && FirstFit(table, weight.value).Some? ==>
      r == table[FirstFit(table, weight.value).value].name
  {
    match weight
    case None => "N/A"
    case Some(w) =>
      if w > PremiumAbove then "Premium"
      else match FirstFit(table, w)
        case None => "N/A"
        case Some(i) => table[i].name
  }

  /**
   * On any table, a heavier weight never fits an earlier category: if
   * `w2` fits somewhere, so does every `w1 <= w2`, no later.
   */
  lemma FirstFitMonotone(table: seq<Category>, w1: int, w2: int)
    requires w1 <= w2 && FirstFit(table, w2).Some?
    ensures FirstFit(table, w1).Some?
    ensures FirstFit(table, w1).value <= FirstFit(table, w2).value
  {
    var i := FirstFit(table, w2).value;
    assert Fits(table[i], w1);
  }

  /** With the default table every weight up to 100 grams, negatives included, is "Small". */
  lemma DefaultSmall(w: int)
    requires w <= 100
    ensures Classify(DefaultCategories, Some(w)) == "Small"
  {
    assert Fits(DefaultCategories[0], w);
  }

  /** The other boundaries of the default table, and a weight that is not a number. */
  lemma DefaultBoundaries()
    ensures Classify(DefaultCategories, Some(101)) == "Medium"
    ensures Classify(DefaultCategories, Some(5000)) == "Bulk Pack"
    ensures Classify(DefaultCategories, Some(5001)) == "Premium"
    ensures Classify(DefaultCategories, None) == "N/A"
  {
    var d := DefaultCategories;
    assert FirstFit(d, 101) == Some(1) by {
      assert !Fits(d[0], 101) && Fits(d[1], 101);
    }
    assert FirstFit(d, 5000) == Some(5) by {
      assert forall j :: 0 <= j < 5 ==> !Fits(d[j], 5000);
      assert Fits(d[5], 5000);
    }
  }

  /** The position in the default table of the category a weight classifies into. */
  function DefaultRank(w: int): (r: nat)
    ensures r < |DefaultCategories|
    ensures Classify(DefaultCategories, Some(w)) == DefaultCategories[r].name
  {
    assert Fits(DefaultCategories[5], 5000);
    if w <= PremiumAbove then
      assert Fits(DefaultCategories[5], w);
      FirstFit(DefaultCategories, w).value
    else 6
  }

  /**
   * With the default ascending table a heavier weight never gets a
   * category listed earlier than a lighter one.
   */
  lemma DefaultClassifyMonotone(w1: int, w2: int)
    requires w1 <= w2
    ensures DefaultRank(w1) <= DefaultRank(w2)
  {
    if w2 <= PremiumAbove {
      assert Fits(DefaultCategories[5], w2);
      FirstFitMonotone(DefaultCategories, w1, w2);
    }
  }

  // ----- Setters, status and checks -----

  /** `categories.find(cat => cat.name.toLowerCase() === selected.toLowerCase())`, as a position. */
  function FindByName(table: seq<Category>, selected: string): (r: Option<nat>)
    ensures r.Some? ==> r.value < |table| && Lower(table[r.value].name) == Lower(selected)
    ensures r.Some? ==> forall j :: 0 <= j < r.value ==> Lower(table[j].name) != Lower(selected)
    ensures r.None? <==> forall j :: 0 <= j < |table| ==> Lower(table[j].name) != Lower(selected)
  {
    FirstIndex(table, (c: Category) => Lower(c.name) == Lower(selected))
  }

  datatype UpdateOutcome = InvalidValue | UnknownCategory | Updated

  /**
   * The update-price handler: a price that is NaN or not positive is
   * refused; otherwise the first category matching the selection
   * case-insensitively takes the new price, and nothing else changes.
   */
  function SetPrice(table: seq<Category>, selected: string, price: Option<int>): (r: (UpdateOutcome, seq<Category>))
    ensures r.0 == InvalidValue <==> price.None? || price.value <= 0
    ensures r.0 == UnknownCategory <==> r.0 != InvalidValue && FindByName(table, selected).None?
    ensures r.0 != Updated ==> r.1 == table
    ensures r.0 == Updated ==>
      var i := FindByName(table, selected).value;
      && |r.1| == |table|
      && (forall j :: 0 <= j < |table| && j != i ==> r.1[j] == table[j])
      && r.1[i] == table[i].(price := price.value) && r.1[i].price > 0
  {
    if price.None? || price.value <= 0 then (InvalidValue, table)
    else match FindByName(table, selected)
      case None => (UnknownCategory, table)
      case Some(i) => (Updated, table[i := table[i].(price := price.value)])
  }

  /**
   * The update-stock handler: a stock level that is NaN or negative is
   * refused; otherwise the first category matching the selection
   * case-insensitively takes the new level, and nothing else changes.
   */
  function SetStock(table: seq<Category>, selected: string, stock: Option<int>): (r: (UpdateOutcome, seq<Category>))
    ensures r.0 == InvalidValue <==> stock.None? || stock.value < 0
    ensures r.0 == UnknownCategory <==> r.0 != InvalidValue && FindByName(table, selected).None?
    ensures r.0 != Updated ==> r.1 == table
    ensures r.0 == Updated ==>
      var i := FindByName(table, selected).value;
      && |r.1| == |table|
      && (forall j :: 0 <= j < |table| && j != i ==> r.1[j] == table[j])
      && r.1[i] == table[i].(stock := stock.value) && r.1[i].stock >= 0
  {
    if stock.None? || stock.value < 0 then (InvalidValue, table)
    else match FindByName(table, selected)
      case None => (UnknownCategory, table)
      case Some(i) => (Updated, table[i := table[i].(stock := stock.value)])
  }

  /** Setting a category's stock to its new level again changes nothing. */
  lemma SetStockIdempotent(table: seq<Category>, selected: string, stock: Option<int>)
    ensures var once := SetStock(table, selected, stock).1;
      SetStock(once, selected, stock).1 == once
  {
    var once := SetStock(table, selected, stock).1;
    if SetStock(table, selected, stock).0 == Updated {
      var i := FindByName(table, selected).value;
      assert forall j :: 0 <= j < |table| ==> once[j].name == table[j].name;
      assert FindByName(once, selected) == Some(i);
      assert once[i := once[i].(stock := stock.value)] == once;
    }
  }

  /** The restock test the table, the report and packaging share. */
  predicate NeedsRestock(c: Category) {
    c.stock <= c.restockAlert
  }

  /** The status cell and the report's status text. */
  function Status(c: Category): (r: string)
    ensures r == "Restock Needed" <==> NeedsRestock(c)
    ensures r == "Restock Needed" || r == "Sufficient Stock"
  {
    if NeedsRestock(c) then "Restock Needed" else "Sufficient Stock"
  }

  datatype ReportLine = ReportLine(name: string, stock: int, status: string)

  /** The generate-report handler: one line per category, in table order. */
  function InventoryReport(table: seq<Category>): (r: seq<ReportLine>)
    ensures |r| == |table|
    ensures forall i :: 0 <= i < |table| ==>
      r[i].name == table[i].name && r[i].stock == table[i].stock && r[i].status == Status(table[i])
  {
    seq(|table|, i requires 0 <= i < |table| => ReportLine(table[i].name, table[i].stock, Status(table[i])))
  }

  datatype PackagingVerdict = PackagingCanProceed | RestockFirst(lowStock: seq<Category>)

  /**
   * `initiatePackagingProcess`: packaging proceeds exactly when no
   * category needs restocking; otherwise the alerts name exactly the
   * categories that do, in table order.
   */
  function PackagingCheck(table: seq<Category>): (r: PackagingVerdict)
    ensures r.PackagingCanProceed? <==> forall c :: c in table ==> !NeedsRestock(c)
    ensures r.RestockFirst? ==> r.lowStock != [] && IsSubsequence(r.lowStock, table)
    ensures r.RestockFirst? ==> forall c :: c in r.lowStock <==> c in table && NeedsRestock(c)
    ensures r.RestockFirst? ==>
      forall c :: multiset(r.lowStock)[c] == if NeedsRestock(c) then multiset(table)[c] else 0
  {
    var low := Filter(table, NeedsRestock);
    if |low| > 0 then RestockFirst(low) else PackagingCanProceed
  }

  datatype CostOutcome = InvalidQuantity | CategoryNotFound | PriceNotSet | TotalCost(amount: int)

  /**
   * The calculate-cost handler: NaN or non-positive quantities, an
   * unknown category and an unset price are refused, in that order;
   * otherwise the cost is price times quantity.
   */
  function CalculateCost(table: seq<Category>, selected: string, quantity: Option<int>): (r: CostOutcome)
    ensures r == InvalidQuantity <==> quantity.None? || quantity.value <= 0
    ensures r == CategoryNotFound <==> r != InvalidQuantity && FindByName(table, selected).None?
    ensures r == PriceNotSet <==>
      r != InvalidQuantity && FindByName(table, selected).Some? && table[FindByName(table, selected).value].price <= 0
    ensures r.TotalCost? ==>
      var c := table[FindByName(table, selected).value];
      c.price > 0 && r.amount == c.price * quantity.value && r.amount > 0
  {
    if quantity.None? || quantity.value <= 0 then InvalidQuantity
    else match FindByName(table, selected)
      case None => CategoryNotFound
      case Some(i) =>
        if table[i].price > 0 then TotalCost(table[i].price * quantity.value) else PriceNotSet
  }

  /** On the default table, where no price is set, every cost request is refused. */
  lemma DefaultTableHasNoCost(selected: string, quantity: Option<int>)
    ensures !CalculateCost(DefaultCategories, selected, quantity).TotalCost?
  {
    assert forall c :: c in DefaultCategories ==> c.price == 0;
  }

  // ----- The page's category table -----

  /** The page's `categories` array. */
  class ProductLine {
    var categories: seq<Category>

    /** `JSON.parse(localStorage.getItem('categories')) || defaults`: a missing key gives the default table. */
    constructor (stored: Option<seq<Category>>)
      ensures categories == (if stored.Some? then stored.value else DefaultCategories)
    {
      categories := if stored.Some? then stored.value else DefaultCategories;
    }

    /**
     * The assign-category handler: scans the table for the first category
     * the weight fits, then overrides the answer with "Premium" above 5000.
     */
    method AssignCategory(weight: Option<int>) returns (categoryAssigned: string)
      ensures categoryAssigned == Classify(categories, weight)
    {
      categoryAssigned := "N/A";
      if weight.Some? {
        var w := weight.value;
        var k := 0;
        while k < |categories|
          invariant 0 <= k <= |categories|
          invariant forall j :: 0 <= j < k ==> !Fits(categories[j], w)
          invariant categoryAssigned == "N/A"
        {
          if categories[k].weight != Custom && w <= categories[k].weight.limit {
            categoryAssigned := categories[k].name;
            break;
          }
          k := k + 1;
        }
        assert k < |categories| ==> FirstFit(categories, w) == Some(k) && categoryAssigned == categories[k].name;
        if w > PremiumAbove {
          categoryAssigned := "Premium";
        }
      }
    }

    /** The update-price handler, changing the table as `SetPrice` says. */
    method UpdatePrice(selected: string, price: Option<int>) returns (outcome: UpdateOutcome)
      modifies this
      ensures (outcome, categories) == SetPrice(old(categories), selected, price)
    {
      if price.None? || price.value <= 0 {
        return InvalidValue;
      }
      var found := FindByName(categories, selected);
      if found.None? {
        return UnknownCategory;
      }
      var i := found.value;
      categories := categories[i := categories[i].(price := price.value)];
      outcome := Updated;
    }

    /** The update-stock handler, changing the table as `SetStock` says. */
    method UpdateStock(selected: string, stock: Option<int>) returns (outcome: UpdateOutcome)
      modifies this
      ensures (outcome, categories) == SetStock(old(categories), selected, stock)
    {
      if stock.None? || stock.value < 0 {
        return InvalidValue;
      }
      var found := FindByName(categories, selected);
      if found.None? {
        return UnknownCategory;
      }
      var i := found.value;
      categories := categories[i := categories[i].(stock := stock.value)];
      outcome := Updated;
    }
  }
}
