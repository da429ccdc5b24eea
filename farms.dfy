/**
 * The farmer registry and purchase log of farms.js: two stored tables, a
 * guarded append to each, deletion of a farmer, and the read-only views
 * over them (search, sorted copy, per-farmer summary).
 */
module Farms {
  import opened Common
  import opened Text

  datatype Farmer = Farmer(farmerId: string, name: string, contactDetails: string, location: string)

  /** A logged purchase; `totalCost` is `quantity * price`, fixed when it is logged. */
  datatype Purchase = Purchase(
    purchaseId: string, farmerId: string, purchaseDate: string,
    quantity: int, price: int, totalCost: int)

  /** What `saveFarmer` reports instead of its alerts. */
  datatype FarmerOutcome = FarmerAdded | MissingFields | DuplicateFarmerId

  /** What `savePurchase` reports instead of its alerts. */
  datatype PurchaseOutcome = PurchaseLogged | InvalidPurchase | DuplicatePurchase

  predicate UniqueFarmerIds(farmers: seq<Farmer>) {
    forall i, j :: 0 <= i < j < |farmers| ==> farmers[i].farmerId != farmers[j].farmerId
  }

  /** No two purchases share a purchase id, and no two share a farmer. */
  predicate UniquePurchaseKeys(purchases: seq<Purchase>) {
    forall i, j :: 0 <= i < j < |purchases| ==>
      purchases[i].purchaseId != purchases[j].purchaseId && purchases[i].farmerId != purchases[j].farmerId
  }

  /** `farmers.findIndex(f => f.farmerId === farmerId)`. */
  function FindFarmer(farmers: seq<Farmer>, farmerId: string): (r: Option<nat>)
    ensures r.Some? ==> r.value < |farmers| && farmers[r.value].farmerId == farmerId
    ensures r.Some? ==> forall j :: 0 <= j < r.value ==> farmers[j].farmerId != farmerId
    ensures r.None? <==> forall j :: 0 <= j < |farmers| ==> farmers[j].farmerId != farmerId
  {
    FirstIndex(farmers, (f: Farmer) => f.farmerId == farmerId)
  }

  /**
   * `farmers.splice(index, 1)` at the first farmer with the id: that entry
   * goes, the others keep their order; an unknown id changes nothing.
   */
  function RemoveFarmer(farmers: seq<Farmer>, farmerId: string): (r: seq<Farmer>)
    ensures FindFarmer(farmers, farmerId).None? ==> r == farmers
    ensures FindFarmer(farmers, farmerId).Some? ==>
      |r| == |farmers| - 1 && IsSubsequence(r, farmers) &&
      multiset(r) + multiset{farmers[FindFarmer(farmers, farmerId).value]} == multiset(farmers)
    ensures FindFarmer(farmers, farmerId).Some? ==>
      var i := FindFarmer(farmers, farmerId).value;
      forall k :: 0 <= k < |r| ==> r[k] == farmers[if k < i then k else k + 1]
  {
    match FindFarmer(farmers, farmerId)
    case None => farmers
    case Some(i) =>
      SpliceAt(farmers, i, farmers[..i] + farmers[i + 1..]);
      farmers[..i] + farmers[i + 1..]
  }

  /** Given unique ids, deleting a farmer keeps ids unique and leaves no farmer with that id. */
  lemma RemoveFarmerClearsId(farmers: seq<Farmer>, farmerId: string)
    requires UniqueFarmerIds(farmers)
    ensures UniqueFarmerIds(RemoveFarmer(farmers, farmerId))
    ensures forall k :: 0 <= k < |RemoveFarmer(farmers, farmerId)| ==>
      RemoveFarmer(farmers, farmerId)[k].farmerId != farmerId
  {
    match FindFarmer(farmers, farmerId)
    case None =>
    case Some(i) =>
      var r := RemoveFarmer(farmers, farmerId);
      assert r == farmers[..i] + farmers[i + 1..];
      assert forall k :: 0 <= k < |r| ==> r[k] == farmers[if k < i then k else k + 1];
  }

  /** Case-insensitive match of `searchFarmers`: name or location includes the query. */
  predicate FarmerMatches(f: Farmer, query: string) {
    Contains(Lower(f.name), query) || Contains(Lower(f.location), query)
  }

  /**
   * `searchFarmers`: the farmers, in stored order, whose lower-cased name
   * or location includes the trimmed, lower-cased query.
   */
  function SearchFarmers(farmers: seq<Farmer>, rawQuery: string): (r: seq<Farmer>)
    ensures IsSubsequence(r, farmers)
    ensures forall f :: f in r <==> f in farmers && FarmerMatches(f, Lower(Trim(rawQuery)))
    ensures forall f :: multiset(r)[f] == if FarmerMatches(f, Lower(Trim(rawQuery))) then multiset(farmers)[f] else 0
  {
    Filter(farmers, (f: Farmer) => FarmerMatches(f, Lower(Trim(rawQuery))))
  }

  /** A blank search field matches every farmer. */
  lemma SearchBlankReturnsAll(farmers: seq<Farmer>, rawQuery: string)
    requires IsBlank(rawQuery)
    ensures SearchFarmers(farmers, rawQuery) == farmers
  {
    var q := Lower(Trim(rawQuery));
    assert q == [];
    forall i | 0 <= i < |farmers|
      ensures FarmerMatches(farmers[i], q)
    {
      ContainsEmpty(Lower(farmers[i].name));
    }
    FilterKeepsAll(farmers, (f: Farmer) => FarmerMatches(f, q));
  }

  /** `generateFarmerSummary`: the logged purchases of one farmer, in log order. */
  function FarmerSummary(purchases: seq<Purchase>, farmerId: string): (r: seq<Purchase>)
    ensures IsSubsequence(r, purchases)
    ensures forall p :: p in r <==> p in purchases && p.farmerId == farmerId
    ensures forall p :: multiset(r)[p] == if p.farmerId == farmerId then multiset(purchases)[p] else 0
  {
    Filter(purchases, (p: Purchase) => p.farmerId == farmerId)
  }

  /** Because a farmer holds at most one purchase in a well-formed log, a summary has at most one row. */
  lemma {:induction false} SummaryHasAtMostOneRow(purchases: seq<Purchase>, farmerId: string)
    requires UniquePurchaseKeys(purchases)
    ensures |FarmerSummary(purchases, farmerId)| <= 1
  {
    if purchases != [] {
      var tail := purchases[1..];
      assert UniquePurchaseKeys(tail) by {
        forall i, j | 0 <= i < j < |tail|
          ensures tail[i].purchaseId != tail[j].purchaseId && tail[i].farmerId != tail[j].farmerId
        {
          assert tail[i] == purchases[i + 1] && tail[j] == purchases[j + 1];
        }
      }
      if purchases[0].farmerId == farmerId {
        assert forall i :: 0 <= i < |tail| ==> tail[i].farmerId != farmerId by {
          forall i | 0 <= i < |tail| ensures tail[i].farmerId != farmerId {
            assert tail[i] == purchases[i + 1];
          }
        }
        FilterDropsAll(tail, (p: Purchase) => p.farmerId == farmerId);
      } else {
        SummaryHasAtMostOneRow(tail, farmerId);
      }
    }
  }

  // ----- Sorted copies of the purchase log (`sortPurchases`) -----

  datatype SortKey = ByDate | ByFarmer | ByAmount

  /** `a` may precede `b` under the comparator for `key`. */
  predicate InOrder(a: Purchase, b: Purchase, key: SortKey) {
    match key
    case ByDate => TextLe(a.purchaseDate, b.purchaseDate)
    case ByFarmer => TextLe(a.farmerId, b.farmerId)
    case ByAmount => a.totalCost <= b.totalCost
  }

  lemma InOrderTotal(a: Purchase, b: Purchase, key: SortKey)
    ensures InOrder(a, b, key) || InOrder(b, a, key)
  {
    match key
    case ByDate => TextLeTotal(a.purchaseDate, b.purchaseDate);
    case ByFarmer => TextLeTotal(a.farmerId, b.farmerId);
    case ByAmount =>
  }

  lemma InOrderTransitive(a: Purchase, b: Purchase, c: Purchase, key: SortKey)
    requires InOrder(a, b, key) && InOrder(b, c, key)
    ensures InOrder(a, c, key)
  {
    match key
    case ByDate => TextLeTransitive(a.purchaseDate, b.purchaseDate, c.purchaseDate);
    case ByFarmer => TextLeTransitive(a.farmerId, b.farmerId, c.farmerId);
    case ByAmount =>
  }

  predicate SortedBy(s: seq<Purchase>, key: SortKey) {
    forall i, j :: 0 <= i < j < |s| ==> InOrder(s[i], s[j], key)
  }

  /** `a` and `b` tie under the comparator for `key`: it returns 0 for them. */
  predicate SameKey(a: Purchase, b: Purchase, key: SortKey) {
    match key
    case ByDate => a.purchaseDate == b.purchaseDate
    case ByFarmer => a.farmerId == b.farmerId
    case ByAmount => a.totalCost == b.totalCost
  }

  /** The purchases of `s` that tie with `q` under `key`, in the order of `s`. */
  function Tied(s: seq<Purchase>, q: Purchase, key: SortKey): seq<Purchase> {
    if s == [] then [] else (if SameKey(s[0], q, key) then [s[0]] else []) + Tied(s[1..], q, key)
  }

  /** Puts `x` before the first element it may precede, so that earlier rows stay first among equals. */
  function Insert(x: Purchase, sorted: seq<Purchase>, key: SortKey): (r: seq<Purchase>)
    ensures multiset(r) == multiset(sorted) + multiset{x}
    ensures forall y :: y in r <==> y == x || y in sorted
    ensures |r| == |sorted| + 1
  {
    if sorted == [] then [x]
    else if InOrder(x, sorted[0], key) then [x] + sorted
    else
      assert sorted == [sorted[0]] + sorted[1..];
      [sorted[0]] + Insert(x, sorted[1..], key)
  }

  /** A sorted list stays sorted under a new head that may precede all of it. */
  lemma SortedCons(h: Purchase, rest: seq<Purchase>, key: SortKey)
    requires SortedBy(rest, key)
    requires forall y :: y in rest ==> InOrder(h, y, key)
    ensures SortedBy([h] + rest, key)
  {
    var r := [h] + rest;
    forall i, j | 0 <= i < j < |r| ensures InOrder(r[i], r[j], key) {
      assert r[j] == rest[j - 1];
      if i > 0 {
        assert r[i] == rest[i - 1];
      }
    }
  }

  lemma {:induction false} InsertKeepsSorted(x: Purchase, sorted: seq<Purchase>, key: SortKey)
    requires SortedBy(sorted, key)
    ensures SortedBy(Insert(x, sorted, key), key)
  {
    if sorted == [] {
    } else if InOrder(x, sorted[0], key) {
      forall y | y in sorted ensures InOrder(x, y, key) {
        var j :| 0 <= j < |sorted| && sorted[j] == y;
        if j > 0 { InOrderTransitive(x, sorted[0], sorted[j], key); }
      }
      SortedCons(x, sorted, key);
    } else {
      var tail := sorted[1..];
      var rest := Insert(x, tail, key);
      assert SortedBy(tail, key);
      InsertKeepsSorted(x, tail, key);
      InOrderTotal(x, sorted[0], key);
      forall y | y in rest ensures InOrder(sorted[0], y, key) {
        if y != x {
          var j :| 0 <= j < |tail| && tail[j] == y;
          assert sorted[j + 1] == y;
        }
      }
      SortedCons(sorted[0], rest, key);
    }
  }

  /** Two purchases that tie with a third tie with each other, so either may precede the other. */
  lemma TiesInOrder(x: Purchase, h: Purchase, q: Purchase, key: SortKey)
    requires SameKey(x, q, key) && SameKey(h, q, key)
    ensures InOrder(x, h, key)
  {
    InOrderTotal(x, h, key);
  }

  lemma TiedCons(h: Purchase, t: seq<Purchase>, q: Purchase, key: SortKey)
    ensures Tied([h] + t, q, key) == (if SameKey(h, q, key) then [h] else []) + Tied(t, q, key)
  {
    assert ([h] + t)[1..] == t;
  }

  /** `x` goes in front of every purchase it ties with, so the ties of `sorted` keep their order behind it. */
  lemma {:induction false} InsertTied(x: Purchase, sorted: seq<Purchase>, key: SortKey, q: Purchase)
    ensures Tied(Insert(x, sorted, key), q, key) == (if SameKey(x, q, key) then [x] else []) + Tied(sorted, q, key)
  {
    if sorted == [] {
      TiedCons(x, [], q, key);
      assert [x] + [] == [x];
    } else if InOrder(x, sorted[0], key) {
      TiedCons(x, sorted, q, key);
    } else {
      var h := sorted[0];
      var tail := sorted[1..];
      assert sorted == [h] + tail;
      InsertTied(x, tail, key, q);
      TiedCons(h, Insert(x, tail, key), q, key);
      TiedCons(h, tail, q, key);
      if SameKey(h, q, key) && SameKey(x, q, key) {
        TiesInOrder(x, h, q, key);
        assert false;
      }
    }
  }

  /**
   * A stable insertion sort: a permutation of `s`, ordered by `key`, in
   * which purchases that tie keep their order in `s`.
   */
  function SortBy(s: seq<Purchase>, key: SortKey): (r: seq<Purchase>)
    ensures multiset(r) == multiset(s)
    ensures SortedBy(r, key)
    ensures forall q :: Tied(r, q, key) == Tied(s, q, key)
  {
    if s == [] then []
    else
      assert s == [s[0]] + s[1..];
      InsertKeepsSorted(s[0], SortBy(s[1..], key), key);
      assert forall q :: Tied(Insert(s[0], SortBy(s[1..], key), key), q, key) == Tied(s, q, key) by {
        forall q ensures Tied(Insert(s[0], SortBy(s[1..], key), key), q, key) == Tied(s, q, key) {
          InsertTied(s[0], SortBy(s[1..], key), key, q);
        }
      }
      Insert(s[0], SortBy(s[1..], key), key)
  }

  /**
   * `sortPurchases(criteria)`: a sorted copy of the log for 'date',
   * 'farmer' and 'amount', the log in its own order for anything else.
   * The stored log is a value here, so it is never reordered.
   */
  function SortPurchases(purchases: seq<Purchase>, criteria: string): (r: seq<Purchase>)
    ensures multiset(r) == multiset(purchases)
    ensures criteria == "date" ==> SortedBy(r, ByDate)
    ensures criteria == "farmer" ==> SortedBy(r, ByFarmer)
    ensures criteria == "amount" ==> SortedBy(r, ByAmount)
    ensures criteria == "date" ==> forall q :: Tied(r, q, ByDate) == Tied(purchases, q, ByDate)
    ensures criteria == "farmer" ==> forall q :: Tied(r, q, ByFarmer) == Tied(purchases, q, ByFarmer)
    ensures criteria == "amount" ==> forall q :: Tied(r, q, ByAmount) == Tied(purchases, q, ByAmount)
    ensures criteria != "date" && criteria != "farmer" && criteria != "amount" ==> r == purchases
  {
    if criteria == "date" then SortBy(purchases, ByDate)
    else if criteria == "farmer" then SortBy(purchases, ByFarmer)
    else if criteria == "amount" then SortBy(purchases, ByAmount)
    else purchases
  }

  // ----- The stored tables and their guarded updates -----

  /** The `farmers` and `purchases` arrays of the page, loaded from storage. */
  class FarmRecords {
    var farmers: seq<Farmer>
    var purchases: seq<Purchase>

    /** Loads the stored tables; an absent key loads as the empty table. */
    constructor (storedFarmers: Option<seq<Farmer>>, storedPurchases: Option<seq<Purchase>>)
      ensures farmers == (if storedFarmers.Some? then storedFarmers.value else [])
      ensures purchases == (if storedPurchases.Some? then storedPurchases.value else [])
    {
      farmers := if storedFarmers.Some? then storedFarmers.value else [];
      purchases := if storedPurchases.Some? then storedPurchases.value else [];
    }

    /**
     * `saveFarmer`: the four fields are trimmed; a blank one rejects, an id
     * already registered rejects, and otherwise the farmer is appended.
     */
    method SaveFarmer(rawId: string, rawName: string, rawContact: string, rawLocation: string)
      returns (outcome: FarmerOutcome)
      modifies this
      ensures purchases == old(purchases)
      ensures outcome == MissingFields <==>
        IsBlank(rawId) || IsBlank(rawName) || IsBlank(rawContact) || IsBlank(rawLocation)
      ensures outcome == DuplicateFarmerId <==>
        outcome != MissingFields && exists i :: 0 <= i < |old(farmers)| && old(farmers)[i].farmerId == Trim(rawId)
      ensures outcome != FarmerAdded ==> farmers == old(farmers)
      ensures outcome == FarmerAdded ==>
        farmers == old(farmers) + [Farmer(Trim(rawId), Trim(rawName), Trim(rawContact), Trim(rawLocation))]
      ensures UniqueFarmerIds(old(farmers)) ==> UniqueFarmerIds(farmers)
    {
      outcome := AddFarmer(Trim(rawId), Trim(rawName), Trim(rawContact), Trim(rawLocation));
    }

    /** The checks and the append of `saveFarmer`, on trimmed fields. */
    method AddFarmer(farmerId: string, name: string, contactDetails: string, location: string)
      returns (outcome: FarmerOutcome)
      modifies this
      ensures purchases == old(purchases)
      ensures outcome == MissingFields <==> farmerId == [] || name == [] || contactDetails == [] || location == []
      ensures outcome == DuplicateFarmerId <==>
        outcome != MissingFields && exists i :: 0 <= i < |old(farmers)| && old(farmers)[i].farmerId == farmerId
      ensures outcome != FarmerAdded ==> farmers == old(farmers)
      ensures outcome == FarmerAdded ==> farmers == old(farmers) + [Farmer(farmerId, name, contactDetails, location)]
      ensures UniqueFarmerIds(old(farmers)) ==> UniqueFarmerIds(farmers)
    {
      if farmerId == [] || name == [] || contactDetails == [] || location == [] {
        return MissingFields;
      }
      var existing := FindFarmer(farmers, farmerId);
      if existing.Some? {
        return DuplicateFarmerId;
      }
      farmers := farmers + [Farmer(farmerId, name, contactDetails, location)];
      outcome := FarmerAdded;
    }

    /** `deleteFarmer`: splices out the first farmer with the id, if there is one. */
    method DeleteFarmer(farmerId: string)
      modifies this
      ensures purchases == old(purchases)
      ensures farmers == RemoveFarmer(old(farmers), farmerId)
      ensures UniqueFarmerIds(old(farmers)) ==>
        UniqueFarmerIds(farmers) && forall k :: 0 <= k < |farmers| ==> farmers[k].farmerId != farmerId
    {
      var index := FindFarmer(farmers, farmerId);
      if index.Some? {
        farmers := farmers[..index.value] + farmers[index.value + 1..];
      }
      if UniqueFarmerIds(old(farmers)) {
        RemoveFarmerClearsId(old(farmers), farmerId);
      }
    }

    /**
     * `savePurchase`: ids and date are trimmed and must be present, quantity
     * and price must be numbers; a log that already holds the purchase id or
     * any purchase of the farmer rejects; otherwise the purchase is appended
     * with its total cost.
     */
    method SavePurchase(rawId: string, rawFarmerId: string, rawDate: string, quantity: Option<int>, price: Option<int>)
      returns (outcome: PurchaseOutcome)
      modifies this
      ensures farmers == old(farmers)
      ensures outcome == InvalidPurchase <==>
        IsBlank(rawId) || IsBlank(rawFarmerId) || IsBlank(rawDate) || quantity.None? || price.None?
      ensures outcome == DuplicatePurchase <==>
        outcome != InvalidPurchase &&
        exists i :: 0 <= i < |old(purchases)| &&
          (old(purchases)[i].purchaseId == Trim(rawId) || old(purchases)[i].farmerId == Trim(rawFarmerId))
      ensures outcome != PurchaseLogged ==> purchases == old(purchases)
      ensures outcome == PurchaseLogged ==>
        purchases == old(purchases) + [Purchase(Trim(rawId), Trim(rawFarmerId), Trim(rawDate),
                                                quantity.value, price.value, quantity.value * price.value)]
      ensures UniquePurchaseKeys(old(purchases)) ==> UniquePurchaseKeys(purchases)
    {
      outcome := LogPurchase(Trim(rawId), Trim(rawFarmerId), Trim(rawDate), quantity, price);
    }

    /** The checks and the append of `savePurchase`, on trimmed fields. */
    method LogPurchase(purchaseId: string, farmerId: string, purchaseDate: string, quantity: Option<int>, price: Option<int>)
      returns (outcome: PurchaseOutcome)
      modifies this
      ensures farmers == old(farmers)
      ensures outcome == InvalidPurchase <==>
        purchaseId == [] || farmerId == [] || purchaseDate == [] || quantity.None? || price.None?
      ensures outcome == DuplicatePurchase <==>
        outcome != InvalidPurchase &&
        exists i :: 0 <= i < |old(purchases)| &&
          (old(purchases)[i].purchaseId == purchaseId || old(purchases)[i].farmerId == farmerId)
      ensures outcome != PurchaseLogged ==> purchases == old(purchases)
      ensures outcome == PurchaseLogged ==>
        purchases == old(purchases) + [Purchase(purchaseId, farmerId, purchaseDate,
                                                quantity.value, price.value, quantity.value * price.value)]
      ensures UniquePurchaseKeys(old(purchases)) ==> UniquePurchaseKeys(purchases)
    {
      if purchaseId == [] || farmerId == [] || purchaseDate == [] || quantity.None? || price.None? {
        return InvalidPurchase;
      }
      var existing := FirstIndex(purchases, (p: Purchase) => p.purchaseId == purchaseId || p.farmerId == farmerId);
      if existing.Some? {
        return DuplicatePurchase;
      }
      var totalCost := quantity.value * price.value;
      purchases := purchases + [Purchase(purchaseId, farmerId, purchaseDate, quantity.value, price.value, totalCost)];
      outcome := PurchaseLogged;
    }
  }
}
