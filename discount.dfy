/**
 * Quantity discount tiers and `GetProductDiscount`: the qualifying tier with the largest threshold.
 * The table is a sequence in primary-key order; GORM's `First` orders by the primary key after the
 * requested `quantity DESC`, so among equal thresholds the earliest row wins.
 */
module Discount {
  import opened Wrappers

  datatype Tier = Tier(quantity: int, percentage: real, isDeleted: bool)

  /** `quantity <= ? AND is_deleted = false`. */
  predicate Qualifies(t: Tier, quantity: int) { !t.isDeleted && t.quantity <= quantity }

  /** Index of the first row with the largest qualifying threshold, if any row qualifies. */
  function SelectTier(tiers: seq<Tier>, quantity: int): (r: Option<nat>)
    ensures r.None? <==> forall j :: 0 <= j < |tiers| ==> !Qualifies(tiers[j], quantity)
    ensures r.Some? ==> r.value < |tiers| && Qualifies(tiers[r.value], quantity)
    ensures r.Some? ==> forall j :: 0 <= j < |tiers| && Qualifies(tiers[j], quantity) ==>
                          tiers[j].quantity <= tiers[r.value].quantity
    ensures r.Some? ==> forall j :: 0 <= j < r.value && Qualifies(tiers[j], quantity) ==>
                          tiers[j].quantity < tiers[r.value].quantity
  {
    if tiers == [] then None
    else
      var n := |tiers| - 1;
      var prior := SelectTier(tiers[..n], quantity);
      assert forall j :: 0 <= j < n ==> tiers[..n][j] == tiers[j];
      if Qualifies(tiers[n], quantity) && (prior.None? || tiers[n].quantity > tiers[prior.value].quantity) then Some(n)
      else prior
  }

  /** `GetProductDiscount`: the selected tier's percentage, or 0 when no tier qualifies. */
  function GetProductDiscount(tiers: seq<Tier>, quantity: int): (pct: real)
    ensures (forall j :: 0 <= j < |tiers| ==> !Qualifies(tiers[j], quantity)) ==> pct == 0.0
    ensures (exists j :: 0 <= j < |tiers| && Qualifies(tiers[j], quantity)) ==>
              pct == tiers[SelectTier(tiers, quantity).value].percentage
    ensures (exists j :: 0 <= j < |tiers| && Qualifies(tiers[j], quantity)) ==>
              exists i :: 0 <= i < |tiers| && Qualifies(tiers[i], quantity) && pct == tiers[i].percentage &&
                (forall j :: 0 <= j < |tiers| && Qualifies(tiers[j], quantity) ==> tiers[j].quantity <= tiers[i].quantity) &&
                (forall j :: 0 <= j < i && Qualifies(tiers[j], quantity) ==> tiers[j].quantity < tiers[i].quantity)
  {
    match SelectTier(tiers, quantity)
    case None => 0.0
    case Some(i) => tiers[i].percentage
  }

  /** The seeded table: one tier of 15 percent from 100 units. */
  const SeededTiers: seq<Tier> := [Tier(100, 15.0, false)]

  lemma SeededDiscount(quantity: int)
    ensures quantity < 100 ==> GetProductDiscount(SeededTiers, quantity) == 0.0
    ensures quantity >= 100 ==> GetProductDiscount(SeededTiers, quantity) == 15.0
  {
    if quantity >= 100 {
      assert SelectTier(SeededTiers, quantity) == Some(0);
    }
  }

  /** Selection is by threshold: a qualifying tier with a larger percentage can lose to one with a larger threshold. */
  lemma NotLargestPercentage()
    ensures var tiers := [Tier(10, 20.0, false), Tier(50, 5.0, false)];
            Qualifies(tiers[0], 60) && GetProductDiscount(tiers, 60) == 5.0
  {
    var tiers := [Tier(10, 20.0, false), Tier(50, 5.0, false)];
    assert SelectTier(tiers, 60) == Some(1);
  }

  /** Deleted tiers never influence the result. */
  lemma DeletedTiersIgnored(tiers: seq<Tier>, t: Tier, quantity: int)
    requires t.isDeleted
    ensures GetProductDiscount(tiers + [t], quantity) == GetProductDiscount(tiers, quantity)
  {
    assert (tiers + [t])[..|tiers|] == tiers;
  }
}
