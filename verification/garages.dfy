/**
 * The partner-garage directory (`src/pages/garages/index.tsx`): the list narrowed by tier
 * and by a free-text search, then split into its VIP and normal sections.
 */
module Garages {
  import opened Text
  import opened Seqs

  datatype Tier = Vip | Normal

  /** `IGarage`, as far as the directory reads it. */
  datatype Garage = Garage(name: string, city: string, tier: Tier, specialty: seq<string>)

  predicate IsVip(g: Garage) {
    g.tier == Vip
  }

  predicate IsNormal(g: Garage) {
    g.tier == Normal
  }

  /** `filter === 'vip'` keeps the VIP garages, `'normal'` the others, anything else all of them. */
  function TierFilter(garages: seq<Garage>, filter: string): seq<Garage> {
    if filter == "vip" then Filter(garages, IsVip)
    else if filter == "normal" then Filter(garages, IsNormal)
    else garages
  }

  /** The tier test the filter applies to one garage. */
  predicate TierAllows(filter: string, g: Garage) {
    (filter == "vip" ==> g.tier == Vip) && (filter == "normal" ==> g.tier == Normal)
  }

  /** The search test: the lower-cased name, city or one specialty contains the query `q`. */
  predicate MatchesQuery(g: Garage, q: string) {
    || Contains(ToLower(g.name), q)
    || Contains(ToLower(g.city), q)
    || exists i | 0 <= i < |g.specialty| :: Contains(ToLower(g.specialty[i]), q)
  }

  /**
   * `filteredGarages`: the tier filter, then the search when `search.trim()` is non-empty.
   * The query is `search.toLowerCase()`, untrimmed.
   */
  function FilteredGarages(garages: seq<Garage>, filter: string, search: string): (r: seq<Garage>)
    ensures forall g :: g in r <==>
      g in garages && TierAllows(filter, g) && (Trim(search) == "" || MatchesQuery(g, ToLower(search)))
  {
    var byTier := TierFilter(garages, filter);
    if Trim(search) != "" then
      var q := ToLower(search);
      Filter(byTier, g => MatchesQuery(g, q))
    else
      byTier
  }

  /** The directory never reorders: the result is a subsequence of the garage list. */
  lemma FilteredGaragesOrder(garages: seq<Garage>, filter: string, search: string)
    ensures IsSubsequence(FilteredGarages(garages, filter, search), garages)
  {
    var byTier := TierFilter(garages, filter);
    if filter == "vip" {
      FilterIsSubsequence(garages, IsVip);
    } else if filter == "normal" {
      FilterIsSubsequence(garages, IsNormal);
    } else {
      SubsequenceRefl(garages);
    }
    if Trim(search) != "" {
      var q := ToLower(search);
      FilterIsSubsequence(byTier, g => MatchesQuery(g, q));
      SubsequenceTrans(Filter(byTier, g => MatchesQuery(g, q)), byTier, garages);
    }
  }

  /** `vipGarages`. */
  function VipGarages(filtered: seq<Garage>): (r: seq<Garage>)
    ensures forall g :: g in r <==> g in filtered && g.tier == Vip
  {
    Filter(filtered, IsVip)
  }

  /** `normalGarages`. */
  function NormalGarages(filtered: seq<Garage>): (r: seq<Garage>)
    ensures forall g :: g in r <==> g in filtered && g.tier == Normal
  {
    Filter(filtered, IsNormal)
  }

  /** The two sections split the filtered list: each garage lands in exactly one, order kept in both. */
  lemma SectionsPartition(filtered: seq<Garage>)
    ensures multiset(VipGarages(filtered)) + multiset(NormalGarages(filtered)) == multiset(filtered)
    ensures IsSubsequence(VipGarages(filtered), filtered) && IsSubsequence(NormalGarages(filtered), filtered)
  {
    FilterSplit(filtered, IsVip, IsNormal);
    FilterIsSubsequence(filtered, IsVip);
    FilterIsSubsequence(filtered, IsNormal);
  }

  /** Every character of a found query occurs in the searched string. */
  lemma {:induction false} ContainsChars(s: string, q: string)
    requires Contains(s, q)
    ensures forall i :: 0 <= i < |q| ==> q[i] in s
    decreases |s|
  {
    if StartsWith(s, q) {
      forall i | 0 <= i < |q| ensures q[i] in s {
        assert s[i] == q[i];
      }
    } else {
      ContainsChars(s[1..], q);
    }
  }

  /**
   * The query is not trimmed: a search with a space in it finds no garage whose name, city
   * and specialties have no space, even when the trimmed search would have matched.
   */
  lemma UntrimmedSpaceMatchesNothing(garages: seq<Garage>, filter: string, search: string, g: Garage)
    requires ' ' in search && Trim(search) != ""
    requires ' ' !in g.name && ' ' !in g.city
    requires forall i :: 0 <= i < |g.specialty| ==> ' ' !in g.specialty[i]
    ensures g !in FilteredGarages(garages, filter, search)
  {
    var q := ToLower(search);
    var k :| 0 <= k < |search| && search[k] == ' ';
    assert q[k] == ' ';
    forall s: string | ' ' !in s ensures !Contains(ToLower(s), q) {
      if Contains(ToLower(s), q) {
        ContainsChars(ToLower(s), q);
        assert false;
      }
    }
  }
}
