/**
 * The partner-garage strip on the home page (`src/components/blocks/BlockGaragePartners.tsx`):
 * the VIP garages, then the normal ones, cut to the first six.
 */
module GaragePartners {
  import opened Seqs
  import opened Garages

  /** The most garages the strip shows. */
  const MaxShown := 6

  /** `displayGarages`: `[...vipGarages, ...normalGarages].slice(0, 6)`. */
  function DisplayGarages(garages: seq<Garage>): (r: seq<Garage>)
    ensures |r| <= MaxShown
    ensures |r| == if |garages| < MaxShown then |garages| else MaxShown
  {
    var vips := Filter(garages, IsVip);
    var normals := Filter(garages, IsNormal);
    FilterSplit(garages, IsVip, IsNormal);
    assert |multiset(vips)| + |multiset(normals)| == |multiset(garages)|;
    var all := vips + normals;
    all[..if |all| < MaxShown then |all| else MaxShown]
  }

  /**
   * The strip in terms of the two tiers: six VIPs if there are that many, else every VIP
   * followed by as many normal garages as still fit.
   */
  lemma DisplayShape(garages: seq<Garage>)
    ensures var vips := Filter(garages, IsVip);
      var normals := Filter(garages, IsNormal);
      var r := DisplayGarages(garages);
      && (|vips| >= MaxShown ==> r == vips[..MaxShown])
      && (|vips| < MaxShown ==> r == vips + normals[..|r| - |vips|])
  {
    var vips := Filter(garages, IsVip);
    var normals := Filter(garages, IsNormal);
    var r := DisplayGarages(garages);
    if |vips| < MaxShown {
      assert r[..|vips|] == vips;
      assert r == r[..|vips|] + r[|vips|..];
    }
  }

  /** The shown garages are VIP exactly up to the number of VIPs in the list. */
  lemma VipPositions(garages: seq<Garage>)
    ensures var vips := Filter(garages, IsVip);
      var r := DisplayGarages(garages);
      forall k :: 0 <= k < |r| ==> (r[k].tier == Vip <==> k < |vips|)
  {
    DisplayShape(garages);
    var vips := Filter(garages, IsVip);
    var normals := Filter(garages, IsNormal);
    var r := DisplayGarages(garages);
    forall k | 0 <= k < |r|
      ensures r[k].tier == Vip <==> k < |vips|
    {
      if k < |vips| {
        assert r[k] == vips[k];
      } else {
        assert r[k] == normals[k - |vips|];
      }
    }
  }

  /** Every VIP garage shown comes before every normal garage shown. */
  lemma VipsFirst(garages: seq<Garage>)
    ensures var r := DisplayGarages(garages);
      forall i, j :: 0 <= i < j < |r| && r[j].tier == Vip ==> r[i].tier == Vip
  {
    VipPositions(garages);
  }

  /** The number of VIPs the strip shows. */
  function VipsShown(garages: seq<Garage>): nat {
    var n := |Filter(garages, IsVip)|;
    if n < MaxShown then n else MaxShown
  }

  /** The VIPs shown are the first VIPs of the list, in their order. */
  lemma ShownVips(garages: seq<Garage>)
    ensures Filter(DisplayGarages(garages), IsVip) == Filter(garages, IsVip)[..VipsShown(garages)]
  {
    DisplayShape(garages);
    var vips := Filter(garages, IsVip);
    var normals := Filter(garages, IsNormal);
    var r := DisplayGarages(garages);
    if |vips| >= MaxShown {
      TakeAll(vips, MaxShown, IsVip);
      assert Filter(r, IsVip) == vips[..MaxShown];
    } else {
      TakeBefore(r, vips, normals, |r| - |vips|, IsVip);
      assert vips[..|vips|] == vips;
    }
  }

  /** A prefix of elements that all pass `p` passes whole. */
  lemma TakeAll(s: seq<Garage>, n: nat, p: Garage -> bool)
    requires n <= |s|
    requires forall i :: 0 <= i < |s| ==> p(s[i])
    ensures Filter(s[..n], p) == s[..n]
  {
    FilterAll(s[..n], p);
  }

  /** Filtering `r == s + t[..n]` by `p`, where `p` holds on `s` and fails on `t`, gives `s`. */
  lemma TakeBefore(r: seq<Garage>, s: seq<Garage>, t: seq<Garage>, n: nat, p: Garage -> bool)
    requires n <= |t| && r == s + t[..n]
    requires forall i :: 0 <= i < |s| ==> p(s[i])
    requires forall i :: 0 <= i < |t| ==> !p(t[i])
    ensures Filter(r, p) == s
  {
    FilterAppend(s, t[..n], p);
    FilterAll(s, p);
    NoneOf(t[..n], p);
  }

  /** The normal garages shown are the first normal garages of the list, in their order, after the VIPs. */
  lemma ShownNormals(garages: seq<Garage>)
    ensures var r := DisplayGarages(garages);
      && VipsShown(garages) <= |r|
      && Filter(r, IsNormal) == Filter(garages, IsNormal)[..|r| - VipsShown(garages)]
  {
    DisplayShape(garages);
    var vips := Filter(garages, IsVip);
    var normals := Filter(garages, IsNormal);
    var r := DisplayGarages(garages);
    if |vips| >= MaxShown {
      TakeNone(vips, MaxShown, IsNormal);
    } else {
      TakeAfter(vips, normals, |r| - |vips|, IsNormal);
    }
  }

  /** A prefix of elements that all fail `q` has nothing passing it. */
  lemma TakeNone(s: seq<Garage>, n: nat, q: Garage -> bool)
    requires n <= |s|
    requires forall i :: 0 <= i < |s| ==> !q(s[i])
    ensures Filter(s[..n], q) == []
  {
    NoneOf(s[..n], q);
  }

  /** Filtering `s + t[..n]` by `q`, where `q` fails on `s` and holds on `t`, gives `t[..n]`. */
  lemma TakeAfter(s: seq<Garage>, t: seq<Garage>, n: nat, q: Garage -> bool)
    requires n <= |t|
    requires forall i :: 0 <= i < |s| ==> !q(s[i])
    requires forall i :: 0 <= i < |t| ==> q(t[i])
    ensures Filter(s + t[..n], q) == t[..n]
  {
    FilterAppend(s, t[..n], q);
    NoneOf(s, q);
    FilterAll(t[..n], q);
  }

  /** Nothing passes a filter that every element fails. */
  lemma {:induction false} NoneOf(s: seq<Garage>, p: Garage -> bool)
    requires forall i :: 0 <= i < |s| ==> !p(s[i])
    ensures Filter(s, p) == []
  {
    if s != [] {
      NoneOf(s[1..], p);
    }
  }

  /** Normal garages are shown only when there are fewer than six VIPs, and then every VIP is shown. */
  lemma NormalsOnlyAfterAllVips(garages: seq<Garage>)
    ensures var vips := Filter(garages, IsVip);
      var r := DisplayGarages(garages);
      (exists i :: 0 <= i < |r| && r[i].tier == Normal) ==> |vips| < MaxShown && r[..|vips|] == vips
  {
    DisplayShape(garages);
  }
}
