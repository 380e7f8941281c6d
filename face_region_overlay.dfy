/**
 * The tappable face overlay (src/components/FaceRegionOverlay/FaceRegionOverlay.tsx).
 *
 * The region list is turned into a map keyed by region, the last entry for a
 * key winning. The six zones are then rendered in a fixed order; a zone with
 * no entry renders nothing, and a rendered zone passes its entry to
 * `onSelect` when pressed.
 */
module FaceRegionOverlay {
  import opened Wrappers
  import opened SkinTypes

  /** `REGION_COLOR`: one fixed colour per zone. */
  function RegionColor(r: Region): string
  {
    match r
    case Forehead => "#4FC3F7"
    case LeftEye => "#BA68C8"
    case RightEye => "#BA68C8"
    case LeftCheek => "#81C784"
    case RightCheek => "#81C784"
    case Lip => "#FFB74D"
  }

  /**
   * Two zones share a colour exactly when they are the same zone or mirror
   * images: the eyes share one, the cheeks share one, forehead and lip each
   * have their own.
   */
  lemma RegionColorsBySide(a: Region, b: Region)
    ensures RegionColor(a) == RegionColor(b) <==> a == b || a == Mirror(b)
  {
  }

  /** Some entry of `regions` is for zone `k`. */
  predicate Mentions(regions: seq<RegionView>, k: Region)
  {
    exists i :: 0 <= i < |regions| && regions[i].region == k
  }

  /** Entry `i` is the last entry of `regions` for zone `k`. */
  predicate LastFor(regions: seq<RegionView>, i: int, k: Region)
  {
    && 0 <= i < |regions|
    && regions[i].region == k
    && forall j :: i < j < |regions| ==> regions[j].region != k
  }

  /**
   * `m` is keyed by exactly the zones `regions` mentions, and holds for each
   * the last entry for that zone.
   */
  ghost predicate KeepsLastEntries(regions: seq<RegionView>, m: map<Region, RegionView>)
  {
    && (forall k :: k in m <==> Mentions(regions, k))
    && (forall k :: k in m ==> exists i :: LastFor(regions, i, k) && regions[i] == m[k])
  }

  /** Adding one more entry to the list and to the map keeps the two in step. */
  lemma KeepsLastEntriesExtend(regions: seq<RegionView>, m: map<Region, RegionView>)
    requires regions != []
    requires KeepsLastEntries(regions[..|regions| - 1], m)
    ensures KeepsLastEntries(regions, m[regions[|regions| - 1].region := regions[|regions| - 1]])
  {
    var n := |regions|;
    var init := regions[..n - 1];
    var last := regions[n - 1];
    var m' := m[last.region := last];
    assert forall i :: 0 <= i < n - 1 ==> init[i] == regions[i];
    forall k
      ensures k in m' <==> Mentions(regions, k)
    {
      if Mentions(regions, k) && k != last.region {
        var i :| 0 <= i < n && regions[i].region == k;
        assert init[i].region == k;
      }
    }
    forall k | k in m'
      ensures exists i :: LastFor(regions, i, k) && regions[i] == m'[k]
    {
      if k == last.region {
        assert LastFor(regions, n - 1, k);
      } else {
        var i :| LastFor(init, i, k) && init[i] == m[k];
        assert LastFor(regions, i, k);
      }
    }
  }

  /** `Object.fromEntries(regions.map((r) => [r.region, r]))`: later entries overwrite earlier ones. */
  function RegionMap(regions: seq<RegionView>): (m: map<Region, RegionView>)
    ensures KeepsLastEntries(regions, m)
  {
    if regions == [] then map[]
    else
      var last := regions[|regions| - 1];
      var m := RegionMap(regions[..|regions| - 1]);
      KeepsLastEntriesExtend(regions, m);
      m[last.region := last]
  }

  /** The last entry for a zone is the one the map holds, whatever came before it. */
  lemma LastEntryWins(regions: seq<RegionView>, i: int)
    requires 0 <= i < |regions|
    requires LastFor(regions, i, regions[i].region)
    ensures regions[i].region in RegionMap(regions)
    ensures RegionMap(regions)[regions[i].region] == regions[i]
  {
    var k := regions[i].region;
    var m := RegionMap(regions);
    assert Mentions(regions, k);
    var j :| LastFor(regions, j, k) && regions[j] == m[k];
    // both are the last entry for k, so neither can come after the other
    assert regions[j].region == k && regions[i].region == k;
  }

  /** The overlay's touch target for one zone. */
  datatype Touchable = Touchable(key: Region, borderColor: string, backgroundColor: string, payload: RegionView)

  /** `render(regionKey)`: nothing for a missing zone; otherwise a target that hands over the zone's entry. */
  function Render(m: map<Region, RegionView>, key: Region): (t: Option<Touchable>)
    ensures t.None? <==> key !in m
    ensures t.Some? ==>
              && t.value.key == key
              && t.value.payload == m[key]
              && t.value.borderColor == RegionColor(key)
              && t.value.backgroundColor == t.value.borderColor + "33"
  {
    if key in m then
      var color := RegionColor(key);
      Some(Touchable(key, color, color + "33", m[key]))
    else None
  }

  /** The number of zones the overlay renders. */
  const ZoneCount: nat := 6

  /** The zone the overlay renders at each step: forehead, eyes, cheeks, lip. */
  function ZoneAt(rank: nat): Region
    requires rank < ZoneCount
  {
    if rank == 0 then Forehead
    else if rank == 1 then LeftEye
    else if rank == 2 then RightEye
    else if rank == 3 then LeftCheek
    else if rank == 4 then RightCheek
    else Lip
  }

  /** The step at which the overlay renders a zone. */
  function RenderRank(r: Region): nat
  {
    match r
    case Forehead => 0
    case LeftEye => 1
    case RightEye => 2
    case LeftCheek => 3
    case RightCheek => 4
    case Lip => 5
  }

  /** ZoneAt and RenderRank are inverse: every zone is rendered at exactly one step. */
  lemma RankOfZoneAt(rank: nat)
    requires rank < ZoneCount
    ensures RenderRank(ZoneAt(rank)) == rank
  {
  }

  lemma ZoneAtRank(k: Region)
    ensures RenderRank(k) < ZoneCount && ZoneAt(RenderRank(k)) == k
  {
  }

  /** Some target of `out` is for zone `k`. */
  predicate Shows(out: seq<Touchable>, k: Region)
  {
    exists i :: 0 <= i < |out| && out[i].key == k
  }

  /** Putting a target in front keeps every zone already shown, and shows its own. */
  lemma ShowsPrepend(t: Touchable, rest: seq<Touchable>)
    ensures forall k :: Shows(rest, k) ==> Shows([t] + rest, k)
    ensures Shows([t] + rest, t.key)
  {
    var out := [t] + rest;
    assert forall i :: 0 <= i < |rest| ==> out[i + 1] == rest[i];
    assert out[0] == t;
  }

  /** Renders the zones from step `start` on in turn, keeping the targets of the zones that are present. */
  function RenderFrom(m: map<Region, RegionView>, start: nat): (out: seq<Touchable>)
    requires start <= ZoneCount
    ensures forall i :: 0 <= i < |out| ==> start <= RenderRank(out[i].key) && Render(m, out[i].key) == Some(out[i])
    decreases ZoneCount - start
  {
    if start == ZoneCount then []
    else
      var key := ZoneAt(start);
      RankOfZoneAt(start);
      var rest := RenderFrom(m, start + 1);
      if key in m then [Render(m, key).value] + rest else rest
  }

  /** Every present zone from `start` on is rendered. */
  lemma {:induction false} RenderFromComplete(m: map<Region, RegionView>, start: nat, k: Region)
    requires start <= RenderRank(k)
    requires k in m
    ensures RenderRank(k) < ZoneCount
    ensures Shows(RenderFrom(m, start), k)
    decreases ZoneCount - start
  {
    ZoneAtRank(k);
    var key := ZoneAt(start);
    var rest := RenderFrom(m, start + 1);
    if RenderRank(k) == start {
      assert key == k;
      var t := Render(m, k).value;
      assert RenderFrom(m, start) == [t] + rest;
      ShowsPrepend(t, rest);
    } else {
      RenderFromComplete(m, start + 1, k);
      if key in m {
        var t := Render(m, key).value;
        assert RenderFrom(m, start) == [t] + rest;
        ShowsPrepend(t, rest);
      } else {
        assert RenderFrom(m, start) == rest;
      }
    }
  }

  /** The targets are in strictly increasing render rank. */
  predicate RankOrdered(out: seq<Touchable>)
  {
    forall i, j :: 0 <= i < j < |out| ==> RenderRank(out[i].key) < RenderRank(out[j].key)
  }

  /** A target ranked below everything after it keeps the sequence ordered. */
  lemma RankOrderedPrepend(t: Touchable, rest: seq<Touchable>)
    requires RankOrdered(rest)
    requires forall i :: 0 <= i < |rest| ==> RenderRank(t.key) < RenderRank(rest[i].key)
    ensures RankOrdered([t] + rest)
  {
    var out := [t] + rest;
    forall i, j | 0 <= i < j < |out|
      ensures RenderRank(out[i].key) < RenderRank(out[j].key)
    {
      assert out[j] == rest[j - 1];
      if i > 0 {
        assert out[i] == rest[i - 1];
      }
    }
  }

  /** Rendering visits the zones in order, so its targets come out in order. */
  lemma {:induction false} RenderFromOrdered(m: map<Region, RegionView>, start: nat)
    requires start <= ZoneCount
    ensures RankOrdered(RenderFrom(m, start))
    decreases ZoneCount - start
  {
    if start < ZoneCount {
      RenderFromOrdered(m, start + 1);
      RankOfZoneAt(start);
      var key := ZoneAt(start);
      var rest := RenderFrom(m, start + 1);
      var out := RenderFrom(m, start);
      if key in m {
        var t := Render(m, key).value;
        assert out == [t] + rest;
        RankOrderedPrepend(t, rest);
      } else {
        assert out == rest;
      }
    }
  }

  /** The whole overlay: the present zones, in render order, each carrying its last entry. */
  function Overlay(regions: seq<RegionView>): (out: seq<Touchable>)
    ensures forall i :: 0 <= i < |out| ==>
              && out[i].key in RegionMap(regions)
              && out[i].payload == RegionMap(regions)[out[i].key]
              && out[i].borderColor == RegionColor(out[i].key)
              && out[i].backgroundColor == out[i].borderColor + "33"
    // a zone is drawn exactly when the input mentions it
    ensures forall k :: Shows(out, k) <==> Mentions(regions, k)
    // zones come out in the fixed order, whatever the input order
    ensures RankOrdered(out)
  {
    var m := RegionMap(regions);
    RenderFromOrdered(m, 0);
    var out := RenderFrom(m, 0);
    assert forall k :: Mentions(regions, k) ==> Shows(out, k) by {
      forall k | Mentions(regions, k)
        ensures Shows(out, k)
      {
        RenderFromComplete(m, 0, k);
      }
    }
    out
  }

  /** Each region appears at most once. */
  predicate DistinctRegions(regions: seq<RegionView>)
  {
    forall i, j :: 0 <= i < j < |regions| ==> regions[i].region != regions[j].region
  }

  lemma RegionMapIncluded(a: seq<RegionView>, b: seq<RegionView>)
    requires DistinctRegions(b)
    requires multiset(a) == multiset(b)
    ensures forall k :: k in RegionMap(a) ==> k in RegionMap(b) && RegionMap(b)[k] == RegionMap(a)[k]
  {
    var ma, mb := RegionMap(a), RegionMap(b);
    forall k | k in ma
      ensures k in mb && mb[k] == ma[k]
    {
      var i :| LastFor(a, i, k) && a[i] == ma[k];
      assert a[i] in multiset(b);
      var j :| 0 <= j < |b| && b[j] == a[i];
      assert Mentions(b, k);
      var j' :| LastFor(b, j', k) && b[j'] == mb[k];
      assert j' == j;
    }
  }

  /** With one entry per region, the overlay does not depend on the input order. */
  lemma OverlayOrderIndependent(a: seq<RegionView>, b: seq<RegionView>)
    requires DistinctRegions(a) && DistinctRegions(b)
    requires multiset(a) == multiset(b)
    ensures Overlay(a) == Overlay(b)
  {
    RegionMapIncluded(a, b);
    RegionMapIncluded(b, a);
    assert RegionMap(a) == RegionMap(b);
  }
}
