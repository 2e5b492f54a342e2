/** The root layout: the brands the navigation bar offers. */
module Navigation {
  import opened Wrappers
  import opened Collections

  /** The fields of a motorcycle the layout reads; an absent `isUsed` reads as false. */
  datatype NavBike = NavBike(brand: string, isUsed: bool)

  function NewBikes(bikes: seq<NavBike>): seq<NavBike> {
    Filter((b: NavBike) => !b.isUsed, bikes)
  }

  function BrandNames(bikes: seq<NavBike>): (r: seq<string>)
    ensures |r| == |bikes|
    ensures forall i :: 0 <= i < |bikes| ==> r[i] == bikes[i].brand
  {
    seq(|bikes|, i requires 0 <= i < |bikes| => bikes[i].brand)
  }

  /**
   * `availableBrands`: the distinct brands of the new (not used) bikes in
   * order of first appearance, or nothing when the fetch failed.
   */
  function NavBrands(fetched: Option<seq<NavBike>>): (r: seq<string>)
    ensures fetched.None? ==> r == []
    ensures NoDup(r)
    ensures fetched.Some? ==>
      forall name :: name in r ==> exists b :: b in fetched.value && !b.isUsed && b.brand == name
    ensures fetched.Some? ==>
      forall b :: b in fetched.value && !b.isUsed ==> b.brand in r
  {
    if fetched.None? then []
    else
      var bikes := fetched.value;
      var newBikes := NewBikes(bikes);
      var names := BrandNames(newBikes);
      var r := Dedup(names);
      assert forall name :: name in r ==> exists b :: b in bikes && !b.isUsed && b.brand == name by {
        forall name | name in r
          ensures exists b :: b in bikes && !b.isUsed && b.brand == name
        {
          var i :| 0 <= i < |names| && names[i] == name;
          assert newBikes[i] in newBikes;
        }
      }
      assert forall b :: b in bikes && !b.isUsed ==> b.brand in r by {
        forall b | b in bikes && !b.isUsed ensures b.brand in r {
          var i :| 0 <= i < |newBikes| && newBikes[i] == b;
          assert names[i] == b.brand;
        }
      }
      r
  }

  /** The brands appear in the order of their first new bike. */
  lemma NavBrandsFirstAppearance(bikes: seq<NavBike>)
    ensures var names := BrandNames(NewBikes(bikes));
      var r := NavBrands(Some(bikes));
      forall i, j :: 0 <= i < j < |r| ==> IndexOf(names, r[i]) < IndexOf(names, r[j])
  {
    DedupFirstAppearance(BrandNames(NewBikes(bikes)));
  }

  /** A used bike added to the list changes nothing. */
  lemma UsedBikeIgnored(bikes: seq<NavBike>, used: NavBike)
    requires used.isUsed
    ensures NavBrands(Some(bikes + [used])) == NavBrands(Some(bikes))
  {
    FilterConcat((b: NavBike) => !b.isUsed, bikes, [used]);
    assert NewBikes([used]) == [];
    assert NewBikes(bikes + [used]) == NewBikes(bikes);
  }
}
