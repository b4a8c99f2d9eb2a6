/**
 * The regions the audit visits (`get_active_regions` in main-app/src/main.py):
 * the lower-cased locations of the customer's datasets, or nothing at all
 * when listing the datasets or looking one of them up fails.
 */
module Regions {
  import opened Wrappers
  import opened Text

  /** The answer of `get_dataset` for one listed dataset. */
  datatype DatasetLookup = Found(location: Option<string>) | LookupFailed

  /**
   * `list_datasets` followed by a `get_dataset` per entry:
   * `None` when the listing itself raised.
   */
  type Listing = Option<seq<DatasetLookup>>

  /** The lower-cased locations of the datasets that report one. */
  function Locations(ds: seq<DatasetLookup>): set<string> {
    set i | 0 <= i < |ds| && ds[i].Found? && Given(ds[i].location) :: Lower(ds[i].location.value)
  }

  predicate AnyFailure(ds: seq<DatasetLookup>) {
    exists i :: 0 <= i < |ds| && ds[i].LookupFailed?
  }

  /** The set `get_active_regions` returns. */
  function RegionSet(listing: Listing): set<string> {
    if listing.None? || AnyFailure(listing.value) then {} else Locations(listing.value)
  }

  /** The loop over the listed datasets, adding each location to the set. */
  method ActiveRegions(listing: Listing) returns (regions: set<string>)
    ensures regions == RegionSet(listing)
  {
    if listing.None? {
      return {};
    }
    var ds := listing.value;
    regions := {};
    for k := 0 to |ds|
      invariant regions == Locations(ds[..k])
      invariant !AnyFailure(ds[..k])
    {
      match ds[k] {
        case LookupFailed =>
          assert AnyFailure(ds) by {
            assert ds[k].LookupFailed?;
          }
          return {};
        case Found(location) =>
          if Given(location) {
            regions := regions + {Lower(location.value)};
          }
      }
      assert Locations(ds[..k + 1]) == Locations(ds[..k]) + (if Given(ds[k].location) then {Lower(ds[k].location.value)} else {}) by {
        LocationsSnoc(ds[..k], ds[k]);
        assert ds[..k + 1] == ds[..k] + [ds[k]];
      }
      assert !AnyFailure(ds[..k + 1]) by {
        var w := ds[..k + 1];
        forall i | 0 <= i < k + 1 ensures !w[i].LookupFailed? {
          if i < k {
            assert w[i] == ds[..k][i];
          }
        }
      }
    }
    assert ds[..|ds|] == ds;
  }

  lemma LocationsSnoc(ds: seq<DatasetLookup>, d: DatasetLookup)
    requires d.Found?
    ensures Locations(ds + [d]) == Locations(ds) + (if Given(d.location) then {Lower(d.location.value)} else {})
  {
    var w := ds + [d];
    forall x | x in Locations(w) ensures x in Locations(ds) + (if Given(d.location) then {Lower(d.location.value)} else {}) {
      var i :| 0 <= i < |w| && w[i].Found? && Given(w[i].location) && x == Lower(w[i].location.value);
      if i < |ds| {
        assert w[i] == ds[i];
      }
    }
    forall x | x in Locations(ds) ensures x in Locations(w) {
      var i :| 0 <= i < |ds| && ds[i].Found? && Given(ds[i].location) && x == Lower(ds[i].location.value);
      assert w[i] == ds[i];
    }
    if Given(d.location) {
      assert w[|ds|] == d;
    }
  }

  /**
   * Every region is the lower-cased location of some dataset that reports
   * one, and contains no upper-case ASCII letter; datasets without a location
   * contribute nothing.
   */
  lemma RegionsAreLocations(listing: Listing, r: string)
    requires r in RegionSet(listing)
    ensures IsLower(r)
    ensures listing.Some?
    ensures exists i :: 0 <= i < |listing.value| && listing.value[i].Found? &&
                        Given(listing.value[i].location) && r == Lower(listing.value[i].location.value)
  {
    var ds := listing.value;
    var i :| 0 <= i < |ds| && ds[i].Found? && Given(ds[i].location) && r == Lower(ds[i].location.value);
    LowerIsLower(ds[i].location.value);
  }

  /** Each dataset's location, lower-cased, is a region, unless something failed. */
  lemma LocationsAreRegions(ds: seq<DatasetLookup>, i: nat)
    requires i < |ds| && !AnyFailure(ds) && Given(ds[i].location)
    ensures Lower(ds[i].location.value) in RegionSet(Some(ds))
  {
    assert !ds[i].LookupFailed?;
  }

  /** A single failed lookup empties the whole set. */
  lemma FailureEmptiesSet(ds: seq<DatasetLookup>, i: nat)
    requires i < |ds| && ds[i].LookupFailed?
    ensures RegionSet(Some(ds)) == {}
  {
  }
}
