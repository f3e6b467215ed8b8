/**
  The bin locator: the fixed list of bin locations, the case-insensitive
  search over name, building and type, the legend of distinct bin types, and
  the "no bins found" card.
*/
module Bins {
  import Js

  datatype BinLocation = BinLocation(
    id: int, name: string, binType: string, description: string,
    distance: string, building: string, floor: string, lastEmptied: string)

  const BinLocations: seq<BinLocation> := [
    BinLocation(1, "Main Library Entrance", "Mixed Recycling", "Paper, plastic, glass, and metal",
                "0.2 miles", "Library", "Ground Floor", "2 hours ago"),
    BinLocation(2, "Student Union Food Court", "Composting", "Food waste and compostable materials",
                "0.3 miles", "Student Union", "2nd Floor", "4 hours ago"),
    BinLocation(3, "Engineering Building Lobby", "E-Waste", "Electronics, batteries, and tech waste",
                "0.5 miles", "Engineering Hall", "1st Floor", "1 day ago"),
    BinLocation(4, "Dormitory Common Area", "Mixed Recycling", "Paper, plastic, glass, and metal",
                "0.4 miles", "Residential Hall A", "Ground Floor", "6 hours ago"),
    BinLocation(5, "Science Lab Building", "Hazardous Waste", "Chemical containers and lab waste",
                "0.7 miles", "Science Center", "Basement", "3 hours ago")
  ]

  /** The lowered term occurs in the lowered name, building or type. */
  function Matches(loc: BinLocation, term: string): (ok: bool)
    ensures term == "" ==> ok
    ensures ok ==> |term| <= |loc.name| || |term| <= |loc.building| || |term| <= |loc.binType|
  {
    Js.IncludesEmpty(Js.ToLower(loc.name));
    || Js.Includes(Js.ToLower(loc.name), Js.ToLower(term))
    || Js.Includes(Js.ToLower(loc.building), Js.ToLower(term))
    || Js.Includes(Js.ToLower(loc.binType), Js.ToLower(term))
  }

  /** `filteredLocations`: the locations that match, in their original order. */
  function FilterLocations(locs: seq<BinLocation>, term: string): (r: seq<BinLocation>)
    ensures |r| <= |locs|
    ensures forall i :: 0 <= i < |r| ==> Matches(r[i], term) && r[i] in locs
    ensures forall i :: 0 <= i < |locs| && Matches(locs[i], term) ==> locs[i] in r
    decreases |locs|
  {
    if locs == [] then []
    else if Matches(locs[0], term) then [locs[0]] + FilterLocations(locs[1..], term)
    else FilterLocations(locs[1..], term)
  }

  /** The result keeps the catalogue order: it is a subsequence of the input. */
  lemma {:induction false} FilterIsSubsequence(locs: seq<BinLocation>, term: string)
    ensures Js.IsSubsequence(FilterLocations(locs, term), locs)
    decreases |locs|
  {
    if locs != [] {
      FilterIsSubsequence(locs[1..], term);
      var rest := FilterLocations(locs[1..], term);
      if Matches(locs[0], term) {
        assert ([locs[0]] + rest)[1..] == rest;
      }
    }
  }

  /** An empty search keeps every location. */
  lemma {:induction false} EmptyTermKeepsAll(locs: seq<BinLocation>)
    ensures FilterLocations(locs, "") == locs
    decreases |locs|
  {
    if locs != [] {
      Js.IncludesEmpty(Js.ToLower(locs[0].name));
      EmptyTermKeepsAll(locs[1..]);
    }
  }

  /** Terms that agree once lowered give the same result. */
  lemma {:induction false} CaseInsensitive(locs: seq<BinLocation>, t1: string, t2: string)
    requires Js.ToLower(t1) == Js.ToLower(t2)
    ensures FilterLocations(locs, t1) == FilterLocations(locs, t2)
    decreases |locs|
  {
    if locs != [] {
      CaseInsensitive(locs[1..], t1, t2);
    }
  }

  /** In particular a term and its lower-cased form select the same bins. */
  lemma LowerCasedTermSameResult(locs: seq<BinLocation>, term: string)
    ensures FilterLocations(locs, Js.ToLower(term)) == FilterLocations(locs, term)
  {
    Js.ToLowerIdempotent(term);
    CaseInsensitive(locs, Js.ToLower(term), term);
  }

  /** Searching the result again with the same term changes nothing. */
  lemma {:induction false} FilterIdempotent(locs: seq<BinLocation>, term: string)
    ensures FilterLocations(FilterLocations(locs, term), term) == FilterLocations(locs, term)
    decreases |locs|
  {
    if locs != [] {
      FilterIdempotent(locs[1..], term);
      var rest := FilterLocations(locs[1..], term);
      if Matches(locs[0], term) {
        assert ([locs[0]] + rest)[1..] == rest;
      }
    }
  }

  /** The "No recycling bins found" card shows when the filtered list is empty. */
  function ShowsNoResults(term: string): (b: bool)
    ensures term == "" ==> !b
  {
    EmptyTermKeepsAll(BinLocations);
    |FilterLocations(BinLocations, term)| == 0
  }

  lemma NoResultsIffNoMatch(term: string)
    ensures ShowsNoResults(term) <==> forall i :: 0 <= i < |BinLocations| ==> !Matches(BinLocations[i], term)
  {
    if !ShowsNoResults(term) {
      var r := FilterLocations(BinLocations, term);
      assert Matches(r[0], term) && r[0] in BinLocations;
    }
  }

  /** The bin type of each location, in catalogue order. */
  function BinTypes(locs: seq<BinLocation>): (all: seq<string>)
    ensures |all| == |locs|
    ensures forall i :: 0 <= i < |locs| ==> all[i] == locs[i].binType
  {
    seq(|locs|, i requires 0 <= i < |locs| => locs[i].binType)
  }

  /** The legend: each bin type once, in order of first appearance. */
  function LegendTypes(locs: seq<BinLocation>): (types: seq<string>)
    ensures Js.NoDup(types)
    ensures forall i :: 0 <= i < |locs| ==> locs[i].binType in types
    ensures forall i :: 0 <= i < |types| ==> exists j :: 0 <= j < |locs| && locs[j].binType == types[i]
    ensures forall i, j :: 0 <= i < j < |types| ==>
              types[i] in BinTypes(locs) && types[j] in BinTypes(locs) &&
              Js.IndexOf(BinTypes(locs), types[i]) < Js.IndexOf(BinTypes(locs), types[j])
  {
    var all := BinTypes(locs);
    var types := Js.UniqueInOrder(all);
    Js.UniqueInOrderSpec(all);
    assert forall i :: 0 <= i < |types| ==> exists j :: 0 <= j < |locs| && locs[j].binType == types[i] by {
      forall i | 0 <= i < |types| ensures exists j :: 0 <= j < |locs| && locs[j].binType == types[i] {
        var j := Js.IndexOf(all, types[i]);
        assert locs[j].binType == types[i];
      }
    }
    assert forall i :: 0 <= i < |locs| ==> locs[i].binType in types by {
      forall i | 0 <= i < |locs| ensures locs[i].binType in types {
        assert all[i] == locs[i].binType;
      }
    }
    types
  }

  /** The legend of the fixed list: four types, "Mixed Recycling" once. */
  lemma CatalogueLegend()
    ensures LegendTypes(BinLocations) == ["Mixed Recycling", "Composting", "E-Waste", "Hazardous Waste"]
  {
    assert BinTypes(BinLocations) == CatalogueTypes;
    UniqueCatalogueTypes();
  }

  const CatalogueTypes: seq<string> := ["Mixed Recycling", "Composting", "E-Waste", "Mixed Recycling", "Hazardous Waste"]

  lemma UniqueCatalogueTypes()
    ensures Js.UniqueInOrder(CatalogueTypes) == ["Mixed Recycling", "Composting", "E-Waste", "Hazardous Waste"]
  {
    var mr, co, ew, hw := "Mixed Recycling", "Composting", "E-Waste", "Hazardous Waste";
    assert mr[0] != co[0] && mr[0] != ew[0] && co[0] != ew[0];
    assert hw[0] != mr[0] && hw[0] != co[0] && hw[0] != ew[0];
    assert CatalogueTypes[..1] == [mr] && CatalogueTypes[..2] == [mr, co];
    assert CatalogueTypes[..3] == [mr, co, ew] && CatalogueTypes[..4] == [mr, co, ew, mr];
    var one: seq<string> := [mr];
    assert one[..0] == [];
    assert Js.UniqueInOrder(one) == [mr];
    assert Js.UniqueInOrder([mr, co]) == [mr, co] by {
      assert [mr, co][..1] == [mr];
    }
    assert Js.UniqueInOrder([mr, co, ew]) == [mr, co, ew] by {
      assert [mr, co, ew][..2] == [mr, co];
    }
    assert Js.UniqueInOrder([mr, co, ew, mr]) == [mr, co, ew] by {
      assert [mr, co, ew, mr][..3] == [mr, co, ew];
    }
    assert CatalogueTypes[..4] == [mr, co, ew, mr];
  }
}
