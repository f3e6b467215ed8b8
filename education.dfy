/**
  The education hub: the fixed module catalogue, the list of completed module
  ids (the page's one state cell), the start handler that appends an id once,
  and the points total and completed count derived from that list.
*/
module Education {
  import opened Wrappers
  import Js

  datatype LearningModule = LearningModule(
    id: int, title: string, duration: string, points: int, difficulty: string,
    completed: bool, lessons: int, kind: string)

  const Modules: seq<LearningModule> := [
    LearningModule(1, "Recycling Basics", "10 min", 25, "Beginner", true, 5, "interactive"),
    LearningModule(2, "Plastic Types & Recycling", "15 min", 35, "Intermediate", false, 7, "video"),
    LearningModule(3, "Campus Waste Streams", "12 min", 30, "Beginner", true, 6, "interactive"),
    LearningModule(4, "Composting Fundamentals", "20 min", 40, "Intermediate", false, 8, "mixed"),
    LearningModule(5, "E-Waste Management", "18 min", 45, "Advanced", false, 9, "video"),
    LearningModule(6, "Circular Economy Principles", "25 min", 50, "Advanced", false, 10, "interactive")
  ]

  const InitialCompleted: seq<int> := [1, 3]

  /** `modules.find(m => m.id === id)`: the first module with that id. */
  function FindModule(ms: seq<LearningModule>, id: int): (r: Option<LearningModule>)
    ensures r.Some? ==> r.value in ms && r.value.id == id
    ensures r.None? <==> forall i :: 0 <= i < |ms| ==> ms[i].id != id
    decreases |ms|
  {
    if ms == [] then None else if ms[0].id == id then Some(ms[0]) else FindModule(ms[1..], id)
  }

  /** `module?.points || 0`: an id missing from the catalogue is worth nothing. */
  function PointsOf(ms: seq<LearningModule>, id: int): (p: int)
    ensures FindModule(ms, id).None? ==> p == 0
    ensures PointsNonNegative(ms) ==> p >= 0
  {
    match FindModule(ms, id)
    case Some(m) => m.points
    case None => 0
  }

  /** The `reduce` over the completed ids, left to right from 0. */
  function TotalPoints(ms: seq<LearningModule>, ids: seq<int>): (t: int)
    ensures PointsNonNegative(ms) ==> t >= 0
    decreases |ids|
  {
    if ids == [] then 0 else TotalPoints(ms, ids[..|ids| - 1]) + PointsOf(ms, ids[|ids| - 1])
  }

  /** The state after `handleStartModule`: the id appended unless already there. */
  function StartModule(ids: seq<int>, id: int): (r: seq<int>)
    ensures ids <= r && id in r
    ensures id in ids ==> r == ids
    ensures id !in ids ==> |r| == |ids| + 1 && r[|ids|] == id
  {
    if id in ids then ids else ids + [id]
  }

  /** The count shown as "Modules Completed", the numerator of the completion rate. */
  function CompletedCount(ids: seq<int>): (n: nat)
    ensures Js.NoDup(ids) ==> n == |set i | 0 <= i < |ids| :: ids[i]|
  {
    DistinctCount(ids);
    |ids|
  }

  /** Each entry of a duplicate-free list is a different module. */
  lemma DistinctCount(ids: seq<int>)
    ensures Js.NoDup(ids) ==> |set i | 0 <= i < |ids| :: ids[i]| == |ids|
  {
    if Js.NoDup(ids) {
      DistinctCardinality(ids);
    }
  }

  /** The sum of the catalogue's points over the modules whose id is in `ids`. */
  function CatalogueSum(ms: seq<LearningModule>, ids: seq<int>): int
    decreases |ms|
  {
    if ms == [] then 0
    else (if ms[0].id in ids then ms[0].points else 0) + CatalogueSum(ms[1..], ids)
  }

  ghost predicate DistinctIds(ms: seq<LearningModule>) {
    forall i, j :: 0 <= i < j < |ms| ==> ms[i].id != ms[j].id
  }

  ghost predicate PointsNonNegative(ms: seq<LearningModule>) {
    forall i :: 0 <= i < |ms| ==> ms[i].points >= 0
  }

  // ---------------------------------------------------------------------------
  // Properties
  // ---------------------------------------------------------------------------

  /** Appending only absent ids keeps the list free of duplicates. */
  lemma StartModuleKeepsNoDup(ids: seq<int>, id: int)
    requires Js.NoDup(ids)
    ensures Js.NoDup(StartModule(ids, id))
  {
  }

  /** Starting a module twice is the same as starting it once. */
  lemma StartModuleIdempotent(ids: seq<int>, id: int)
    ensures StartModule(StartModule(ids, id), id) == StartModule(ids, id)
  {
  }

  /** The total grows by exactly the new module's points, or not at all. */
  lemma {:induction false} TotalAfterStart(ms: seq<LearningModule>, ids: seq<int>, id: int)
    ensures TotalPoints(ms, StartModule(ids, id))
         == TotalPoints(ms, ids) + (if id in ids then 0 else PointsOf(ms, id))
  {
    if id !in ids {
      assert (ids + [id])[..|ids|] == ids;
    }
  }

  /** With no negative points in the catalogue, starting a module never lowers the total. */
  lemma TotalNeverDecreases(ms: seq<LearningModule>, ids: seq<int>, id: int)
    requires PointsNonNegative(ms)
    ensures TotalPoints(ms, StartModule(ids, id)) >= TotalPoints(ms, ids)
  {
    TotalAfterStart(ms, ids, id);
    if FindModule(ms, id).Some? {
      var m := FindModule(ms, id).value;
      var i :| 0 <= i < |ms| && ms[i] == m;
    }
  }

  /** Ids that are not in the catalogue add nothing to the total. */
  lemma UnknownIdsAddNothing(ms: seq<LearningModule>, ids: seq<int>, id: int)
    requires forall i :: 0 <= i < |ms| ==> ms[i].id != id
    ensures TotalPoints(ms, ids + [id]) == TotalPoints(ms, ids)
  {
    assert (ids + [id])[..|ids|] == ids;
  }

  lemma {:induction false} CatalogueSumAdd(ms: seq<LearningModule>, ids: seq<int>, x: int)
    requires DistinctIds(ms) && x !in ids
    ensures CatalogueSum(ms, ids + [x]) == CatalogueSum(ms, ids) + PointsOf(ms, x)
    decreases |ms|
  {
    if ms != [] {
      assert DistinctIds(ms[1..]) by {
        forall i, j | 0 <= i < j < |ms[1..]| ensures ms[1..][i].id != ms[1..][j].id {
          assert ms[1..][i] == ms[i + 1] && ms[1..][j] == ms[j + 1];
        }
      }
      CatalogueSumAdd(ms[1..], ids, x);
      if ms[0].id == x {
        assert FindModule(ms[1..], x).None? by {
          forall i | 0 <= i < |ms[1..]| ensures ms[1..][i].id != x {
            assert ms[1..][i] == ms[i + 1];
          }
        }
      }
    }
  }

  /**
    The reduce agrees with the catalogue-side sum: for a duplicate-free list
    of ids and a catalogue with distinct ids, the total is the sum of the
    points of the catalogue modules that are completed.
  */
  lemma {:induction false} TotalIsCatalogueSum(ms: seq<LearningModule>, ids: seq<int>)
    requires DistinctIds(ms) && Js.NoDup(ids)
    ensures TotalPoints(ms, ids) == CatalogueSum(ms, ids)
    decreases |ids|
  {
    if ids == [] {
      CatalogueSumEmpty(ms);
    } else {
      var init := ids[..|ids| - 1];
      var x := ids[|ids| - 1];
      assert ids == init + [x];
      TotalIsCatalogueSum(ms, init);
      CatalogueSumAdd(ms, init, x);
    }
  }

  lemma {:induction false} CatalogueSumEmpty(ms: seq<LearningModule>)
    ensures CatalogueSum(ms, []) == 0
    decreases |ms|
  {
    if ms != [] {
      CatalogueSumEmpty(ms[1..]);
    }
  }

  /** The page opens with modules 1 and 3 done: 25 + 30 = 55 points. */
  lemma InitialTotal()
    ensures TotalPoints(Modules, InitialCompleted) == 55
    ensures CompletedCount(InitialCompleted) == 2
  {
    TotalOfPair(Modules, 1, 3);
    assert PointsOf(Modules, 1) == 25 && PointsOf(Modules, 3) == 30;
  }

  lemma TotalOfPair(ms: seq<LearningModule>, a: int, b: int)
    ensures TotalPoints(ms, [a, b]) == PointsOf(ms, a) + PointsOf(ms, b)
  {
    var one: seq<int> := [a];
    assert one[..0] == [];
    assert TotalPoints(ms, one) == PointsOf(ms, a);
    assert [a, b][..1] == one;
  }

  /** Every id in `ids` names a module of `ms`. */
  ghost predicate CatalogueIds(ms: seq<LearningModule>, ids: seq<int>) {
    forall i :: 0 <= i < |ids| ==> FindModule(ms, ids[i]).Some?
  }

  /** Starting a catalogue module keeps the list made of catalogue ids. */
  lemma StartModuleKeepsCatalogueIds(ms: seq<LearningModule>, ids: seq<int>, id: int)
    requires CatalogueIds(ms, ids) && FindModule(ms, id).Some?
    ensures CatalogueIds(ms, StartModule(ids, id))
  {
    if id !in ids {
      assert forall i :: 0 <= i < |ids| ==> (ids + [id])[i] == ids[i];
    }
  }

  /** The initial list `[1, 3]` names catalogue modules. */
  lemma InitialCatalogueIds()
    ensures CatalogueIds(Modules, InitialCompleted)
  {
    FoundModule(Modules, 1, 0);
    FoundModule(Modules, 3, 2);
    PairCatalogueIds(Modules, 1, 3);
  }

  lemma FoundModule(ms: seq<LearningModule>, id: int, k: nat)
    requires k < |ms| && ms[k].id == id
    ensures FindModule(ms, id).Some?
  {
  }

  lemma PairCatalogueIds(ms: seq<LearningModule>, a: int, b: int)
    requires FindModule(ms, a).Some? && FindModule(ms, b).Some?
    ensures CatalogueIds(ms, [a, b])
  {
  }

  /** A duplicate-free list of catalogue ids is never longer than the catalogue. */
  lemma {:induction false} CompletedCountBound(ms: seq<LearningModule>, ids: seq<int>)
    requires Js.NoDup(ids)
    requires CatalogueIds(ms, ids)
    ensures CompletedCount(ids) <= |ms|
  {
    var catalogueIds := set i | 0 <= i < |ms| :: ms[i].id;
    var completed := set i | 0 <= i < |ids| :: ids[i];
    assert completed <= catalogueIds by {
      forall k | 0 <= k < |ids| ensures ids[k] in catalogueIds {
        var m := FindModule(ms, ids[k]).value;
        var i :| 0 <= i < |ms| && ms[i] == m;
      }
    }
    DistinctCardinality(ids);
    ImageCardinality(ms);
    SubsetCardinality(completed, catalogueIds);
  }

  lemma SubsetCardinality(a: set<int>, b: set<int>)
    requires a <= b
    ensures |a| <= |b|
  {
    assert b == a + (b - a);
    assert a * (b - a) == {};
  }

  lemma {:induction false} DistinctCardinality(ids: seq<int>)
    requires Js.NoDup(ids)
    ensures |set i | 0 <= i < |ids| :: ids[i]| == |ids|
    decreases |ids|
  {
    if ids != [] {
      var init := ids[..|ids| - 1];
      DistinctCardinality(init);
      assert (set i | 0 <= i < |ids| :: ids[i]) == (set i | 0 <= i < |init| :: init[i]) + {ids[|ids| - 1]};
      assert ids[|ids| - 1] !in (set i | 0 <= i < |init| :: init[i]);
    }
  }

  lemma {:induction false} ImageCardinality(ms: seq<LearningModule>)
    ensures |set i | 0 <= i < |ms| :: ms[i].id| <= |ms|
    decreases |ms|
  {
    if ms != [] {
      var init := ms[..|ms| - 1];
      ImageCardinality(init);
      assert (set i | 0 <= i < |ms| :: ms[i].id) == (set i | 0 <= i < |init| :: init[i].id) + {ms[|ms| - 1].id};
    }
  }

  /** The catalogue's points are all non-negative. */
  lemma CataloguePointsNonNegative()
    ensures PointsNonNegative(Modules)
  {
  }

  /** What the start handler keeps, for any catalogue. */
  lemma StartModuleStep(ms: seq<LearningModule>, ids: seq<int>, id: int)
    requires PointsNonNegative(ms) && Js.NoDup(ids) && CatalogueIds(ms, ids) && FindModule(ms, id).Some?
    ensures Js.NoDup(StartModule(ids, id)) && CatalogueIds(ms, StartModule(ids, id))
    ensures TotalPoints(ms, StartModule(ids, id)) >= TotalPoints(ms, ids)
    ensures CompletedCount(StartModule(ids, id)) <= |ms|
  {
    StartModuleKeepsNoDup(ids, id);
    StartModuleKeepsCatalogueIds(ms, ids, id);
    TotalNeverDecreases(ms, ids, id);
    CompletedCountBound(ms, StartModule(ids, id));
  }

  // ---------------------------------------------------------------------------
  // The page state
  // ---------------------------------------------------------------------------

  class EducationHub {
    var completedModules: seq<int>
    const modules: seq<LearningModule>

    /**
      The list is duplicate-free and holds catalogue ids only: the page calls
      the handler with `module.id` of a rendered catalogue module.
    */
    ghost predicate Valid()
      reads this
    {
      && modules == Modules
      && Js.NoDup(completedModules)
      && CatalogueIds(modules, completedModules)
    }

    constructor ()
      ensures Valid() && completedModules == InitialCompleted
      ensures CompletedCount(completedModules) <= |modules|
    {
      completedModules := InitialCompleted;
      modules := Modules;
      InitialCatalogueIds();
      CompletedCountBound(Modules, InitialCompleted);
    }

    /** `handleStartModule`: append the id when it is not in the list yet. */
    method HandleStartModule(moduleId: int)
      requires Valid() && FindModule(modules, moduleId).Some?
      modifies this
      ensures Valid()
      ensures completedModules == StartModule(old(completedModules), moduleId)
      ensures TotalPoints(modules, completedModules) >= old(TotalPoints(modules, completedModules))
      ensures CompletedCount(completedModules) <= |modules|
    {
      CataloguePointsNonNegative();
      StartModuleStep(modules, completedModules, moduleId);
      if moduleId !in completedModules {
        completedModules := completedModules + [moduleId];
      }
    }

    /** The "Points Earned" figure. */
    function Points(): (p: int)
      reads this
      requires Valid()
      ensures p == CatalogueSum(Modules, completedModules)
    {
      TotalIsCatalogueSum(modules, completedModules);
      TotalPoints(modules, completedModules)
    }
  }
}
