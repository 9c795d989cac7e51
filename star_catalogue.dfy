/**
 * The star catalogue: the list of stars, the asterisms, and for each asterism the
 * positions of its stars in the list; plus the builder the loaders fill.
 */
module StarCatalogues {
  import opened Wrappers
  import opened CelestialObjects

  /** The position of the last occurrence of `x` in `xs` (by identity), or -1. */
  function LastIndexOf(xs: seq<CelestialObject>, x: CelestialObject): (r: int)
    ensures -1 <= r < |xs|
    ensures r == -1 <==> x !in xs
    ensures r >= 0 ==> xs[r] == x && forall j :: r < j < |xs| ==> xs[j] != x
  {
    if |xs| == 0 then -1
    else if xs[|xs| - 1] == x then |xs| - 1
    else LastIndexOf(xs[..|xs| - 1], x)
  }

  /** The position in `stars` of each star of `members`, in the members' order. */
  function IndicesIn(stars: seq<CelestialObject>, members: seq<CelestialObject>): (r: seq<int>)
    requires forall s <- members :: s in stars
    ensures |r| == |members|
    ensures forall k :: 0 <= k < |r| ==> 0 <= r[k] < |stars| && stars[r[k]] == members[k]
  {
    seq(|members|, k requires 0 <= k < |members| => LastIndexOf(stars, members[k]))
  }

  /** Whether every star of every asterism appears, by identity, in `stars`. */
  predicate AllMembersListed(stars: seq<CelestialObject>, asterisms: seq<Asterism>) {
    forall a <- asterisms :: forall s <- a.starList :: s in stars
  }

  /**
   * The `starToIndex` map of the constructor: every listed star is mapped to its index;
   * a star listed several times ends up at its last occurrence.
   */
  method IndexStars(stars: seq<CelestialObject>) returns (starToIndex: map<CelestialObject, int>)
    ensures forall s :: s in starToIndex <==> s in stars
    ensures forall s <- starToIndex.Keys :: starToIndex[s] == LastIndexOf(stars, s)
  {
    starToIndex := map[];
    var i := 0;
    while i < |stars|
      invariant 0 <= i <= |stars|
      invariant forall s :: s in starToIndex <==> s in stars[..i]
      invariant forall s <- starToIndex.Keys :: starToIndex[s] == LastIndexOf(stars[..i], s)
    {
      assert stars[..i + 1][..i] == stars[..i];
      starToIndex := starToIndex[stars[i] := i];
      i := i + 1;
    }
    assert stars[..i] == stars;
  }

  /**
   * The index lists of the constructor: for each asterism, in order, the positions of its
   * stars; an asterism star missing from the list is an IllegalArgumentException.
   */
  method AsterismIndexMap(stars: seq<CelestialObject>, asterisms: seq<Asterism>)
    returns (r: Result<map<Asterism, seq<int>>>)
    ensures r.Success? <==> AllMembersListed(stars, asterisms)
    ensures r.Failure? ==> r.error == IllegalArgument
    ensures r.Success? ==> r.value.Keys == set a <- asterisms
    ensures r.Success? ==> forall a <- r.value.Keys :: r.value[a] == IndicesIn(stars, a.starList)
  {
    var starToIndex := IndexStars(stars);
    var asterismListMap: map<Asterism, seq<int>> := map[];
    var i := 0;
    while i < |asterisms|
      invariant 0 <= i <= |asterisms|
      invariant AllMembersListed(stars, asterisms[..i])
      invariant asterismListMap.Keys == set a <- asterisms[..i]
      invariant forall a <- asterismListMap.Keys ::
                  (forall s <- a.starList :: s in stars) && asterismListMap[a] == IndicesIn(stars, a.starList)
    {
      var asterism := asterisms[i];
      var indexes: seq<int> := [];
      var j := 0;
      while j < |asterism.starList|
        invariant 0 <= j <= |asterism.starList|
        invariant forall s <- asterism.starList[..j] :: s in stars
        invariant indexes == IndicesIn(stars, asterism.starList[..j])
      {
        var star := asterism.starList[j];
        if star !in starToIndex {
          assert !AllMembersListed(stars, asterisms);
          return Failure(IllegalArgument);
        }
        indexes := indexes + [starToIndex[star]];
        j := j + 1;
      }
      assert asterism.starList[..j] == asterism.starList;
      asterismListMap := asterismListMap[asterism := indexes];
      assert asterisms[..i + 1] == asterisms[..i] + [asterism];
      i := i + 1;
    }
    assert asterisms[..i] == asterisms;
    return Success(asterismListMap);
  }

  /** What a built catalogue guarantees: every index list points at its asterism's stars. */
  predicate IndexedConsistently(starList: seq<CelestialObject>, indexMap: map<Asterism, seq<int>>) {
    forall a <- indexMap.Keys ::
      && |indexMap[a]| == |a.starList|
      && forall k :: 0 <= k < |indexMap[a]| ==>
           0 <= indexMap[a][k] < |starList| && starList[indexMap[a][k]] == a.starList[k]
  }

  /** An index map built by `AsterismIndexMap` is consistent with the star list. */
  lemma IndexMapConsistent(stars: seq<CelestialObject>, asterisms: seq<Asterism>, m: map<Asterism, seq<int>>)
    requires AllMembersListed(stars, asterisms)
    requires m.Keys == set a <- asterisms
    requires forall a <- m.Keys :: m[a] == IndicesIn(stars, a.starList)
    ensures IndexedConsistently(stars, m)
  {
  }

  class StarCatalogue {
    const starList: seq<CelestialObject>
    const asterismListMap: map<Asterism, seq<int>>

    constructor (stars: seq<CelestialObject>, indexMap: map<Asterism, seq<int>>)
      ensures starList == stars && asterismListMap == indexMap
    {
      starList := stars;
      asterismListMap := indexMap;
    }

    predicate Valid() { IndexedConsistently(starList, asterismListMap) }

    function Stars(): (r: seq<CelestialObject>)
      ensures r == starList
    {
      starList
    }

    /** The catalogue's asterisms: the keys of the index map. */
    function Asterisms(): (r: set<Asterism>)
      ensures r == asterismListMap.Keys
    {
      asterismListMap.Keys
    }

    /**
     * `asterismIndices`: the positions of the asterism's stars in `stars()`; an asterism
     * the catalogue does not hold is an IllegalArgumentException.
     */
    function AsterismIndices(asterism: Asterism): (r: Result<seq<int>>)
      ensures r.Success? <==> asterism in Asterisms()
      ensures r.Failure? ==> r.error == IllegalArgument
      ensures r.Success? && Valid() ==>
                |r.value| == |asterism.starList|
                && forall k :: 0 <= k < |r.value| ==> 0 <= r.value[k] < |starList| && starList[r.value[k]] == asterism.starList[k]
    {
      if asterism in asterismListMap then Success(asterismListMap[asterism]) else Failure(IllegalArgument)
    }
  }

  /**
   * `new StarCatalogue(stars, asterisms)`: keeps the star list, and indexes every asterism;
   * fails when an asterism star is not in the list.
   */
  method NewStarCatalogue(stars: seq<CelestialObject>, asterisms: seq<Asterism>) returns (r: Result<StarCatalogue>)
    ensures r.Success? <==> AllMembersListed(stars, asterisms)
    ensures r.Failure? ==> r.error == IllegalArgument
    ensures r.Success? ==> fresh(r.value) && r.value.Valid() && r.value.Stars() == stars
                           && r.value.Asterisms() == (set a <- asterisms)
                           && forall a <- r.value.Asterisms() :: r.value.AsterismIndices(a) == Success(IndicesIn(stars, a.starList))
  {
    var m := AsterismIndexMap(stars, asterisms);
    if m.Failure? {
      return Failure(m.error);
    }
    IndexMapConsistent(stars, asterisms, m.value);
    var catalogue := new StarCatalogue(stars, m.value);
    return Success(catalogue);
  }

  /** The mutable builder the loaders append to. */
  class Builder {
    var stars: seq<CelestialObject>
    var asterisms: seq<Asterism>

    /** Only stars are ever added to the star list. */
    predicate Valid()
      reads this
    {
      forall s <- stars :: s.IsStar()
    }

    constructor ()
      ensures stars == [] && asterisms == [] && Valid()
    {
      stars := [];
      asterisms := [];
    }

    /** `addStar`: appends at the end and returns the same builder. */
    method AddStar(star: CelestialObject) returns (b: Builder)
      requires Valid() && star.IsStar()
      modifies this
      ensures Valid() && b == this
      ensures stars == old(stars) + [star] && asterisms == old(asterisms)
    {
      stars := stars + [star];
      return this;
    }

    function Stars(): (r: seq<CelestialObject>)
      reads this
      ensures r == stars
    {
      stars
    }

    /** `addAsterism`: appends at the end and returns the same builder. */
    method AddAsterism(asterism: Asterism) returns (b: Builder)
      requires Valid()
      modifies this
      ensures Valid() && b == this
      ensures asterisms == old(asterisms) + [asterism] && stars == old(stars)
    {
      asterisms := asterisms + [asterism];
      return this;
    }

    function Asterisms(): (r: seq<Asterism>)
      reads this
      ensures r == asterisms
    {
      asterisms
    }

    /** `build`: the catalogue of everything added so far, in insertion order. */
    method Build() returns (r: Result<StarCatalogue>)
      ensures r.Success? <==> AllMembersListed(stars, asterisms)
      ensures r.Failure? ==> r.error == IllegalArgument
      ensures r.Success? ==> fresh(r.value) && r.value.Valid() && r.value.Stars() == stars
                             && r.value.Asterisms() == (set a <- asterisms)
    {
      r := NewStarCatalogue(stars, asterisms);
    }
  }
}
