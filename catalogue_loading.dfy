/**
 * `StarCatalogue.Builder.loadFrom`: hands the builder to one of the two loaders. The
 * text of the stream is given as its lines; the loaders are the two enum singletons.
 */
module CatalogueLoading {
  import opened Wrappers
  import opened CelestialObjects
  import opened StarCatalogues
  import AsterismLoading
  import HygLoading
  import LineLoads

  /** The implementations of `StarCatalogue.Loader`. */
  datatype Loader = AsterismLoaderInstance | HygDatabaseLoaderInstance

  /** `loadFrom`: runs the loader on the builder and returns the same builder. */
  method LoadFrom(lines: seq<string>, loader: Loader, parseDouble: string -> Option<real>, builder: Builder)
    returns (b: Builder, r: Outcome)
    requires builder.Valid()
    modifies builder
    ensures b == builder && builder.Valid()
    ensures loader.AsterismLoaderInstance? ==>
              && builder.stars == old(builder.stars)
              && |builder.asterisms| >= |old(builder.asterisms)|
              && builder.asterisms[..|old(builder.asterisms)|] == old(builder.asterisms)
              && (AsterismLoading.Described(builder.asterisms[|old(builder.asterisms)|..]), r)
                 == LineLoads.LoadOf(lines, AsterismLoading.ReadAsterism(AsterismLoading.HipIndex(old(builder.stars))))
    ensures loader.HygDatabaseLoaderInstance? ==>
              && builder.asterisms == old(builder.asterisms)
              && |builder.stars| >= |old(builder.stars)|
              && builder.stars[..|old(builder.stars)|] == old(builder.stars)
              && (HygLoading.DataOf(builder.stars[|old(builder.stars)|..]), r)
                 == LineLoads.LoadOf(HygLoading.Records(lines), HygLoading.ReadStar(parseDouble))
  {
    match loader {
      case AsterismLoaderInstance =>
        r := AsterismLoading.Load(lines, builder);
      case HygDatabaseLoaderInstance =>
        r := HygLoading.Load(lines, parseDouble, builder);
    }
    b := builder;
  }

  /** The `k`-th asterism the load describes only names stars of the builder. */
  lemma LoadedAsterismListed(stars: seq<CelestialObject>, lines: seq<string>, k: int)
    requires forall s <- stars :: s.IsStar()
    requires 0 <= k < |LineLoads.LoadOf(lines, AsterismLoading.ReadAsterism(AsterismLoading.HipIndex(stars))).0|
    ensures forall s <- LineLoads.LoadOf(lines, AsterismLoading.ReadAsterism(AsterismLoading.HipIndex(stars))).0[k].0 :: s in stars
  {
    LineLoads.LoadOfAt(lines, AsterismLoading.ReadAsterism(AsterismLoading.HipIndex(stars)), k);
    AsterismLoading.LoadedMembersListed(stars, lines[k]);
  }

  /** An asterism the load appended only names stars of the builder. */
  lemma AppendedAsterismListed(stars: seq<CelestialObject>, appended: seq<Asterism>, lines: seq<string>, k: int)
    requires forall s <- stars :: s.IsStar()
    requires AsterismLoading.Described(appended) == LineLoads.LoadOf(lines, AsterismLoading.ReadAsterism(AsterismLoading.HipIndex(stars))).0
    requires 0 <= k < |appended|
    ensures forall s <- appended[k].starList :: s in stars
  {
    assert AsterismLoading.Described(appended)[k].0 == appended[k].starList;
    LoadedAsterismListed(stars, lines, k);
  }

  /**
   * Asterisms loaded against the builder's stars only name those stars: if the builder
   * could be built before the asterism file was loaded, it can be built after.
   */
  lemma BuildAfterAsterismLoad(stars: seq<CelestialObject>, before: seq<Asterism>,
                               after: seq<Asterism>, lines: seq<string>)
    requires forall s <- stars :: s.IsStar()
    requires AllMembersListed(stars, before)
    requires |after| >= |before| && after[..|before|] == before
    requires AsterismLoading.Described(after[|before|..]) == LineLoads.LoadOf(lines, AsterismLoading.ReadAsterism(AsterismLoading.HipIndex(stars))).0
    ensures AllMembersListed(stars, after)
  {
    forall i | 0 <= i < |after|
      ensures forall s <- after[i].starList :: s in stars
    {
      if i < |before| {
        assert after[..|before|][i] == after[i];
      } else {
        assert after[|before|..][i - |before|] == after[i];
        AppendedAsterismListed(stars, after[|before|..], lines, i - |before|);
      }
    }
  }
}
