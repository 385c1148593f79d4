/** The region code validator and the region list it checks against. */
module RegionUtils {

  /** `REGIONS` of the device constants. */
  const Regions: seq<string> := [
    "ES", "UK", "US", "NL", "BE", "CA", "AU", "NZ", "IT", "AT",
    "KR", "PL", "IE", "UA", "DE", "FR", "JP", "NO", "CH", "SE"
  ]

  /** `RegionConstraint.validate`: `REGIONS.includes(region)`, exact element equality. */
  predicate ValidRegion(region: string) {
    region in Regions
  }

  /** The list holds twenty distinct codes. */
  lemma RegionsDistinct()
    ensures |Regions| == 20
    ensures forall i, j :: 0 <= i < j < |Regions| ==> Regions[i] != Regions[j]
  {
  }

  /** Every accepted code is two upper-case letters. */
  lemma ValidRegionShape(region: string)
    ensures ValidRegion(region) ==> |region| == 2 && forall i :: 0 <= i < |region| ==> 'A' <= region[i] <= 'Z'
  {
  }

  /** Membership is exact: no case folding and no prefix match. */
  lemma RegionVectors()
    ensures ValidRegion("ES") && ValidRegion("UK")
    ensures !ValidRegion("es") && !ValidRegion("ESP") && !ValidRegion("")
  {
    assert Regions[0] == "ES" && Regions[1] == "UK";
    RejectsLowerCase();
    ValidRegionShape("ESP");
    ValidRegionShape("");
  }

  lemma RejectsLowerCase()
    ensures !ValidRegion("es")
  {
    ValidRegionShape("es");
  }
}
