/** The CDS (SIMBAD) cross-match labels that the filters accept. */
module CdsLabels {

  /** The SIMBAD galaxy types, the same sixteen labels in every filter. */
  const SimbadGalaxies: seq<string> := [
    "galaxy", "Galaxy", "EmG", "Seyfert", "Seyfert_1", "Seyfert_2", "BlueCompG", "StarburstG",
    "LSB_G", "HII_G", "High_z_G", "GinPair", "GinGroup", "BClG", "GinCl", "PartofG"
  ]

  /** `keep_cds` of the two kilonova filters. */
  function KnKeep(): (l: seq<string>)
    ensures |l| == 19
    ensures forall x :: x in l <==> x in {"Unknown", "Transient", "Fail"} || x in SimbadGalaxies
  {
    ["Unknown", "Transient", "Fail"] + SimbadGalaxies
  }

  /** `keep_cds` of the early supernova filter: the kilonova list plus the two supernova labels. */
  function SnKeep(): (l: seq<string>)
    ensures |l| == 21
    ensures forall x :: x in l <==> x in KnKeep() || x == "Candidate_SN*" || x == "SN"
  {
    ["Unknown", "Candidate_SN*", "SN", "Transient", "Fail"] + SimbadGalaxies
  }

  /** The supernova labels and a star label are outside the kilonova list; "Star" is in neither list. */
  lemma KnKeepExcludes()
    ensures "SN" !in KnKeep() && "Candidate_SN*" !in KnKeep()
    ensures "Star" !in KnKeep() && "Star" !in SnKeep()
  {
  }
}
