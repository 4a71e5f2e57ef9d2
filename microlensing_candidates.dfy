/** The microlensing filter: both LIA band classes say "ML" and the detection history is short. */
module FilterMicrolensingCandidates {

  /** The fields of one alert that the microlensing filter reads. */
  datatype MulensAlert = MulensAlert(ndethist: int, mulensClass1: string, mulensClass2: string)

  /** `medium_ndethist`: a strict bound on the number of prior detections. */
  const MaxNdethist: int := 100

  /** The verdict for one alert. */
  predicate IsMicrolensing(a: MulensAlert) {
    a.mulensClass1 == "ML" && a.mulensClass2 == "ML" && a.ndethist < MaxNdethist
  }

  /** `microlensing_candidates_`: one verdict per alert, in order. */
  function MicrolensingCandidates(alerts: seq<MulensAlert>): (r: seq<bool>)
    ensures |r| == |alerts|
    ensures forall i :: 0 <= i < |alerts| ==>
      (r[i] <==> alerts[i].mulensClass1 == "ML" && alerts[i].mulensClass2 == "ML" && alerts[i].ndethist < 100)
  {
    seq(|alerts|, i requires 0 <= i < |alerts| => IsMicrolensing(alerts[i]))
  }

  /** The Spark wrapper `microlensing_candidates`, which delegates to `microlensing_candidates_`. */
  function MicrolensingCandidatesUdf(alerts: seq<MulensAlert>): (r: seq<bool>)
    ensures r == MicrolensingCandidates(alerts)
  {
    MicrolensingCandidates(alerts)
  }

  /** The alert with its g-band and r-band classes exchanged. */
  function SwapBands(a: MulensAlert): MulensAlert {
    MulensAlert(a.ndethist, a.mulensClass2, a.mulensClass1)
  }

  /** Exchanging the two band class columns leaves every verdict unchanged. */
  lemma SwapBandsPreservesVerdicts(alerts: seq<MulensAlert>)
    ensures MicrolensingCandidates(seq(|alerts|, i requires 0 <= i < |alerts| => SwapBands(alerts[i])))
      == MicrolensingCandidates(alerts)
  {
  }

  /** The verdict at position `i` depends only on the alert at position `i`. */
  lemma VerdictIsElementwise(alerts: seq<MulensAlert>, others: seq<MulensAlert>, i: int, j: int)
    requires 0 <= i < |alerts| && 0 <= j < |others| && alerts[i] == others[j]
    ensures MicrolensingCandidates(alerts)[i] == MicrolensingCandidates(others)[j]
  {
  }

  /** The bound is strict: 99 prior detections pass, 100 do not. */
  lemma RejectsHundredDetections()
    ensures IsMicrolensing(MulensAlert(99, "ML", "ML"))
    ensures !IsMicrolensing(MulensAlert(100, "ML", "ML"))
  {
  }
}
