/** The early supernova Ia filter: classifier scores, cross-match label, image quality and a short history. */
module FilterEarlySnCandidates {
  import opened AlertFields
  import opened CdsLabels

  /** The fields of one alert that the early supernova filter reads. */
  datatype EarlySnAlert = EarlySnAlert(
    cdsxmatch: string,
    snnSniaVsNonia: Num,
    snnSnVsAll: Num,
    rfSniaVsNonia: Num,
    ndethist: int,
    drb: Num,
    classtar: Num)

  /** `f_sn`: a SuperNNova score, an accepted label and a good image. */
  predicate IsSn(a: EarlySnAlert) {
    (Gt(a.snnSniaVsNonia, 0.5) || Gt(a.snnSnVsAll, 0.5))
    && a.cdsxmatch in SnKeep()
    && Gt(a.drb, 0.5)
    && Gt(a.classtar, 0.4)
  }

  /** `f_sn_early`: `f_sn` with at most 20 prior detections and the random-forest score. */
  predicate IsEarlySn(a: EarlySnAlert) {
    a.ndethist <= 20 && Gt(a.rfSniaVsNonia, 0.5) && IsSn(a)
  }

  /** `early_sn_candidates_`: one verdict per alert, in order. */
  function EarlySnCandidates(alerts: seq<EarlySnAlert>): (r: seq<bool>)
    ensures |r| == |alerts|
    ensures forall i :: 0 <= i < |alerts| && r[i] ==>
      Gt(alerts[i].drb, 0.5) && Gt(alerts[i].classtar, 0.4)
      && (Gt(alerts[i].snnSniaVsNonia, 0.5) || Gt(alerts[i].snnSnVsAll, 0.5))
      && Gt(alerts[i].rfSniaVsNonia, 0.5) && alerts[i].ndethist <= 20
      && alerts[i].cdsxmatch in SnKeep()
    ensures forall i :: 0 <= i < |alerts| && r[i] ==> IsSn(alerts[i])
    ensures forall i :: 0 <= i < |alerts| ==>
      (alerts[i].ndethist <= 20 && Gt(alerts[i].rfSniaVsNonia, 0.5) && IsSn(alerts[i]) ==> r[i])
  {
    seq(|alerts|, i requires 0 <= i < |alerts| => IsEarlySn(alerts[i]))
  }

  /** The Spark wrapper `early_sn_candidates`, which delegates to `early_sn_candidates_`. */
  function EarlySnCandidatesUdf(alerts: seq<EarlySnAlert>): (r: seq<bool>)
    ensures r == EarlySnCandidates(alerts)
  {
    EarlySnCandidates(alerts)
  }

  /**
   * Either SuperNNova score alone is enough, a missing (NaN) score is no obstacle
   * when the other one is high, 20 prior detections are still accepted, and so is
   * the label "SN", which the kilonova filters refuse.
   */
  lemma EitherScoreSuffices()
    ensures IsEarlySn(EarlySnAlert("SN", Real(0.9), NaN, Real(0.9), 20, Real(0.9), Real(0.9)))
    ensures IsEarlySn(EarlySnAlert("Candidate_SN*", NaN, Real(0.9), Real(0.9), 20, Real(0.9), Real(0.9)))
    ensures !IsEarlySn(EarlySnAlert("SN", Real(0.9), NaN, Real(0.9), 21, Real(0.9), Real(0.9)))
    ensures !IsEarlySn(EarlySnAlert("SN", Real(0.5), Real(0.5), Real(0.9), 20, Real(0.9), Real(0.9)))
  {
  }
}
