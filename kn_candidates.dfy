/**
 * The classifier-based kilonova filter: a conjunction of thresholds over one
 * alert, then, when a notification endpoint is configured, one report per
 * candidate built from its light-curve history (time since the previous
 * detection, last magnitude and rate in each band).
 */
module FilterKnCandidates {
  import opened AlertFields
  import opened Columns
  import opened CdsLabels

  /** One entry of the history arrays `cjd`, `cfid`, `cmagpsf`, ...; the last entry is the alert itself. */
  datatype HistPoint = HistPoint(jd: Num, phot: Photometry)

  /**
   * The fields of one alert that the kilonova filter reads. `rfscore`, the two
   * SuperNNova scores, `ra` and `dec` are read only for the notification text,
   * which is not modelled; they are kept so that an alert carries every column
   * the filter takes.
   */
  datatype KnAlert = KnAlert(
    objectId: string,
    knscore: Num,
    rfscore: Num,
    snnSniaVsNonia: Num,
    snnSnVsAll: Num,
    drb: Num,
    classtar: Num,
    jdstarthist: Num,
    ndethist: Num,
    cdsxmatch: string,
    ra: Num,
    dec: Num,
    history: seq<HistPoint>)

  /** The exceptions the filter can raise. */
  datatype KnError =
    | EmptyHistory          // `x[-1]` on an empty history array
    | TooFewDetections      // `jd_hist_allbands[-2]` with fewer than two detections
    | EmptyBand(band: int)  // unpacking the empty magnitude array of a band without detections
    | UnknownBand(fid: int) // `dict_filt[fid]` for a last filter other than 1 or 2

  /** What the call produces: the verdict column, or an exception. */
  datatype KnOutcome = Returned(verdict: seq<bool>) | Raised(error: KnError)

  /** The content of one notification. */
  datatype KnReport = KnReport(
    objectId: string, band: int, mag: Num, errMag: Num, rate: Num, deltaJdLast: Num, deltaJdFirst: Num)

  /** Last magnitude, its error and the rate of one band (NaN when not computed). */
  datatype BandStat = BandStat(mag: Num, err: Num, rate: Num)

  predicate HasHistories(alerts: seq<KnAlert>) {
    forall i :: 0 <= i < |alerts| ==> |alerts[i].history| > 0
  }

  /** `cjd.apply(lambda x: x[-1])`. */
  function LastJd(a: KnAlert): Num
    requires |a.history| > 0
  {
    a.history[|a.history| - 1].jd
  }

  /** `cfid.apply(lambda x: x[-1])`. */
  function LastFid(a: KnAlert): int
    requires |a.history| > 0
  {
    a.history[|a.history| - 1].phot.fid
  }

  /** `f_kn` for one alert. */
  predicate IsKnCandidate(a: KnAlert)
    requires |a.history| > 0
  {
    Gt(a.knscore, 0.5) && Gt(a.drb, 0.5) && Gt(a.classtar, 0.4)
    && Lt(Sub(LastJd(a), a.jdstarthist), 20.0)
    && Lt(a.ndethist, 20.0)
    && a.cdsxmatch in KnKeep()
  }

  /** The predicate column `f_kn`; taking the last history entry raises when a history is empty. */
  function KnFlags(alerts: seq<KnAlert>): (r: Result<seq<bool>, KnError>)
    ensures r.Err? <==> !HasHistories(alerts)
    ensures r.Err? ==> r.error == EmptyHistory
    ensures r.Ok? ==> |r.value| == |alerts|
    ensures r.Ok? ==> forall i :: 0 <= i < |alerts| ==>
      (r.value[i] <==>
         Gt(alerts[i].knscore, 0.5) && Gt(alerts[i].drb, 0.5) && Gt(alerts[i].classtar, 0.4)
         && Lt(Sub(LastJd(alerts[i]), alerts[i].jdstarthist), 20.0)
         && Lt(alerts[i].ndethist, 20.0)
         && alerts[i].cdsxmatch in KnKeep())
  {
    if HasHistories(alerts) then Ok(seq(|alerts|, i requires 0 <= i < |alerts| => IsKnCandidate(alerts[i])))
    else Err(EmptyHistory)
  }

  /** `maskNotNone`: the history entries whose magnitude is not NaN. */
  function DetectionMask(h: seq<HistPoint>): (m: seq<bool>)
    ensures |m| == |h|
    ensures forall l :: 0 <= l < |h| ==> (m[l] <==> h[l].phot.magpsf.Real?)
  {
    seq(|h|, l requires 0 <= l < |h| => h[l].phot.magpsf.Real?)
  }

  /** `maskNotNone * maskFilter`: detections in band `filt`. */
  function BandMask(h: seq<HistPoint>, filt: int): (m: seq<bool>)
    ensures |m| == |h|
    ensures forall l :: 0 <= l < |h| ==> (m[l] <==> h[l].phot.magpsf.Real? && h[l].phot.fid == filt)
  {
    And(DetectionMask(h), seq(|h|, l requires 0 <= l < |h| => h[l].phot.fid == filt))
  }

  /** `delta_jd_last`: the time between the last two detections, whatever their band. */
  function DeltaJdLast(h: seq<HistPoint>): (r: Result<Num, KnError>)
    ensures r.Err? ==> r.error == TooFewDetections
  {
    var d := Select(h, DetectionMask(h));
    if |d| < 2 then Err(TooFewDetections) else Ok(Sub(d[|d| - 1].jd, d[|d| - 2].jd))
  }

  /** The rate between two measurements: difference of corrected magnitudes over difference of dates. */
  function Rate(last: HistPoint, prev: HistPoint, dcMag: Photometry -> Mag): Num {
    Div(Sub(dcMag(last.phot).mag, dcMag(prev.phot).mag), Sub(last.jd, prev.jd))
  }

  /** Last magnitude and error of a band's detections; the rate only when there are two of them. */
  function StatOfPoints(pts: seq<HistPoint>, dcMag: Photometry -> Mag): BandStat
    requires |pts| > 0
  {
    var last := dcMag(pts[|pts| - 1].phot);
    BandStat(last.mag, last.err, if |pts| > 1 then Rate(pts[|pts| - 1], pts[|pts| - 2], dcMag) else NaN)
  }

  /** The band loop body for band `filt`, as written: a band without detections raises. */
  function BandStatOf(h: seq<HistPoint>, filt: int, dcMag: Photometry -> Mag): (r: Result<BandStat, KnError>)
    ensures r.Err? ==> r.error == EmptyBand(filt)
  {
    var pts := Select(h, BandMask(h, filt));
    if |pts| == 0 then Err(EmptyBand(filt)) else Ok(StatOfPoints(pts, dcMag))
  }

  function MakeReport(a: KnAlert, band: int, s: BandStat, deltaJdLast: Num): KnReport
    requires |a.history| > 0
  {
    KnReport(a.objectId, band, s.mag, s.err, s.rate, deltaJdLast, Sub(LastJd(a), a.jdstarthist))
  }

  /** The report for one candidate, as the source computes it, or the exception it raises. */
  function SummaryOf(a: KnAlert, dcMag: Photometry -> Mag): (r: Result<KnReport, KnError>)
    requires |a.history| > 0
    ensures r.Ok? ==> r.value.objectId == a.objectId && r.value.band == LastFid(a)
    ensures r.Ok? ==> r.value.deltaJdFirst == Sub(LastJd(a), a.jdstarthist)
    ensures r.Ok? ==> DeltaJdLast(a.history) == Ok(r.value.deltaJdLast)
    ensures r.Ok? ==>
      BandStatOf(a.history, r.value.band, dcMag) == Ok(BandStat(r.value.mag, r.value.errMag, r.value.rate))
  {
    var h := a.history;
    match DeltaJdLast(h)
    case Err(e) => Err(e)
    case Ok(dl) =>
      match BandStatOf(h, 1, dcMag)
      case Err(e) => Err(e)
      case Ok(g) =>
        match BandStatOf(h, 2, dcMag)
        case Err(e) => Err(e)
        case Ok(rb) =>
          var fid := LastFid(a);
          if fid == 1 then Ok(MakeReport(a, 1, g, dl))
          else if fid == 2 then Ok(MakeReport(a, 2, rb, dl))
          else Err(UnknownBand(fid))
  }

  /** The band loop with a band without detections leaving NaN, as the NaN-initialised dictionaries suggest. */
  function BandStatCorrected(h: seq<HistPoint>, filt: int, dcMag: Photometry -> Mag): BandStat {
    match BandStatOf(h, filt, dcMag)
    case Ok(s) => s
    case Err(_) => BandStat(NaN, NaN, NaN)
  }

  /** `delta_jd_last`, NaN when there are fewer than two detections. */
  function DeltaJdLastCorrected(h: seq<HistPoint>): Num {
    match DeltaJdLast(h)
    case Ok(d) => d
    case Err(_) => NaN
  }

  /** The report for one candidate with missing photometry reported as NaN instead of raising. */
  function SummaryOfCorrected(a: KnAlert, dcMag: Photometry -> Mag): (r: Result<KnReport, KnError>)
    requires |a.history| > 0
    ensures r.Err? <==> LastFid(a) != 1 && LastFid(a) != 2
    ensures r.Ok? ==> r.value.objectId == a.objectId && r.value.band == LastFid(a)
  {
    var fid := LastFid(a);
    if fid == 1 || fid == 2 then Ok(MakeReport(a, fid, BandStatCorrected(a.history, fid, dcMag), DeltaJdLastCorrected(a.history)))
    else Err(UnknownBand(fid))
  }

  function SummaryFor(a: KnAlert, dcMag: Photometry -> Mag, corrected: bool): Result<KnReport, KnError>
    requires |a.history| > 0
  {
    if corrected then SummaryOfCorrected(a, dcMag) else SummaryOf(a, dcMag)
  }

  /** The notification loop so far: the reports posted, and the exception that stopped it, if any. */
  datatype PostRun = PostRun(posted: seq<KnReport>, failure: Option<KnError>)

  /**
   * The notification loop over the candidates' summaries, in order: each report
   * is posted as soon as it is computed, and the first exception ends the loop.
   */
  function PostRunOf(summaries: seq<Result<KnReport, KnError>>): (r: PostRun)
    ensures r.failure.None? <==> forall i :: 0 <= i < |summaries| ==> summaries[i].Ok?
    ensures r.failure.None? ==> |r.posted| == |summaries|
    ensures r.failure.Some? ==>
      |r.posted| < |summaries| && summaries[|r.posted|] == Err(r.failure.value)
    ensures forall i :: 0 <= i < |r.posted| ==> summaries[i] == Ok(r.posted[i])
  {
    if |summaries| == 0 then PostRun([], None)
    else
      var n := |summaries| - 1;
      var prev := PostRunOf(summaries[..n]);
      if prev.failure.Some? then prev
      else
        match summaries[n]
        case Err(e) => PostRun(prev.posted, Some(e))
        case Ok(rep) => PostRun(prev.posted + [rep], None)
  }

  /** The summaries of the candidates, in order. */
  function Summaries(cands: seq<KnAlert>, dcMag: Photometry -> Mag, corrected: bool)
    : (rs: seq<Result<KnReport, KnError>>)
    requires HasHistories(cands)
    ensures |rs| == |cands|
    ensures forall i :: 0 <= i < |cands| ==> rs[i] == SummaryFor(cands[i], dcMag, corrected)
  {
    seq(|cands|, i requires 0 <= i < |cands| => SummaryFor(cands[i], dcMag, corrected))
  }

  lemma SelectHasHistories(alerts: seq<KnAlert>, f: seq<bool>)
    requires HasHistories(alerts) && |f| == |alerts|
    ensures HasHistories(Select(alerts, f))
  {
    var s := Select(alerts, f);
    forall i | 0 <= i < |s| ensures |s[i].history| > 0 {
      SelectMember(alerts, f, s[i]);
    }
  }

  /**
   * The whole call `kn_candidates`: the verdict column or an exception, and the
   * reports posted when the endpoint is configured (`webhook`). `corrected`
   * selects the corrected report computation instead of the one as written.
   */
  function KnRun(alerts: seq<KnAlert>, webhook: bool, dcMag: Photometry -> Mag, corrected: bool)
    : (r: (KnOutcome, seq<KnReport>))
    ensures KnFlags(alerts).Err? ==> r == (Raised(EmptyHistory), [])
    ensures r.0.Returned? ==> KnFlags(alerts) == Ok(r.0.verdict)
    ensures !webhook ==> r.1 == [] && (KnFlags(alerts).Ok? ==> r.0 == Returned(KnFlags(alerts).value))
  {
    match KnFlags(alerts)
    case Err(e) => (Raised(e), [])
    case Ok(f) =>
      if !webhook then (Returned(f), [])
      else
        SelectHasHistories(alerts, f);
        var run := PostRunOf(Summaries(Select(alerts, f), dcMag, corrected));
        (if run.failure.None? then Returned(f) else Raised(run.failure.value), run.posted)
  }

  /** One report per candidate, in order, each the summary of its candidate, when the run returns. */
  lemma KnReportsOnePerCandidate(alerts: seq<KnAlert>, dcMag: Photometry -> Mag, corrected: bool)
    requires KnRun(alerts, true, dcMag, corrected).0.Returned?
    ensures HasHistories(alerts)
    ensures var f := KnFlags(alerts).value; var posted := KnRun(alerts, true, dcMag, corrected).1;
      |posted| == Count(f)
      && forall i :: 0 <= i < |alerts| && f[i] ==>
           (Count(f[..i]) < |posted| && SummaryFor(alerts[i], dcMag, corrected) == Ok(posted[Count(f[..i])]))
  {
    var f := KnFlags(alerts).value;
    SelectHasHistories(alerts, f);
    forall i | 0 <= i < |alerts| && f[i]
      ensures Count(f[..i]) < Count(f)
      ensures SummaryFor(alerts[i], dcMag, corrected)
        == Ok(KnRun(alerts, true, dcMag, corrected).1[Count(f[..i])])
    {
      SelectAt(alerts, f, i);
    }
  }

  /** A band has a detection: an entry with a magnitude in that band. */
  ghost predicate HasDetectionInBand(h: seq<HistPoint>, filt: int) {
    exists l :: 0 <= l < |h| && h[l].phot.magpsf.Real? && h[l].phot.fid == filt
  }

  /** As written, the band loop raises exactly for a band without detections. */
  lemma BandStatFailsIffNoDetection(h: seq<HistPoint>, filt: int, dcMag: Photometry -> Mag)
    ensures BandStatOf(h, filt, dcMag).Err? <==> !HasDetectionInBand(h, filt)
    ensures BandStatOf(h, filt, dcMag).Err? ==> BandStatOf(h, filt, dcMag).error == EmptyBand(filt)
  {
    var m := BandMask(h, filt);
    CountZeroIffNone(m);
    if HasDetectionInBand(h, filt) {
      var l :| 0 <= l < |h| && h[l].phot.magpsf.Real? && h[l].phot.fid == filt;
      assert m[l];
    }
  }

  /** `delta_jd_last` is the date difference of the last two detections of the history. */
  lemma DeltaJdLastIsLastTwoDetections(h: seq<HistPoint>, j: int, k: int)
    requires IsLastTrue(DetectionMask(h), j) && IsPrevTrue(DetectionMask(h), j, k)
    ensures DeltaJdLast(h) == Ok(Sub(h[j].jd, h[k].jd))
  {
    SelectLastTwo(h, DetectionMask(h), j, k);
  }

  /** `delta_jd_last` raises exactly when the history holds fewer than two detections. */
  lemma DeltaJdLastNeedsTwoDetections(h: seq<HistPoint>)
    ensures DeltaJdLast(h).Err? <==>
      !exists k, j :: 0 <= k < j < |h| && h[k].phot.magpsf.Real? && h[j].phot.magpsf.Real?
  {
    var m := DetectionMask(h);
    CountAtLeastTwo(m);
    if exists k, j :: 0 <= k < j < |h| && h[k].phot.magpsf.Real? && h[j].phot.magpsf.Real? {
      var k, j :| 0 <= k < j < |h| && h[k].phot.magpsf.Real? && h[j].phot.magpsf.Real?;
      assert m[k] && m[j];
    }
  }

  /** With two or more detections in a band, its rate is taken between the last two of them only. */
  lemma BandRateIsLastTwoInBand(h: seq<HistPoint>, filt: int, dcMag: Photometry -> Mag, j: int, k: int)
    requires IsLastTrue(BandMask(h, filt), j) && IsPrevTrue(BandMask(h, filt), j, k)
    ensures BandStatOf(h, filt, dcMag)
      == Ok(BandStat(dcMag(h[j].phot).mag, dcMag(h[j].phot).err, Rate(h[j], h[k], dcMag)))
  {
    SelectLastTwo(h, BandMask(h, filt), j, k);
  }

  /** With a single detection in a band, its magnitude is that detection's and its rate stays NaN. */
  lemma BandRateNaNWithOneDetection(h: seq<HistPoint>, filt: int, dcMag: Photometry -> Mag, j: int)
    requires IsLastTrue(BandMask(h, filt), j) && forall l :: 0 <= l < j ==> !BandMask(h, filt)[l]
    ensures BandStatOf(h, filt, dcMag) == Ok(BandStat(dcMag(h[j].phot).mag, dcMag(h[j].phot).err, NaN))
  {
    SelectOnlyTrue(h, BandMask(h, filt), j);
  }

  /**
   * As written, a candidate's report raises exactly when band 1 or band 2 has no
   * detection, or when its last filter is neither 1 nor 2.
   */
  lemma SummaryFailsIffBandMissing(a: KnAlert, dcMag: Photometry -> Mag)
    requires |a.history| > 0
    ensures SummaryOf(a, dcMag).Err? <==>
      !HasDetectionInBand(a.history, 1) || !HasDetectionInBand(a.history, 2)
      || (LastFid(a) != 1 && LastFid(a) != 2)
  {
    var h := a.history;
    BandStatFailsIffNoDetection(h, 1, dcMag);
    BandStatFailsIffNoDetection(h, 2, dcMag);
    DeltaJdLastNeedsTwoDetections(h);
    if HasDetectionInBand(h, 1) && HasDetectionInBand(h, 2) {
      var l1 :| 0 <= l1 < |h| && h[l1].phot.magpsf.Real? && h[l1].phot.fid == 1;
      var l2 :| 0 <= l2 < |h| && h[l2].phot.magpsf.Real? && h[l2].phot.fid == 2;
      if l1 < l2 {
        assert 0 <= l1 < l2 < |h| && h[l1].phot.magpsf.Real? && h[l2].phot.magpsf.Real?;
      } else {
        assert 0 <= l2 < l1 < |h| && h[l2].phot.magpsf.Real? && h[l1].phot.magpsf.Real?;
      }
    }
  }

  /** Once the notification loop has raised on a prefix of the summaries, the rest is never reached. */
  lemma {:induction false} PostRunStopsAtFailure(summaries: seq<Result<KnReport, KnError>>, n: int)
    requires 0 <= n <= |summaries|
    requires PostRunOf(summaries[..n]).failure.Some?
    ensures PostRunOf(summaries) == PostRunOf(summaries[..n])
  {
    if n < |summaries| {
      var m := |summaries| - 1;
      assert summaries[..m][..n] == summaries[..n];
      PostRunStopsAtFailure(summaries[..m], n);
    } else {
      assert summaries[..n] == summaries;
    }
  }

  /**
   * The body of the band loop for band `filt`: the band's last magnitude and
   * error overwrite the dictionaries, and so does its rate when the band holds
   * two detections or more. A band without detections raises (`empty`).
   */
  method FillBand(
    h: seq<HistPoint>, filt: int, dcMag: Photometry -> Mag,
    mag: map<int, Num>, errMag: map<int, Num>, rate: map<int, Num>)
    returns (mag': map<int, Num>, errMag': map<int, Num>, rate': map<int, Num>, empty: bool)
    requires filt == 1 || filt == 2
    requires mag.Keys == {1, 2} && errMag.Keys == {1, 2} && rate.Keys == {1, 2}
    ensures mag'.Keys == {1, 2} && errMag'.Keys == {1, 2} && rate'.Keys == {1, 2}
    ensures empty <==> BandStatOf(h, filt, dcMag).Err?
    ensures empty ==> mag' == mag && errMag' == errMag && rate' == rate
    ensures !empty ==>
      var s := BandStatOf(h, filt, dcMag).value;
      mag' == mag[filt := s.mag] && errMag' == errMag[filt := s.err]
      && rate' == (if HasTwoInBand(h, filt) then rate[filt := s.rate] else rate)
    ensures !empty && !HasTwoInBand(h, filt) ==> BandStatOf(h, filt, dcMag).value.rate == NaN
  {
    var m := BandMask(h, filt);
    var pts := Select(h, m);
    if |pts| == 0 {
      return mag, errMag, rate, true;
    }
    var last := dcMag(pts[|pts| - 1].phot);
    mag' := mag[filt := last.mag];
    errMag' := errMag[filt := last.err];
    rate' := rate;
    if |pts| > 1 {
      rate' := rate[filt := Rate(pts[|pts| - 1], pts[|pts| - 2], dcMag)];
    }
    empty := false;
  }

  /** Band `filt` holds two detections or more. */
  predicate HasTwoInBand(h: seq<HistPoint>, filt: int) {
    |Select(h, BandMask(h, filt))| > 1
  }

  /**
   * The loop over filters 1 and 2: the dictionaries `mag`, `err_mag` and `rate`
   * start at NaN and receive each band's last magnitude, its error and, with two
   * detections or more, its rate. A band without detections raises.
   */
  method FillBands(h: seq<HistPoint>, dcMag: Photometry -> Mag)
    returns (mag: map<int, Num>, errMag: map<int, Num>, rate: map<int, Num>, failure: Option<KnError>)
    ensures mag.Keys == {1, 2} && errMag.Keys == {1, 2} && rate.Keys == {1, 2}
    ensures failure.None? ==> forall f :: 1 <= f <= 2 ==>
      BandStatOf(h, f, dcMag) == Ok(BandStat(mag[f], errMag[f], rate[f]))
    ensures failure.Some? ==>
      if BandStatOf(h, 1, dcMag).Err? then failure.value == BandStatOf(h, 1, dcMag).error
      else BandStatOf(h, 2, dcMag).Err? && failure.value == BandStatOf(h, 2, dcMag).error
  {
    ghost var g, r := BandStatOf(h, 1, dcMag), BandStatOf(h, 2, dcMag);
    rate := map[1 := NaN, 2 := NaN];
    mag := map[1 := NaN, 2 := NaN];
    errMag := map[1 := NaN, 2 := NaN];
    for filt := 1 to 3
      invariant mag.Keys == {1, 2} && errMag.Keys == {1, 2} && rate.Keys == {1, 2}
      invariant filt > 1 ==> g == Ok(BandStat(mag[1], errMag[1], rate[1]))
      invariant filt > 2 ==> r == Ok(BandStat(mag[2], errMag[2], rate[2]))
      invariant filt <= 1 ==> rate[1] == NaN
      invariant filt <= 2 ==> rate[2] == NaN
    {
      var empty;
      mag, errMag, rate, empty := FillBand(h, filt, dcMag, mag, errMag, rate);
      if empty {
        return mag, errMag, rate, Some(EmptyBand(filt));
      }
    }
    failure := None;
  }

  /** The report computation of one candidate: time since the last detection, then the band loop. */
  method Summarize(a: KnAlert, dcMag: Photometry -> Mag) returns (res: Result<KnReport, KnError>)
    requires |a.history| > 0
    ensures res == SummaryOf(a, dcMag)
  {
    var h := a.history;
    var maskNotNone := DetectionMask(h);
    var jdHistAllBands := Select(h, maskNotNone);
    if |jdHistAllBands| < 2 {
      return Err(TooFewDetections);
    }
    var deltaJdLast := Sub(jdHistAllBands[|jdHistAllBands| - 1].jd, jdHistAllBands[|jdHistAllBands| - 2].jd);
    assert DeltaJdLast(h) == Ok(deltaJdLast);
    var mag, errMag, rate, failure := FillBands(h, dcMag);
    if failure.Some? {
      return Err(failure.value);
    }
    var fid := LastFid(a);
    if fid != 1 && fid != 2 {
      return Err(UnknownBand(fid));
    }
    res := Ok(KnReport(a.objectId, fid, mag[fid], errMag[fid], rate[fid], deltaJdLast, Sub(LastJd(a), a.jdstarthist)));
  }

  /** The loop over the candidates: post each report as soon as it is computed; the first exception ends the loop. */
  method PostReports(cands: seq<KnAlert>, dcMag: Photometry -> Mag)
    returns (failure: Option<KnError>, posted: seq<KnReport>)
    requires HasHistories(cands)
    ensures PostRun(posted, failure) == PostRunOf(Summaries(cands, dcMag, false))
  {
    ghost var summaries := Summaries(cands, dcMag, false);
    posted := [];
    var i := 0;
    while i < |cands|
      invariant 0 <= i <= |cands|
      invariant PostRunOf(summaries[..i]) == PostRun(posted, None)
    {
      assert summaries[..i + 1][..i] == summaries[..i];
      var summary := Summarize(cands[i], dcMag);
      if summary.Err? {
        PostRunStopsAtFailure(summaries, i + 1);
        return Some(summary.error), posted;
      }
      posted := posted + [summary.value];
      i := i + 1;
    }
    assert summaries[..i] == summaries;
    failure := None;
  }

  /**
   * `kn_candidates`: compute the verdict column; with the endpoint configured,
   * post one report per candidate, in order, until one raises.
   */
  method KnCandidates(alerts: seq<KnAlert>, webhook: bool, dcMag: Photometry -> Mag)
    returns (outcome: KnOutcome, posted: seq<KnReport>)
    ensures (outcome, posted) == KnRun(alerts, webhook, dcMag, false)
  {
    var flags := KnFlags(alerts);
    if flags.Err? {
      return Raised(flags.error), [];
    }
    var fKn := flags.value;
    posted := [];
    if !webhook {
      return Returned(fKn), posted;
    }
    SelectHasHistories(alerts, fKn);
    var failure;
    failure, posted := PostReports(Select(alerts, fKn), dcMag);
    outcome := if failure.None? then Returned(fKn) else Raised(failure.value);
  }

  /** An alert that passes the predicate and whose history has two detections, both in band 1. */
  function GBandOnlyAlert(): KnAlert {
    var phot1 := Photometry(1, Real(18.0), Real(0.1), Real(20.0), Real(0.1), Real(26.0), "t");
    var phot2 := Photometry(1, Real(17.5), Real(0.1), Real(20.0), Real(0.1), Real(26.0), "t");
    KnAlert("ZTF-g-only", Real(0.9), Real(0.1), Real(0.1), Real(0.1), Real(0.9), Real(0.9),
      Real(10.0), Real(1.0), "Unknown", Real(10.0), Real(20.0),
      [HistPoint(Real(10.0), phot1), HistPoint(Real(11.0), phot2)])
  }

  lemma GBandOnlyAlertIsCandidate()
    ensures KnFlags([GBandOnlyAlert()]) == Ok([true])
  {
    var a := GBandOnlyAlert();
    assert KnKeep()[0] == "Unknown";
    assert IsKnCandidate(a);
    var f := KnFlags([a]);
    assert f.Ok? && |f.value| == 1 && f.value[0];
    assert f.value == [true];
  }

  /**
   * The bounds are strict: exactly 20 days since the first detection, or
   * exactly 20 prior detections, reject; so do a missing score and a label
   * outside the list.
   */
  lemma KnBoundsAreStrict()
    ensures IsKnCandidate(GBandOnlyAlert())
    ensures !IsKnCandidate(GBandOnlyAlert().(jdstarthist := Real(-9.0)))
    ensures !IsKnCandidate(GBandOnlyAlert().(ndethist := Real(20.0)))
    ensures !IsKnCandidate(GBandOnlyAlert().(knscore := NaN))
    ensures !IsKnCandidate(GBandOnlyAlert().(cdsxmatch := "Star"))
  {
    assert KnKeep()[0] == "Unknown";
    KnKeepExcludes();
  }

  lemma GBandOnlyAlertSummaryRaises(dcMag: Photometry -> Mag)
    ensures SummaryOf(GBandOnlyAlert(), dcMag) == Err(EmptyBand(2))
  {
    var h := GBandOnlyAlert().history;
    assert HasDetectionInBand(h, 1) by { assert h[0].phot.magpsf.Real? && h[0].phot.fid == 1; }
    BandStatFailsIffNoDetection(h, 1, dcMag);
    BandStatFailsIffNoDetection(h, 2, dcMag);
    DeltaJdLastNeedsTwoDetections(h);
    assert h[0].phot.magpsf.Real? && h[1].phot.magpsf.Real?;
  }

  /** A batch of one candidate returns `[true]` when its report is produced, and raises the report's exception otherwise. */
  lemma SingleCandidateRun(a: KnAlert, dcMag: Photometry -> Mag, corrected: bool)
    requires |a.history| > 0 && IsKnCandidate(a)
    ensures KnRun([a], true, dcMag, corrected).0 ==
      (if SummaryFor(a, dcMag, corrected).Ok? then Returned([true]) else Raised(SummaryFor(a, dcMag, corrected).error))
  {
    var f := KnFlags([a]);
    assert f.Ok? && |f.value| == 1 && f.value[0];
    assert f.value == [true];
    assert Select([a], [true]) == [a] by {
      assert [a][..0] == [] && [true][..0] == [];
    }
    var rs := Summaries([a], dcMag, corrected);
    assert rs == [SummaryFor(a, dcMag, corrected)];
    assert rs[..0] == [];
  }

  /**
   * As written, configuring the endpoint changes the outcome: the same batch
   * that returns `[true]` without it raises with it, because band 2 has no
   * detection, so the verdict is lost.
   */
  lemma KnWebhookLosesVerdict(dcMag: Photometry -> Mag)
    ensures KnRun([GBandOnlyAlert()], false, dcMag, false) == (Returned([true]), [])
    ensures KnRun([GBandOnlyAlert()], true, dcMag, false).0 == Raised(EmptyBand(2))
  {
    GBandOnlyAlertIsCandidate();
    GBandOnlyAlertSummaryRaises(dcMag);
    assert |GBandOnlyAlert().history| > 0 && IsKnCandidate(GBandOnlyAlert()) by {
      assert KnKeep()[0] == "Unknown";
    }
    SingleCandidateRun(GBandOnlyAlert(), dcMag, false);
  }

  /** The corrected report agrees with the one as written wherever that one does not raise. */
  lemma CorrectedSummaryAgrees(a: KnAlert, dcMag: Photometry -> Mag)
    requires |a.history| > 0
    ensures SummaryOf(a, dcMag).Ok? ==> SummaryOfCorrected(a, dcMag) == SummaryOf(a, dcMag)
  {
  }

  /**
   * With the corrected report, configuring the endpoint never changes the
   * outcome, as long as every candidate's last filter is 1 or 2: the verdict
   * column is returned and one report per candidate is posted.
   */
  lemma CorrectedRunReturnsVerdict(alerts: seq<KnAlert>, webhook: bool, dcMag: Photometry -> Mag)
    requires HasHistories(alerts)
    requires forall i :: 0 <= i < |alerts| && IsKnCandidate(alerts[i]) ==> LastFid(alerts[i]) == 1 || LastFid(alerts[i]) == 2
    ensures KnRun(alerts, webhook, dcMag, true).0 == Returned(KnFlags(alerts).value)
    ensures webhook ==> |KnRun(alerts, webhook, dcMag, true).1| == Count(KnFlags(alerts).value)
  {
    var f := KnFlags(alerts).value;
    SelectHasHistories(alerts, f);
    var cands := Select(alerts, f);
    forall c | 0 <= c < |cands| ensures SummaryFor(cands[c], dcMag, true).Ok? {
      SelectMember(alerts, f, cands[c]);
    }
  }
}
