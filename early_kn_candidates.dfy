/**
 * The score-free early kilonova filter: a conjunction of thresholds over one
 * alert, refined by a cross-match of the passing alerts against a galaxy
 * catalogue (Mangrove), then one notification per remaining candidate when an
 * endpoint is configured.
 */
module FilterEarlyKnCandidates {
  import opened AlertFields
  import opened Columns
  import opened CdsLabels

  /** The fields of one alert that the early kilonova filter reads. */
  datatype EarlyKnAlert = EarlyKnAlert(
    objectId: string,
    drb: Num,
    classtar: Num,
    jd: Num,
    jdstarthist: Num,
    ndethist: Num,
    cdsxmatch: string,
    phot: Photometry,
    ra: Num,
    dec: Num)

  /** A sky position in degrees. */
  datatype Sky = Sky(ra: Num, dec: Num)

  /** The catalogue columns the cross-match reads; distances in Mpc, either of them possibly NaN. */
  datatype Galaxy = Galaxy(ra: real, dec: real, lumDist: Num, angDist: Num)

  /** One result of the coarse sky search: an index into the catalogue and one into the searched alerts. */
  datatype Pair = Pair(catalogIdx: nat, selfIdx: nat)

  /**
   * The numerical collaborators, left uninterpreted: the magnitude correction
   * `dc_mag`, `np.log10`, the angular separation in radians, and the coarse
   * search `search_around_sky` (alert positions, catalogue positions, radius in degrees).
   */
  datatype Externals = Externals(
    dcMag: Photometry -> Mag,
    log10: real -> real,
    separation: (Sky, Sky) -> Num,
    searchAround: (seq<Sky>, seq<Sky>, real) -> seq<Pair>)

  /** The coarse search radius, in degrees. */
  const SearchRadiusDeg: real := 2.0

  /** The observable effects of one call: reading the catalogue, and one post per notified alert. */
  datatype Event = LoadCatalog | Post(objectId: string)

  /** `f_kn` for one alert, before the cross-match. */
  predicate IsEarlyKnCandidate(a: EarlyKnAlert) {
    Gt(a.drb, 0.5) && Gt(a.classtar, 0.4) && Lt(Sub(a.jd, a.jdstarthist), 0.25) && a.cdsxmatch in KnKeep()
  }

  /** The predicate column `f_kn`, before the cross-match. */
  function EarlyKnFlags(alerts: seq<EarlyKnAlert>): (r: seq<bool>)
    ensures |r| == |alerts|
    ensures forall i :: 0 <= i < |alerts| ==>
      (r[i] <==>
         Gt(alerts[i].drb, 0.5) && Gt(alerts[i].classtar, 0.4)
         && Lt(Sub(alerts[i].jd, alerts[i].jdstarthist), 0.25)
         && alerts[i].cdsxmatch in KnKeep())
  {
    seq(|alerts|, i requires 0 <= i < |alerts| => IsEarlyKnCandidate(alerts[i]))
  }

  /** An alert observed 0.2 days after its first detection, with good scores and an accepted label. */
  function FreshAlert(): EarlyKnAlert {
    EarlyKnAlert("ZTF-fresh", Real(0.9), Real(0.9), Real(100.2), Real(100.0), Real(1.0), "Unknown",
      Photometry(1, Real(18.0), Real(0.1), Real(20.0), Real(0.1), Real(26.0), "t"), Real(10.0), Real(20.0))
  }

  /** The bounds are strict: exactly a quarter of a day since the first detection rejects, and so do the supernova labels. */
  lemma EarlyKnBoundsAreStrict()
    ensures IsEarlyKnCandidate(FreshAlert())
    ensures !IsEarlyKnCandidate(FreshAlert().(jd := Real(100.25)))
    ensures !IsEarlyKnCandidate(FreshAlert().(drb := Real(0.5)))
    ensures !IsEarlyKnCandidate(FreshAlert().(classtar := NaN))
    ensures !IsEarlyKnCandidate(FreshAlert().(cdsxmatch := "SN"))
    ensures !IsEarlyKnCandidate(FreshAlert().(cdsxmatch := "Candidate_SN*"))
  {
    assert KnKeep()[0] == "Unknown";
    KnKeepExcludes();
  }

  /** The coarse search only returns indices of the catalogue it searched. */
  ghost predicate SearchIndexesCatalog(ext: Externals) {
    forall self, around, radius, p :: p in ext.searchAround(self, around, radius) ==> p.catalogIdx < |around|
  }

  predicate PairsInRange(pairs: seq<Pair>, catalog: seq<Galaxy>) {
    forall p :: p in pairs ==> p.catalogIdx < |catalog|
  }

  function AlertSky(a: EarlyKnAlert): Sky {
    Sky(a.ra, a.dec)
  }

  function GalaxySky(g: Galaxy): Sky {
    Sky(Real(g.ra), Real(g.dec))
  }

  function AlertSkies(alerts: seq<EarlyKnAlert>): (r: seq<Sky>)
    ensures |r| == |alerts|
  {
    seq(|alerts|, i requires 0 <= i < |alerts| => AlertSky(alerts[i]))
  }

  function CatalogSkies(catalog: seq<Galaxy>): (r: seq<Sky>)
    ensures |r| == |catalog|
  {
    seq(|catalog|, j requires 0 <= j < |catalog| => GalaxySky(catalog[j]))
  }

  /** `mag`: the corrected magnitude of each passing alert. */
  function Mags(passing: seq<EarlyKnAlert>, ext: Externals): (r: seq<Num>)
    ensures |r| == |passing|
  {
    seq(|passing|, i requires 0 <= i < |passing| => ext.dcMag(passing[i].phot).mag)
  }

  /**
   * The absolute magnitude of the alert if it sat in galaxy `g`: `mag - 1 - 5 log10(lum_dist)`.
   * `np.log10` is applied to positive distances only. A zero distance gives +inf
   * in numpy and a negative or NaN one gives NaN; both are NaN here, which fails
   * the window (15, 17) just as +inf fails its upper bound.
   */
  function AbsMag(mag: Num, g: Galaxy, ext: Externals): (r: Num)
    ensures r.Real? <==> mag.Real? && g.lumDist.Real? && g.lumDist.v > 0.0
    ensures r.Real? ==> r.v + 5.0 * ext.log10(g.lumDist.v) + 1.0 == mag.v
  {
    if mag.Real? && g.lumDist.Real? && g.lumDist.v > 0.0 then Real(mag.v - 1.0 - 5.0 * ext.log10(g.lumDist.v))
    else NaN
  }

  /**
   * `separation < 0.05 / ang_dist`. A zero `ang_dist` makes the bound +inf, which
   * every non-NaN separation is below; a NaN `ang_dist` makes it NaN.
   */
  predicate WithinRadius(sep: Num, angDist: Num)
    ensures WithinRadius(sep, angDist) ==> sep.Real? && angDist.Real?
    ensures angDist.Real? && angDist.v > 0.0 ==>
      (WithinRadius(sep, angDist) <==> sep.Real? && sep.v < 0.05 / angDist.v)
  {
    match angDist
    case NaN => false
    case Real(d) => if d == 0.0 then sep.Real? else Lt(sep, 0.05 / d)
  }

  /** The acceptance test of one galaxy: close enough on the sky, and an absolute magnitude in (15, 17). */
  predicate HostAccepted(a: EarlyKnAlert, mag: Num, g: Galaxy, ext: Externals)
    ensures HostAccepted(a, mag, g, ext) <==>
      WithinRadius(ext.separation(AlertSky(a), GalaxySky(g)), g.angDist)
      && AbsMag(mag, g, ext).Real? && 15.0 < AbsMag(mag, g, ext).v < 17.0
    ensures HostAccepted(a, mag, g, ext) ==> mag.Real? && g.lumDist.Real? && g.lumDist.v > 0.0 && g.angDist.Real?
  {
    WithinRadius(ext.separation(AlertSky(a), GalaxySky(g)), g.angDist)
    && Gt(AbsMag(mag, g, ext), 15.0) && Lt(AbsMag(mag, g, ext), 17.0)
  }

  /**
   * A galaxy whose luminosity distance is NaN, zero or negative is never
   * accepted, and a galaxy with a NaN angular-diameter distance is never accepted.
   */
  lemma BadDistancesReject(a: EarlyKnAlert, mag: Num, g: Galaxy, ext: Externals)
    requires g.lumDist.NaN? || g.lumDist.v <= 0.0 || g.angDist.NaN?
    ensures !HostAccepted(a, mag, g, ext)
  {
  }

  /**
   * The radius test against a finite `ang_dist`: the strict bound 0.05 / ang_dist,
   * which every non-NaN separation meets when `ang_dist` is zero.
   */
  lemma RadiusBound(sep: Num, d: real)
    ensures d != 0.0 ==> (WithinRadius(sep, Real(d)) <==> sep.Real? && sep.v < 0.05 / d)
    ensures d == 0.0 ==> (WithinRadius(sep, Real(d)) <==> sep.Real?)
  {
  }

  function CatalogIdxs(pairs: seq<Pair>): (r: seq<nat>)
    ensures |r| == |pairs|
  {
    seq(|pairs|, k requires 0 <= k < |pairs| => pairs[k].catalogIdx)
  }

  function SelfMask(pairs: seq<Pair>, i: int): (r: seq<bool>)
    ensures |r| == |pairs|
  {
    seq(|pairs|, k requires 0 <= k < |pairs| => pairs[k].selfIdx == i)
  }

  /** `idx_mangrove[idxself == i]`: the catalogue indices paired with the `i`-th passing alert. */
  function IdxReduced(pairs: seq<Pair>, i: int): (r: seq<nat>)
    ensures |r| == Count(SelfMask(pairs, i))
  {
    Select(CatalogIdxs(pairs), SelfMask(pairs, i))
  }

  /** The grouped indices of alert `i` are exactly the catalogue indices of the pairs whose self index is `i`. */
  lemma IdxReducedMembers(pairs: seq<Pair>, i: int, c: nat)
    ensures c in IdxReduced(pairs, i) <==> exists p :: p in pairs && p.selfIdx == i && p.catalogIdx == c
  {
    var cs, m := CatalogIdxs(pairs), SelfMask(pairs, i);
    SelectMember<nat>(cs, m, c);
    if c in IdxReduced(pairs, i) {
      var q :| 0 <= q < |m| && m[q] && cs[q] == c;
      assert pairs[q] in pairs;
    }
    if exists p :: p in pairs && p.selfIdx == i && p.catalogIdx == c {
      var p :| p in pairs && p.selfIdx == i && p.catalogIdx == c;
      var q :| 0 <= q < |pairs| && pairs[q] == p;
      assert m[q] && cs[q] == c;
    }
  }

  /** The `.any()` of the elementwise acceptance test over the galaxies of `idx`. */
  predicate AnyHostAccepted(a: EarlyKnAlert, mag: Num, idx: seq<nat>, catalog: seq<Galaxy>, ext: Externals)
  {
    exists k :: 0 <= k < |idx| && idx[k] < |catalog| && HostAccepted(a, mag, catalog[idx[k]], ext)
  }

  /** `galaxy_matching`: one flag per passing alert. */
  function GalaxyMatching(
    passing: seq<EarlyKnAlert>, mags: seq<Num>, pairs: seq<Pair>, catalog: seq<Galaxy>, ext: Externals)
    : (r: seq<bool>)
    requires |mags| == |passing|
    ensures |r| == |passing|
  {
    seq(|passing|, i requires 0 <= i < |passing| =>
      AnyHostAccepted(passing[i], mags[i], IdxReduced(pairs, i), catalog, ext))
  }

  /** Some galaxy grouped to alert `i` is accepted exactly when some pair with `selfIdx == i` names an accepted galaxy. */
  lemma IdxReducedMatch(
    a: EarlyKnAlert, mag: Num, pairs: seq<Pair>, i: int, catalog: seq<Galaxy>, ext: Externals)
    requires PairsInRange(pairs, catalog)
    ensures AnyHostAccepted(a, mag, IdxReduced(pairs, i), catalog, ext) <==>
      exists p :: p in pairs && p.selfIdx == i && HostAccepted(a, mag, catalog[p.catalogIdx], ext)
  {
    var cs, m := CatalogIdxs(pairs), SelfMask(pairs, i);
    var idx := IdxReduced(pairs, i);
    if AnyHostAccepted(a, mag, idx, catalog, ext) {
      var k :| 0 <= k < |idx| && idx[k] < |catalog| && HostAccepted(a, mag, catalog[idx[k]], ext);
      var c := idx[k];
      assert c in Select(cs, m);
      SelectMember<nat>(cs, m, c);
      assert exists q :: 0 <= q < |m| && m[q] && cs[q] == c;
      var q :| 0 <= q < |m| && m[q] && cs[q] == c;
      assert pairs[q] in pairs && pairs[q].selfIdx == i;
    }
    if exists p :: p in pairs && p.selfIdx == i && HostAccepted(a, mag, catalog[p.catalogIdx], ext) {
      var p :| p in pairs && p.selfIdx == i && HostAccepted(a, mag, catalog[p.catalogIdx], ext);
      var q :| 0 <= q < |pairs| && pairs[q] == p;
      assert m[q] && cs[q] == p.catalogIdx;
      SelectAt(cs, m, q);
    }
  }

  /** The searched pairs of a batch: the passing alerts against the catalogue, within the coarse radius. */
  function SearchPairs(alerts: seq<EarlyKnAlert>, catalog: seq<Galaxy>, ext: Externals): (r: seq<Pair>)
    requires SearchIndexesCatalog(ext)
    ensures PairsInRange(r, catalog)
  {
    ext.searchAround(AlertSkies(Select(alerts, EarlyKnFlags(alerts))), CatalogSkies(catalog), SearchRadiusDeg)
  }

  /** The returned column: `f_kn`, with the cross-match written into its true positions when any alert passes. */
  function EarlyKnVerdict(alerts: seq<EarlyKnAlert>, catalog: seq<Galaxy>, ext: Externals): (r: seq<bool>)
    requires SearchIndexesCatalog(ext)
    ensures |r| == |alerts|
  {
    var f := EarlyKnFlags(alerts);
    if !Any(f) then f
    else
      var passing := Select(alerts, f);
      Scatter(f, GalaxyMatching(passing, Mags(passing, ext), SearchPairs(alerts, catalog, ext), catalog, ext))
  }

  /** The cross-match only refines: a final true verdict is a true predicate, with all its thresholds. */
  lemma EarlyKnRefinesPredicate(alerts: seq<EarlyKnAlert>, catalog: seq<Galaxy>, ext: Externals, i: int)
    requires SearchIndexesCatalog(ext) && 0 <= i < |alerts|
    ensures EarlyKnVerdict(alerts, catalog, ext)[i] ==> EarlyKnFlags(alerts)[i]
    ensures EarlyKnVerdict(alerts, catalog, ext)[i] ==>
      Gt(alerts[i].drb, 0.5) && Gt(alerts[i].classtar, 0.4)
      && Lt(Sub(alerts[i].jd, alerts[i].jdstarthist), 0.25) && alerts[i].cdsxmatch in KnKeep()
  {
    var f := EarlyKnFlags(alerts);
    if Any(f) {
      var passing := Select(alerts, f);
      ScatterRefines(f, GalaxyMatching(passing, Mags(passing, ext), SearchPairs(alerts, catalog, ext), catalog, ext), i);
    }
  }

  /**
   * For an alert that passes the predicate, the final verdict is true exactly
   * when some searched pair groups a galaxy to it (its rank among the passing
   * alerts) that passes both acceptance tests.
   */
  lemma EarlyKnHostIff(alerts: seq<EarlyKnAlert>, catalog: seq<Galaxy>, ext: Externals, i: int)
    requires SearchIndexesCatalog(ext)
    requires 0 <= i < |alerts| && EarlyKnFlags(alerts)[i]
    ensures EarlyKnVerdict(alerts, catalog, ext)[i] <==>
      exists p :: p in SearchPairs(alerts, catalog, ext) && p.selfIdx == Count(EarlyKnFlags(alerts)[..i])
        && HostAccepted(alerts[i], ext.dcMag(alerts[i].phot).mag, catalog[p.catalogIdx], ext)
  {
    var f := EarlyKnFlags(alerts);
    var passing := Select(alerts, f);
    var pairs := SearchPairs(alerts, catalog, ext);
    var gm := GalaxyMatching(passing, Mags(passing, ext), pairs, catalog, ext);
    var rank := Count(f[..i]);
    assert Any(f);
    ScatterAt(f, gm, i);
    SelectAt(alerts, f, i);
    IdxReducedMatch(alerts[i], ext.dcMag(alerts[i].phot).mag, pairs, rank, catalog, ext);
  }

  /** When no alert passes the predicate, the cross-match is skipped and the column is returned unchanged. */
  lemma EarlyKnSkipsCrossMatch(alerts: seq<EarlyKnAlert>, catalog: seq<Galaxy>, ext: Externals)
    requires SearchIndexesCatalog(ext)
    requires !Any(EarlyKnFlags(alerts))
    ensures EarlyKnVerdict(alerts, catalog, ext) == EarlyKnFlags(alerts)
    ensures forall i :: 0 <= i < |alerts| ==> !EarlyKnVerdict(alerts, catalog, ext)[i]
  {
  }

  function ObjectIds(alerts: seq<EarlyKnAlert>): (r: seq<string>)
    ensures |r| == |alerts|
  {
    seq(|alerts|, i requires 0 <= i < |alerts| => alerts[i].objectId)
  }

  function Posts(ids: seq<string>): (r: seq<Event>)
    ensures |r| == |ids|
  {
    seq(|ids|, k requires 0 <= k < |ids| => Post(ids[k]))
  }

  /** The events of one call: the catalogue is read only when some alert passes; then one post per final candidate. */
  function EarlyKnEvents(alerts: seq<EarlyKnAlert>, verdict: seq<bool>, webhook: bool): (r: seq<Event>)
    requires |verdict| == |alerts|
    ensures (LoadCatalog in r) <==> Any(EarlyKnFlags(alerts))
    ensures !webhook ==> forall e :: e in r ==> e == LoadCatalog
    ensures webhook ==> |r| == (if Any(EarlyKnFlags(alerts)) then 1 else 0) + Count(verdict)
  {
    (if Any(EarlyKnFlags(alerts)) then [LoadCatalog] else [])
    + (if webhook then Posts(Select(ObjectIds(alerts), verdict)) else [])
  }

  /** With the endpoint configured, exactly one post per alert true in the final verdict, in alert order. */
  lemma EarlyKnPostsFollowVerdict(alerts: seq<EarlyKnAlert>, verdict: seq<bool>)
    requires |verdict| == |alerts|
    ensures |Posts(Select(ObjectIds(alerts), verdict))| == Count(verdict)
    ensures forall i :: 0 <= i < |alerts| && verdict[i] ==>
      Count(verdict[..i]) < Count(verdict)
      && Posts(Select(ObjectIds(alerts), verdict))[Count(verdict[..i])] == Post(alerts[i].objectId)
    ensures forall e :: e in Posts(Select(ObjectIds(alerts), verdict)) ==>
      exists i :: 0 <= i < |alerts| && verdict[i] && e == Post(alerts[i].objectId)
  {
    var ids := ObjectIds(alerts);
    var posts := Posts(Select(ids, verdict));
    forall i | 0 <= i < |alerts| && verdict[i]
      ensures Count(verdict[..i]) < Count(verdict)
      ensures posts[Count(verdict[..i])] == Post(alerts[i].objectId)
    {
      SelectAt(ids, verdict, i);
    }
    forall e | e in posts ensures exists i :: 0 <= i < |alerts| && verdict[i] && e == Post(alerts[i].objectId) {
      var k :| 0 <= k < |posts| && posts[k] == e;
      SelectMember(ids, verdict, Select(ids, verdict)[k]);
    }
  }

  /** The cross-match loop: for each passing alert, the `.any()` of the acceptance test over its grouped galaxies. */
  method CrossMatch(
    passing: seq<EarlyKnAlert>, mags: seq<Num>, pairs: seq<Pair>, catalog: seq<Galaxy>, ext: Externals)
    returns (galaxyMatching: seq<bool>)
    requires |mags| == |passing| && PairsInRange(pairs, catalog)
    ensures galaxyMatching == GalaxyMatching(passing, mags, pairs, catalog, ext)
    ensures forall i :: 0 <= i < |passing| ==>
      (galaxyMatching[i] <==>
         exists p :: p in pairs && p.selfIdx == i && HostAccepted(passing[i], mags[i], catalog[p.catalogIdx], ext))
  {
    galaxyMatching := [];
    for i := 0 to |passing|
      invariant |galaxyMatching| == i
      invariant forall j :: 0 <= j < i ==>
        galaxyMatching[j] == AnyHostAccepted(passing[j], mags[j], IdxReduced(pairs, j), catalog, ext)
      invariant forall j :: 0 <= j < i ==>
        (galaxyMatching[j] <==>
           exists p :: p in pairs && p.selfIdx == j && HostAccepted(passing[j], mags[j], catalog[p.catalogIdx], ext))
    {
      var idxReduced := IdxReduced(pairs, i);
      var matched := AnyHostAccepted(passing[i], mags[i], idxReduced, catalog, ext);
      IdxReducedMatch(passing[i], mags[i], pairs, i, catalog, ext);
      galaxyMatching := galaxyMatching + [matched];
    }
  }

  /** The notification loop: one post per selected object identifier, in order. */
  method Notify(ids: seq<string>) returns (posts: seq<Event>)
    ensures posts == Posts(ids)
  {
    posts := [];
    for k := 0 to |ids|
      invariant posts == Posts(ids[..k])
    {
      assert Posts(ids[..k + 1]) == Posts(ids[..k]) + [Post(ids[k])];
      posts := posts + [Post(ids[k])];
    }
    assert ids[..|ids|] == ids;
  }

  /**
   * The cross-match block, run when some alert passes: corrected magnitudes,
   * the coarse search, the per-alert acceptance loop, then
   * `f_kn[f_kn] = galaxy_matching` in place.
   */
  method RefineByHosts(fKn: array<bool>, alerts: seq<EarlyKnAlert>, catalog: seq<Galaxy>, ext: Externals)
    requires SearchIndexesCatalog(ext)
    requires fKn[..] == EarlyKnFlags(alerts) && Any(EarlyKnFlags(alerts))
    modifies fKn
    ensures fKn[..] == EarlyKnVerdict(alerts, catalog, ext)
  {
    var flags := fKn[..];
    var passing := Select(alerts, flags);
    var mags := Mags(passing, ext);
    var pairs := ext.searchAround(AlertSkies(passing), CatalogSkies(catalog), SearchRadiusDeg);
    var galaxyMatching := CrossMatch(passing, mags, pairs, catalog, ext);
    ScatterMasked(fKn, galaxyMatching);
  }

  /**
   * `early_kn_candidates`: the predicate column, the cross-match written into
   * it in place (`f_kn[f_kn] = galaxy_matching`), then, with the endpoint
   * configured, one post per final candidate. The webhook setting does not
   * enter the returned column.
   */
  method EarlyKnCandidates(alerts: seq<EarlyKnAlert>, catalog: seq<Galaxy>, ext: Externals, webhook: bool)
    returns (verdict: seq<bool>, events: seq<Event>)
    requires SearchIndexesCatalog(ext)
    ensures verdict == EarlyKnVerdict(alerts, catalog, ext)
    ensures events == EarlyKnEvents(alerts, verdict, webhook)
  {
    var flags := EarlyKnFlags(alerts);
    var fKn := new bool[|alerts|](i requires 0 <= i < |alerts| => flags[i]);
    assert fKn[..] == flags;
    events := [];
    if Any(flags) {
      events := events + [LoadCatalog];
      RefineByHosts(fKn, alerts, catalog, ext);
    }
    verdict := fKn[..];
    if webhook {
      var posts := Notify(Select(ObjectIds(alerts), verdict));
      events := events + posts;
    }
  }
}
