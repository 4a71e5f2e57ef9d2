# fink-filters: alert classification filters, modelled in Dafny

fink-filters is a set of Spark filters for the Fink broker. Each filter takes
aligned columns of ZTF alerts and returns one boolean per alert, where true
means the alert is a candidate. This project models four of them:

- **kilonova candidates**, classifier-score variant (`FilterKnCandidates`):
  - a conjunction of thresholds and an allow-list of SIMBAD labels over the
    alert-level columns, with the date taken from the last entry of the
    alert's `cjd` history;
  - when a Slack endpoint is configured, one report per candidate. The report
    holds the time since the last valid detection and the last magnitude, its
    error and the rate of the alert's band. Each report is posted as it is
    computed.
- **early kilonova candidates**, score-free variant (`FilterEarlyKnCandidates`):
  - a conjunction of thresholds;
  - when some alert passes, a cross-match against the Mangrove galaxy
    catalogue. The catalogue is searched within 2 degrees, the pairs are
    grouped per alert, and a galaxy is accepted when its separation is below
    0.05 / ang_dist and its absolute magnitude lies in (15, 17). The result is
    written back into the verdict with the masked assignment
    `f_kn[f_kn] = galaxy_matching`;
  - one post per final candidate.
- **early supernova Ia candidates** (`FilterEarlySnCandidates`): SuperNNova
  and random-forest scores, the label, image quality and a short history.
- **microlensing candidates** (`FilterMicrolensingCandidates`): both LIA
  band classes are "ML" and there are fewer than 100 prior detections.

Shared material:

- `AlertFields`: float columns are `Num`, a real or NaN. NaN fails every
  comparison, as in numpy.
- `Columns`: the pandas mask operations. `s[m]` is `Select`, `m.any()` is
  `Any`, and `f[f] = v` is `Scatter`, or `ScatterMasked` in place on an array.
- `CdsLabels`: the label allow-lists.

The exceptions listed in `KnError` are `Err`/`Raised` values, raised at the
point where the source raises them. Posting to Slack is a list of posted values or
events. The environment variable that holds the endpoint is a boolean
parameter.

In the early kilonova cross-match:

- `abs_mag` is `mag - 1 - 5 log10(lum_dist)`, accepted in (15, 17).
- The cross-match takes `.any()` over the galaxies grouped to each alert.
- Catalogue distances may be NaN, zero or negative. A galaxy with such a
  `lum_dist` is never accepted, and a zero `ang_dist` makes the radius bound
  +inf, as numpy does.

## Model

| member | source | states |
|---|---|---|
| `FilterKnCandidates.KnFlags` | fink_filters/filter_kn_candidates/filter.py:74-106 | The predicate raises exactly when some history is empty (`x[-1]`). Otherwise, for each alert, true holds iff: knscore > 0.5, drb > 0.5 and classtar > 0.4; (last history jd − jdstarthist) < 20; ndethist < 20; and the label is in the 19-entry list. All bounds are strict and NaN fails them. |
| `FilterKnCandidates.KnBoundsAreStrict` | fink_filters/filter_kn_candidates/filter.py:77-106 | Exactly 20 days, exactly 20 prior detections, a NaN knscore and the label "Star" each reject an otherwise passing alert. |
| `FilterKnCandidates.DetectionMask` | fink_filters/filter_kn_candidates/filter.py:143 | Entry l is a detection iff its magpsf is not NaN. |
| `FilterKnCandidates.BandMask` | fink_filters/filter_kn_candidates/filter.py:160-161 | Entry l counts for band `filt` iff it is a detection and its fid is `filt`. |
| `FilterKnCandidates.DeltaJdLast` | fink_filters/filter_kn_candidates/filter.py:151-152 | Defines `delta_jd_last`: the jd difference of the last two entries of `cjd[maskNotNone]`. Only `TooFewDetections` can be raised; its meaning is proved in the two lemmas below. |
| `FilterKnCandidates.DeltaJdLastIsLastTwoDetections` | fink_filters/filter_kn_candidates/filter.py:151-152 | The time since the last detection is the jd difference between the last two non-missing entries, whatever their band. |
| `FilterKnCandidates.DeltaJdLastNeedsTwoDetections` | fink_filters/filter_kn_candidates/filter.py:151-152 | Computing that difference raises iff fewer than two entries are non-missing. |
| `FilterKnCandidates.BandStatOf` | fink_filters/filter_kn_candidates/filter.py:159-188 | Defines one pass of the band loop on `cjd`, `cmagpsf` and the rest masked by `maskNotNone * maskFilter`: the last magnitude and error of the band, and a rate only with two or more detections. The only exception is `EmptyBand` of that band; the lemmas below prove when it is raised and what the statistics are. |
| `FilterKnCandidates.BandStatFailsIffNoDetection` | fink_filters/filter_kn_candidates/filter.py:164-179 | As written, the band loop raises for band `filt` iff that band has no detection. |
| `FilterKnCandidates.BandRateIsLastTwoInBand` | fink_filters/filter_kn_candidates/filter.py:177-188 | With two or more detections in a band, the band's magnitude and error are those of its last detection. Its rate is (mag[-1] − mag[-2]) / (jd[-1] − jd[-2]) over the last two detections in that band only. |
| `FilterKnCandidates.BandRateNaNWithOneDetection` | fink_filters/filter_kn_candidates/filter.py:146-188 | With a single detection in a band, the magnitude is that detection's and the rate stays at its NaN initial value. |
| `FilterKnCandidates.FillBand` | fink_filters/filter_kn_candidates/filter.py:160-188 | One pass of the band loop fails iff the band has no detection, and then leaves the dictionaries unchanged. Otherwise it overwrites the band's magnitude and error with that band's statistics, and overwrites its rate only with two detections or more; with fewer, the band's rate is NaN. The key set stays {1, 2}. |
| `FilterKnCandidates.FillBands` | fink_filters/filter_kn_candidates/filter.py:145-188 | The loop over filters 1 and 2 keeps the three dictionaries keyed by {1, 2}. Without failure, each entry is that band's statistics. Otherwise the failure is the one of the first band without detections. |
| `FilterKnCandidates.SummaryOf` | fink_filters/filter_kn_candidates/filter.py:141-203 | A report, when produced, carries the alert's id, the last fid as band, the time since the first detection, the time since the last detection and that band's statistics. |
| `FilterKnCandidates.SummaryFailsIffBandMissing` | fink_filters/filter_kn_candidates/filter.py:151-203 | As written, a candidate's report raises iff band 1 or band 2 has no detection, or the last fid is neither 1 nor 2 (`dict_filt`). |
| `FilterKnCandidates.Summarize` | fink_filters/filter_kn_candidates/filter.py:143-203 | The per-candidate computation, step by step, equals `SummaryOf`. |
| `FilterKnCandidates.Summaries` | fink_filters/filter_kn_candidates/filter.py:141-203 | One summary per candidate, in order. |
| `FilterKnCandidates.PostReports` | fink_filters/filter_kn_candidates/filter.py:141-263 | The imperative loop over the candidates posts and fails exactly as `PostRunOf` of their summaries. |
| `FilterKnCandidates.PostRunOf` | fink_filters/filter_kn_candidates/filter.py:141-263 | The notification loop fails iff some summary fails. Without failure, every summary is posted. With a failure, exactly the summaries before the first failing one are posted, and the exception is that summary's. Every posted report is its candidate's summary. |
| `FilterKnCandidates.PostRunStopsAtFailure` | fink_filters/filter_kn_candidates/filter.py:141-263 | Once the loop has raised, later candidates change nothing. |
| `FilterKnCandidates.KnRun` | fink_filters/filter_kn_candidates/filter.py:73-273 | An empty history raises before anything is posted. A returned column is always the predicate column. Without the endpoint, nothing is posted and the predicate column is returned. |
| `FilterKnCandidates.KnCandidates` | fink_filters/filter_kn_candidates/filter.py:73-273 | The imperative filter (predicate, candidate loop, post or raise) has exactly the outcome and posts of `KnRun`. |
| `FilterKnCandidates.KnReportsOnePerCandidate` | fink_filters/filter_kn_candidates/filter.py:141-263 | When the run returns with the endpoint set, exactly one report is posted per candidate, in alert order, and each is that candidate's summary. |
| `FilterKnCandidates.SingleCandidateRun` | fink_filters/filter_kn_candidates/filter.py:108-273 | With the endpoint set, a batch of one candidate returns `[true]` when its report is produced and raises the report's exception otherwise. |
| `FilterKnCandidates.GBandOnlyAlertIsCandidate` | fink_filters/filter_kn_candidates/filter.py:74-106 | An alert with two detections, both in band 1, passes the predicate. |
| `FilterKnCandidates.GBandOnlyAlertSummaryRaises` | fink_filters/filter_kn_candidates/filter.py:159-179 | As written, that alert's report raises because band 2 has no detection. |
| `FilterKnCandidates.KnWebhookLosesVerdict` | fink_filters/filter_kn_candidates/filter.py:108-273 | As written, configuring the endpoint changes the outcome. The batch that returns `[true]` without the endpoint raises with it. |
| `FilterKnCandidates.SummaryOfCorrected` | fink_filters/filter_kn_candidates/filter.py:145-203 | With a missing band left at NaN, the report fails iff the last fid is neither 1 nor 2. Its id and band are the alert's. |
| `FilterKnCandidates.CorrectedSummaryAgrees` | fink_filters/filter_kn_candidates/filter.py:145-203 | Wherever the report as written is produced, the corrected one is identical. |
| `FilterKnCandidates.CorrectedRunReturnsVerdict` | fink_filters/filter_kn_candidates/filter.py:108-273 | With the corrected report, the predicate column is returned whatever the endpoint setting, provided every candidate's fid is 1 or 2. One report is then posted per candidate. |
| `FilterEarlyKnCandidates.EarlyKnFlags` | fink_filters/filter_early_kn_candidates/filter.py:85-112 | Before the cross-match, each entry is true iff drb > 0.5, classtar > 0.4, jd − jdstarthist < 0.25 and the label is in the 19-entry list. All bounds are strict. |
| `FilterEarlyKnCandidates.EarlyKnBoundsAreStrict` | fink_filters/filter_early_kn_candidates/filter.py:85-112 | Each of these rejects an otherwise passing alert: exactly 0.25 days, drb exactly 0.5, a NaN classtar, and the labels "SN" and "Candidate_SN*". |
| `FilterEarlyKnCandidates.SearchPairs` | fink_filters/filter_early_kn_candidates/filter.py:143-144 | Its body runs the coarse search on the passing alerts against the catalogue within 2 degrees. Its contract only states that the pairs name indices of the catalogue, which is the search's own precondition applied to this call. |
| `FilterEarlyKnCandidates.AbsMag` | fink_filters/filter_early_kn_candidates/filter.py:150 | Defines `abs_mag`. It is a number iff the magnitude is a number and `lum_dist` is a positive number, and then it equals mag − 1 − 5 log10(lum_dist). Otherwise it is NaN, standing for numpy's +inf (zero distance) or NaN; `BadDistancesReject` shows that both fail the window. |
| `FilterEarlyKnCandidates.WithinRadius` | fink_filters/filter_early_kn_candidates/filter.py:152-155 | Defines `separation < 0.05 / ang_dist`. It holds only for a non-NaN separation and a non-NaN `ang_dist`. For a positive `ang_dist` it is the strict bound. A zero `ang_dist` gives the bound +inf, proved in `RadiusBound`. |
| `FilterEarlyKnCandidates.HostAccepted` | fink_filters/filter_early_kn_candidates/filter.py:150-157 | Defines the acceptance test of one galaxy: `WithinRadius`, and 15 < abs_mag < 17, both strict. An accepted galaxy has a non-NaN magnitude, a positive `lum_dist` and a non-NaN `ang_dist`. |
| `FilterEarlyKnCandidates.IdxReduced` | fink_filters/filter_early_kn_candidates/filter.py:149 | Defines `idx_mangrove[idxself == i]`. It has one entry per pair whose self index is i; `IdxReducedMembers` proves which indices they are. |
| `FilterEarlyKnCandidates.IdxReducedMembers` | fink_filters/filter_early_kn_candidates/filter.py:149 | c is in `idx_mangrove[idxself == i]` iff some searched pair has self index i and catalogue index c. |
| `FilterEarlyKnCandidates.BadDistancesReject` | fink_filters/filter_early_kn_candidates/filter.py:150-157 | A galaxy whose `lum_dist` is NaN, zero or negative, or whose `ang_dist` is NaN, is never accepted. |
| `FilterEarlyKnCandidates.RadiusBound` | fink_filters/filter_early_kn_candidates/filter.py:152-155 | Against a finite non-zero `ang_dist`, the radius test is separation < 0.05 / ang_dist, strictly. Against a zero `ang_dist`, every non-NaN separation passes (the bound is +inf). |
| `FilterEarlyKnCandidates.GalaxyMatching` | fink_filters/filter_early_kn_candidates/filter.py:146-158 | Defines `galaxy_matching`: one flag per passing alert, the `.any()` of the acceptance test over `idx_mangrove[idxself == i]`. Its contract keeps one flag per passing alert; `IdxReducedMatch` and `CrossMatch` state what each flag means. |
| `FilterEarlyKnCandidates.IdxReducedMatch` | fink_filters/filter_early_kn_candidates/filter.py:148-158 | Some galaxy in `idx_mangrove[idxself == i]` is accepted iff some searched pair with self index i names an accepted galaxy. Accepted means separation < 0.05 / ang_dist and 15 < mag − 1 − 5 log10(lum_dist) < 17. |
| `FilterEarlyKnCandidates.CrossMatch` | fink_filters/filter_early_kn_candidates/filter.py:147-158 | The loop gives one flag per passing alert. Flag i is true iff some pair grouped to passing alert i names an accepted galaxy. |
| `FilterEarlyKnCandidates.RefineByHosts` | fink_filters/filter_early_kn_candidates/filter.py:115-160 | The cross-match block turns the predicate array, in place, into the final verdict column. |
| `FilterEarlyKnCandidates.EarlyKnVerdict` | fink_filters/filter_early_kn_candidates/filter.py:110-160 | Defines the returned column: `f_kn` when no alert passes, and otherwise `f_kn` after `f_kn[f_kn] = galaxy_matching`. Its contract keeps one entry per alert; the three lemmas below state what the entries mean. |
| `FilterEarlyKnCandidates.EarlyKnRefinesPredicate` | fink_filters/filter_early_kn_candidates/filter.py:160 | The cross-match only refines. A final true verdict implies the predicate and each of its thresholds, so a position false before the assignment is still false after it. |
| `FilterEarlyKnCandidates.EarlyKnHostIff` | fink_filters/filter_early_kn_candidates/filter.py:143-160 | For a passing alert, the final verdict is true iff some searched pair whose self index is the alert's rank among the passing alerts names a galaxy that passes both tests. |
| `FilterEarlyKnCandidates.EarlyKnSkipsCrossMatch` | fink_filters/filter_early_kn_candidates/filter.py:115-160 | When no alert passes, the column is returned unchanged and is all false. |
| `FilterEarlyKnCandidates.EarlyKnEvents` | fink_filters/filter_early_kn_candidates/filter.py:114-169 | Defines the observable effects of one call. The catalogue is read iff some alert passes the predicate. Without the endpoint nothing else happens. With it, there is one post per true entry of the verdict. |
| `FilterEarlyKnCandidates.EarlyKnPostsFollowVerdict` | fink_filters/filter_early_kn_candidates/filter.py:162-169 | There is one post per alert true in the final verdict, in alert order, and every post names such an alert. |
| `FilterEarlyKnCandidates.Notify` | fink_filters/filter_early_kn_candidates/filter.py:163-169 | The notification loop posts each selected id once, in order. |
| `FilterEarlyKnCandidates.EarlyKnCandidates` | fink_filters/filter_early_kn_candidates/filter.py:85-175 | The imperative filter on a boolean array returns the cross-matched verdict, whatever the endpoint setting. Its events are the catalogue load (only when some alert passes), then, with the endpoint, the posts for the final verdict. |
| `FilterEarlySnCandidates.EarlySnCandidates` | fink_filters/filter_early_sn_candidates/filter.py:66-99 | A true verdict implies drb > 0.5, classtar > 0.4, one of the two SuperNNova scores > 0.5, rf > 0.5, ndethist ≤ 20 and the label in the 21-entry list. A true verdict implies `f_sn`. `f_sn` with ndethist ≤ 20 and rf > 0.5 gives true. |
| `FilterEarlySnCandidates.EarlySnCandidatesUdf` | fink_filters/filter_early_sn_candidates/filter.py:147-151 | The wrapper returns exactly the inner filter's column. |
| `FilterEarlySnCandidates.EitherScoreSuffices` | fink_filters/filter_early_sn_candidates/filter.py:66-97 | Either SuperNNova score alone suffices, even with the other NaN. 20 prior detections are accepted and 21 are not. Scores of exactly 0.5 are rejected. |
| `FilterMicrolensingCandidates.MicrolensingCandidates` | fink_filters/filter_microlensing_candidates/filter.py:39-42 | One verdict per alert. An entry is true iff both classes are "ML" and ndethist < 100. |
| `FilterMicrolensingCandidates.MicrolensingCandidatesUdf` | fink_filters/filter_microlensing_candidates/filter.py:65-69 | The wrapper returns exactly the inner filter's column. |
| `FilterMicrolensingCandidates.SwapBandsPreservesVerdicts` | fink_filters/filter_microlensing_candidates/filter.py:40 | Exchanging the two band class columns leaves every verdict unchanged. |
| `FilterMicrolensingCandidates.VerdictIsElementwise` | fink_filters/filter_microlensing_candidates/filter.py:39-42 | The verdict at a position depends only on the alert at that position. |
| `FilterMicrolensingCandidates.RejectsHundredDetections` | fink_filters/filter_microlensing_candidates/filter.py:39 | 99 prior detections pass; 100 are rejected. |
| `CdsLabels.KnKeep` | fink_filters/filter_kn_candidates/filter.py:83-103 | The kilonova allow-list has 19 entries: "Unknown", "Transient", "Fail" and the 16 galaxy labels. |
| `CdsLabels.SnKeep` | fink_filters/filter_early_sn_candidates/filter.py:73-94 | The supernova allow-list has 21 entries: the kilonova list plus "Candidate_SN*" and "SN". |
| `CdsLabels.KnKeepExcludes` | fink_filters/filter_early_kn_candidates/filter.py:89-109 | "SN" and "Candidate_SN*" are not in the kilonova list, and "Star" is in neither list. |
| `Columns.And` | fink_filters/filter_kn_candidates/filter.py:161 | The elementwise product of two boolean arrays is their conjunction. |
| `Columns.Select` | fink_filters/filter_early_kn_candidates/filter.py:117-126 | `s[m]` has one entry per true position of `m`. |
| `Columns.SelectAt` | fink_filters/filter_early_kn_candidates/filter.py:163 | The entry at a true position i lands at index `Count(m[..i])` of `s[m]`. |
| `Columns.SelectMember` | fink_filters/filter_kn_candidates/filter.py:141 | x is in `s[m]` iff x sits at a true position of `m`. |
| `Columns.SelectLastTwo` | fink_filters/filter_kn_candidates/filter.py:151-152 | The last two entries of `s[m]` come from the last two true positions of `m`. |
| `Columns.Scatter` | fink_filters/filter_early_kn_candidates/filter.py:160 | `f[f] = v` keeps the length of `f`. |
| `Columns.ScatterRefines` | fink_filters/filter_early_kn_candidates/filter.py:160 | After `f[f] = v`, a true position was true before. |
| `Columns.ScatterAt` | fink_filters/filter_early_kn_candidates/filter.py:160 | After `f[f] = v`, a true position i of `f` holds the `Count(f[..i])`-th value of `v`. |
| `Columns.SelectScatter` | fink_filters/filter_early_kn_candidates/filter.py:160 | Reading back the masked positions after `f[f] = v` gives exactly `v`. |
| `Columns.ScatterMasked` | fink_filters/filter_early_kn_candidates/filter.py:160 | The in-place masked assignment leaves the array equal to `Scatter(old f, v)`. |

## Left out

- Spark: the `pandas_udf` glue and the doctests, whose counts depend on a data file that is not part of this model.
- Slack: message strings, block layout, HTTP headers and `logging` are not modelled. A post is its report (kilonova) or the alert id (early kilonova).
- Environment: which environment variable holds the endpoint is not modelled. It is a boolean parameter.
- Catalogue: CSV reading and the default file path are not modelled. The catalogue is a parameter, read only when some alert passes.
- Geometry and photometry: `SkyCoord.search_around_sky`, `separation`, `dc_mag` and `np.log10` are uninterpreted function parameters. `np.log10` is only applied to positive distances. A precondition (`SearchIndexesCatalog`) requires the search to return catalogue indices in range.
- Display quantities are computed only for the message and are not modelled: galactic latitude, sexagesimal strings, `Time.iso` and the rebinding of `ra`, `dec`, `jd` and `fid` before the kilonova loop.
- Floating point: IEEE rounding and infinities are not modelled. In the kilonova rate, a zero time difference gives NaN in the model, where numpy gives ±inf for a non-zero magnitude difference (0/0 is NaN in both). In the early kilonova cross-match, the two places where numpy produces +inf are written out: `abs_mag` for a zero `lum_dist` is NaN, which fails the window just as +inf does, and a zero `ang_dist` accepts every non-NaN separation.
- The catalogue rows are indexed by position. `pdf_mangrove.loc[...]` is taken to use the default row labels.
- Early supernova and microlensing: `ndethist.astype(int)` raises on NaN in the source, and truncates a non-integer value (20.7 becomes 20 and passes `<= 20`). Those models take an integer column, so neither is represented; `ndethist` is a count, so neither arises in practice.
- Kilonova: a non-numeric string in a float column, which makes `astype(float)` raise, is not modelled.
- Kilonova: the history arrays `cjd`, `cfid`, `cmagpsf`, `csigmapsf`, `cmagnr`, `csigmagnr`, `cmagzpsci` and `cisdiffpos` are taken as aligned, one `HistPoint` per position. Histories of unequal lengths, which make the mask indexing at lines 151 and 167-173 raise, cannot be represented.
- Slack: a failing `requests.post` (a connection error or a malformed endpoint) is not modelled; every post succeeds. In the source such an exception ends the call like the modelled ones.
- Early kilonova: the `ndethist` column is a field of the alert but is not used by the filter, as in the source.

## Findings

| source | as written | input that shows it | evidently intended | confidence | as-written member | corrected member |
|---|---|---|---|---|---|---|
| fink_filters/filter_kn_candidates/filter.py:159-179 | With the endpoint configured, the band loop unpacks the `dc_mag` results of both bands. A band without detections gives an empty array, and the unpacking raises, so the whole call raises and the verdict column is lost. Fewer than two detections make `[-2]` at line 152 raise the same way. | A batch of one alert that passes the predicate, with two detections, both in band 1. Without the endpoint it returns `[true]`; with the endpoint it raises. | A band without detections keeps the NaN the dictionaries are initialised with (lines 146-148), and the returned column does not depend on the endpoint setting. | not executed | `FilterKnCandidates.KnWebhookLosesVerdict` | `FilterKnCandidates.CorrectedRunReturnsVerdict` |
