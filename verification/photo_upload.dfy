/** components/PhotoUpload.tsx: turning captured photos into pending
    reports, and the submission sweep that drives each pending or failed
    report through the upload state machine, one report at a time. */
module PhotoUpload {
  import opened Types
  import opened Seqs
  import opened App

  // ---------------------------------------------------------------------
  // Intake: EXIF tags to a pending report
  // ---------------------------------------------------------------------

  /** A GPS reference tag (GPSLatitudeRef or GPSLongitudeRef). `value` is the
      text whose first character the code compares; it is None when the tag
      is present without a value, so that reading `value[0]` throws. */
  datatype RefTag = RefTag(value: Option<string>)

  /** The tags ExifReader returned, restricted to those the code reads.
      Coordinates are `Number(description)`, already parsed; text tags are
      their descriptions. None means the tag is absent. */
  datatype ExifTags = ExifTags(
    gpsLatitude: Option<real>,
    gpsLatitudeRef: Option<RefTag>,
    gpsLongitude: Option<real>,
    gpsLongitudeRef: Option<RefTag>,
    make: Option<string>,
    model: Option<string>,
    dateTimeOriginal: Option<string>)

  predicate HasGps(t: ExifTags) {
    t.gpsLatitude.Some? && t.gpsLongitude.Some?
  }

  /** `tag?.value[0]` throws: the tag is present but carries no value. */
  predicate Unreadable(tag: Option<RefTag>) {
    tag.Some? && tag.value.value.None?
  }

  /** `tag?.value[0] === c`; a missing tag or an empty value compares false. */
  predicate RefIs(tag: Option<RefTag>, c: char) {
    tag.Some? && tag.value.value.Some? && |tag.value.value.value| > 0 && tag.value.value.value[0] == c
  }

  /** The try block throws after the tags were loaded. */
  predicate Throws(t: ExifTags) {
    HasGps(t) && (Unreadable(t.gpsLatitudeRef) || Unreadable(t.gpsLongitudeRef))
  }

  /** What the extraction yields. `loaded` is None when ExifReader.load
      rejects. A failure leaves the record as it was before the first
      assignment, that is empty; otherwise the location is recorded exactly
      when both coordinates are tagged, each negated exactly when its
      reference starts with 'S' (latitude) or 'W' (longitude), and make,
      model and capture time are copied from their tags. */
  predicate ExtractedFrom(loaded: Option<ExifTags>, exif: Exif) {
    if loaded.None? || Throws(loaded.value) then exif == EmptyExif
    else
      var t := loaded.value;
      && exif.make == t.make
      && exif.model == t.model
      && exif.dateTime == t.dateTimeOriginal
      && (exif.location.Some? <==> HasGps(t))
      && (HasGps(t) ==>
            && exif.location.value.lat == (if RefIs(t.gpsLatitudeRef, 'S') then -t.gpsLatitude.value else t.gpsLatitude.value)
            && exif.location.value.lng == (if RefIs(t.gpsLongitudeRef, 'W') then -t.gpsLongitude.value else t.gpsLongitude.value))
  }

  /** The extraction rule leaves no freedom: it determines the record. */
  lemma ExtractionIsDeterministic(loaded: Option<ExifTags>, e1: Exif, e2: Exif)
    requires ExtractedFrom(loaded, e1) && ExtractedFrom(loaded, e2)
    ensures e1 == e2
  {
  }

  /** A photo tagged 3.5 with reference S and 114.2 with reference E lies at
      latitude -3.5, longitude 114.2. */
  lemma SouthEastExample(exif: Exif)
    requires ExtractedFrom(Some(ExifTags(Some(3.5), Some(RefTag(Some("S"))), Some(114.2), Some(RefTag(Some("E"))), None, None, None)), exif)
    ensures exif.location == Some(Location(-3.5, 114.2))
  {
  }

  /** Without both coordinate tags there is no location; a missing reference
      tag means a positive coordinate. */
  lemma LocationNeedsBothTags(t: ExifTags, exif: Exif)
    requires ExtractedFrom(Some(t), exif)
    ensures !HasGps(t) ==> exif.location.None?
    ensures HasGps(t) && t.gpsLatitudeRef.None? && t.gpsLongitudeRef.None?
      ==> exif.location == Some(Location(t.gpsLatitude.value, t.gpsLongitude.value))
  {
  }

  /** Fills the metadata record field by field inside a try block; every
      failure is caught, so the caller always receives a record. */
  method ReadExif(loaded: Option<ExifTags>) returns (exif: Exif)
    ensures ExtractedFrom(loaded, exif)
  {
    exif := EmptyExif;
    if loaded.None? {
      return;  // ExifReader.load rejected: caught, record stays empty
    }
    var tags := loaded.value;
    if tags.gpsLatitude.Some? && tags.gpsLongitude.Some? {
      if Unreadable(tags.gpsLatitudeRef) {
        return;  // TypeError while computing lat: caught
      }
      var lat := tags.gpsLatitude.value * (if RefIs(tags.gpsLatitudeRef, 'S') then -1.0 else 1.0);
      if Unreadable(tags.gpsLongitudeRef) {
        return;  // TypeError while computing lng: caught
      }
      var lng := tags.gpsLongitude.value * (if RefIs(tags.gpsLongitudeRef, 'W') then -1.0 else 1.0);
      exif := exif.(location := Some(Location(lat, lng)));
    }
    exif := exif.(make := tags.make);
    exif := exif.(model := tags.model);
    exif := exif.(dateTime := tags.dateTimeOriginal);
  }

  /** A selected file together with what the effects around it produce:
      the preview URL, the random id, the clock reading and the parsed tags. */
  datatype Capture = Capture(
    fileName: string,
    previewUrl: string,
    id: string,
    timestamp: int,
    tags: Option<ExifTags>)

  /** A new report: the capture's identity, extracted metadata, status
      pending and no Drive id. */
  predicate BuiltFrom(c: Capture, r: Report) {
    && r.id == c.id
    && r.fileName == c.fileName
    && r.previewUrl == c.previewUrl
    && r.timestamp == c.timestamp
    && r.status == Pending
    && r.driveFileId.None?
    && ExtractedFrom(c.tags, r.exif)
  }

  /** `processFile`. */
  method ProcessFile(c: Capture) returns (r: Report)
    ensures BuiltFrom(c, r)
  {
    var exif := ReadExif(c.tags);
    r := Report(c.id, c.fileName, c.previewUrl, exif, c.timestamp, Pending, None);
  }

  // ---------------------------------------------------------------------
  // Upload state machine and the sweep
  // ---------------------------------------------------------------------

  /** The transitions of the upload state machine. Nothing leaves completed. */
  predicate Transition(from: Status, to: Status) {
    || (from == Pending && to == Uploading)
    || (from == Failed && to == Uploading)
    || (from == Uploading && (to == Completed || to == Failed))
  }

  /** Selected by a sweep: pending or failed. */
  predicate IsEligible(r: Report) {
    r.status == Pending || r.status == Failed
  }

  predicate IsPending(r: Report) {
    r.status == Pending
  }

  predicate IsFailed(r: Report) {
    r.status == Failed
  }

  const MockIdPrefix := "1_mock_id_"

  /** What the upload of one report resolves to. The simulated upload always
      succeeds, with `Math.random` supplying the suffix of the mock id. */
  datatype UploadOutcome = Uploaded(suffix: string) | Rejected

  function StatusPatch(s: Status): Patch {
    Patch(None, None, None, None, None, Some(s), None)
  }

  /** The second update of an upload: completed with the Drive id, or failed. */
  function ResultPatch(o: UploadOutcome): Patch {
    match o
    case Uploaded(suffix) => Patch(None, None, None, None, None, Some(Completed), Some(MockIdPrefix + suffix))
    case Rejected => StatusPatch(Failed)
  }

  /** One report after its upload: only the status and, on success, the
      Drive id differ from before. */
  function Settle(r: Report, o: UploadOutcome): (s: Report)
    ensures s.status == Completed <==> o.Uploaded?
    ensures s.status == Failed <==> o.Rejected?
    ensures o.Uploaded? ==> s.driveFileId == Some(MockIdPrefix + o.suffix) && Truthy(s.driveFileId)
    ensures o.Rejected? ==> s.driveFileId == r.driveFileId
    ensures s.(status := r.status, driveFileId := r.driveFileId) == r
  {
    Merge(Merge(r, StatusPatch(Uploading)), ResultPatch(o))
  }

  /** A selected report moves along legal transitions: to uploading, then
      to completed or failed. */
  lemma SettleIsLegal(r: Report, o: UploadOutcome)
    requires IsEligible(r)
    ensures Transition(r.status, Uploading)
    ensures Transition(Uploading, Settle(r, o).status)
  {
  }

  /** `uploadToDrive` as seen by the collection: two updates by id. */
  function UploadStep(rs: seq<Report>, id: string, o: UploadOutcome): seq<Report> {
    UpdateById(UpdateById(rs, id, StatusPatch(Uploading)), id, ResultPatch(o))
  }

  /** The collection after uploading the reports of `snap` in order, the
      k-th with outcome `outcomes[k]`. */
  function Sweep(rs: seq<Report>, snap: seq<Report>, outcomes: seq<UploadOutcome>): (r: seq<Report>)
    requires |snap| <= |outcomes|
    ensures |r| == |rs|
    decreases |snap|
  {
    if snap == [] then rs
    else
      var n := |snap| - 1;
      UploadStep(Sweep(rs, snap[..n], outcomes), snap[n].id, outcomes[n])
  }

  /** The same two updates seen by a single report. */
  function StepRecord(r: Report, id: string, o: UploadOutcome): Report {
    ApplyIf(ApplyIf(r, id, StatusPatch(Uploading)), id, ResultPatch(o))
  }

  function SweepRecord(r: Report, snap: seq<Report>, outcomes: seq<UploadOutcome>): Report
    requires |snap| <= |outcomes|
    decreases |snap|
  {
    if snap == [] then r
    else
      var n := |snap| - 1;
      StepRecord(SweepRecord(r, snap[..n], outcomes), snap[n].id, outcomes[n])
  }

  /** Every update is by id, so the sweep acts on each report on its own:
      what happens to a report depends only on it and the snapshot. */
  lemma {:induction false} SweepPointwise(rs: seq<Report>, snap: seq<Report>, outcomes: seq<UploadOutcome>, i: nat)
    requires |snap| <= |outcomes| && i < |rs|
    ensures Sweep(rs, snap, outcomes)[i] == SweepRecord(rs[i], snap, outcomes)
    decreases |snap|
  {
    if snap != [] {
      SweepPointwise(rs, snap[..|snap| - 1], outcomes, i);
    }
  }

  /** A report whose id is not in the snapshot is never touched. */
  lemma {:induction false} SweepRecordUntouched(r: Report, snap: seq<Report>, outcomes: seq<UploadOutcome>)
    requires |snap| <= |outcomes|
    requires forall j :: 0 <= j < |snap| ==> snap[j].id != r.id
    ensures SweepRecord(r, snap, outcomes) == r
    decreases |snap|
  {
    if snap != [] {
      var n := |snap| - 1;
      assert forall j :: 0 <= j < n ==> snap[..n][j] == snap[j];
      SweepRecordUntouched(r, snap[..n], outcomes);
    }
  }

  /** A report whose id occurs exactly once in the snapshot, at position k,
      receives exactly the upload with outcome k. */
  lemma {:induction false} SweepRecordOnce(r: Report, snap: seq<Report>, outcomes: seq<UploadOutcome>, k: nat)
    requires k < |snap| <= |outcomes|
    requires snap[k].id == r.id
    requires forall j :: 0 <= j < |snap| && j != k ==> snap[j].id != r.id
    ensures SweepRecord(r, snap, outcomes) == Settle(r, outcomes[k])
    decreases |snap|
  {
    var n := |snap| - 1;
    assert forall j :: 0 <= j < n ==> snap[..n][j] == snap[j];
    if k == n {
      SweepRecordUntouched(r, snap[..n], outcomes);
    } else {
      SweepRecordOnce(r, snap[..n], outcomes, k);
    }
  }

  /** Per id, without assuming ids are unique: a report none of whose
      namesakes is selected comes out of the sweep unchanged. */
  lemma SweepLeavesUnselectedIds(rs: seq<Report>, outcomes: seq<UploadOutcome>, i: nat)
    requires |Filter(IsEligible, rs)| <= |outcomes| && i < |rs|
    requires forall j :: 0 <= j < |rs| && rs[j].id == rs[i].id ==> !IsEligible(rs[j])
    ensures Sweep(rs, Filter(IsEligible, rs), outcomes)[i] == rs[i]
  {
    var snap := Filter(IsEligible, rs);
    SweepPointwise(rs, snap, outcomes, i);
    forall j | 0 <= j < |snap| ensures snap[j].id != rs[i].id {
      var o := FilterOrigin(IsEligible, rs, j);
    }
    SweepRecordUntouched(rs[i], snap, outcomes);
  }

  predicate UniqueIds(rs: seq<Report>) {
    forall i, j :: 0 <= i < j < |rs| ==> rs[i].id != rs[j].id
  }

  /** With unique ids, the sweep over the snapshot of eligible reports
      uploads exactly the pending and failed reports, the one at rank k in
      the snapshot with outcome k, and leaves every completed or uploading
      report as it was. */
  lemma SweepUniqueIds(rs: seq<Report>, outcomes: seq<UploadOutcome>, i: nat)
    requires UniqueIds(rs)
    requires |Filter(IsEligible, rs)| <= |outcomes| && i < |rs|
    ensures IsEligible(rs[i]) ==> Rank(IsEligible, rs, i) < |Filter(IsEligible, rs)|
    ensures var after := Sweep(rs, Filter(IsEligible, rs), outcomes);
      && (IsEligible(rs[i]) ==> after[i] == Settle(rs[i], outcomes[Rank(IsEligible, rs, i)]))
      && (!IsEligible(rs[i]) ==> after[i] == rs[i])
  {
    var snap := Filter(IsEligible, rs);
    SweepPointwise(rs, snap, outcomes, i);
    if IsEligible(rs[i]) {
      FilterAt(IsEligible, rs, i);
      var k := Rank(IsEligible, rs, i);
      forall j | 0 <= j < |snap| && j != k ensures snap[j].id != rs[i].id {
        var o := FilterOrigin(IsEligible, rs, j);
        assert o != i;
      }
      SweepRecordOnce(rs[i], snap, outcomes, k);
    } else {
      SweepLeavesUnselectedIds(rs, outcomes, i);
    }
  }

  /** With unique ids a sweep moves every report along the state machine:
      it is either left as it was or goes to uploading and from there to
      completed or failed. `uploadToDrive` itself sets uploading whatever
      the status; completed is terminal only because the snapshot leaves
      completed reports out. */
  lemma SweepMovesLegally(rs: seq<Report>, outcomes: seq<UploadOutcome>, i: nat)
    requires UniqueIds(rs)
    requires |Filter(IsEligible, rs)| <= |outcomes| && i < |rs|
    ensures var after := Sweep(rs, Filter(IsEligible, rs), outcomes);
      && (after[i] == rs[i] || (Transition(rs[i].status, Uploading) && Transition(Uploading, after[i].status)))
      && (rs[i].status == Completed ==> after[i] == rs[i])
  {
    SweepUniqueIds(rs, outcomes, i);
    if IsEligible(rs[i]) {
      SettleIsLegal(rs[i], outcomes[Rank(IsEligible, rs, i)]);
    }
  }

  /** Without unique ids completed is not terminal: a completed report that
      shares its id with a pending one is swept along with it. */
  lemma IdCollisionExample(a: Report, c: Report)
    requires a.id == c.id && a.status == Pending && c.status == Completed
    ensures Filter(IsEligible, [a, c]) == [a]
    ensures Sweep([a, c], [a], [Rejected])[1].status == Failed
  {
    assert [a, c][..1] == [a];
    assert [a][..0] == [];
  }

  lemma EligibleOfExample(a: Report, b: Report, c: Report)
    requires a.status == Pending && b.status == Pending && c.status == Completed
    ensures Filter(IsEligible, [a, b, c]) == [a, b]
  {
    FilterAll(IsEligible, [a, b]);
    FilterConcat(IsEligible, [a, b], [c]);
    assert [a, b] + [c] == [a, b, c];
    assert [c][..0] == [];
  }

  /** Two pending reports and one completed one, the first upload rejected
      and the second accepted: two uploads, ending failed, completed and the
      untouched completed report. */
  lemma TwoPendingOneCompletedExample(a: Report, b: Report, c: Report)
    requires a.status == Pending && b.status == Pending && c.status == Completed
    requires a.id != b.id && b.id != c.id && a.id != c.id
    ensures Filter(IsEligible, [a, b, c]) == [a, b]
    ensures |SweepCalls([a, b], [Rejected, Uploaded("x")])| == 4
    ensures var after := Sweep([a, b, c], [a, b], [Rejected, Uploaded("x")]);
      after[0].status == Failed && after[1].status == Completed && after[2] == c
  {
    var rs, outs := [a, b, c], [Rejected, Uploaded("x")];
    EligibleOfExample(a, b, c);
    SweepCallsOrder([a, b], outs, 1);
    assert UniqueIds(rs);
    FilterAt(IsEligible, rs, 0);
    FilterAt(IsEligible, rs, 1);
    SweepUniqueIds(rs, outs, 0);
    SweepUniqueIds(rs, outs, 1);
    SweepUniqueIds(rs, outs, 2);
  }

  /** When every upload succeeds, a report keeps its id, and it either comes
      out unchanged or completed; it is completed when its id is in the
      snapshot. */
  lemma {:induction false} SweepRecordAllUploaded(r: Report, snap: seq<Report>, outcomes: seq<UploadOutcome>)
    requires |snap| <= |outcomes|
    requires forall k :: 0 <= k < |outcomes| ==> outcomes[k].Uploaded?
    ensures SweepRecord(r, snap, outcomes).id == r.id
    ensures SweepRecord(r, snap, outcomes) == r || SweepRecord(r, snap, outcomes).status == Completed
    ensures forall j :: 0 <= j < |snap| && snap[j].id == r.id ==> SweepRecord(r, snap, outcomes).status == Completed
    decreases |snap|
  {
    if snap != [] {
      var n := |snap| - 1;
      SweepRecordAllUploaded(r, snap[..n], outcomes);
      assert forall j :: 0 <= j < n ==> snap[..n][j] == snap[j];
    }
  }

  /** With every upload succeeding (as the simulated upload does), a sweep
      leaves nothing pending or failed, whether or not ids are unique. */
  lemma SweepClearsBacklog(rs: seq<Report>, outcomes: seq<UploadOutcome>)
    requires |Filter(IsEligible, rs)| <= |outcomes|
    requires forall k :: 0 <= k < |outcomes| ==> outcomes[k].Uploaded?
    ensures Filter(IsEligible, Sweep(rs, Filter(IsEligible, rs), outcomes)) == []
  {
    var snap := Filter(IsEligible, rs);
    var after := Sweep(rs, snap, outcomes);
    forall i | 0 <= i < |after| ensures !IsEligible(after[i]) {
      SweepPointwise(rs, snap, outcomes, i);
      SweepRecordAllUploaded(rs[i], snap, outcomes);
      if IsEligible(rs[i]) {
        FilterAt(IsEligible, rs, i);
      }
    }
    FilterEmpty(IsEligible, after);
  }

  /** Every completed report carries a non-empty Drive id. */
  predicate CompletedHaveDriveIds(rs: seq<Report>) {
    forall i :: 0 <= i < |rs| && rs[i].status == Completed ==> Truthy(rs[i].driveFileId)
  }

  /** The sweep keeps that invariant, whatever the ids and the snapshot. */
  lemma {:induction false} SweepKeepsDriveIds(rs: seq<Report>, snap: seq<Report>, outcomes: seq<UploadOutcome>)
    requires |snap| <= |outcomes|
    requires CompletedHaveDriveIds(rs)
    ensures CompletedHaveDriveIds(Sweep(rs, snap, outcomes))
    decreases |snap|
  {
    if snap != [] {
      var n := |snap| - 1;
      SweepKeepsDriveIds(rs, snap[..n], outcomes);
      var mid := UpdateById(Sweep(rs, snap[..n], outcomes), snap[n].id, StatusPatch(Uploading));
      assert CompletedHaveDriveIds(mid);
    }
  }

  /** A new batch is all pending, so the next sweep selects it first, ahead
      of the older eligible reports. */
  lemma NewBatchSweptFirst(batch: seq<Report>, rs: seq<Report>)
    requires forall k :: 0 <= k < |batch| ==> batch[k].status == Pending
    ensures Filter(IsEligible, batch + rs) == batch + Filter(IsEligible, rs)
  {
    FilterConcat(IsEligible, batch, rs);
    FilterAll(IsEligible, batch);
  }

  /** "N photos not yet sent" counts pending reports only; failed reports are
      not in it although the sweep retries them. */
  function BacklogCount(rs: seq<Report>): (n: nat)
    ensures n <= |Filter(IsEligible, rs)|
  {
    FilterMonotone(IsPending, IsEligible, rs);
    |Filter(IsPending, rs)|
  }

  /** The eligible reports are the backlog plus the failed ones. */
  lemma {:induction false} EligibleSplit(rs: seq<Report>)
    ensures |Filter(IsEligible, rs)| == BacklogCount(rs) + |Filter(IsFailed, rs)|
    decreases |rs|
  {
    if rs != [] {
      EligibleSplit(rs[..|rs| - 1]);
    }
  }

  /** The submit button is disabled while syncing or when nothing is eligible. */
  function SubmitDisabled(isSyncing: bool, rs: seq<Report>): (disabled: bool)
    ensures !disabled ==> !isSyncing && exists i :: 0 <= i < |rs| && IsEligible(rs[i])
    ensures disabled ==> isSyncing || forall i :: 0 <= i < |rs| ==> !IsEligible(rs[i])
  {
    FilterEmpty(IsEligible, rs);
    isSyncing || |Filter(IsEligible, rs)| == 0
  }

  // ---------------------------------------------------------------------
  // The observable calls of a sweep
  // ---------------------------------------------------------------------

  /** An effect of the component: setting the syncing flag, or calling the
      collection's update. */
  datatype Event = SetSyncing(on: bool) | UpdateCall(id: string, patch: Patch)

  /** The update calls of a sweep over `snap`, in the order they are made. */
  function SweepCalls(snap: seq<Report>, outcomes: seq<UploadOutcome>): (calls: seq<Event>)
    requires |snap| <= |outcomes|
    decreases |snap|
  {
    if snap == [] then []
    else
      var n := |snap| - 1;
      SweepCalls(snap[..n], outcomes)
        + [UpdateCall(snap[n].id, StatusPatch(Uploading)), UpdateCall(snap[n].id, ResultPatch(outcomes[n]))]
  }

  /** Strictly sequential: report k is set to uploading by call 2k and
      receives exactly one further update, call 2k+1, before report k+1
      starts. */
  lemma {:induction false} SweepCallsOrder(snap: seq<Report>, outcomes: seq<UploadOutcome>, k: nat)
    requires k < |snap| <= |outcomes|
    ensures |SweepCalls(snap, outcomes)| == 2 * |snap|
    ensures SweepCalls(snap, outcomes)[2 * k] == UpdateCall(snap[k].id, StatusPatch(Uploading))
    ensures SweepCalls(snap, outcomes)[2 * k + 1] == UpdateCall(snap[k].id, ResultPatch(outcomes[k]))
    decreases |snap|
  {
    var n := |snap| - 1;
    if n > 0 {
      SweepCallsOrder(snap[..n], outcomes, if k < n then k else 0);
    }
    if k < n {
      assert snap[..n][k] == snap[k];
    }
  }

  /** The collection after the update calls of `events`, in order. */
  function Replay(rs: seq<Report>, events: seq<Event>): seq<Report>
    decreases |events|
  {
    if events == [] then rs
    else
      var n := |events| - 1;
      var before := Replay(rs, events[..n]);
      match events[n]
      case SetSyncing(_) => before
      case UpdateCall(id, p) => UpdateById(before, id, p)
  }

  /** Replaying the calls of a sweep gives the sweep's collection: the
      collection changes through those calls and nothing else. */
  lemma {:induction false} ReplaySweep(rs: seq<Report>, snap: seq<Report>, outcomes: seq<UploadOutcome>)
    requires |snap| <= |outcomes|
    ensures Replay(rs, SweepCalls(snap, outcomes)) == Sweep(rs, snap, outcomes)
    decreases |snap|
  {
    if snap != [] {
      var n := |snap| - 1;
      var prev := SweepCalls(snap[..n], outcomes);
      var e1 := UpdateCall(snap[n].id, StatusPatch(Uploading));
      var e2 := UpdateCall(snap[n].id, ResultPatch(outcomes[n]));
      ReplaySweep(rs, snap[..n], outcomes);
      assert (prev + [e1, e2])[..|prev| + 1] == prev + [e1];
      assert (prev + [e1])[..|prev|] == prev;
    }
  }

  // ---------------------------------------------------------------------
  // The component
  // ---------------------------------------------------------------------

  /** The PhotoUpload component: its `isSyncing` state, and the dashboard
      whose reports and callbacks it receives as props. `trace` records, in
      order, the flag changes and update calls it makes. */
  class Panel {
    const app: Dashboard
    var isSyncing: bool
    ghost var trace: seq<Event>

    constructor (app: Dashboard)
      ensures this.app == app && !isSyncing && trace == []
    {
      this.app := app;
      isSyncing := false;
      trace := [];
    }

    /** `handleFiles`: nothing when no file list is given; otherwise one new
        report per file, in file order, prepended to the collection. */
    method HandleFiles(files: Option<seq<Capture>>) returns (batch: seq<Report>)
      modifies app`reports
      ensures files.None? ==> batch == [] && app.reports == old(app.reports)
      ensures files.Some? ==> |batch| == |files.value|
      ensures files.Some? ==> forall k :: 0 <= k < |batch| ==> BuiltFrom(files.value[k], batch[k])
      ensures app.reports == batch + old(app.reports)
    {
      if files.None? {
        batch := [];
        assert batch + app.reports == app.reports;
        return;
      }
      var fs := files.value;
      batch := [];
      var k := 0;
      while k < |fs|
        invariant 0 <= k <= |fs|
        invariant |batch| == k
        invariant forall j :: 0 <= j < k ==> BuiltFrom(fs[j], batch[j])
        invariant app.reports == old(app.reports)
      {
        var r := ProcessFile(fs[k]);
        batch := batch + [r];
        k := k + 1;
      }
      app.AddBatch(batch);
    }

    /** `uploadToDrive`: uploading first, then completed with a mock Drive id
        or failed, each through the collection's update by id. */
    method UploadToDrive(report: Report, outcome: UploadOutcome) returns (ok: bool)
      modifies this`trace, app`reports
      ensures ok <==> outcome.Uploaded?
      ensures app.reports == UploadStep(old(app.reports), report.id, outcome)
      ensures trace == old(trace)
        + [UpdateCall(report.id, StatusPatch(Uploading)), UpdateCall(report.id, ResultPatch(outcome))]
    {
      app.Update(report.id, StatusPatch(Uploading));
      trace := trace + [UpdateCall(report.id, StatusPatch(Uploading))];
      match outcome
      case Uploaded(suffix) =>
        var mockDriveId := MockIdPrefix + suffix;
        var done := Patch(None, None, None, None, None, Some(Completed), Some(mockDriveId));
        app.Update(report.id, done);
        trace := trace + [UpdateCall(report.id, done)];
        ok := true;
      case Rejected =>
        app.Update(report.id, StatusPatch(Failed));
        trace := trace + [UpdateCall(report.id, StatusPatch(Failed))];
        ok := false;
    }

    /** `handleSubmitAll`: snapshot the pending and failed reports; if there
        are none, return without touching the flag; otherwise set the flag,
        upload each in collection order, and clear the flag. */
    method SubmitAll(outcomes: seq<UploadOutcome>)
      requires |Filter(IsEligible, app.reports)| <= |outcomes|
      modifies this`isSyncing, this`trace, app`reports
      ensures var snap := Filter(IsEligible, old(app.reports));
        && app.reports == Sweep(old(app.reports), snap, outcomes)
        && (snap == [] ==> isSyncing == old(isSyncing) && trace == old(trace))
        && (snap != [] ==>
              && !isSyncing
              && trace == old(trace) + [SetSyncing(true)] + SweepCalls(snap, outcomes) + [SetSyncing(false)])
    {
      var pendingReports := Filter(IsEligible, app.reports);
      if |pendingReports| == 0 {
        return;
      }
      isSyncing := true;
      trace := trace + [SetSyncing(true)];
      var k := 0;
      while k < |pendingReports|
        invariant 0 <= k <= |pendingReports|
        invariant isSyncing
        invariant app.reports == Sweep(old(app.reports), pendingReports[..k], outcomes)
        invariant trace == old(trace) + [SetSyncing(true)] + SweepCalls(pendingReports[..k], outcomes)
      {
        var _ := UploadToDrive(pendingReports[k], outcomes[k]);
        assert pendingReports[..k + 1][..k] == pendingReports[..k];
        k := k + 1;
      }
      assert pendingReports[..k] == pendingReports;
      isSyncing := false;
      trace := trace + [SetSyncing(false)];
    }
  }
}
