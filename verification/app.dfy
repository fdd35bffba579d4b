/** App.tsx: the dashboard's report collection and theme flag, the two
    state operations the child components call, and the views derived from
    the collection (spreadsheet rows and the statistics cards). */
module App {
  import opened Types
  import opened Seqs

  // ---------------------------------------------------------------------
  // Updating a report: `prev.map(r => r.id === id ? { ...r, ...updates } : r)`
  // ---------------------------------------------------------------------

  /** Object spread `{ ...r, ...p }`: each field present in `p` replaces
      the report's own (a shallow merge). */
  function Merge(r: Report, p: Patch): Report {
    Report(
      p.id.GetOr(r.id),
      p.fileName.GetOr(r.fileName),
      p.previewUrl.GetOr(r.previewUrl),
      p.exif.GetOr(r.exif),
      p.timestamp.GetOr(r.timestamp),
      p.status.GetOr(r.status),
      if p.driveFileId.Some? then p.driveFileId else r.driveFileId)
  }

  /** The patch with no field present. */
  const NoChange := Patch(None, None, None, None, None, None, None)

  /** `{ ...p, ...q }`: the fields of `q`, and those of `p` that `q` lacks. */
  function ComposePatch(p: Patch, q: Patch): Patch {
    Patch(
      if q.id.Some? then q.id else p.id,
      if q.fileName.Some? then q.fileName else p.fileName,
      if q.previewUrl.Some? then q.previewUrl else p.previewUrl,
      if q.exif.Some? then q.exif else p.exif,
      if q.timestamp.Some? then q.timestamp else p.timestamp,
      if q.status.Some? then q.status else p.status,
      if q.driveFileId.Some? then q.driveFileId else p.driveFileId)
  }

  /** Spreading nothing changes nothing. */
  lemma MergeNoChange(r: Report)
    ensures Merge(r, NoChange) == r
  {
  }

  /** Two successive spreads are one spread of the combined patch, so merging
      the same patch again changes nothing more. */
  lemma MergeCompose(r: Report, p: Patch, q: Patch)
    ensures Merge(Merge(r, p), q) == Merge(r, ComposePatch(p, q))
    ensures Merge(Merge(r, p), p) == Merge(r, p)
  {
  }

  /** The element function of the update: merge when the id matches. */
  function ApplyIf(r: Report, id: string, p: Patch): Report {
    if r.id == id then Merge(r, p) else r
  }

  /** Every report whose id equals `id` receives the merge; all others, the
      length and the order stay as they were. */
  function UpdateById(rs: seq<Report>, id: string, p: Patch): (r: seq<Report>)
    ensures |r| == |rs|
    ensures forall i :: 0 <= i < |rs| && rs[i].id == id ==> r[i] == Merge(rs[i], p)
    ensures forall i :: 0 <= i < |rs| && rs[i].id != id ==> r[i] == rs[i]
  {
    seq(|rs|, i requires 0 <= i < |rs| => ApplyIf(rs[i], id, p))
  }

  /** An id that no report carries leaves the collection unchanged. */
  lemma UpdateUnknownId(rs: seq<Report>, id: string, p: Patch)
    requires forall i :: 0 <= i < |rs| ==> rs[i].id != id
    ensures UpdateById(rs, id, p) == rs
  {
  }

  /** A merge that carries no `id` field keeps every report's id. */
  lemma UpdateKeepsIds(rs: seq<Report>, id: string, p: Patch, i: nat)
    requires p.id.None? && i < |rs|
    ensures UpdateById(rs, id, p)[i].id == rs[i].id
  {
  }

  /** Updating distributes over a prepended batch: an update after
      `AddBatch` touches the batch and the older reports independently. */
  lemma UpdateConcat(a: seq<Report>, b: seq<Report>, id: string, p: Patch)
    ensures UpdateById(a + b, id, p) == UpdateById(a, id, p) + UpdateById(b, id, p)
  {
  }

  // ---------------------------------------------------------------------
  // Statistics cards: total, mapped and uploaded counts
  // ---------------------------------------------------------------------

  /** "Terpetakan": reports that carry a location. */
  function MappedCount(rs: seq<Report>): (n: nat)
    ensures n <= |rs|
  {
    |Filter(HasLocation, rs)|
  }

  /** "Terupload ke Drive": reports whose status is completed. */
  function UploadedCount(rs: seq<Report>): (n: nat)
    ensures n <= |rs|
  {
    |Filter(IsCompleted, rs)|
  }

  /** Prepending a batch adds its own counts to the collection's. */
  lemma CountsAfterAddBatch(batch: seq<Report>, rs: seq<Report>)
    ensures MappedCount(batch + rs) == MappedCount(batch) + MappedCount(rs)
    ensures UploadedCount(batch + rs) == UploadedCount(batch) + UploadedCount(rs)
  {
    FilterConcat(HasLocation, batch, rs);
    FilterConcat(IsCompleted, batch, rs);
  }

  /** An update that does not replace the metadata leaves the mapped count
      unchanged; one that does not replace the status leaves the uploaded
      count unchanged. */
  lemma CountsAfterUpdate(rs: seq<Report>, id: string, p: Patch)
    ensures p.exif.None? ==> MappedCount(UpdateById(rs, id, p)) == MappedCount(rs)
    ensures p.status.None? ==> UploadedCount(UpdateById(rs, id, p)) == UploadedCount(rs)
  {
    var us := UpdateById(rs, id, p);
    if p.exif.None? {
      FilterSameCount(HasLocation, us, HasLocation, rs);
    }
    if p.status.None? {
      FilterSameCount(IsCompleted, us, IsCompleted, rs);
    }
  }

  // ---------------------------------------------------------------------
  // Spreadsheet export
  // ---------------------------------------------------------------------

  /** A spreadsheet cell: a number or a text. */
  datatype Cell = Num(n: real) | Text(s: string)

  /** One row of the "FloodReports" sheet. */
  datatype ExportRow = ExportRow(
    id: string,
    fileName: string,
    date: string,
    latitude: Cell,
    longitude: Cell,
    device: string,
    driveLink: string)

  const DriveLinkPrefix := "https://drive.google.com/file/d/"
  const DriveLinkSuffix := "/view"
  const NotUploaded := "Not Uploaded"
  const NotAvailable := "N/A"

  /** The Drive_Link column: a viewer URL when the report has a non-empty
      Drive id, the "Not Uploaded" marker otherwise. */
  function DriveLink(driveFileId: Option<string>): (link: string)
    ensures link == NotUploaded <==> !Truthy(driveFileId)
    ensures Truthy(driveFileId) ==> |link| > |DriveLinkPrefix| && link[..|DriveLinkPrefix|] == DriveLinkPrefix
  {
    if Truthy(driveFileId) then DriveLinkPrefix + driveFileId.value + DriveLinkSuffix
    else NotUploaded
  }

  /** Reads the Drive id back out of a Drive_Link cell. */
  function LinkedDriveId(link: string): Option<string> {
    var lp, ls := |DriveLinkPrefix|, |DriveLinkSuffix|;
    if |link| > lp + ls && link[..lp] == DriveLinkPrefix && link[|link| - ls..] == DriveLinkSuffix
    then Some(link[lp..|link| - ls])
    else None
  }

  /** The link column loses nothing: the Drive id can be recovered from it,
      and "Not Uploaded" is told apart from every link. */
  lemma DriveLinkRoundTrip(driveFileId: Option<string>)
    ensures LinkedDriveId(DriveLink(driveFileId)) == if Truthy(driveFileId) then driveFileId else None
  {
    if Truthy(driveFileId) {
      var x := driveFileId.value;
      var link := DriveLinkPrefix + x + DriveLinkSuffix;
      var lp, ls := |DriveLinkPrefix|, |DriveLinkSuffix|;
      assert link[..lp] == DriveLinkPrefix;
      assert link[|link| - ls..] == DriveLinkSuffix;
      assert link[lp..|link| - ls] == x;
    }
  }

  /** `value || 'N/A'` for a coordinate: both a missing location and a
      coordinate of exactly 0 are falsy, so both give "N/A". */
  function CoordinateCell(c: Option<real>): (cell: Cell)
    ensures cell.Num? <==> c.Some? && c.value != 0.0
    ensures cell.Num? ==> cell.n == c.value
    ensures cell.Text? ==> cell.s == NotAvailable
  {
    if c.Some? && c.value != 0.0 then Num(c.value) else Text(NotAvailable)
  }

  /** The row of one report. `format` stands for
      `new Date(timestamp).toLocaleString()`. */
  function RowOf(r: Report, format: int -> string): (row: ExportRow)
    ensures row.id == r.id && row.fileName == r.fileName
    ensures Truthy(r.exif.dateTime) ==> row.date == r.exif.dateTime.value
    ensures !Truthy(r.exif.dateTime) ==> row.date == format(r.timestamp)
    ensures row.latitude == CoordinateCell(if r.exif.location.Some? then Some(r.exif.location.value.lat) else None)
    ensures row.longitude == CoordinateCell(if r.exif.location.Some? then Some(r.exif.location.value.lng) else None)
    ensures row.device == r.exif.make.GetOr("") + " " + r.exif.model.GetOr("")
    ensures LinkedDriveId(row.driveLink) == (if Truthy(r.driveFileId) then r.driveFileId else None)
    ensures row.driveLink == NotUploaded <==> !Truthy(r.driveFileId)
  {
    DriveLinkRoundTrip(r.driveFileId);
    var loc := r.exif.location;
    ExportRow(
      r.id,
      r.fileName,
      OrElse(r.exif.dateTime, format(r.timestamp)),
      CoordinateCell(if loc.Some? then Some(loc.value.lat) else None),
      CoordinateCell(if loc.Some? then Some(loc.value.lng) else None),
      OrElse(r.exif.make, "") + " " + OrElse(r.exif.model, ""),
      DriveLink(r.driveFileId))
  }

  /** `handleExportExcel`: nothing on an empty collection, otherwise one
      row per report in collection order. Writing the workbook is not modelled. */
  function ExportRows(rs: seq<Report>, format: int -> string): (rows: Option<seq<ExportRow>>)
    ensures rows.None? <==> rs == []
    ensures rows.Some? ==> |rows.value| == |rs|
    ensures rows.Some? ==> forall i :: 0 <= i < |rs| ==> rows.value[i] == RowOf(rs[i], format)
  {
    if |rs| == 0 then None
    else Some(seq(|rs|, i requires 0 <= i < |rs| => RowOf(rs[i], format)))
  }

  /** What each column of row `i` holds, in terms of report `i`. */
  lemma ExportRowContents(rs: seq<Report>, format: int -> string, i: nat)
    requires i < |rs|
    ensures var row := ExportRows(rs, format).value[i]; var r := rs[i];
      && row.id == r.id
      && row.fileName == r.fileName
      && (Truthy(r.exif.dateTime) ==> row.date == r.exif.dateTime.value)
      && (!Truthy(r.exif.dateTime) ==> row.date == format(r.timestamp))
      && (row.latitude.Num? <==> r.exif.location.Some? && r.exif.location.value.lat != 0.0)
      && (row.latitude.Num? ==> row.latitude.n == r.exif.location.value.lat)
      && (row.latitude.Text? ==> row.latitude.s == NotAvailable)
      && (row.longitude.Num? <==> r.exif.location.Some? && r.exif.location.value.lng != 0.0)
      && (row.longitude.Num? ==> row.longitude.n == r.exif.location.value.lng)
      && (row.longitude.Text? ==> row.longitude.s == NotAvailable)
      && row.device == r.exif.make.GetOr("") + " " + r.exif.model.GetOr("")
      && LinkedDriveId(row.driveLink) == (if Truthy(r.driveFileId) then r.driveFileId else None)
      && (row.driveLink == NotUploaded <==> !Truthy(r.driveFileId))
  {
    DriveLinkRoundTrip(rs[i].driveFileId);
  }

  // ---------------------------------------------------------------------
  // Theme
  // ---------------------------------------------------------------------

  /** The initial `isDark`: dark when "dark" is stored, or when nothing (or an
      empty string, which is falsy) is stored and the system prefers dark;
      light outside a browser window. */
  function InitialTheme(hasWindow: bool, stored: Option<string>, prefersDark: bool): (dark: bool)
    ensures !hasWindow ==> !dark
    ensures hasWindow && Truthy(stored) ==> (dark <==> stored.value == "dark")
    ensures hasWindow && !Truthy(stored) ==> (dark <==> prefersDark)
  {
    hasWindow && (stored == Some("dark") || (!Truthy(stored) && prefersDark))
  }

  /** The value the effect writes under the "theme" key. */
  function StoredTheme(isDark: bool): (s: string)
    ensures s == "dark" <==> isDark
    ensures s == "light" <==> !isDark
  {
    if isDark then "dark" else "light"
  }

  /** Reloading the page restores the theme that was persisted, whatever
      the system preference. */
  lemma ThemeRestoredOnReload(isDark: bool, prefersDark: bool)
    ensures InitialTheme(true, Some(StoredTheme(isDark)), prefersDark) == isDark
  {
  }

  /** With nothing usable stored the system preference decides; without a
      window the theme is light. */
  lemma ThemeDefaults(stored: Option<string>, prefersDark: bool)
    ensures !Truthy(stored) ==> InitialTheme(true, stored, prefersDark) == prefersDark
    ensures !InitialTheme(false, stored, prefersDark)
    ensures stored == Some("light") ==> !InitialTheme(true, stored, prefersDark)
  {
  }

  // ---------------------------------------------------------------------
  // The state owned by the App component
  // ---------------------------------------------------------------------

  class Dashboard {
    /** Newest batch first. */
    var reports: seq<Report>
    var isDark: bool

    constructor (hasWindow: bool, stored: Option<string>, prefersDark: bool)
      ensures reports == []
      ensures isDark == InitialTheme(hasWindow, stored, prefersDark)
    {
      reports := [];
      isDark := InitialTheme(hasWindow, stored, prefersDark);
    }

    /** `handleReportsAdded`: the batch, in its own order, before every
        older report. */
    method AddBatch(batch: seq<Report>)
      modifies this`reports
      ensures reports == batch + old(reports)
    {
      reports := batch + reports;
    }

    /** `handleUpdateReport`. */
    method Update(id: string, p: Patch)
      modifies this`reports
      ensures reports == UpdateById(old(reports), id, p)
    {
      reports := UpdateById(reports, id, p);
    }

    /** `toggleTheme`. */
    method ToggleTheme()
      modifies this`isDark
      ensures isDark == !old(isDark)
    {
      isDark := !isDark;
    }
  }
}
