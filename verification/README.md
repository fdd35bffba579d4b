# Flood-report dashboard: a Dafny model of its report lifecycle

This project models the sequential core of a browser dashboard for field
flood reports. Surveyors pick or capture geotagged photos. Each photo
becomes a report carrying its EXIF metadata: GPS position, camera make and
model, and capture time. The reports are kept newest batch first. A submit
sweep uploads every pending or failed report, one at a time. An admin view
shows statistics, GeoJSON points on a map, and a spreadsheet export.

The model has five modules:

- `Seqs` (seqs.dfy): an order-preserving `Filter` and `Rank`, with lemmas.
  Filtering is what the counts, the sweep selection and the map layer
  share.
- `Types` (types.dfy): the records of `types.ts`, that is `Report`, `Exif`,
  `Location`, `Status`, and `Patch` (the `Partial<FloodReport>` given to
  updates). It also holds JavaScript truthiness for optional strings.
- `App` (app.dfy): the `Dashboard` class holds the `reports` and `isDark`
  state. It has the methods `AddBatch`, `Update` and `ToggleTheme`. The
  module also has the pure views: update by id, export rows, statistics
  counts, and the theme's initial and persisted values.
- `PhotoUpload` (photo_upload.dfy): EXIF intake (`ReadExif`, `ProcessFile`)
  and the upload state machine. The sweep is specified as the function
  `Sweep` and is proved report by report. The `Panel` class holds the
  `isSyncing` flag and a ghost trace of the calls it makes; its methods
  are `HandleFiles`, `UploadToDrive` and `SubmitAll`.
- `MapViewer` (map_viewer.dfy): the point features of `updateSource` and
  the basemap-key guard.

Effects are inputs. A `Capture` carries, for each file, its name, the
preview URL, the random id, the clock reading and the already-parsed tags.
`None` for the tags means `ExifReader.load` rejected. The outcome of each
upload comes from a `seq<UploadOutcome>` oracle. The live code simulates
the upload, which always succeeds with id `1_mock_id_<random suffix>`.
Its failure branch is modelled, but the live code never reaches it. Date
formatting (`toLocaleString`) is a parameter `format: int -> string`.

Points where the code's behaviour is easy to misread:

- Report ids come from `Math.random` and are not guaranteed unique, and an
  update touches every report whose id matches. The sweep is therefore
  proved per report without assuming unique ids (`SweepPointwise`,
  `SweepLeavesUnselectedIds`, `SweepKeepsDriveIds`, `SweepClearsBacklog`). The statement "exactly
  the eligible reports are uploaded, and completed ones are untouched"
  needs unique ids (`SweepUniqueIds`).
- An update merges any field of `Partial<FloodReport>`, `id` included.
  Nothing in the code stops a patch from replacing `id` or the file; the
  sweep's own patches never touch `id` (`UpdateKeepsIds`).
- With unique ids a completed report is never swept again, but only
  because the snapshot leaves it out: `uploadToDrive` sets uploading
  whatever the status, and a completed report that shares its id with a
  pending one is swept along with it (`IdCollisionExample`).
- The code compares the reference tag's `value[0]` with 'S' or 'W'. The
  model represents that value as text and compares its first character,
  which gives the same result for the one-letter reference values.
- Export shows "N/A" for a missing location and also for a coordinate of
  exactly 0, because the code uses `||`.
- An empty stored theme string counts as "nothing stored", because the
  negation `!localStorage.getItem('theme')` treats the empty string as falsy.
- The "N photos not yet sent" backlog counts only pending reports, although
  the sweep also retries failed ones (`EligibleSplit`).

## Model

| member | source | states |
|---|---|---|
| App.MergeNoChange | App.tsx:52 | spreading a patch with no field present leaves the report unchanged |
| App.MergeCompose | App.tsx:52 | two successive spreads equal one spread of the combined patch, whose later fields win; spreading the same patch twice is spreading it once |
| App.UpdateById | App.tsx:51-53 | same length; every report whose id matches receives the shallow merge of the patch; every other report is unchanged at its position |
| App.UpdateUnknownId | App.tsx:52 | an id no report carries leaves the collection unchanged |
| App.UpdateKeepsIds | App.tsx:52 | a patch without an `id` field keeps every report's id |
| App.UpdateConcat | App.tsx:47-53 | updating a prepended batch plus the older reports is updating each part separately |
| App.MappedCount | App.tsx:97 | the mapped statistic (reports with a location) is at most the total |
| App.UploadedCount | App.tsx:98 | the uploaded statistic (completed reports) is at most the total |
| App.CountsAfterAddBatch | App.tsx:47-49 | after prepending a batch, the mapped and uploaded counts are the batch's plus the old collection's |
| App.CountsAfterUpdate | App.tsx:51-53 | an update that does not replace metadata keeps the mapped count; one that does not replace the status keeps the uploaded count |
| App.DriveLinkRoundTrip | App.tsx:64 | the Drive_Link cell gives back the Drive id when it is non-empty, and is the "Not Uploaded" marker (not a link) otherwise |
| App.CoordinateCell | App.tsx:61-62 | a coordinate cell is the number exactly when the location exists and the coordinate is non-zero, and "N/A" otherwise |
| App.DriveLink | App.tsx:64 | the link is the "Not Uploaded" marker exactly when the Drive id is missing or empty; otherwise it starts with the Drive viewer prefix |
| App.RowOf | App.tsx:57-65 | one report's row: its id and file name, the capture time or else the formatted creation time, each coordinate cell is the coordinate when the location exists and the coordinate is non-zero and "N/A" otherwise, the device text, and a link that is "Not Uploaded" exactly when the Drive id is missing or empty and from which the Drive id can be recovered otherwise |
| App.ExportRows | App.tsx:55-65 | nothing on an empty collection; otherwise exactly one row per report, in collection order |
| App.ExportRowContents | App.tsx:57-65 | row i holds report i's id and file name; its date is the capture time when non-empty, else the formatted creation time; each coordinate cell is the number when the location exists and the coordinate is non-zero, and the text "N/A" otherwise; device is make-or-empty, a space, then model-or-empty; the link encodes the Drive id |
| App.InitialTheme | App.tsx:25-31 | without a window the theme is light; with a non-empty stored value, dark exactly when it is "dark"; with nothing (or an empty string) stored, dark exactly when the system prefers dark |
| App.StoredTheme | App.tsx:33-40 | the persisted value is "dark" exactly when the flag is set, "light" otherwise |
| App.ThemeRestoredOnReload | App.tsx:25-40 | initialising from the value the effect persisted restores the same theme, whatever the system preference |
| App.ThemeDefaults | App.tsx:25-31 | with nothing (or an empty string) stored, the system preference decides; "light" stored gives light; without a window the theme is light |
| App.Dashboard.constructor | App.tsx:22-31 | the collection starts empty and the theme flag starts at the initial theme |
| App.Dashboard.AddBatch | App.tsx:47-49 | the batch in input order, followed by every older report in its old order; the length is the sum of the two |
| App.Dashboard.Update | App.tsx:51-53 | the collection becomes the update by id of the old one; the theme flag is outside the frame |
| App.Dashboard.ToggleTheme | App.tsx:43-45 | the theme flag is negated; the collection is outside the frame |
| PhotoUpload.ReadExif | components/PhotoUpload.tsx:18-35 | always returns a record. After a load failure or a throw in the try block it is empty. Otherwise the location is set exactly when both GPS coordinates are tagged; the latitude is negated exactly when its reference starts with 'S', the longitude exactly when its reference starts with 'W', and a missing reference means positive. Make, model and capture time are copied from their tags and are absent when the tag is absent |
| PhotoUpload.ExtractionIsDeterministic | components/PhotoUpload.tsx:20-35 | the extraction rule determines the metadata record completely |
| PhotoUpload.SouthEastExample | components/PhotoUpload.tsx:24-28 | tags 3.5 with reference S and 114.2 with reference E give the location (-3.5, 114.2) |
| PhotoUpload.LocationNeedsBothTags | components/PhotoUpload.tsx:24-28 | without both coordinate tags there is no location; missing reference tags leave both coordinates positive |
| PhotoUpload.ProcessFile | components/PhotoUpload.tsx:18-45 | the new report has the capture's id, file name, preview URL and timestamp, the extracted metadata, status pending and no Drive id |
| PhotoUpload.Settle | components/PhotoUpload.tsx:54-73 | after its two updates a report is completed exactly when the upload succeeded, then with the non-empty id `1_mock_id_` plus the suffix; it is failed otherwise, keeping its Drive id; no other field changes |
| PhotoUpload.SettleIsLegal | components/PhotoUpload.tsx:54-73 | a pending or failed report moves to uploading, then from uploading to completed or failed |
| PhotoUpload.Sweep | components/PhotoUpload.tsx:77-86 | the sweep over any snapshot keeps the collection's length |
| PhotoUpload.SweepPointwise | components/PhotoUpload.tsx:82-84 | what the sweep does to a report depends only on that report and the snapshot, because every update is by id |
| PhotoUpload.SweepRecordUntouched | components/PhotoUpload.tsx:82-84 | a report whose id is not in the snapshot is left unchanged |
| PhotoUpload.SweepRecordOnce | components/PhotoUpload.tsx:82-84 | a report whose id occurs once in the snapshot, at position k, receives exactly the upload with outcome k |
| PhotoUpload.SweepLeavesUnselectedIds | components/PhotoUpload.tsx:78-84 | without assuming unique ids: a report none of whose namesakes is pending or failed comes out of the sweep unchanged |
| PhotoUpload.SweepUniqueIds | components/PhotoUpload.tsx:77-86 | with unique ids, the sweep settles exactly the pending and failed reports, the one at rank k among them with outcome k, and leaves every completed or uploading report as it was |
| PhotoUpload.SweepMovesLegally | components/PhotoUpload.tsx:54-86 | with unique ids, every report is either left as it was or moves to uploading and from there to completed or failed; a completed report is left as it was |
| PhotoUpload.IdCollisionExample | components/PhotoUpload.tsx:53-84 | a pending and a completed report sharing an id: the snapshot is the pending one alone, yet the rejected upload leaves the completed one failed |
| PhotoUpload.EligibleOfExample | components/PhotoUpload.tsx:78 | two pending reports before a completed one: the snapshot is the two pending ones |
| PhotoUpload.TwoPendingOneCompletedExample | components/PhotoUpload.tsx:77-86 | two pending reports and one completed report, first upload rejected and second accepted: two uploads (four update calls), ending failed, completed, and the completed report untouched |
| PhotoUpload.SweepClearsBacklog | components/PhotoUpload.tsx:61-69 | for any ids, with every upload succeeding as in the simulated upload, no report is pending or failed after a sweep |
| PhotoUpload.SweepRecordAllUploaded | components/PhotoUpload.tsx:54-69 | with every upload succeeding, a report keeps its id and comes out either unchanged or completed, and completed whenever its id is in the snapshot |
| PhotoUpload.SweepKeepsDriveIds | components/PhotoUpload.tsx:67-68 | for any ids and any snapshot: if every completed report carries a non-empty Drive id before the sweep, the same holds after it |
| PhotoUpload.NewBatchSweptFirst | components/PhotoUpload.tsx:47-50 | a freshly added batch is all pending, so the next sweep selects the whole batch first, in batch order, then the older eligible reports |
| PhotoUpload.BacklogCount | components/PhotoUpload.tsx:120 | the displayed backlog is at most the number of reports the sweep would select |
| PhotoUpload.EligibleSplit | components/PhotoUpload.tsx:78 | the reports the sweep selects are the backlog (pending) plus the failed reports |
| PhotoUpload.SubmitDisabled | components/PhotoUpload.tsx:124 | the submit button is enabled exactly when not syncing and some report is pending or failed |
| PhotoUpload.SweepCallsOrder | components/PhotoUpload.tsx:82-84 | a sweep makes two update calls per selected report: call 2k sets report k to uploading, call 2k+1 is its single result update, and both come before report k+1 starts |
| PhotoUpload.ReplaySweep | components/PhotoUpload.tsx:53-86 | replaying the sweep's update calls in order yields the sweep's collection |
| PhotoUpload.Panel.constructor | components/PhotoUpload.tsx:16 | the component starts not syncing, with the dashboard's state as its props |
| PhotoUpload.Panel.HandleFiles | components/PhotoUpload.tsx:47-51 | no file list: nothing changes; otherwise one pending report per file, in file order, prepended to the collection |
| PhotoUpload.Panel.UploadToDrive | components/PhotoUpload.tsx:53-75 | issues the uploading update, then exactly one result update, and returns true exactly when the upload succeeded |
| PhotoUpload.Panel.SubmitAll | components/PhotoUpload.tsx:77-86 | snapshots the pending and failed reports; with none, returns without touching the flag; otherwise sets the flag, uploads them one at a time in collection order, and clears the flag. The collection ends as the sweep of the snapshot |
| MapViewer.FeatureOf | components/MapViewer.tsx:60-70 | a located report's feature: a Point whose coordinates are [lng, lat] and read back as the location, with the report's preview URL and file name, and the capture time or else the formatted timestamp |
| MapViewer.Features | components/MapViewer.tsx:58-60 | the number of features is the number of located reports, which is the layer's point count |
| MapViewer.FeatureOfReport | components/MapViewer.tsx:58-71 | each located report gives the feature at its rank, so order is kept. The Point's coordinates are [lng, lat] and read back as the report's location. previewUrl and fileName are copied; dateTime is the capture time, or the formatted timestamp when that is empty |
| MapViewer.FeatureOrigin | components/MapViewer.tsx:58-71 | every feature is the feature of the located report of the same rank |
| MapViewer.FeaturesConcat | components/MapViewer.tsx:58-71 | the features of a prepended batch come first, then those of the older reports |
| MapViewer.FeatureCountAfterUpdate | components/MapViewer.tsx:58-60 | an update that does not replace metadata keeps the number of points |
| MapViewer.SelectBasemap | components/MapViewer.tsx:130-137 | for the table's own keys and any other key without a tile URL: a map that does not exist yet, or a key with no URL, leaves the style unchanged; a key of the table switches to its non-empty tile URL |
| MapViewer.DefaultBasemapKnown | components/MapViewer.tsx:21 | the default key "OSM" is in the basemap table |

## Left out

- Network upload and listing (`api.ts`) are not modelled. The live sweep never calls them; upload outcomes are an oracle input.
- `ExifReader.load` binary parsing is not modelled: tags are an input record and `Number(description)` is an already-parsed real. A NaN coordinate, and the unused `altitude` and `software` fields, are not represented.
- The ref-tag value is modelled as text whose first character is compared. ExifReader's array-of-strings form is not represented.
- `Math.random` ids and mock-id suffixes, `Date.now`, `toLocaleString`, and the ISO date in the export file name are inputs or left out.
- async/await, `Promise.all`, the 1.5 s simulated delay and event interleaving are not modelled. `HandleFiles` processes the files in a loop, which gives the same result order as `Promise.all`. Reports added during a sweep are not modelled; the snapshot is fixed when the sweep starts.
- `URL.createObjectURL` previews (a string input), the XLSX workbook and file writing, and the maplibre map are not modelled. For the map this covers its controls, `setStyle`/`jumpTo`, `setData`, re-adding the layer on `styledata`, and the `map.current`/`getSource` null guards in `updateSource`. `Features` is the list that would be handed to `setData`.
- `localStorage`, `matchMedia` and `document.documentElement.classList` are not modelled: the theme is a function of the stored value, the system preference and whether a window exists.
- Rendering is not modelled: all JSX, `components/Header.tsx`, `components/ReportTable.tsx`, StatCard styling, the role and admin-view state, and `tailwind.config.js`.
- Coordinates are JavaScript floats; the model uses `real`, so rounding is not represented.
- App.UpdateById: a `Partial` whose key is present with the value `undefined` (which would erase a field) is not represented; a patch field is either absent or holds a value.
- MapViewer.SelectBasemap: the `basemap` state itself is set to any selected key; only its effect on the map style is modelled.
- MapViewer.SelectBasemap: keys that `BASEMAPS` inherits from `Object.prototype` (`toString`, `constructor`, `__proto__`) are not represented. Their lookup is truthy, so the code would call `setStyle` with them; the selector only offers the table's own keys, so the page cannot produce them.
- Logging is not modelled: `console.warn` on an EXIF read error, `console.log` before the simulated upload and `console.error` on a failed upload (components/PhotoUpload.tsx:34, :61, :71).
