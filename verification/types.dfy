/** The records of types.ts: a flood report, its EXIF metadata and its
    upload status. A browser `File` is represented by its name, the only
    part of it the modelled code reads. */
module Types {

  datatype Option<+T> = None | Some(value: T) {
    function GetOr(default: T): T {
      match this
      case Some(v) => v
      case None => default
    }
  }

  /** JavaScript truthiness of an optional string: defined and non-empty. */
  predicate Truthy(s: Option<string>) {
    s.Some? && s.value != ""
  }

  /** `s || fallback` for an optional string. */
  function OrElse(s: Option<string>, fallback: string): (r: string)
    ensures Truthy(s) ==> r == s.value
    ensures !Truthy(s) ==> r == fallback
  {
    if Truthy(s) then s.value else fallback
  }

  /** UploadStatus: 'pending' | 'uploading' | 'completed' | 'failed'. */
  datatype Status = Pending | Uploading | Completed | Failed

  /** GeoLocation; latitude positive north, longitude positive east. The
      optional altitude is never filled in by the modelled code. */
  datatype Location = Location(lat: real, lng: real)

  /** ExifData, restricted to the fields the modelled code writes. */
  datatype Exif = Exif(
    make: Option<string>,
    model: Option<string>,
    dateTime: Option<string>,
    location: Option<Location>)

  const EmptyExif := Exif(None, None, None, None)

  /** FloodReport. `timestamp` is milliseconds since the epoch. */
  datatype Report = Report(
    id: string,
    fileName: string,
    previewUrl: string,
    exif: Exif,
    timestamp: int,
    status: Status,
    driveFileId: Option<string>)

  /** Partial<FloodReport>: each present field replaces the report's own. */
  datatype Patch = Patch(
    id: Option<string>,
    fileName: Option<string>,
    previewUrl: Option<string>,
    exif: Option<Exif>,
    timestamp: Option<int>,
    status: Option<Status>,
    driveFileId: Option<string>)

  predicate HasLocation(r: Report) {
    r.exif.location.Some?
  }

  predicate IsCompleted(r: Report) {
    r.status == Completed
  }
}
