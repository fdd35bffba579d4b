/** components/MapViewer.tsx: the GeoJSON point features the map layer is
    fed with, and the guard on basemap selection. The map library itself
    is not modelled. */
module MapViewer {
  import opened Types
  import opened Seqs
  import opened App

  /** A GeoJSON Point geometry. Per section 3.1.1 of RFC 7946 a position
      lists longitude first, then latitude. */
  datatype Geometry = Point(coordinates: seq<real>)

  datatype FeatureProps = FeatureProps(previewUrl: string, fileName: string, dateTime: string)

  datatype Feature = Feature(geometry: Geometry, properties: FeatureProps)

  /** The feature of one located report. `format` stands for
      `new Date(timestamp).toLocaleString()`. */
  function FeatureOf(r: Report, format: int -> string): (f: Feature)
    requires HasLocation(r)
    ensures |f.geometry.coordinates| == 2 && f.geometry.coordinates[0] == r.exif.location.value.lng
    ensures PositionLocation(f.geometry.coordinates) == r.exif.location
    ensures f.properties.previewUrl == r.previewUrl && f.properties.fileName == r.fileName
    ensures Truthy(r.exif.dateTime) ==> f.properties.dateTime == r.exif.dateTime.value
    ensures !Truthy(r.exif.dateTime) ==> f.properties.dateTime == format(r.timestamp)
  {
    var loc := r.exif.location.value;
    Feature(
      Point([loc.lng, loc.lat]),
      FeatureProps(r.previewUrl, r.fileName, OrElse(r.exif.dateTime, format(r.timestamp))))
  }

  /** The location a GeoJSON position denotes. */
  function PositionLocation(coordinates: seq<real>): Option<Location> {
    if |coordinates| == 2 then Some(Location(coordinates[1], coordinates[0])) else None
  }

  /** The feature list built in `updateSource`: the located reports, in
      collection order, each as its point feature. */
  function Features(rs: seq<Report>, format: int -> string): (fs: seq<Feature>)
    ensures |fs| == MappedCount(rs)
  {
    var located := Filter(HasLocation, rs);
    seq(|located|, j requires 0 <= j < |located| => FeatureOf(located[j], format))
  }

  /** Each located report has its feature at its rank among located reports,
      so features follow collection order; its position reads back as the
      report's location, and its properties are the report's. */
  lemma FeatureOfReport(rs: seq<Report>, format: int -> string, i: nat)
    requires i < |rs| && HasLocation(rs[i])
    ensures Rank(HasLocation, rs, i) < |Features(rs, format)|
    ensures var f := Features(rs, format)[Rank(HasLocation, rs, i)];
      && PositionLocation(f.geometry.coordinates) == rs[i].exif.location
      && f.geometry.coordinates[0] == rs[i].exif.location.value.lng
      && f.properties.previewUrl == rs[i].previewUrl
      && f.properties.fileName == rs[i].fileName
      && (Truthy(rs[i].exif.dateTime) ==> f.properties.dateTime == rs[i].exif.dateTime.value)
      && (!Truthy(rs[i].exif.dateTime) ==> f.properties.dateTime == format(rs[i].timestamp))
  {
    FilterAt(HasLocation, rs, i);
  }

  /** Every feature comes from a located report, the one of that rank. */
  lemma FeatureOrigin(rs: seq<Report>, format: int -> string, j: nat) returns (i: nat)
    requires j < |Features(rs, format)|
    ensures i < |rs| && HasLocation(rs[i]) && Rank(HasLocation, rs, i) == j
    ensures Features(rs, format)[j] == FeatureOf(rs[i], format)
    ensures PositionLocation(Features(rs, format)[j].geometry.coordinates) == rs[i].exif.location
  {
    i := FilterOrigin(HasLocation, rs, j);
  }

  /** A prepended batch's features come first, then the older ones. */
  lemma FeaturesConcat(a: seq<Report>, b: seq<Report>, format: int -> string)
    ensures Features(a + b, format) == Features(a, format) + Features(b, format)
  {
    FilterConcat(HasLocation, a, b);
  }

  /** An update that does not replace metadata adds or removes no point,
      so the layer's count stays the "mapped" statistic. */
  lemma FeatureCountAfterUpdate(rs: seq<Report>, id: string, p: Patch, format: int -> string)
    requires p.exif.None?
    ensures |Features(UpdateById(rs, id, p), format)| == |Features(rs, format)|
  {
    CountsAfterUpdate(rs, id, p);
  }

  // ---------------------------------------------------------------------
  // Basemap selection
  // ---------------------------------------------------------------------

  const DefaultBasemap := "OSM"

  const Basemaps: map<string, string> := map[
    "OSM" := "https://tile.openstreetmap.org/{z}/{x}/{y}.png",
    "GoogleHybrid" := "https://mt1.google.com/vt/lyrs=y&x={x}&y={y}&z={z}",
    "ArcGISImagery" := "https://server.arcgisonline.com/ArcGIS/rest/services/World_Imagery/MapServer/tile/{z}/{y}/{x}",
    "CartoLight" := "https://cartodb-basemaps-a.global.ssl.fastly.net/light_all/{z}/{x}/{y}.png",
    "BIGIndonesia" := "https://geoservices.big.go.id/rbi/rest/services/BASEMAP/Rupabumi_Indonesia/MapServer/tile/{z}/{y}/{x}"
  ]

  /** The tile URL the map shows after `key` is selected, starting from
      `current`: unchanged when the map is not created yet or the key has no
      (non-empty) tile URL, that URL otherwise. */
  function SelectBasemap(mapReady: bool, current: string, key: string): (tiles: string)
    ensures tiles == current || (key in Basemaps && tiles == Basemaps[key])
    ensures key !in Basemaps ==> tiles == current
    ensures !mapReady ==> tiles == current
    ensures mapReady && key in Basemaps ==> tiles == Basemaps[key] && tiles != ""
  {
    if !mapReady || key !in Basemaps || Basemaps[key] == "" then current
    else Basemaps[key]
  }

  /** The default key is a known basemap, so the map starts on its tiles. */
  lemma DefaultBasemapKnown()
    ensures DefaultBasemap in Basemaps
    ensures SelectBasemap(true, "", DefaultBasemap) == Basemaps["OSM"]
  {
  }
}
