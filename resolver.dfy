/**
 * The pure half of the globe's layer-update effect: from the active layer
 * descriptor, the requested time text and the wall clock, derive the WMS
 * request (service address, layer and style names, corrected time, tiling).
 */
module LayerResolver {
  import opened Wrappers
  import opened Clock
  import opened Catalog

  const Ecmwf: string := "ecmwf"
  const NasaGibs: string := "nasa_gibs"
  const Eumetsat: string := "eumetsat"

  /** `SERVICE_URLS[service] || SERVICE_URLS.ecmwf`: an unknown service falls back to ECMWF instead of failing. */
  function ServiceAddress(service: string): (url: string)
    ensures url in ServiceUrls.Values
    ensures service !in ServiceUrls ==> url == ServiceUrls[Ecmwf]
  {
    if service in ServiceUrls && ServiceUrls[service] != "" then ServiceUrls[service] else ServiceUrls[Ecmwf]
  }

  /**
   * The time sent to the service. NASA GIBS gets yesterday's date whatever was
   * asked; EUMETSAT gets the request unless it parses to an instant after `now`,
   * in which case `now` to the second; any other service gets the request as is.
   */
  function DisplayTime(service: string, time: string, now: Instant): (r: string)
    ensures service != NasaGibs && service != Eumetsat ==> r == time
  {
    if service == NasaGibs then
      IsoDate(SetDate(now, DateOf(now).day - 1))
    else if service == Eumetsat then
      match ParseIsoSeconds(time)
      case Some(requested) => if requested > now then IsoSeconds(now) else time
      case None => time
    else time
  }

  /** For NASA GIBS the requested time is ignored: the result is the `YYYY-MM-DD` of the day before `now`. */
  lemma NasaUsesYesterday(time: string, now: Instant)
    requires FourDigitYear(now - MsPerDay)
    ensures DisplayTime(NasaGibs, time, now) == DateText(CivilFromDays(DayNumber(now) - 1))
    ensures |DisplayTime(NasaGibs, time, now)| == 10
  {
    PreviousDate(now);
    IsoDateShape(now - MsPerDay);
  }

  /**
   * For EUMETSAT the time sent never denotes an instant after `now`: a future
   * request is replaced by `now` to the second, anything else is kept.
   */
  lemma EumetsatNeverFuture(time: string, now: Instant)
    requires FourDigitYear(now)
    ensures var r := DisplayTime(Eumetsat, time, now);
      match ParseIsoSeconds(r)
      case Some(sent) => sent <= now && (r == time || sent == FloorTo(now, MsPerSecond))
      case None => r == time
    ensures ParseIsoSeconds(time).Some? && ParseIsoSeconds(time).value > now ==>
      DisplayTime(Eumetsat, time, now) == IsoSeconds(now)
    ensures ParseIsoSeconds(time).None? || ParseIsoSeconds(time).value <= now ==>
      DisplayTime(Eumetsat, time, now) == time
  {
    var r := DisplayTime(Eumetsat, time, now);
    match ParseIsoSeconds(time)
    case Some(requested) =>
      if requested > now {
        ParseIsoSecondsInverse(now);
      }
    case None =>
  }

  datatype Location = Location(latitude: real, longitude: real)

  /** How the overlay is cut into tiles and encoded. */
  datatype Tiling = Tiling(
    numLevels: nat,
    tileSize: nat,
    levelZeroDelta: Location,
    format: string,
    transparent: bool,
    coordinateSystem: string,
    fullSphere: bool)

  /** The one preset every overlay uses: few levels and 256-pixel tiles to bound tile requests per switch. */
  const OverlayTiling: Tiling := Tiling(5, 256, Location(90.0, 90.0), "image/png", true, "EPSG:4326", true)

  /** The configuration handed to the WMS layer constructor. */
  datatype LayerConfig = LayerConfig(
    title: string,
    version: string,
    service: string,
    layerNames: string,
    styleNames: string,
    tiling: Tiling)

  datatype WmsRequest = WmsRequest(config: LayerConfig, time: string)

  /** The request for the active layer, or none when no layer is active. */
  function Resolve(active: Option<LayerRecord>, time: string, now: Instant): (r: Option<WmsRequest>)
    ensures r.Some? <==> active.Some?
    ensures r.Some? ==> r.value.config.tiling == OverlayTiling
  {
    match active
    case None => None
    case Some(l) =>
      var config := LayerConfig("Active Layer", "1.1.1", ServiceAddress(l.service), l.layer,
                                if l.style == "" then "" else l.style, OverlayTiling);
      Some(WmsRequest(config, DisplayTime(l.service, time, now)))
  }

  /**
   * For every catalog layer the request goes to that layer's own service, names
   * its remote layer and style, and carries the time the service's rule gives:
   * air-quality layers pass it through, near-real-time layers never ask for the future.
   */
  lemma ResolveCatalogLayer(l: LayerRecord, time: string, now: Instant)
    requires l in Layers
    requires FourDigitYear(now)
    ensures var r := Resolve(Some(l), time, now).value;
      r.config.service == ServiceUrls[l.service] && r.config.layerNames == l.layer && r.config.styleNames == l.style
      && (l.category == "air_quality" ==> r.time == time)
      && (l.category == "weather_nrt" ==> match ParseIsoSeconds(r.time) case Some(sent) => sent <= now case None => r.time == time)
  {
    LayerServicesKnown();
    CategoryDeterminesService();
    if l.category == "weather_nrt" {
      EumetsatNeverFuture(time, now);
    }
  }
}
