/**
 * The static catalog of the front end: the two layer categories, the fifteen
 * remote layers and the table of remote map-service addresses. It is the domain
 * the layer resolver and the category selector work over.
 */
module Catalog {
  import opened Wrappers

  datatype Category = Category(id: string, name: string, icon: string)

  /**
   * A layer descriptor: `layer` is the remote layer name, `service` a key of
   * `ServiceUrls`, `labelText` the source's `label` field and `legend` the
   * source's `legend_url`, kept as the parts its address is built from.
   */
  datatype LayerRecord = LayerRecord(
    id: string,
    category: string,
    name: string,
    labelText: string,
    layer: string,
    style: string,
    service: string,
    legend: Option<Legend>,
    description: string)

  const Categories: seq<Category> := [
    Category("air_quality", "Qualité de l'Air", "Wind"),
    Category("weather_nrt", "Météorologie NRT", "Zap")
  ]

  /** A legend image: the ECMWF legend of a layer and style, or the EUMETSAT legend graphic of a layer. */
  datatype Legend = CamsLegend(layer: string, style: string) | EumetsatLegend(layer: string)

  /** The `legend_url` written in the catalog for a legend. */
  function LegendUrl(g: Legend): string {
    match g
    case CamsLegend(layer, style) =>
      "https://eccharts.ecmwf.int/wms/?token=public&request=GetLegend&layers=" + layer + "&styles=" + style + "&width=350&height=50"
    case EumetsatLegend(layer) =>
      "https://view.eumetsat.int/geoserver/wms?service=WMS&version=1.1.1&request=GetLegendGraphic&format=image/png&layer=" + layer
  }

  const Layers: seq<LayerRecord> := [
    // Air quality (ECMWF / CAMS)
    LayerRecord("pm2p5", "air_quality", "PM2.5", "PM2.5 (µg/m³)", "composition_pm2p5", "sh_all_pm2p5_defra_daqi",
      "ecmwf", Some(CamsLegend("composition_pm2p5", "sh_all_pm2p5_defra_daqi")), "Particules fines < 2.5 µm"),
    LayerRecord("pm10", "air_quality", "PM10", "PM10 (µg/m³)", "composition_pm10", "sh_all_pm10_defra_daqi",
      "ecmwf", Some(CamsLegend("composition_pm10", "sh_all_pm10_defra_daqi")), "Particules < 10 µm"),
    LayerRecord("no2", "air_quality", "NO₂", "Dioxyde d’azote (NO₂, ppbv)", "composition_no2_surface", "sh_all_no2_surface",
      "ecmwf", Some(CamsLegend("composition_no2_surface", "sh_all_no2_surface")), "Dioxyde d’azote en surface"),
    LayerRecord("so2", "air_quality", "SO₂", "Dioxyde de soufre (SO₂, ppbv)", "composition_so2_surface", "sh_all_so2_surface",
      "ecmwf", Some(CamsLegend("composition_so2_surface", "sh_all_so2_surface")), "Dioxyde de soufre en surface"),
    LayerRecord("co", "air_quality", "CO", "Monoxyde de carbone (CO, ppbv)", "composition_co_surface", "sh_YlGnBu_co_upper",
      "ecmwf", Some(CamsLegend("composition_co_surface", "sh_YlGnBu_co_upper")), "Monoxyde de carbone en surface"),
    LayerRecord("co2", "air_quality", "CO₂", "Dioxyde de carbone (CO₂, ppmv)", "composition_co2_surface", "sh_nipy_spectral_co2_surface",
      "ecmwf", Some(CamsLegend("composition_co2_surface", "sh_nipy_spectral_co2_surface")), "Concentration de CO2 en surface"),
    LayerRecord("ch4", "air_quality", "CH₄", "Méthane (CH₄, ppbv)", "composition_ch4_surface", "sh_Oranges1_ch4_surface",
      "ecmwf", Some(CamsLegend("composition_ch4_surface", "sh_Oranges1_ch4_surface")), "Méthane en surface"),
    LayerRecord("aod", "air_quality", "Aérosole (AOD)", "Profondeur optique (AOD)", "composition_aod550", "sh_BuYlRd_aod",
      "ecmwf", Some(CamsLegend("composition_aod550", "sh_BuYlRd_aod")), "Charge totale d'aérosols"),
    // Near-real-time meteorology (EUMETSAT)
    LayerRecord("eum_geocolour", "weather_nrt", "Couleur Naturelle", "MTG GeoColour", "mtg_fd:rgb_geocolour", "raster",
      "eumetsat", None, "Vue satellite couleur naturelle (MTG)"),
    LayerRecord("eum_ir", "weather_nrt", "Infrarouge (IR)", "Meteosat IR 10.8 µm", "msg_fes:ir108", "raster",
      "eumetsat", None, "Température des sommets nuageux"),
    LayerRecord("eum_wv", "weather_nrt", "Vapeur d'eau", "Meteosat WV 6.2 µm", "msg_fes:wv062", "raster",
      "eumetsat", None, "Humidité de la haute atmosphère"),
    LayerRecord("eum_kindex", "weather_nrt", "Indice K", "GII K-Index", "msg_iodc:gii_kindex", "raster",
      "eumetsat", Some(EumetsatLegend("msg_iodc:gii_kindex")), "Indice de stabilité atmosphérique"),
    LayerRecord("eum_cth", "weather_nrt", "Hauteur Nuages", "Cloud Top Height", "msg_fes:cth", "raster",
      "eumetsat", Some(EumetsatLegend("msg_fes:cth")), "Altitude du sommet des nuages"),
    LayerRecord("eum_eview", "weather_nrt", "Vue Haute Res", "E-View RGB (Europe)", "msg_fes:rgb_eview", "raster",
      "eumetsat", None, "Combinaison HRV et Infrarouge"),
    LayerRecord("eum_tropical", "weather_nrt", "Masse d'air", "Tropical Airmass", "msg_fes:rgb_tropicalairmass", "raster",
      "eumetsat", None, "Analyse des masses d'air tropicales")
  ]

  const ServiceUrls: map<string, string> := map[
    "ecmwf" := "https://eccharts.ecmwf.int/wms/?token=public",
    "nasa_gibs" := "https://gibs.earthdata.nasa.gov/wms/epsg4326/best/wms.cgi",
    "eumetsat" := "https://view.eumetsat.int/geoserver/wms"
  ]

  /** The ids of the catalog, in order. */
  const LayerIdList: seq<string> := ["pm2p5", "pm10", "no2", "so2", "co", "co2", "ch4", "aod",
    "eum_geocolour", "eum_ir", "eum_wv", "eum_kindex", "eum_cth", "eum_eview", "eum_tropical"]

  predicate IsCategory(id: string) {
    exists c :: c in Categories && c.id == id
  }

  /** A few features of an id that already tell the catalog's ids apart. */
  function IdSignature(id: string): (int, char, char, char)
    requires |id| >= 2
  {
    (|id|, id[0], id[1], id[|id| - 1])
  }

  lemma LayerIds()
    ensures |Layers| == |LayerIdList|
    ensures forall i :: 0 <= i < |Layers| ==> Layers[i].id == LayerIdList[i]
  {
    forall i | 0 <= i < |Layers| ensures Layers[i].id == LayerIdList[i] {
    }
  }

  /** No two layers share an id. */
  lemma LayerIdsDistinct()
    ensures forall i, j :: 0 <= i < j < |Layers| ==> Layers[i].id != Layers[j].id
  {
    LayerIds();
    IdListDistinct();
  }

  lemma IdListDistinct()
    ensures forall i, j :: 0 <= i < j < |LayerIdList| ==> LayerIdList[i] != LayerIdList[j]
  {
    forall i, j | 0 <= i < j < |LayerIdList| ensures LayerIdList[i] != LayerIdList[j] {
      assert IdSignature(LayerIdList[i]) != IdSignature(LayerIdList[j]);
    }
  }

  /** Every layer belongs to one of the declared categories. */
  lemma LayerCategoriesDeclared()
    ensures forall l :: l in Layers ==> IsCategory(l.category)
  {
    CategoryDeterminesService();
    assert Categories[0].id == "air_quality" && Categories[1].id == "weather_nrt";
    forall l | l in Layers ensures IsCategory(l.category) {
      if l.category == "air_quality" {
        assert Categories[0] in Categories;
      } else {
        assert Categories[1] in Categories;
      }
    }
  }

  /** Every layer names a service the address table knows, so the resolver's fallback is never taken for them. */
  lemma LayerServicesKnown()
    ensures forall l :: l in Layers ==> l.service in ServiceUrls && ServiceUrls[l.service] != ""
  {
    CategoryDeterminesService();
    assert "ecmwf" in ServiceUrls && ServiceUrls["ecmwf"] != "";
    assert "eumetsat" in ServiceUrls && ServiceUrls["eumetsat"] != "";
  }

  /** Air-quality layers come from ECMWF and near-real-time layers from EUMETSAT. */
  lemma CategoryDeterminesService()
    ensures forall l :: l in Layers ==>
      ((l.category == "air_quality" && l.service == "ecmwf") || (l.category == "weather_nrt" && l.service == "eumetsat"))
  {
    forall i | 0 <= i < |Layers|
      ensures (Layers[i].category == "air_quality" && Layers[i].service == "ecmwf")
           || (Layers[i].category == "weather_nrt" && Layers[i].service == "eumetsat")
    {
    }
  }

  /** Each category has a layer; the first air-quality layer is listed first and the first near-real-time one ninth. */
  lemma EveryCategoryHasLayer()
    ensures forall c :: c in Categories ==> exists l :: l in Layers && l.category == c.id
    ensures Layers[0].category == "air_quality" && Layers[8].category == "weather_nrt"
    ensures forall i :: 0 <= i < 8 ==> Layers[i].category == "air_quality"
  {
    AirQualityFirst();
    forall c | c in Categories ensures exists l :: l in Layers && l.category == c.id {
      if c == Categories[0] {
        assert Layers[0] in Layers;
      } else {
        assert c == Categories[1];
        assert Layers[8] in Layers;
      }
    }
  }

  lemma AirQualityFirst()
    ensures Layers[0].category == "air_quality" && Layers[8].category == "weather_nrt"
    ensures forall i :: 0 <= i < 8 ==> Layers[i].category == "air_quality"
  {
    forall i | 0 <= i < 8 ensures Layers[i].category == "air_quality" {
    }
  }
}
