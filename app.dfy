/**
 * The application shell: the timestamp derived from the time offset, the play
 * loop's offset step, category selection, the export header title, and the
 * map-export capture with its file name.
 */
module App {
  import opened Wrappers
  import opened Text
  import opened Clock
  import opened Catalog
  import opened LayerResolver
  import opened Globe

  // ---------------------------------------------------------------- time offset

  /**
   * `currentTimeISO` before rendering: for the live near-real-time case the
   * clock goes back 60 minutes and its minutes are cut to a quarter hour;
   * otherwise the hour (shifted by the offset) is cut to a multiple of three
   * and the smaller fields are zeroed.
   */
  function CurrentTime(now: Instant, offset: int, active: Option<LayerRecord>): Instant {
    if offset == 0 then
      if active.Some? && active.value.service == Eumetsat then
        var lagged := SetMinutesOnly(now, Minutes(now) - 60);
        SetMinutes(lagged, Minutes(lagged) / 15 * 15, 0, 0)
      else
        SetHours(now, Hours(now) / 3 * 3, 0, 0, 0)
    else
      SetHours(now, (Hours(now) + offset) / 3 * 3, 0, 0, 0)
  }

  /** `toISOString().split('.')[0] + 'Z'` of that instant. */
  function CurrentTimeIso(now: Instant, offset: int, active: Option<LayerRecord>): string {
    IsoSeconds(CurrentTime(now, offset, active))
  }

  predicate LiveNearRealTime(offset: int, active: Option<LayerRecord>) {
    offset == 0 && active.Some? && active.value.service == Eumetsat
  }

  /** The live near-real-time time is one hour back, cut down to a quarter hour. */
  lemma QuarterHourFloor(now: Instant)
    ensures SetMinutes(SetMinutesOnly(now, Minutes(now) - 60), Minutes(SetMinutesOnly(now, Minutes(now) - 60)) / 15 * 15, 0, 0)
            == FloorTo(now - MsPerHour, 15 * MsPerMinute)
  {
    var hour, rh := now / 3600000, now % 3600000;
    var m, sec := rh / 60000, rh % 60000;
    FloorDecompose(now, 60000, hour * 60 + m, sec);
    var lagged := SetMinutesOnly(now, Minutes(now) - 60);
    assert lagged == (hour - 1) * 3600000 + rh;
    FloorDecompose(lagged, 3600000, hour - 1, rh);
    var q, mr := m / 15, m % 15;
    FloorDecompose(lagged, 900000, (hour - 1) * 4 + q, mr * 60000 + sec);
  }

  /** Setting the hours to `floor((hours + offset) / 3) * 3` is cutting `now + offset` hours to a multiple of three hours. */
  lemma ThreeHourFloor(now: Instant, offset: int)
    ensures SetHours(now, (Hours(now) + offset) / 3 * 3, 0, 0, 0) == FloorTo(now + offset * MsPerHour, 3 * MsPerHour)
  {
    var r := now % 86400000;
    assert now == (now / 86400000) * 86400000 + r;
    var h := r / 3600000;
    assert r == h * 3600000 + r % 3600000;
    var q := (h + offset) / 3;
    assert h + offset == 3 * q + (h + offset) % 3;
    FloorDecompose(now + offset * 3600000, 10800000, now / 86400000 * 8 + q, (h + offset) % 3 * 3600000 + r % 3600000);
  }

  lemma ThreeHourFields(t: Instant)
    requires t % 10800000 == 0
    ensures Hours(t) % 3 == 0 && Minutes(t) == 0 && Seconds(t) == 0 && Millis(t) == 0
  {
    var k := t / 10800000;
    assert t == k * 10800000;
    FloorDecompose(t, 86400000, k / 8, k % 8 * 10800000);
    FloorDecompose(t, 3600000, 3 * k, 0);
    FloorDecompose(t, 60000, 180 * k, 0);
    FloorDecompose(t, 1000, 10800 * k, 0);
  }

  lemma QuarterHourFields(t: Instant)
    requires t % 900000 == 0
    ensures Minutes(t) % 15 == 0 && Seconds(t) == 0 && Millis(t) == 0
  {
    var k := t / 900000;
    assert t == k * 900000;
    FloorDecompose(t, 3600000, k / 4, k % 4 * 900000);
    FloorDecompose(t, 60000, 15 * k, 0);
    FloorDecompose(t, 1000, 900 * k, 0);
  }

  /**
   * The derived time lies on its grid and just below its target: for the live
   * near-real-time case a quarter hour at or before now minus one hour, and
   * otherwise a multiple of three hours at or before now plus the offset.
   */
  lemma CurrentTimeGrid(now: Instant, offset: int, active: Option<LayerRecord>)
    ensures var t := CurrentTime(now, offset, active);
      if LiveNearRealTime(offset, active) then
        t == FloorTo(now - MsPerHour, 15 * MsPerMinute)
        && t <= now - MsPerHour < t + 15 * MsPerMinute
        && Minutes(t) % 15 == 0 && Seconds(t) == 0 && Millis(t) == 0
      else
        t == FloorTo(now + offset * MsPerHour, 3 * MsPerHour)
        && t <= now + offset * MsPerHour < t + 3 * MsPerHour
        && Hours(t) % 3 == 0 && Minutes(t) == 0 && Seconds(t) == 0 && Millis(t) == 0
  {
    var t := CurrentTime(now, offset, active);
    if LiveNearRealTime(offset, active) {
      QuarterHourFloor(now);
      FloorDecompose(t, 900000, (now - MsPerHour) / 900000, 0);
      QuarterHourFields(t);
    } else {
      ThreeHourFloor(now, offset);
      FloorDecompose(t, 10800000, (now + offset * MsPerHour) / 10800000, 0);
      ThreeHourFields(t);
    }
  }

  /** The rendered time reads back as exactly the derived instant: nothing is lost by cutting the fraction. */
  lemma CurrentTimeIsoParses(now: Instant, offset: int, active: Option<LayerRecord>)
    requires FourDigitYear(CurrentTime(now, offset, active))
    ensures ParseIsoSeconds(CurrentTimeIso(now, offset, active)) == Some(CurrentTime(now, offset, active))
  {
    var t := CurrentTime(now, offset, active);
    CurrentTimeGrid(now, offset, active);
    WholeSecondsRoundTrip(t);
  }

  /**
   * The live near-real-time time is in the past, so the globe's clamp to the
   * wall clock never rewrites it.
   */
  lemma LiveTimeNeverClamped(now: Instant, active: LayerRecord)
    requires active.service == Eumetsat
    requires FourDigitYear(CurrentTime(now, 0, Some(active)))
    ensures DisplayTime(active.service, CurrentTimeIso(now, 0, Some(active)), now) == CurrentTimeIso(now, 0, Some(active))
  {
    CurrentTimeIsoParses(now, 0, Some(active));
    CurrentTimeGrid(now, 0, Some(active));
  }

  // ---------------------------------------------------------------- play loop

  /** Hours added per tick: one for near-real-time imagery, three otherwise. */
  function PlayIncrement(categoryId: Option<string>): (inc: int)
    ensures inc == 1 || inc == 3
  {
    if categoryId == Some("weather_nrt") then 1 else 3
  }

  /** One tick of the play loop: step forward, and past 48 hours start again at -24. */
  function PlayStep(prev: int, categoryId: Option<string>): (next: int)
    ensures next <= 48
    ensures next == -24 || next == prev + PlayIncrement(categoryId)
    ensures next == -24 <== prev + PlayIncrement(categoryId) > 48
    ensures prev + PlayIncrement(categoryId) <= 48 ==> next == prev + PlayIncrement(categoryId)
    ensures prev >= -25 ==> next >= -24
  {
    var next := prev + PlayIncrement(categoryId);
    if next > 48 then -24 else next
  }

  /** `n` ticks of the play loop. */
  function PlayRun(start: int, categoryId: Option<string>, n: nat): int {
    if n == 0 then start else PlayStep(PlayRun(start, categoryId, n - 1), categoryId)
  }

  /** Number of ticks the play loop takes to go from -24 back to -24: 73 hourly, 25 three-hourly. */
  function PlayPeriod(categoryId: Option<string>): nat {
    72 / PlayIncrement(categoryId) + 1
  }

  /** From -24 the loop climbs by its increment each tick up to +48. */
  lemma {:induction false} PlayClimb(categoryId: Option<string>, n: nat)
    requires n < PlayPeriod(categoryId)
    ensures PlayRun(-24, categoryId, n) == if PlayIncrement(categoryId) == 1 then -24 + n else -24 + 3 * n
  {
    if n > 0 {
      PlayClimb(categoryId, n - 1);
    }
  }

  /**
   * The loop is periodic: it visits every step from -24 to +48 once and returns
   * to -24 exactly after `PlayPeriod` ticks, never earlier.
   */
  lemma PlayCycle(categoryId: Option<string>)
    ensures PlayRun(-24, categoryId, PlayPeriod(categoryId)) == -24
    ensures forall n :: 0 < n < PlayPeriod(categoryId) ==> PlayRun(-24, categoryId, n) > -24
  {
    PlayTop(categoryId);
    forall n | 0 < n < PlayPeriod(categoryId) ensures PlayRun(-24, categoryId, n) > -24 {
      PlayAbove(categoryId, n);
    }
  }

  /** The last climbing tick reaches +48, and the next one wraps to -24. */
  lemma PlayTop(categoryId: Option<string>)
    ensures PlayRun(-24, categoryId, PlayPeriod(categoryId) - 1) == 48
    ensures PlayRun(-24, categoryId, PlayPeriod(categoryId)) == -24
  {
    var p := PlayPeriod(categoryId);
    assert p == if PlayIncrement(categoryId) == 1 then 73 else 25;
    PlayClimb(categoryId, p - 1);
  }

  /** Every tick before the period ends is above -24. */
  lemma PlayAbove(categoryId: Option<string>, n: nat)
    requires 0 < n < PlayPeriod(categoryId)
    ensures PlayRun(-24, categoryId, n) > -24
  {
    PlayClimb(categoryId, n);
  }

  // ---------------------------------------------------------------- selection

  /** `layers.find(l => l.category === catId)` */
  function FirstOfCategory(layers: seq<LayerRecord>, catId: string): (r: Option<LayerRecord>)
    ensures r.None? <==> forall l :: l in layers ==> l.category != catId
    ensures r.Some? ==> r.value in layers && r.value.category == catId
    ensures r.Some? ==> exists i :: 0 <= i < |layers| && layers[i] == r.value
                                  && forall j :: 0 <= j < i ==> layers[j].category != catId
  {
    if layers == [] then None
    else if layers[0].category == catId then Some(layers[0])
    else
      var r := FirstOfCategory(layers[1..], catId);
      if r.Some? then
        var i :| 0 <= i < |layers[1..]| && layers[1..][i] == r.value
                 && forall j :: 0 <= j < i ==> layers[1..][j].category != catId;
        assert layers[i + 1] == r.value;
        r
      else r
  }

  datatype Selection = Selection(categoryId: Option<string>, activeLayer: Option<LayerRecord>)

  /** `handleCategoryChange`: the category is taken; its first layer, if any, becomes active. */
  function CategoryChange(sel: Selection, layers: seq<LayerRecord>, catId: string): (r: Selection)
    ensures r.categoryId == Some(catId)
    ensures FirstOfCategory(layers, catId).None? ==> r.activeLayer == sel.activeLayer
    ensures FirstOfCategory(layers, catId).Some? ==> r.activeLayer.Some? && r.activeLayer.value.category == catId
    ensures FirstOfCategory(layers, catId).Some? ==> r.activeLayer == FirstOfCategory(layers, catId)
  {
    var first := FirstOfCategory(layers, catId);
    Selection(Some(catId), if first.Some? then first else sel.activeLayer)
  }

  /** The selection after a successful load: the first category and its first layer. */
  function InitialSelection(layers: seq<LayerRecord>, categories: seq<Category>): (r: Selection)
    ensures categories == [] ==> r == Selection(None, None)
    ensures categories != [] ==> r.categoryId == Some(categories[0].id)
    ensures categories != [] ==> r.activeLayer == FirstOfCategory(layers, categories[0].id)
  {
    if categories == [] then Selection(None, None)
    else Selection(Some(categories[0].id), FirstOfCategory(layers, categories[0].id))
  }

  /**
   * Over the catalog, choosing any declared category always activates a layer of
   * that category, and the application opens on the first air-quality layer.
   */
  lemma CatalogSelection(sel: Selection, c: Category)
    requires c in Categories
    ensures var r := CategoryChange(sel, Layers, c.id);
      r.activeLayer.Some? && r.activeLayer.value in Layers && r.activeLayer.value.category == c.id
    ensures InitialSelection(Layers, Categories) == Selection(Some("air_quality"), Some(Layers[0]))
  {
    EveryCategoryHasLayer();
  }

  // ---------------------------------------------------------------- export header

  /** Header titles of the export overlay, by layer id. */
  const Titles: map<string, string> := map[
    "pm2p5" := "POLLUTION AUX PARTICULES FINES",
    "pm10" := "CONCENTRATION DE PARTICULES GL0BALE",
    "no2" := "SURVEILLANCE DIOXYDE D'AZOTE",
    "so2" := "ÉMISSIONS SULFURIQUES & VOLCANIQUES",
    "co" := "SURVEILLANCE MONOXYDE DE CARBONE",
    "co2" := "CONCENTRATION DE CO₂ ATMOSPHÉRIQUE",
    "ch4" := "ÉMISSIONS DE MÉTHANE GLOBALES",
    "aod" := "AÉROSOLS & POUSSIÈRES DÉSERTIQUES",
    "eum_geocolour" := "IMAGERIE SATELLITE HAUTE DÉFINITION",
    "eum_ir" := "ACTIVITÉ CONVECTIVE & ORAGEUSE",
    "eum_wv" := "CIRCULATION ATMOSPHÉRIQUE (VAPEUR D'EAU)",
    "eum_kindex" := "INDICE D'INSTABILITÉ ATMOSPHÉRIQUE",
    "eum_cth" := "ANALYSE SOMMET DES NUAGES",
    "eum_eview" := "IMAGERIE MÉTÉO SATELLITAIRE (RÉGION E)",
    "eum_tropical" := "ANALYSE DES MASSES D'AIR TROPICALES"
  ]

  datatype Heading = Heading(main: string, sub: string)

  /**
   * `getDynamicTitle`: with no layer a fixed heading; otherwise the layer's
   * title from the table, else a title by category, over the layer's label,
   * both upper-cased.
   */
  function DynamicTitle(active: Option<LayerRecord>): (h: Heading)
    ensures active.None? ==> h == Heading("ATMOSPHÈRE 3D", "VUE SATELLITAIRE")
    ensures active.Some? ==> Upper(h.main) == h.main && Upper(h.sub) == h.sub
    ensures active.Some? ==> |h.sub| == |active.value.labelText| && h.sub == Upper(active.value.labelText)
    ensures active.Some? && active.value.id in Titles && Titles[active.value.id] != "" ==>
      h.main == Upper(Titles[active.value.id])
    ensures active.Some? && !(active.value.id in Titles && Titles[active.value.id] != "") ==>
      h.main == if active.value.category == "air_quality" then Upper("QUALITÉ DE L'AIR EN TEMPS RÉEL")
                else Upper("ANALYSE MÉTÉOROLOGIQUE AVANCÉE")
  {
    match active
    case None => Heading("ATMOSPHÈRE 3D", "VUE SATELLITAIRE")
    case Some(l) =>
      var main :=
        if l.id in Titles && Titles[l.id] != "" then Titles[l.id]
        else if l.category == "air_quality" then "QUALITÉ DE L'AIR EN TEMPS RÉEL"
        else "ANALYSE MÉTÉOROLOGIQUE AVANCÉE";
      UpperIdempotent(main);
      UpperIdempotent(l.labelText);
      Heading(Upper(main), Upper(l.labelText))
  }

  /** Every catalog layer has its own title: the category fallback is never used for them. */
  lemma TitlesCoverCatalog()
    ensures forall l :: l in Layers ==> l.id in Titles && Titles[l.id] != ""
  {
    LayerIds();
    TitleKeys();
    TitleValues();
    forall l | l in Layers ensures l.id in Titles {
      var i :| 0 <= i < |Layers| && Layers[i] == l;
      assert l.id == LayerIdList[i];
    }
  }

  /** Over the catalog the heading is always the layer's own table title over its label, both upper-cased. */
  lemma CatalogHeading(l: LayerRecord)
    requires l in Layers
    ensures l.id in Titles && DynamicTitle(Some(l)) == Heading(Upper(Titles[l.id]), Upper(l.labelText))
  {
    TitlesCoverCatalog();
    TitledHeading(l);
  }

  lemma TitledHeading(l: LayerRecord)
    requires l.id in Titles && Titles[l.id] != ""
    ensures DynamicTitle(Some(l)) == Heading(Upper(Titles[l.id]), Upper(l.labelText))
  {
    var h := DynamicTitle(Some(l));
    assert h.main == Upper(Titles[l.id]) && h.sub == Upper(l.labelText);
  }

  lemma TitleKeys()
    ensures forall i :: 0 <= i < |LayerIdList| ==> LayerIdList[i] in Titles
  {
  }

  lemma TitleValues()
    ensures forall k :: k in Titles ==> Titles[k] != ""
  {
  }

  // ---------------------------------------------------------------- export

  /** `s.slice(0, n)` */
  function Prefix(s: string, n: nat): (r: string)
    ensures |r| == if |s| <= n then |s| else n
    ensures r == s[..|r|]
  {
    if |s| <= n then s else s[..n]
  }

  /** The name of the downloaded export: the ISO time with ':' and '.' made '-', cut to 19 characters. */
  function ExportFilename(now: Instant): string {
    "djibouti-map-export-" + Prefix(ReplaceAll(IsoString(now), {':', '.'}, '-'), 19) + ".png"
  }

  /**
   * For years 0000..9999 the stamp in the name is the second-precision ISO time
   * without its 'Z', with ':' made '-': `YYYY-MM-DDTHH-mm-ss`, nothing else.
   */
  lemma ExportFilenameShape(now: Instant)
    requires FourDigitYear(now)
    ensures var stamp := ReplaceAll(DateText(DateOf(now)) + "T" + ClockText(now), {':'}, '-');
      ExportFilename(now) == "djibouti-map-export-" + stamp + ".png"
      && |stamp| == 19 && ':' !in stamp && '.' !in stamp
      && stamp[..10] == DateText(DateOf(now)) && stamp[10] == 'T' && stamp[13] == '-' && stamp[16] == '-'
  {
    IsoSecondsShape(now);
    ClockTextShape(now);
    DateTextShape(DateOf(now));
    ExportStamp(DateText(DateOf(now)), ClockText(now), Pad(Millis(now), 3), DateOf(now), Hours(now), Minutes(now), Seconds(now));
  }

  /** The stamp cut from the ISO text `dTc.mZ` is `dTc` with ':' made '-'. */
  lemma ExportStamp(d: string, c: string, m: string, date: Date, h: int, mi: int, sec: int)
    requires DateShape(d, date) && ClockShape(c, h, mi, sec)
    ensures var stamp := ReplaceAll(d + "T" + c, {':'}, '-');
      Prefix(ReplaceAll(d + "T" + c + "." + m + "Z", {':', '.'}, '-'), 19) == stamp
      && |stamp| == 19 && ':' !in stamp && '.' !in stamp
      && stamp[..10] == d && stamp[10] == 'T' && stamp[13] == '-' && stamp[16] == '-'
  {
    var seconds := d + "T" + c + "Z";
    CutFraction(d, c, m);
    assert seconds[..10] == d && seconds[11..19] == c && seconds[..19] == d + "T" + c;
    StampOf(d + "T" + c + "." + m + "Z", seconds, d, c);
  }

  /** The file-name stamp cut from an ISO text is its second-precision form with ':' made '-'. */
  lemma StampOf(iso: string, seconds: string, d: string, c: string)
    requires seconds == BeforeFirst(iso, '.') + "Z" && |seconds| == 20
    requires seconds[..10] == d && seconds[10] == 'T' && seconds[11..19] == c
    requires |d| == 10 && AllDigitsBut(d, {4, 7}) && d[4] == '-' && d[7] == '-'
    requires |c| == 8 && AllDigitsBut(c, {2, 5}) && c[2] == ':' && c[5] == ':'
    ensures var stamp := ReplaceAll(seconds[..19], {':'}, '-');
      Prefix(ReplaceAll(iso, {':', '.'}, '-'), 19) == stamp
      && |stamp| == 19 && ':' !in stamp && '.' !in stamp
      && stamp[..10] == d && stamp[10] == 'T' && stamp[13] == '-' && stamp[16] == '-'
  {
    SecondsPrefix(iso, seconds);
    ReplacePrefix(iso, 19);
    var head := seconds[..19];
    assert head[..10] == d && head[11..19] == c;
    StampFields(head, d, c);
  }

  /** The text before the first '.', plus a 'Z', of 20 characters: its first 19 are the original's and hold no '.'. */
  lemma SecondsPrefix(iso: string, seconds: string)
    requires seconds == BeforeFirst(iso, '.') + "Z" && |seconds| == 20
    ensures |iso| >= 19 && seconds[..19] == iso[..19] && '.' !in iso[..19]
  {
    assert BeforeFirst(iso, '.') == seconds[..19];
  }

  /** Cutting then replacing is replacing then cutting, and a '.' cannot occur in the part kept. */
  lemma ReplacePrefix(s: string, n: nat)
    requires n <= |s| && '.' !in s[..n]
    ensures Prefix(ReplaceAll(s, {':', '.'}, '-'), n) == ReplaceAll(s[..n], {':'}, '-')
  {
    var r := ReplaceAll(s, {':', '.'}, '-');
    var cut := ReplaceAll(s[..n], {':'}, '-');
    assert Prefix(r, n) == r[..n];
    forall i | 0 <= i < n ensures r[i] == cut[i] {
      assert s[..n][i] == s[i];
      assert s[i] != '.' by {
        assert s[..n][i] in s[..n];
      }
    }
    assert r[..n] == cut;
  }

  lemma StampFields(head: string, d: string, c: string)
    requires |head| == 19 && |d| == 10 && |c| == 8
    requires head[..10] == d && head[10] == 'T' && head[11..19] == c
    requires AllDigitsBut(d, {4, 7}) && d[4] == '-' && d[7] == '-'
    requires AllDigitsBut(c, {2, 5}) && c[2] == ':' && c[5] == ':'
    requires '.' !in head
    ensures var stamp := ReplaceAll(head, {':'}, '-');
      |stamp| == 19 && ':' !in stamp && '.' !in stamp
      && stamp[..10] == d && stamp[10] == 'T' && stamp[13] == '-' && stamp[16] == '-'
  {
    var stamp := ReplaceAll(head, {':'}, '-');
    forall i | 0 <= i < 10 ensures stamp[i] == d[i] {
      assert head[i] == d[i];
      assert d[i] != ':' by {
        if i != 4 && i != 7 {
          assert IsDigit(d[i]);
        }
      }
    }
    assert head[13] == c[2] && head[16] == c[5];
    assert '.' !in stamp by {
      forall i | 0 <= i < 19 ensures stamp[i] != '.' {
        assert head[i] != '.' by {
          assert head[i] in head;
        }
      }
    }
  }

  const Background: string := "#020617"

  /** One drawing step on the export canvas. */
  datatype Draw =
    | FillRect(color: string, area: Size)
    | DrawStretched(image: Snapshot, area: Size)
    | DrawOverlay(overlay: Size)

  datatype Composite = Composite(size: Size, steps: seq<Draw>)

  /**
   * The export image: a canvas the size of the rasterised overlay, filled with
   * the background colour, the globe snapshot stretched over all of it when
   * there is one, and the overlay drawn on top at its own size.
   */
  function Compose(globe: Option<Snapshot>, overlay: Size): (c: Composite)
    ensures c.size == overlay
    ensures |c.steps| >= 2 && c.steps[0] == FillRect(Background, overlay) && c.steps[|c.steps| - 1] == DrawOverlay(overlay)
    ensures forall i :: 0 < i < |c.steps| - 1 ==> globe.Some? && c.steps[i] == DrawStretched(globe.value, overlay)
    ensures globe.Some? ==> DrawStretched(globe.value, overlay) in c.steps
  {
    Composite(overlay, [FillRect(Background, overlay)]
      + (if globe.Some? then [DrawStretched(globe.value, overlay)] else [])
      + [DrawOverlay(overlay)])
  }

  datatype Download = Download(filename: string, image: Composite)

  /** The export button: the capture flag, which also shows the export overlay, and the files produced. */
  class Exporter {
    var isCapturing: bool
    var downloads: seq<Download>

    constructor ()
      ensures !isCapturing && downloads == []
    {
      isCapturing := false;
      downloads := [];
    }

    /** The export overlay is in the page exactly while capturing. */
    function OverlayShown(): (shown: bool)
      reads this
      ensures shown == isCapturing
    {
      isCapturing
    }

    /** `handleCapture` itself: capture mode is entered and the 200 ms timer started. */
    method Click()
      modifies this
      ensures isCapturing && downloads == old(downloads)
    {
      isCapturing := true;
    }

    /**
     * The 200 ms timer of a capture. The overlay can only be rasterised while it
     * is shown; if that fails, or the globe snapshot fails to load, nothing is
     * downloaded. Either way capture mode ends.
     */
    method CaptureTimer(globe: Option<Snapshot>, rasterised: Option<Size>, mapLoads: bool, now: Instant)
      modifies this
      ensures !isCapturing
      ensures var ok := old(isCapturing) && rasterised.Some? && (globe.None? || mapLoads);
        downloads == old(downloads) + (if ok then [Download(ExportFilename(now), Compose(globe, rasterised.value))] else [])
    {
      var overlay := if OverlayShown() then rasterised else None;
      if overlay.Some? && (globe.None? || mapLoads) {
        var image := Compose(globe, overlay.value);
        downloads := downloads + [Download(ExportFilename(now), image)];
      }
      isCapturing := false;
    }
  }

  /**
   * A capture with a working overlay: capture mode is on while the timer is
   * pending, off afterwards, and exactly one file is saved, named after the
   * time and the size of the overlay.
   */
  method CaptureOnce(globe: Option<Snapshot>, overlay: Size, now: Instant)
    returns (during: bool, after: bool, files: seq<Download>)
    ensures during && !after
    ensures |files| == 1 && files[0].filename == ExportFilename(now) && files[0].image.size == overlay
  {
    var exporter := new Exporter();
    exporter.Click();
    during := exporter.OverlayShown();
    exporter.CaptureTimer(globe, Some(overlay), true, now);
    after := exporter.OverlayShown();
    files := exporter.downloads;
  }

  /**
   * Two clicks whose timers both run after the first capture ended: the second
   * timer finds the overlay gone and saves nothing.
   */
  method DoubleClick(globe: Option<Snapshot>, overlay: Size, now: Instant) returns (files: nat)
    ensures files == 1
  {
    var exporter := new Exporter();
    exporter.Click();
    exporter.Click();
    exporter.CaptureTimer(globe, Some(overlay), true, now);
    exporter.CaptureTimer(globe, Some(overlay), true, now);
    files := |exporter.downloads|;
  }
}
