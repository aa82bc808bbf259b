/** The settings panel's bookkeeping: the stored dither settings merged
    over defaults and pushed into the background through its setters, the
    per-page colour overrides with their legacy-key migration, and the
    `aria-current` pass over the navigation links. Local storage is the two
    map fields of `SettingsPanel`; a setting's value is the number the panel
    passes on. */
module Settings {
  import opened StringUtil
  import opened PageConfig
  import opened Location
  import opened Background

  /** `DEFAULTS`. */
  const Defaults: map<string, real> := map[
    "patternSeed" := 0.0, "cellSize" := 4.0, "toneLow" := 0.4, "toneHigh" := 0.6,
    "twoToneMode" := 1.0, "shapeType" := 0.0, "parallaxScale" := 1.0, "animSpeed" := 1.0]

  function Get<V>(m: map<string, V>, k: string): Option<V> {
    if k in m then Some(m[k]) else None
  }

  /** The `setAppearance` argument of `applySettings`: the tone fields that
      are present, no colours. */
  function SettingsAppearance(m: map<string, real>): (a: Appearance)
    ensures a.background.None? && a.dot.None? && a.dot2.None?
    ensures a.twoToneMode == Get(m, "twoToneMode") && a.toneLow == Get(m, "toneLow") && a.toneHigh == Get(m, "toneHigh")
  {
    Appearance(None, None, None, Get(m, "twoToneMode"), Get(m, "toneLow"), Get(m, "toneHigh"))
  }

  /** The uniforms after `applySettings` with merged settings `m`: each
      setter runs only for a key that is present. */
  function SettingsUniforms(u: Uniforms, m: map<string, real>): (r: Uniforms)
    ensures r.patternSeed == (if "patternSeed" in m then m["patternSeed"] else u.patternSeed)
    ensures r.cellSize == (if "cellSize" in m && m["cellSize"] > 0.0 then m["cellSize"] else u.cellSize)
    ensures r.parallaxScale == (if "parallaxScale" in m then Max(0.0, m["parallaxScale"]) else u.parallaxScale)
    ensures r.shapeType == (if "shapeType" in m then m["shapeType"] else u.shapeType)
    ensures r.twoToneMode == (if "twoToneMode" in m then m["twoToneMode"] else u.twoToneMode)
    ensures r.toneLow == (if "toneLow" in m then m["toneLow"] else u.toneLow)
    ensures r.toneHigh == (if "toneHigh" in m then m["toneHigh"] else u.toneHigh)
    ensures r == u.(patternSeed := r.patternSeed, cellSize := r.cellSize, parallaxScale := r.parallaxScale,
                    shapeType := r.shapeType, twoToneMode := r.twoToneMode, toneLow := r.toneLow,
                    toneHigh := r.toneHigh)
  {
    var u1 := if "patternSeed" in m then u.(patternSeed := m["patternSeed"]) else u;
    var u2 := if "cellSize" in m then WithCellSize(u1, m["cellSize"]) else u1;
    var u3 := if "parallaxScale" in m then WithParallaxScale(u2, m["parallaxScale"]) else u2;
    var u4 := if "shapeType" in m then u3.(shapeType := m["shapeType"]) else u3;
    WithAppearance(u4, SettingsAppearance(m))
  }

  /** Applied to the defaults, the settings give back the uniforms the
      background starts with (before a page's configuration). */
  lemma DefaultsMatchInitial(u: Uniforms, width: real, height: real)
    ensures var init := InitialUniforms(width, height);
            var r := SettingsUniforms(u, Defaults);
            r.patternSeed == init.patternSeed && r.cellSize == init.cellSize
            && r.parallaxScale == init.parallaxScale && r.shapeType == init.shapeType
            && r.twoToneMode == init.twoToneMode && r.toneLow == init.toneLow && r.toneHigh == init.toneHigh
  {
    assert "patternSeed" in Defaults && Defaults["patternSeed"] == 0.0;
    assert "cellSize" in Defaults && Defaults["cellSize"] == 4.0;
    assert "parallaxScale" in Defaults && Defaults["parallaxScale"] == 1.0;
    assert "shapeType" in Defaults && Defaults["shapeType"] == 0.0;
    assert "twoToneMode" in Defaults && Defaults["twoToneMode"] == 1.0;
    assert "toneLow" in Defaults && Defaults["toneLow"] == 0.4;
    assert "toneHigh" in Defaults && Defaults["toneHigh"] == 0.6;
  }

  /** Settings that hold every key decide those uniforms alone: what the
      uniforms held before does not matter (for the cell size, as long as
      the stored one is positive). */
  lemma FullSettingsDecide(u: Uniforms, v: Uniforms, m: map<string, real>)
    requires Defaults.Keys <= m.Keys && m["cellSize"] > 0.0
    ensures var a, b := SettingsUniforms(u, m), SettingsUniforms(v, m);
            a.patternSeed == b.patternSeed && a.cellSize == b.cellSize && a.parallaxScale == b.parallaxScale
            && a.shapeType == b.shapeType && a.twoToneMode == b.twoToneMode && a.toneLow == b.toneLow
            && a.toneHigh == b.toneHigh
  {
    assert "patternSeed" in Defaults && "cellSize" in Defaults && "parallaxScale" in Defaults && "shapeType" in Defaults;
    assert "twoToneMode" in Defaults && "toneLow" in Defaults && "toneHigh" in Defaults;
  }

  /** What `initInputs` applies once the background is ready: the
      defaults merged with the stored settings. Whatever pattern seed, shape
      and cell size the page's own configuration gave the uniforms, they
      become the stored ones, else the defaults 0, 0 and 4. */
  lemma LoadReplacesPageLayout(u: Uniforms, stored: map<string, real>)
    ensures var r := SettingsUniforms(u, Defaults + stored);
            r.patternSeed == (if "patternSeed" in stored then stored["patternSeed"] else 0.0)
            && r.shapeType == (if "shapeType" in stored then stored["shapeType"] else 0.0)
            && r.cellSize == (if "cellSize" !in stored then 4.0
                              else if stored["cellSize"] > 0.0 then stored["cellSize"] else u.cellSize)
  {
    var m := Defaults + stored;
    assert "patternSeed" in Defaults && Defaults["patternSeed"] == 0.0;
    assert "cellSize" in Defaults && Defaults["cellSize"] == 4.0;
    assert "shapeType" in Defaults && Defaults["shapeType"] == 0.0;
    assert m["patternSeed"] == if "patternSeed" in stored then stored["patternSeed"] else 0.0;
    assert m["shapeType"] == if "shapeType" in stored then stored["shapeType"] else 0.0;
    assert m["cellSize"] == if "cellSize" in stored then stored["cellSize"] else 4.0;
  }

  /** Overlaying defaults by stored settings and then merging the result
      over the stored settings again gives the overlay. */
  lemma MergeAbsorbs(stored: map<string, real>, d: map<string, real>)
    ensures stored + (d + stored) == d + stored
  {
    var l, r := stored + (d + stored), d + stored;
    assert l.Keys == r.Keys;
    forall k | k in l ensures l[k] == r[k] {
    }
  }

  /** The colours a page's override entry gives `setAppearance`: `bg`,
      `dotPrimary` and `dotSecondary` when they are non-empty. */
  function OverrideAppearance(o: map<string, Hex>): (a: Appearance)
    ensures a.background == (if Truthy(Get(o, "bg")) then Some(o["bg"]) else None)
    ensures a.dot == (if Truthy(Get(o, "dotPrimary")) then Some(o["dotPrimary"]) else None)
    ensures a.dot2 == (if Truthy(Get(o, "dotSecondary")) then Some(o["dotSecondary"]) else None)
    ensures a.twoToneMode.None? && a.toneLow.None? && a.toneHigh.None?
    ensures a == NoAppearance <==> !Mapped(o)
  {
    Appearance(if Truthy(Get(o, "bg")) then Some(o["bg"]) else None,
               if Truthy(Get(o, "dotPrimary")) then Some(o["dotPrimary"]) else None,
               if Truthy(Get(o, "dotSecondary")) then Some(o["dotSecondary"]) else None,
               None, None, None)
  }

  /** Some override key is mapped onto an appearance field. */
  predicate Mapped(o: map<string, Hex>) {
    Truthy(Get(o, "bg")) || Truthy(Get(o, "dotPrimary")) || Truthy(Get(o, "dotSecondary"))
  }

  /** An entry from before the unified `bg` key: no `bg`, but a dark or
      light background. */
  predicate NeedsMigration(o: map<string, Hex>) {
    !Truthy(Get(o, "bg")) && (Truthy(Get(o, "bgDark")) || Truthy(Get(o, "bgLight")))
  }

  /** The migration of `initColorInputs`: `bg` becomes the dark background,
      else the light one, and both legacy keys go; any other key stays. */
  function Migrate(o: map<string, Hex>): (r: map<string, Hex>)
    ensures !NeedsMigration(o) ==> r == o
    ensures NeedsMigration(o) ==> "bg" in r && "bgDark" !in r && "bgLight" !in r && r["bg"] != ""
    ensures NeedsMigration(o) && Truthy(Get(o, "bgDark")) ==> r["bg"] == o["bgDark"]
    ensures NeedsMigration(o) && !Truthy(Get(o, "bgDark")) ==> r["bg"] == o["bgLight"]
    ensures forall k :: k != "bg" && k != "bgDark" && k != "bgLight" ==> Get(r, k) == Get(o, k)
  {
    if NeedsMigration(o) then
      var bg := OrElse(Get(o, "bgDark"), OrElse(Get(o, "bgLight"), ""));
      (o - {"bgDark", "bgLight"})["bg" := bg]
    else o
  }

  /** A migrated entry needs no further migration. */
  lemma MigrateOnce(o: map<string, Hex>)
    ensures !NeedsMigration(Migrate(o))
    ensures Migrate(Migrate(o)) == Migrate(o)
  {
    if NeedsMigration(o) {
      assert Get(Migrate(o), "bg") == Some(Migrate(o)["bg"]);
    }
  }

  /** The links `aria-current` marks: those whose `href` is the current
      page. */
  method MarkCurrentLinks(hrefs: seq<string>, path: string, marked: array<bool>)
    requires marked.Length == |hrefs|
    modifies marked
    ensures forall i :: 0 <= i < |hrefs| ==> (marked[i] <==> hrefs[i] == PageKey(path))
  {
    var currentPage := PageKey(path);
    for i := 0 to |hrefs|
      invariant forall j :: 0 <= j < i ==> (marked[j] <==> hrefs[j] == currentPage)
    {
      var href := hrefs[i];
      marked[i] := href == currentPage || (currentPage == "" && href == "index.html");
    }
  }

  /** The setter calls of `applySettings` for the merged settings `m`. */
  method PushSettings(m: map<string, real>, bg: BayerDitherBackground)
    requires bg.Valid()
    modifies bg`u, bg`userSpeedMultiplier
    ensures bg.Valid()
    ensures bg.u == SettingsUniforms(old(bg.u), m)
    ensures bg.userSpeedMultiplier == (if "animSpeed" in m then SpeedMultiplier(m["animSpeed"]) else old(bg.userSpeedMultiplier))
  {
    ghost var u0 := bg.u;
    if "patternSeed" in m {
      bg.SetPatternSeed(m["patternSeed"]);
    }
    ghost var u1 := bg.u;
    assert u1 == if "patternSeed" in m then u0.(patternSeed := m["patternSeed"]) else u0;
    if "cellSize" in m {
      bg.SetCellSize(m["cellSize"]);
    }
    ghost var u2 := bg.u;
    assert u2 == if "cellSize" in m then WithCellSize(u1, m["cellSize"]) else u1;
    if "parallaxScale" in m {
      bg.SetParallaxScale(m["parallaxScale"]);
    }
    ghost var u3 := bg.u;
    assert u3 == if "parallaxScale" in m then WithParallaxScale(u2, m["parallaxScale"]) else u2;
    if "animSpeed" in m {
      bg.SetAnimationSpeed(m["animSpeed"]);
    }
    assert bg.u == u3;
    if "shapeType" in m {
      bg.SetShapeType(m["shapeType"]);
    }
    ghost var u4 := bg.u;
    assert u4 == if "shapeType" in m then u3.(shapeType := m["shapeType"]) else u3;
    bg.SetAppearance(SettingsAppearance(m));
  }

  class SettingsPanel {
    /** The `ta-dither-settings-v1` entry of local storage. */
    var settings: map<string, real>
    /** The `ta-page-color-overrides-v1` entry: per page file, its colour
      overrides by key. */
    var overrides: map<string, map<string, Hex>>
    /** `currentPageFile()`. */
    const page: string

    constructor (settings: map<string, real>, overrides: map<string, map<string, Hex>>, path: string)
      ensures this.settings == settings && this.overrides == overrides && page == PageKey(path)
    {
      this.settings := settings;
      this.overrides := overrides;
      page := PageKey(path);
    }

    /** This page's override entry, or an empty one. */
    function PageOverrides(): map<string, Hex>
      reads this
    {
      if page in overrides then overrides[page] else map[]
    }

    /** `applySettings`: without a background nothing happens; otherwise the
      partial settings are merged over the stored ones and saved, and each
      present key goes to its setter. */
    method ApplySettings(partial: map<string, real>, bg: BayerDitherBackground?)
      requires bg != null ==> bg.Valid()
      modifies this`settings, bg
      ensures bg == null ==> settings == old(settings)
      ensures bg != null ==> settings == old(settings) + partial && bg.Valid()
      ensures bg != null ==> bg.u == SettingsUniforms(old(bg.u), settings)
      ensures bg != null ==>
                bg.userSpeedMultiplier == (if "animSpeed" in settings then SpeedMultiplier(settings["animSpeed"])
                                           else old(bg.userSpeedMultiplier))
      ensures bg != null ==> unchanged(bg`time, bg`timeScale, bg`scrollTarget, bg`scrollCurrent, bg`lastTimestamp,
                                       bg`pixelRatio, bg`lastPixelRatio)
    {
      if bg == null {
        return;
      }
      var merged := settings + partial;
      settings := merged;
      PushSettings(merged, bg);
    }

    /** `initInputs`: the defaults overlaid by the stored settings are
      applied, and so stored. */
    method InitInputs(bg: BayerDitherBackground?)
      requires bg != null ==> bg.Valid()
      modifies this`settings, bg
      ensures bg == null ==> settings == old(settings)
      ensures bg != null ==> settings == Defaults + old(settings) && bg.Valid()
      ensures bg != null ==> bg.u == SettingsUniforms(old(bg.u), Defaults + old(settings))
      ensures bg != null ==> bg.userSpeedMultiplier == SpeedMultiplier((Defaults + old(settings))["animSpeed"])
    {
      assert "animSpeed" in Defaults;
      var s := Defaults + settings;
      MergeAbsorbs(settings, Defaults);
      ApplySettings(s, bg);
    }

    /** The reset button: the defaults are stored and applied. */
    method Reset(bg: BayerDitherBackground?)
      requires bg != null ==> bg.Valid()
      modifies this`settings, bg
      ensures settings == Defaults
      ensures bg != null ==> bg.Valid() && bg.u == SettingsUniforms(old(bg.u), Defaults)
      ensures bg != null ==> bg.userSpeedMultiplier == 1.0
    {
      settings := Defaults;
      assert Defaults + Defaults == Defaults;
      assert "animSpeed" in Defaults && Defaults["animSpeed"] == 1.0;
      InitInputs(bg);
    }

    /** A settings slider moved: that one key is applied. */
    method OnSettingInput(key: string, value: real, bg: BayerDitherBackground?)
      requires bg != null ==> bg.Valid()
      modifies this`settings, bg
      ensures bg == null ==> settings == old(settings)
      ensures bg != null ==> settings == old(settings)[key := value] && bg.Valid()
      ensures bg != null ==> bg.u == SettingsUniforms(old(bg.u), settings)
    {
      ApplySettings(map[key := value], bg);
    }

    /** `applyPageColorOverrides`: this page's override colours, if it has
      an entry with a mapped key. */
    method ApplyPageColorOverrides(bg: BayerDitherBackground?)
      requires bg != null ==> bg.Valid()
      modifies bg
      ensures bg != null ==> bg.Valid()
      ensures bg != null && page in overrides ==> bg.u == WithAppearance(old(bg.u), OverrideAppearance(overrides[page]))
      ensures bg != null && page !in overrides ==> bg.u == old(bg.u)
      ensures bg != null ==> unchanged(bg`time, bg`timeScale, bg`userSpeedMultiplier, bg`scrollTarget,
                                       bg`scrollCurrent, bg`lastTimestamp, bg`pixelRatio, bg`lastPixelRatio)
    {
      if bg == null {
        return;
      }
      if page !in overrides {
        return;
      }
      var o := overrides[page];
      var apply := OverrideAppearance(o);
      if Mapped(o) {
        bg.SetAppearance(apply);
      }
    }

    /** The migration step of `initColorInputs`. */
    method InitColorInputs()
      modifies this`overrides
      ensures NeedsMigration(old(PageOverrides())) ==> overrides == old(overrides)[page := Migrate(old(PageOverrides()))]
      ensures !NeedsMigration(old(PageOverrides())) ==> overrides == old(overrides)
      ensures !NeedsMigration(PageOverrides())
    {
      var o := PageOverrides();
      if NeedsMigration(o) {
        o := Migrate(o);
        overrides := overrides[page := o];
      }
      MigrateOnce(old(PageOverrides()));
    }

    /** A colour picker changed: the key is stored in this page's entry and
      the page's overrides are applied. */
    method OnColorInput(key: string, value: Hex, bg: BayerDitherBackground?)
      requires bg != null ==> bg.Valid()
      modifies this`overrides, bg
      ensures overrides == old(overrides)[page := old(PageOverrides())[key := value]]
      ensures bg != null ==> bg.Valid() && bg.u == WithAppearance(old(bg.u), OverrideAppearance(PageOverrides()))
      ensures bg != null && key == "bg" && value != "" ==> bg.u.background == value
      ensures bg != null && key == "dotPrimary" && value != "" ==> bg.u.dot == value
      ensures bg != null && key == "dotSecondary" && value != "" ==> bg.u.dot2 == value
    {
      var o := PageOverrides();
      overrides := overrides[page := o[key := value]];
      ApplyPageColorOverrides(bg);
    }
  }
}
