/** The state of `BayerDitherBackground`: the clock, the scroll easing and
    the uniforms record the shader reads, with the event handlers and the
    public setters that update them. Window size, device pixel ratio,
    scroll position, the path, the theme attributes and `performance.now()`
    are parameters; the HSL fallback colour is a function given at
    construction. */
module Background {
  import opened StringUtil
  import opened PageConfig
  import opened Location
  import opened Theme

  /** The shader uniforms the script writes; colours are kept as the hex
      strings they are set from. */
  datatype Uniforms = Uniforms(
    time: real, resWidth: real, resHeight: real, opacity: real,
    background: Hex, dot: Hex, dot2: Hex,
    patternSeed: real, scrollNorm: real, twoToneMode: real, toneLow: real, toneHigh: real,
    shapeType: real, cellSize: real, parallaxScale: real)

  /** The uniforms as `init` creates them for a drawing buffer of the given
      size. */
  function InitialUniforms(width: real, height: real): (u: Uniforms)
    ensures u.time == 0.0 && u.resWidth == width && u.resHeight == height && u.opacity == 0.9
    ensures u.background == "#001d1d" && u.dot == "#55ffa7" && u.dot2 == "#ff8f55"
    ensures u.patternSeed == 0.0 && u.scrollNorm == 0.0 && u.twoToneMode == 1.0
    ensures u.toneLow == 0.4 && u.toneHigh == 0.6 && u.shapeType == 0.0 && u.cellSize == 4.0 && u.parallaxScale == 1.0
  {
    Uniforms(0.0, width, height, 0.9, "#001d1d", "#55ffa7", "#ff8f55", 0.0, 0.0, 1.0, 0.4, 0.6, 0.0, 4.0, 1.0)
  }

  /** The argument of `setAppearance`: every field may be left out. */
  datatype Appearance = Appearance(
    background: Option<Hex>, dot: Option<Hex>, dot2: Option<Hex>,
    twoToneMode: Option<real>, toneLow: Option<real>, toneHigh: Option<real>)

  const NoAppearance: Appearance := Appearance(None, None, None, None, None, None)

  /** `setAppearance`: a colour is written only when it is a non-empty
      string, a tone field whenever it is given (0 included); every other
      uniform is kept. */
  function WithAppearance(u: Uniforms, a: Appearance): (r: Uniforms)
    ensures r.background == (if Truthy(a.background) then a.background.value else u.background)
    ensures r.dot == (if Truthy(a.dot) then a.dot.value else u.dot)
    ensures r.dot2 == (if Truthy(a.dot2) then a.dot2.value else u.dot2)
    ensures r.twoToneMode == (if a.twoToneMode.Some? then a.twoToneMode.value else u.twoToneMode)
    ensures r.toneLow == (if a.toneLow.Some? then a.toneLow.value else u.toneLow)
    ensures r.toneHigh == (if a.toneHigh.Some? then a.toneHigh.value else u.toneHigh)
    ensures r == u.(background := r.background, dot := r.dot, dot2 := r.dot2,
                    twoToneMode := r.twoToneMode, toneLow := r.toneLow, toneHigh := r.toneHigh)
    ensures a == NoAppearance ==> r == u
  {
    var u1 := if Truthy(a.background) then u.(background := a.background.value) else u;
    var u2 := if Truthy(a.dot) then u1.(dot := a.dot.value) else u1;
    var u3 := if Truthy(a.dot2) then u2.(dot2 := a.dot2.value) else u2;
    var u4 := if a.twoToneMode.Some? then u3.(twoToneMode := a.twoToneMode.value) else u3;
    var u5 := if a.toneLow.Some? then u4.(toneLow := a.toneLow.value) else u4;
    if a.toneHigh.Some? then u5.(toneHigh := a.toneHigh.value) else u5
  }

  /** Applying the same appearance twice is applying it once. */
  lemma WithAppearanceIdempotent(u: Uniforms, a: Appearance)
    ensures WithAppearance(WithAppearance(u, a), a) == WithAppearance(u, a)
  {
    var once := WithAppearance(u, a);
    var twice := WithAppearance(once, a);
    assert twice.background == once.background && twice.dot == once.dot && twice.dot2 == once.dot2;
    assert twice.twoToneMode == once.twoToneMode && twice.toneLow == once.toneLow && twice.toneHigh == once.toneHigh;
  }

  /** `setCellSize`: only a positive size is taken. */
  function WithCellSize(u: Uniforms, size: real): (r: Uniforms)
    ensures size > 0.0 ==> r.cellSize == size
    ensures size <= 0.0 ==> r == u
    ensures r == u.(cellSize := r.cellSize)
  {
    if size > 0.0 then u.(cellSize := size) else u
  }

  /** `setParallaxScale`: negative scales are clamped to 0. */
  function WithParallaxScale(u: Uniforms, scale: real): (r: Uniforms)
    ensures r.parallaxScale >= 0.0 && r.parallaxScale >= scale
    ensures scale >= 0.0 ==> r.parallaxScale == scale
    ensures scale < 0.0 ==> r.parallaxScale == 0.0
    ensures r == u.(parallaxScale := r.parallaxScale)
  {
    u.(parallaxScale := Max(0.0, scale))
  }

  /** `setAnimationSpeed`: the multiplier is at least 0.05. */
  function SpeedMultiplier(mult: real): (m: real)
    ensures m >= 0.05 && m >= mult
    ensures mult >= 0.05 ==> m == mult
    ensures mult < 0.05 ==> m == 0.05
  {
    Max(0.05, mult)
  }

  /** The scroll position as a fraction of the scrollable height, or 0 when
      the page does not scroll. */
  function ScrollFraction(scrollHeight: real, innerHeight: real, scrollY: real): (sn: real)
    ensures scrollHeight - innerHeight > 0.0 ==> sn * (scrollHeight - innerHeight) == scrollY
    ensures scrollHeight - innerHeight <= 0.0 ==> sn == 0.0
    ensures 0.0 <= scrollY <= scrollHeight - innerHeight ==> 0.0 <= sn <= 1.0
  {
    var maxScroll := scrollHeight - innerHeight;
    if maxScroll > 0.0 then FractionBounds(scrollY, maxScroll); scrollY / maxScroll else 0.0
  }

  lemma FractionBounds(y: real, m: real)
    requires m > 0.0
    ensures (y / m) * m == y
    ensures 0.0 <= y <= m ==> 0.0 <= y / m <= 1.0
  {
  }

  /** The speed bump of one scroll event: 0.05 more, capped at 3. */
  function BumpTimeScale(ts: real): (r: real)
    ensures r <= 3.0
    ensures ts <= 3.0 ==> ts <= r
    ensures ts + 0.05 <= 3.0 ==> r == ts + 0.05
  {
    Min(ts + 0.05, 3.0)
  }

  /** The time scale after `n` scroll events. */
  function TimeScaleAfter(ts: real, n: nat): real {
    if n == 0 then ts else BumpTimeScale(TimeScaleAfter(ts, n - 1))
  }

  /** After `n` scroll events a time scale of at most 3 has become
      `min(ts + 0.05 n, 3)`; from the initial 1 it stays within [1, 3]. */
  lemma {:induction false} TimeScaleClosedForm(ts: real, n: nat)
    requires ts <= 3.0
    ensures TimeScaleAfter(ts, n) == Min(ts + 0.05 * n as real, 3.0)
    ensures ts >= 1.0 ==> 1.0 <= TimeScaleAfter(ts, n) <= 3.0
  {
    if n > 0 {
      TimeScaleClosedForm(ts, n - 1);
    }
  }

  /** The time scale never decreases under scroll events. */
  lemma {:induction false} TimeScaleMonotone(ts: real, m: nat, n: nat)
    requires ts <= 3.0 && m <= n
    ensures TimeScaleAfter(ts, m) <= TimeScaleAfter(ts, n)
  {
    TimeScaleClosedForm(ts, m);
    TimeScaleClosedForm(ts, n);
  }

  /** One frame of scroll easing: 8% of the way to the target. */
  function Ease(current: real, target: real): (r: real)
    ensures r - target == 0.92 * (current - target)
    ensures current <= target ==> current <= r <= target
    ensures target <= current ==> target <= r <= current
  {
    current + (target - current) * 0.08
  }

  function Pow(x: real, n: nat): real {
    if n == 0 then 1.0 else x * Pow(x, n - 1)
  }

  /** The eased value after `n` frames with a fixed target. */
  function EaseAfter(current: real, target: real, n: nat): real {
    if n == 0 then current else Ease(EaseAfter(current, target, n - 1), target)
  }

  /** With a fixed target the gap shrinks geometrically: after `n` frames
      it is `0.92^n` times the first. */
  lemma {:induction false} EaseGap(current: real, target: real, n: nat)
    ensures EaseAfter(current, target, n) - target == Pow(0.92, n) * (current - target)
  {
    if n > 0 {
      EaseGap(current, target, n - 1);
      var g := Pow(0.92, n - 1) * (current - target);
      assert EaseAfter(current, target, n) - target == 0.92 * g;
      assert 0.92 * g == (0.92 * Pow(0.92, n - 1)) * (current - target);
    }
  }

  /** The uniforms after `applyPageConfig` with the page's entry `e`: the
      colours for the theme, the shape, and the seed and cell size only when
      the entry gives them. */
  function ConfigureUniforms(u: Uniforms, e: PageEntry, isLight: bool, hsl: (Hex, bool) -> Hex): (r: Uniforms)
    ensures var c := Resolve(e, isLight, hsl);
            r.background == c.background && r.dot == c.dot && r.dot2 == c.dot2 && r.shapeType == c.shapeType
    ensures e.patternSeed.Some? ==> r.patternSeed == e.patternSeed.value
    ensures e.patternSeed.None? ==> r.patternSeed == u.patternSeed
    ensures e.cellSize.Some? ==> r.cellSize == e.cellSize.value
    ensures e.cellSize.None? ==> r.cellSize == u.cellSize
    ensures r == u.(background := r.background, dot := r.dot, dot2 := r.dot2, patternSeed := r.patternSeed,
                    shapeType := r.shapeType, cellSize := r.cellSize)
  {
    var c := Resolve(e, isLight, hsl);
    var seed := if c.patternSeed.Some? then c.patternSeed.value else u.patternSeed;
    var cell := if c.cellSize.Some? then c.cellSize.value else u.cellSize;
    u.(background := c.background, dot := c.dot, dot2 := c.dot2, patternSeed := seed,
       shapeType := c.shapeType, cellSize := cell)
  }

  /** An unknown page is configured exactly as `index.html`. */
  lemma UnknownPageUsesIndex(pages: map<string, PageEntry>, u: Uniforms, path: string, isLight: bool,
                             hsl: (Hex, bool) -> Hex)
    requires "index.html" in pages && PageKey(path) !in pages
    ensures ConfigureUniforms(u, Lookup(pages, PageKey(path)), isLight, hsl)
            == ConfigureUniforms(u, Lookup(pages, "index.html"), isLight, hsl)
  {
  }

  /** For the site's own table the HSL fallback is never used: the second
      dot colour is always the entry's own (light variant in the light
      theme). */
  lemma SiteSecondColour(accent: Option<Hex>, derive: Hex -> Hex, u: Uniforms, path: string, theme: string,
                         hsl: (Hex, bool) -> Hex)
    requires forall h :: derive(h) != ""
    ensures var pages := BuildPageConfig(RawPagesWith(accent), derive);
            "index.html" in pages &&
            var e := Lookup(pages, PageKey(path));
            ConfigureUniforms(u, e, theme == Light, hsl).dot2
              == if theme == Light && e.dot2Light != "" then e.dot2Light else e.dot2
  {
    HslFallbackUnused(accent, derive, PageKey(path), theme == Light);
  }

  class BayerDitherBackground {
    var time: real
    var timeScale: real
    var userSpeedMultiplier: real
    var scrollTarget: real
    var scrollCurrent: real
    /** `lastTimestamp`; 0 stands for unset (both are falsy). */
    var lastTimestamp: real
    var pixelRatio: real
    var lastPixelRatio: Option<real>
    var u: Uniforms
    /** `PAGE_CONFIG`. */
    const pages: map<string, PageEntry>
    /** The HSL fallback colour of `applyPageConfig`. */
    const hsl: (Hex, bool) -> Hex

    /** The speed-up stays within [1, 3], the speed multiplier at least
      0.05, the pixel ratio at most 2, the cell size positive and the
      parallax scale non-negative. */
    predicate Valid()
      reads this
    {
      PagesValid(pages)
      && 1.0 <= timeScale <= 3.0 && userSpeedMultiplier >= 0.05
      && pixelRatio <= 2.0 && u.cellSize > 0.0 && u.parallaxScale >= 0.0
    }

    /** The constructor: fresh clock and scroll state, then `init` (pixel
      ratio, uniforms, and the uniforms `applyPageConfig` sets) and the
      first frame. */
    constructor (pages: map<string, PageEntry>, hsl: (Hex, bool) -> Hex,
                 width: real, height: real, dpr: real, path: string,
                 body: Option<string>, doc: Option<string>, now: real)
      requires PagesValid(pages)
      ensures Valid()
      ensures this.pages == pages && this.hsl == hsl
      ensures time == 0.0 && timeScale == 1.0 && userSpeedMultiplier == 1.0
      ensures scrollTarget == 0.0 && scrollCurrent == 0.0 && pixelRatio == Min(dpr, 2.0)
      ensures u == ConfigureUniforms(InitialUniforms(width * pixelRatio, height * pixelRatio),
                                     Lookup(pages, PageKey(path)), CurrentTheme(body, doc) == Light, hsl)
    {
      this.pages := pages;
      this.hsl := hsl;
      time := 0.0;
      timeScale := 1.0;
      userSpeedMultiplier := 1.0;
      scrollTarget := 0.0;
      scrollCurrent := 0.0;
      lastTimestamp := 0.0;
      lastPixelRatio := None;
      var pr := Min(dpr, 2.0);
      pixelRatio := pr;
      var cfg := Lookup(pages, PageKey(path));
      assert cfg.cellSize.Some? ==> cfg.cellSize.value > 0.0;
      u := ConfigureUniforms(InitialUniforms(width * pr, height * pr), cfg, CurrentTheme(body, doc) == Light, hsl);
      new;
      ghost var configured := u;
      Animate(now);
      assert time == 0.0 && scrollCurrent == 0.0;
      assert u == configured;
    }

    /** `applyPageConfig`: the page's entry (or `index.html`'s) for the
      current theme. */
    method ApplyPageConfig(path: string, body: Option<string>, doc: Option<string>)
      requires PagesValid(pages) && u.cellSize > 0.0
      modifies this`u
      ensures u == ConfigureUniforms(old(u), Lookup(pages, PageKey(path)), CurrentTheme(body, doc) == Light, hsl)
      ensures u.cellSize > 0.0
    {
      var cfg := Lookup(pages, PageKey(path));
      var isLight := CurrentTheme(body, doc) == Light;
      assert cfg.cellSize.Some? ==> cfg.cellSize.value > 0.0;
      u := ConfigureUniforms(u, cfg, isLight, hsl);
    }

    /** The scroll listener: a new target and a faster clock. */
    method OnScroll(scrollHeight: real, innerHeight: real, scrollY: real)
      requires Valid()
      modifies this`scrollTarget, this`timeScale
      ensures Valid()
      ensures scrollTarget == ScrollFraction(scrollHeight, innerHeight, scrollY)
      ensures timeScale == BumpTimeScale(old(timeScale)) && timeScale >= old(timeScale)
    {
      scrollTarget := ScrollFraction(scrollHeight, innerHeight, scrollY);
      timeScale := BumpTimeScale(timeScale);
    }

    /** `resize`. */
    method Resize(width: real, height: real, dpr: real)
      requires Valid()
      modifies this`pixelRatio, this`lastPixelRatio, this`u
      ensures Valid()
      ensures pixelRatio == Min(dpr, 2.0) && lastPixelRatio == Some(pixelRatio)
      ensures u == old(u).(resWidth := width * pixelRatio, resHeight := height * pixelRatio)
    {
      pixelRatio := Min(dpr, 2.0);
      u := u.(resWidth := width * pixelRatio, resHeight := height * pixelRatio);
      lastPixelRatio := Some(pixelRatio);
    }

    /** One frame at time `now` (milliseconds): the clock advances by the
      elapsed seconds times the speed-up, the scroll value eases toward its
      target, and both are published. */
    method Animate(now: real)
      modifies this`lastTimestamp, this`time, this`scrollCurrent, this`u
      ensures var last := if old(lastTimestamp) != 0.0 then old(lastTimestamp) else now;
              time == old(time) + (now - last) / 1000.0 * timeScale
      ensures lastTimestamp == now
      ensures scrollCurrent == Ease(old(scrollCurrent), scrollTarget)
      ensures u == old(u).(scrollNorm := scrollCurrent, time := time * userSpeedMultiplier)
    {
      if lastTimestamp == 0.0 {
        lastTimestamp := now;
      }
      var dt := (now - lastTimestamp) / 1000.0;
      lastTimestamp := now;
      time := time + dt * timeScale;
      scrollCurrent := scrollCurrent + (scrollTarget - scrollCurrent) * 0.08;
      u := u.(scrollNorm := scrollCurrent, time := time * userSpeedMultiplier);
    }

    method SetOpacity(opacity: real)
      modifies this`u
      ensures u == old(u).(opacity := opacity)
    {
      u := u.(opacity := opacity);
    }

    method SetAppearance(a: Appearance)
      modifies this`u
      ensures u == WithAppearance(old(u), a)
    {
      if Truthy(a.background) {
        u := u.(background := a.background.value);
      }
      if Truthy(a.dot) {
        u := u.(dot := a.dot.value);
      }
      if Truthy(a.dot2) {
        u := u.(dot2 := a.dot2.value);
      }
      if a.twoToneMode.Some? {
        u := u.(twoToneMode := a.twoToneMode.value);
      }
      if a.toneLow.Some? {
        u := u.(toneLow := a.toneLow.value);
      }
      if a.toneHigh.Some? {
        u := u.(toneHigh := a.toneHigh.value);
      }
    }

    method SetPatternSeed(seed: real)
      modifies this`u
      ensures u == old(u).(patternSeed := seed)
    {
      u := u.(patternSeed := seed);
    }

    method SetCellSize(size: real)
      modifies this`u
      ensures u == WithCellSize(old(u), size)
      ensures old(u.cellSize) > 0.0 ==> u.cellSize > 0.0
    {
      if size > 0.0 {
        u := u.(cellSize := size);
      }
    }

    method SetParallaxScale(scale: real)
      modifies this`u
      ensures u == WithParallaxScale(old(u), scale)
    {
      u := u.(parallaxScale := Max(0.0, scale));
    }

    method SetShapeType(index: real)
      modifies this`u
      ensures u == old(u).(shapeType := index)
    {
      u := u.(shapeType := index);
    }

    method SetAnimationSpeed(mult: real)
      modifies this`userSpeedMultiplier
      ensures userSpeedMultiplier == SpeedMultiplier(mult)
    {
      userSpeedMultiplier := Max(0.05, mult);
    }
  }

  /** An animation frame keeps the background valid, and with a clock that
      does not run backwards it does not move the time back. */
  method FrameKeepsValid(b: BayerDitherBackground, now: real)
    requires b.Valid() && now >= b.lastTimestamp
    modifies b
    ensures b.Valid() && b.time >= old(b.time)
  {
    b.Animate(now);
    MulNonnegReal(now - old(b.lastTimestamp), b.timeScale);
  }

  lemma MulNonnegReal(a: real, b: real)
    requires a >= 0.0 && b >= 0.0
    ensures a / 1000.0 * b >= 0.0
  {
  }
}
