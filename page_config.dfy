/** The per-page colour and shape configuration of the background effect:
    the palette, the raw page table, the lookup table built from it with
    its fallbacks, and the choice of a page's entry and shape. Colours are
    hex strings; `deriveSecondary` (hue and lightness arithmetic on
    `THREE.Color`) is a parameter. */
module PageConfig {
  import opened StringUtil
  import Shader

  type Hex = string

  /** `PALETTE`. */
  const PaletteTable: map<string, Hex> := map[
    "tealDeep" := "#004452",
    "teal" := "#00727E",
    "blue" := "#0072B2",
    "sky" := "#56B4E9",
    "green" := "#009E73",
    "orange" := "#E69F00",
    "vermilion" := "#D55E00",
    "purple" := "#CC79A7",
    "yellow" := "#F0E442",
    "neutralLight" := "#dedccb",
    "nearBlack" := "#101010"
  ]

  /** `PALETTE[name]`: undefined for a name the palette does not hold. */
  function Palette(name: string): (c: Option<Hex>)
    ensures c.Some? <==> name in PaletteTable
    ensures c.Some? ==> c.value == PaletteTable[name]
  {
    if name in PaletteTable then Some(PaletteTable[name]) else None
  }

  /** A page descriptor of `RAW_PAGE_CONFIG`; fields a descriptor may omit
      are optional. */
  datatype RawPage = RawPage(
    file: string, background: Hex, backgroundLight: Option<Hex>,
    dot: Hex, dotLight: Option<Hex>, dot2: Option<Hex>, dot2Light: Option<Hex>,
    shape: Option<string>, patternSeed: Option<real>, cellSize: Option<real>)

  /** An entry of `PAGE_CONFIG`: every colour is filled in. */
  datatype PageEntry = PageEntry(
    background: Hex, backgroundLight: Hex, dot: Hex, dotLight: Hex, dot2: Hex, dot2Light: Hex,
    patternSeed: Option<real>, shape: Option<string>, cellSize: Option<real>)

  /** The body of the `reduce`: a missing second dot colour is derived from
      the dot colour, and each light variant falls back to its dark one. */
  function MakeEntry(p: RawPage, derive: Hex -> Hex): (e: PageEntry)
    ensures Truthy(p.dot2) ==> e.dot2 == p.dot2.value
    ensures !Truthy(p.dot2) ==> e.dot2 == derive(p.dot)
    ensures Truthy(p.backgroundLight) ==> e.backgroundLight == p.backgroundLight.value
    ensures !Truthy(p.backgroundLight) ==> e.backgroundLight == p.background
    ensures Truthy(p.dotLight) ==> e.dotLight == p.dotLight.value
    ensures !Truthy(p.dotLight) ==> e.dotLight == p.dot
    ensures Truthy(p.dot2Light) ==> e.dot2Light == p.dot2Light.value
    ensures !Truthy(p.dot2Light) ==> e.dot2Light == e.dot2
    ensures e.background == p.background && e.dot == p.dot
    ensures e.patternSeed == p.patternSeed && e.shape == p.shape && e.cellSize == p.cellSize
  {
    var dot2 := OrElse(p.dot2, derive(p.dot));
    PageEntry(p.background, OrElse(p.backgroundLight, p.background), p.dot, OrElse(p.dotLight, p.dot),
              dot2, OrElse(p.dot2Light, dot2), p.patternSeed, p.shape, p.cellSize)
  }

  /** The file names the descriptors give. */
  function Files(raw: seq<RawPage>): set<string> {
    if raw == [] then {} else Files(raw[..|raw| - 1]) + {raw[|raw| - 1].file}
  }

  /** `PAGE_CONFIG`: the descriptors folded into a table keyed by file name.
      Its keys are exactly the files named. */
  function BuildPageConfig(raw: seq<RawPage>, derive: Hex -> Hex): (pages: map<string, PageEntry>)
    ensures pages.Keys == Files(raw)
  {
    if raw == [] then map[]
    else BuildPageConfig(raw[..|raw| - 1], derive)[raw[|raw| - 1].file := MakeEntry(raw[|raw| - 1], derive)]
  }

  /** Each file maps to the entry made from its last descriptor: later
      descriptors overwrite earlier ones, as the `reduce` assigns in
      order. */
  lemma {:induction false} BuildPageConfigEntry(raw: seq<RawPage>, derive: Hex -> Hex, i: int)
    requires 0 <= i < |raw|
    requires forall j :: i < j < |raw| ==> raw[j].file != raw[i].file
    ensures raw[i].file in BuildPageConfig(raw, derive)
    ensures BuildPageConfig(raw, derive)[raw[i].file] == MakeEntry(raw[i], derive)
    decreases |raw|
  {
    var init := raw[..|raw| - 1];
    if i < |raw| - 1 {
      assert init[i] == raw[i];
      BuildPageConfigEntry(init, derive, i);
    }
  }

  /** `RAW_PAGE_CONFIG` as written: page3.html and about.html name
      `PALETTE.vermillion`, a key the palette does not have. */
  function RawPages(): seq<RawPage> {
    RawPagesWith(Palette("vermillion"))
  }

  /** The descriptors with the palette's own `vermilion`. */
  function RawPagesIntended(): seq<RawPage> {
    RawPagesWith(Palette("vermilion"))
  }

  /** The six descriptors; `accent` is what page3.html and about.html give
      as their second dot colour. The other colours are written as the hex
      values of the palette entries the source names (see
      `RawColoursArePalette`). */
  function RawPagesWith(accent: Option<Hex>): (r: seq<RawPage>)
    ensures |r| == 6
    ensures r[3].file == "page3.html" && r[3].dot2 == accent
    ensures r[5].file == "about.html" && r[5].dot2 == accent
    ensures forall k :: 0 <= k < |r| && k != 3 && k != 5 ==> r[k].dot2.Some?
    ensures forall k :: 0 <= k < |r| ==> r[k].cellSize == Some(10.0) && r[k].backgroundLight == Some("#dedccb")
  {
    var light := Some("#dedccb");
    [ RawPage("index.html", "#004452", light, "#009E73", None, Some("#E69F00"), None, Some("ring"), Some(0.0), Some(10.0)),
      RawPage("page1.html", "#1d000e", light, "#CC79A7", None, Some("#E69F00"), None, Some("diamond"), Some(1.0), Some(10.0)),
      RawPage("page2.html", "#0d001d", light, "#56B4E9", None, Some("#009E73"), None, Some("square"), Some(2.0), Some(10.0)),
      RawPage("page3.html", "#00130f", light, "#009E73", None, accent, None, Some("cross"), Some(3.0), Some(10.0)),
      RawPage("contact.html", "#101010", light, "#E69F00", None, Some("#0072B2"), None, Some("circle"), Some(4.0), Some(10.0)),
      RawPage("about.html", "#001014", light, "#56B4E9", None, accent, None, Some("ring"), Some(5.0), Some(10.0)) ]
  }

  /** The hex values written into the descriptors are the palette entries
      the source names there: `tealDeep`, `neutralLight`, `green`,
      `orange`, `purple`, `sky`, `nearBlack` and `blue`. */
  lemma RawColoursArePalette()
    ensures Palette("tealDeep") == Some("#004452") && Palette("neutralLight") == Some("#dedccb")
    ensures Palette("green") == Some("#009E73") && Palette("orange") == Some("#E69F00")
    ensures Palette("purple") == Some("#CC79A7") && Palette("sky") == Some("#56B4E9")
    ensures Palette("nearBlack") == Some("#101010") && Palette("blue") == Some("#0072B2")
  {
  }

  /** The table a page list yields is usable by the background: it has an
      entry for `index.html` and every cell size it sets is positive. */
  predicate PagesValid(pages: map<string, PageEntry>) {
    "index.html" in pages && CellSizesPositive(pages)
  }

  predicate CellSizesPositive(pages: map<string, PageEntry>) {
    forall f :: f in pages && pages[f].cellSize.Some? ==> pages[f].cellSize.value > 0.0
  }

  /** No two descriptors name the same file. */
  predicate FilesDistinct(raw: seq<RawPage>) {
    forall i, j :: 0 <= i < j < |raw| ==> raw[i].file != raw[j].file
  }

  /** Every descriptor's file is a key of the table, holding that
      descriptor's entry. */
  predicate EntriesMatch(raw: seq<RawPage>, pages: map<string, PageEntry>, derive: Hex -> Hex) {
    forall i :: 0 <= i < |raw| ==> raw[i].file in pages && pages[raw[i].file] == MakeEntry(raw[i], derive)
  }

  /** When no file repeats, the table holds each descriptor's own entry. */
  lemma BuildPageConfigDistinct(raw: seq<RawPage>, derive: Hex -> Hex)
    requires FilesDistinct(raw)
    ensures EntriesMatch(raw, BuildPageConfig(raw, derive), derive)
  {
    forall i | 0 <= i < |raw| ensures raw[i].file in BuildPageConfig(raw, derive) && BuildPageConfig(raw, derive)[raw[i].file] == MakeEntry(raw[i], derive) {
      BuildPageConfigEntry(raw, derive, i);
    }
  }

  lemma RawFilesDistinct(accent: Option<Hex>)
    ensures FilesDistinct(RawPagesWith(accent))
  {
    var raw := RawPagesWith(accent);
    assert raw[0].file[0] == 'i' && raw[0].file[4] == 'x';
    assert raw[1].file[0] == 'p' && raw[1].file[4] == '1';
    assert raw[2].file[0] == 'p' && raw[2].file[4] == '2';
    assert raw[3].file[0] == 'p' && raw[3].file[4] == '3';
    assert raw[4].file[0] == 'c' && raw[4].file[4] == 'a';
    assert raw[5].file[0] == 'a' && raw[5].file[4] == 't';
  }

  /** The table built from the descriptors has one entry per descriptor. */
  lemma RawPagesEntries(accent: Option<Hex>, derive: Hex -> Hex)
    ensures EntriesMatch(RawPagesWith(accent), BuildPageConfig(RawPagesWith(accent), derive), derive)
  {
    RawFilesDistinct(accent);
    BuildPageConfigDistinct(RawPagesWith(accent), derive);
  }

  /** A second dot colour is never empty in the table as long as
      `deriveSecondary` never answers with the empty string: a missing or
      empty one in a descriptor is derived. */
  lemma {:induction false} BuildPageConfigDot2(raw: seq<RawPage>, derive: Hex -> Hex)
    requires forall h :: derive(h) != ""
    ensures forall f :: f in BuildPageConfig(raw, derive) ==>
              BuildPageConfig(raw, derive)[f].dot2 != "" && BuildPageConfig(raw, derive)[f].dot2Light != ""
    decreases |raw|
  {
    if raw != [] {
      var init := raw[..|raw| - 1];
      var last := raw[|raw| - 1];
      BuildPageConfigDot2(init, derive);
      var prev := BuildPageConfig(init, derive);
      var e := MakeEntry(last, derive);
      assert derive(last.dot) != "";
      assert e.dot2 != "" && e.dot2Light != "";
      assert BuildPageConfig(raw, derive) == prev[last.file := e];
    }
  }

  /** Positive cell sizes in the descriptors stay positive in the table. */
  lemma {:induction false} BuildPageConfigCellSizes(raw: seq<RawPage>, derive: Hex -> Hex)
    requires forall i :: 0 <= i < |raw| && raw[i].cellSize.Some? ==> raw[i].cellSize.value > 0.0
    ensures CellSizesPositive(BuildPageConfig(raw, derive))
    decreases |raw|
  {
    if raw != [] {
      var init := raw[..|raw| - 1];
      var last := raw[|raw| - 1];
      assert forall i :: 0 <= i < |init| ==> init[i] == raw[i];
      BuildPageConfigCellSizes(init, derive);
      var prev := BuildPageConfig(init, derive);
      var e := MakeEntry(last, derive);
      var pages := BuildPageConfig(raw, derive);
      assert pages == prev[last.file := e];
      assert CellSizesPositive(prev);
      forall f | f in pages && pages[f].cellSize.Some? ensures pages[f].cellSize.value > 0.0 {
        if f == last.file {
          assert pages[f] == e;
          assert e.cellSize == last.cellSize;
          assert last.cellSize.Some? ==> last.cellSize.value > 0.0;
        } else {
          assert f in prev;
          assert pages[f] == prev[f];
          assert prev[f].cellSize.Some? ==> prev[f].cellSize.value > 0.0;
        }
      }
    }
  }

  /** The table has an `index.html` entry, and positive cell sizes. */
  lemma RawPagesWithTable(accent: Option<Hex>, derive: Hex -> Hex)
    ensures PagesValid(BuildPageConfig(RawPagesWith(accent), derive))
  {
    var raw := RawPagesWith(accent);
    forall i | 0 <= i < |raw| && raw[i].cellSize.Some? ensures raw[i].cellSize.value > 0.0 {
      assert raw[i].cellSize == Some(10.0);
    }
    BuildPageConfigCellSizes(raw, derive);
    RawPagesEntries(accent, derive);
    assert raw[0].file == "index.html";
  }

  /** As written, page3.html and about.html get a derived second dot colour
      instead of vermilion. */
  lemma VermillionDerived(derive: Hex -> Hex)
    ensures var pages := BuildPageConfig(RawPages(), derive);
            "page3.html" in pages && "about.html" in pages
            && pages["page3.html"].dot2 == derive("#009E73") && pages["about.html"].dot2 == derive("#56B4E9")
  {
    var raw := RawPages();
    assert Palette("vermillion") == None;
    RawPagesEntries(Palette("vermillion"), derive);
    assert raw[3].file == "page3.html" && raw[5].file == "about.html";
    assert raw[3].dot2 == None && raw[5].dot2 == None;
  }

  /** With the palette key spelled as the palette spells it, both pages get
      vermilion whatever `deriveSecondary` computes. */
  lemma VermilionIntended(derive: Hex -> Hex)
    ensures var pages := BuildPageConfig(RawPagesIntended(), derive);
            "page3.html" in pages && "about.html" in pages
            && pages["page3.html"].dot2 == "#D55E00" && pages["about.html"].dot2 == "#D55E00"
  {
    var raw := RawPagesIntended();
    assert Palette("vermilion") == Some("#D55E00");
    RawPagesEntries(Palette("vermilion"), derive);
    assert raw[3].file == "page3.html" && raw[5].file == "about.html";
    assert raw[3].dot2 == Some("#D55E00") && raw[5].dot2 == Some("#D55E00");
  }

  /** The entry `applyPageConfig` uses: the page's own, else `index.html`'s. */
  function Lookup(pages: map<string, PageEntry>, key: string): (e: PageEntry)
    requires "index.html" in pages
    ensures key in pages ==> e == pages[key]
    ensures key !in pages ==> e == pages["index.html"]
  {
    if key in pages then pages[key] else pages["index.html"]
  }

  /** `shapeMap[shape] ?? 0`. */
  function ShapeId(shape: Option<string>): (id: real)
    ensures 0.0 <= id <= 5.0
  {
    if shape == Some("circle") then 0.0
    else if shape == Some("square") then 1.0
    else if shape == Some("diamond") then 2.0
    else if shape == Some("cross") then 3.0
    else if shape == Some("point") then 4.0
    else if shape == Some("ring") then 5.0
    else 0.0
  }

  /** Only the six shape names select a shape other than the circle, and
      each selects its own. */
  lemma ShapeIdNames(shape: Option<string>)
    ensures ShapeId(shape) != 0.0 <==> shape in {Some("square"), Some("diamond"), Some("cross"), Some("point"), Some("ring")}
    ensures forall a, b :: a in ShapeNames && b in ShapeNames && ShapeId(Some(a)) == ShapeId(Some(b)) ==> a == b
  {
  }

  /** `shapeMap` sends circle, square, diamond, cross, point and ring to
      0..5, and the shader draws for each id the shape of that name; any
      other name is drawn as a circle. */
  lemma ShapeIdSelectsShape(name: string)
    ensures name == "circle" ==> ShapeId(Some(name)) == 0.0
    ensures name == "square" ==> ShapeId(Some(name)) == 1.0
    ensures name == "diamond" ==> ShapeId(Some(name)) == 2.0
    ensures name == "cross" ==> ShapeId(Some(name)) == 3.0
    ensures name == "point" ==> ShapeId(Some(name)) == 4.0
    ensures name == "ring" ==> ShapeId(Some(name)) == 5.0
    ensures Shader.ShapeName(ShapeId(Some(name))) == if name in ShapeNames then name else "circle"
  {
  }

  const ShapeNames: set<string> := {"circle", "square", "diamond", "cross", "point", "ring"}

  /** The colours, seed, shape and cell size a page's entry yields for the
      theme. In the light theme each colour is the light variant if it is
      non-empty, else the dark one; when the second colour comes out empty
      it is derived from the dot colour by `hsl`. */
  datatype Resolved = Resolved(background: Hex, dot: Hex, dot2: Hex,
                               patternSeed: Option<real>, shapeType: real, cellSize: Option<real>)

  function Resolve(e: PageEntry, isLight: bool, hsl: (Hex, bool) -> Hex): (r: Resolved)
    ensures !isLight ==> r.background == e.background && r.dot == e.dot
    ensures isLight && e.backgroundLight != "" ==> r.background == e.backgroundLight
    ensures isLight && e.backgroundLight == "" ==> r.background == e.background
    ensures isLight && e.dotLight != "" ==> r.dot == e.dotLight
    ensures isLight && e.dotLight == "" ==> r.dot == e.dot
    ensures var candidate := if isLight && e.dot2Light != "" then e.dot2Light else e.dot2;
            (candidate != "" ==> r.dot2 == candidate) && (candidate == "" ==> r.dot2 == hsl(r.dot, isLight))
    ensures r.patternSeed == e.patternSeed && r.cellSize == e.cellSize && r.shapeType == ShapeId(e.shape)
  {
    var bg := if isLight then OrElse(Some(e.backgroundLight), e.background) else e.background;
    var dot := if isLight then OrElse(Some(e.dotLight), e.dot) else e.dot;
    var candidate := if isLight then OrElse(Some(e.dot2Light), e.dot2) else e.dot2;
    var dot2 := if candidate != "" then candidate else hsl(dot, isLight);
    Resolved(bg, dot, dot2, e.patternSeed, ShapeId(e.shape), e.cellSize)
  }

  /** Every entry of the built table has a non-empty second colour (as long
      as `deriveSecondary` never answers with the empty string), so the HSL
      fallback of `applyPageConfig` is never taken for these pages. */
  lemma HslFallbackUnused(accent: Option<Hex>, derive: Hex -> Hex, key: string, isLight: bool)
    requires forall h :: derive(h) != ""
    ensures var pages := BuildPageConfig(RawPagesWith(accent), derive);
            "index.html" in pages &&
            var e := Lookup(pages, key);
            var candidate := if isLight && e.dot2Light != "" then e.dot2Light else e.dot2;
            candidate != ""
  {
    var pages := BuildPageConfig(RawPagesWith(accent), derive);
    RawPagesWithTable(accent, derive);
    BuildPageConfigDot2(RawPagesWith(accent), derive);
    var e := Lookup(pages, key);
    assert e.dot2 != "";
  }
}
