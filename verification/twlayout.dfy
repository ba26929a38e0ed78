/** The TWLayout plugin: per-breakpoint CSS custom properties and column classes
    generated from the grid configuration tables, the fixed base components, and the
    plugin body that validates and then emits one media-query block per viewport. */
module TwLayout {

  import opened Wrappers
  import opened Numerals

  // ---------------------------------------------------------------------------
  // Style objects

  /** A value in a style object: a string, a number, JavaScript's `undefined`, or a
      nested object (a rule body, or the declarations under a selector). */
  datatype Value = Text(s: string) | Num(n: int) | Undefined | Obj(fields: Style)

  /** A style object: selector, property or custom-property name to value. */
  type Style = map<string, Value>

  /** What `Object.entries` yields for one configuration table: key/value pairs. */
  type Entries = seq<(string, Value)>

  /** The keys of a JavaScript object are distinct. */
  predicate DistinctKeys(es: Entries) {
    forall i, j :: 0 <= i < j < |es| ==> es[i].0 != es[j].0
  }

  function KeySet(es: Entries): set<string> {
    set e | e in es :: e.0
  }

  function Prefixed(p: string, ks: set<string>): set<string> {
    set k | k in ks :: p + k
  }

  /** A CSS `var(...)` reference to a custom property. */
  function VarRef(name: string): Value {
    Text("var(" + name + ")")
  }

  // ---------------------------------------------------------------------------
  // The configuration the plugin imports

  /** One VIEWPORTS entry of the grid configuration. Its `minWidth` and
      `availableSpace` are taken as the text their template literals render, whatever
      the values' type is. */
  datatype ViewportConfig = ViewportConfig(minWidth: string, availableSpace: string)

  /** The grid configuration tables. A breakpoint missing from a table is a lookup that
      yields `undefined`. */
  datatype GridConfig = GridConfig(
    containerPadding: Value,                    // SYSTEM.CONTAINER_PADDING
    gap: Value,                                 // SYSTEM.GAP
    viewports: seq<(string, ViewportConfig)>,   // Object.entries(VIEWPORTS)
    rackColumns: map<string, Entries>,          // RACK_COLUMNS
    railColumns: map<string, Entries>,          // RAIL_COLUMNS
    offsets: map<string, Entries>,              // OFFSETS
    railGapStandard: Value,                     // RAIL_GAPS.STANDARD
    slideGaps: map<string, Value>)              // RAIL_GAPS.SLIDE_MODE

  // ---------------------------------------------------------------------------
  // Entry families: the key and value written for each table entry

  /** Each `forEach` over a table writes one family of keys. */
  datatype Family = RackVar | RailVar | OffsetVar | RackClass | RailClass

  function Prefix(f: Family): string {
    match f
    case RackVar => "--tw-rack-col-"
    case RailVar => "--tw-rail-col-"
    case OffsetVar => "--tw-offset-"
    case RackClass => ".col-"
    case RailClass => ".rail .col-"
  }

  /** The rule of `.rail .col-{col}`: fixed width and minimum width from the column's
      custom property, and no shrinking. */
  function RailRule(col: string): Value {
    Obj(map["width" := VarRef(Prefix(RailVar) + col),
            "minWidth" := VarRef(Prefix(RailVar) + col),
            "flexShrink" := Num(0)])
  }

  function Entry(f: Family, col: string, v: Value): Value {
    match f
    case RackVar => v
    case RailVar => v
    case OffsetVar => v
    case RackClass => Obj(map["gridColumn" := v])
    case RailClass => RailRule(col)
  }

  /** The style after the `forEach` over `es` has assigned each entry in order. */
  function Assign(m: Style, f: Family, es: Entries): Style
    decreases |es|
  {
    if es == [] then m
    else
      var last := es[|es| - 1];
      Assign(m, f, es[..|es| - 1])[Prefix(f) + last.0 := Entry(f, last.0, last.1)]
  }

  /** The `forEach` loop: assigns `{prefix}{col}` for each entry, in order. */
  method AssignEach(m: Style, f: Family, es: Entries) returns (r: Style)
    ensures r == Assign(m, f, es)
  {
    r := m;
    var i := 0;
    while i < |es|
      invariant 0 <= i <= |es|
      invariant r == Assign(m, f, es[..i])
    {
      var (col, v) := es[i];
      r := r[Prefix(f) + col := Entry(f, col, v)];
      i := i + 1;
      assert es[..i][..i - 1] == es[..i - 1];
    }
    assert es[..|es|] == es;
  }

  /** The loop adds exactly the prefixed table keys. */
  lemma {:induction false} AssignKeys(m: Style, f: Family, es: Entries)
    ensures Assign(m, f, es).Keys == m.Keys + Prefixed(Prefix(f), KeySet(es))
    decreases |es|
  {
    if es != [] {
      var init, last := es[..|es| - 1], es[|es| - 1];
      AssignKeys(m, f, init);
      assert es == init + [last];
      assert KeySet(es) == KeySet(init) + {last.0};
    }
  }

  lemma PrefixInjective(p: string, a: string, b: string)
    requires p + a == p + b
    ensures a == b
  {
    assert a == (p + a)[|p|..];
    assert b == (p + b)[|p|..];
  }

  /** With distinct table keys, every entry's key holds that entry's value. */
  lemma {:induction false} AssignAt(m: Style, f: Family, es: Entries, j: int)
    requires DistinctKeys(es)
    requires 0 <= j < |es|
    ensures Prefix(f) + es[j].0 in Assign(m, f, es)
    ensures Assign(m, f, es)[Prefix(f) + es[j].0] == Entry(f, es[j].0, es[j].1)
    decreases |es|
  {
    var init, last := es[..|es| - 1], es[|es| - 1];
    if j < |es| - 1 {
      AssignAt(m, f, init, j);
      if Prefix(f) + last.0 == Prefix(f) + es[j].0 {
        PrefixInjective(Prefix(f), last.0, es[j].0);
      }
    }
  }

  /** A key outside the family is left as it was. */
  lemma {:induction false} AssignKeeps(m: Style, f: Family, es: Entries, k: string)
    requires k !in Prefixed(Prefix(f), KeySet(es))
    ensures k in Assign(m, f, es) <==> k in m
    ensures k in m ==> Assign(m, f, es)[k] == m[k]
    decreases |es|
  {
    if es != [] {
      var init := es[..|es| - 1];
      assert KeySet(init) <= KeySet(es);
      AssignKeeps(m, f, init, k);
    }
  }

  /** Every key of a family carries the family prefix's character at position i. */
  lemma PrefixedAt(p: string, ks: set<string>, i: nat)
    requires i < |p|
    ensures forall k :: k in Prefixed(p, ks) ==> i < |k| && k[i] == p[i]
  {
  }

  // ---------------------------------------------------------------------------
  // generateCSSVariables

  /** The six base custom properties of a breakpoint. */
  function BaseVariables(bp: string, vp: ViewportConfig, cfg: GridConfig): Style {
    map["--tw-layout-padding" := cfg.containerPadding,
        "--tw-layout-gap" := cfg.gap,
        "--tw-layout-max-width" := Text(vp.availableSpace + "px"),
        "--tw-layout-breakpoint" := Text(bp),
        "--tw-rail-gap-standard" := cfg.railGapStandard,
        "--tw-rail-gap-slide" := if bp in cfg.slideGaps then cfg.slideGaps[bp] else Undefined]
  }

  function BaseVariableNames(): set<string> {
    {"--tw-layout-padding", "--tw-layout-gap", "--tw-layout-max-width",
     "--tw-layout-breakpoint", "--tw-rail-gap-standard", "--tw-rail-gap-slide"}
  }

  /** The custom properties of one breakpoint; `None` when a table has no entry for the
      breakpoint, where `Object.entries(undefined)` throws. */
  function CssVariables(bp: string, vp: ViewportConfig, cfg: GridConfig): (r: Option<Style>)
    ensures bp == "xs" ==> r == Some(map[])
    ensures bp != "xs" ==>
      (r.Some? <==> bp in cfg.rackColumns && bp in cfg.railColumns && bp in cfg.offsets)
  {
    if bp == "xs" then Some(map[])
    else if bp !in cfg.rackColumns || bp !in cfg.railColumns || bp !in cfg.offsets then None
    else
      var withRack := Assign(BaseVariables(bp, vp, cfg), RackVar, cfg.rackColumns[bp]);
      var withRail := Assign(withRack, RailVar, cfg.railColumns[bp]);
      Some(Assign(withRail, OffsetVar, cfg.offsets[bp]))
  }

  method GenerateCssVariables(bp: string, vp: ViewportConfig, cfg: GridConfig) returns (r: Option<Style>)
    ensures r == CssVariables(bp, vp, cfg)
  {
    if bp == "xs" {
      return Some(map[]);
    }
    var vars := BaseVariables(bp, vp, cfg);
    if bp !in cfg.rackColumns {
      return None;
    }
    vars := AssignEach(vars, RackVar, cfg.rackColumns[bp]);
    if bp !in cfg.railColumns {
      return None;
    }
    vars := AssignEach(vars, RailVar, cfg.railColumns[bp]);
    if bp !in cfg.offsets {
      return None;
    }
    vars := AssignEach(vars, OffsetVar, cfg.offsets[bp]);
    return Some(vars);
  }

  /** The three variable families and the base names are pairwise apart. */
  lemma VariableFamiliesApart(rack: set<string>, rail: set<string>, offsets: set<string>)
    ensures Prefixed(Prefix(RackVar), rack) !! Prefixed(Prefix(RailVar), rail)
    ensures Prefixed(Prefix(RackVar), rack) !! Prefixed(Prefix(OffsetVar), offsets)
    ensures Prefixed(Prefix(RailVar), rail) !! Prefixed(Prefix(OffsetVar), offsets)
    ensures BaseVariableNames() !! Prefixed(Prefix(RackVar), rack)
    ensures BaseVariableNames() !! Prefixed(Prefix(RailVar), rail)
    ensures BaseVariableNames() !! Prefixed(Prefix(OffsetVar), offsets)
  {
    PrefixedFamiliesApart(rack, rail, offsets);
    BaseNamesApartRack(rack);
    BaseNamesApartRail(rail);
    BaseNamesApartOffset(offsets);
  }

  lemma PrefixedFamiliesApart(rack: set<string>, rail: set<string>, offsets: set<string>)
    ensures Prefixed(Prefix(RackVar), rack) !! Prefixed(Prefix(RailVar), rail)
    ensures Prefixed(Prefix(RackVar), rack) !! Prefixed(Prefix(OffsetVar), offsets)
    ensures Prefixed(Prefix(RailVar), rail) !! Prefixed(Prefix(OffsetVar), offsets)
  {
    PrefixedAt(Prefix(RackVar), rack, 5);
    PrefixedAt(Prefix(RackVar), rack, 7);
    PrefixedAt(Prefix(RailVar), rail, 5);
    PrefixedAt(Prefix(RailVar), rail, 7);
    PrefixedAt(Prefix(OffsetVar), offsets, 5);
  }

  /** No base name has the character a family prefix has at position i. */
  lemma BaseNamesApart(p: string, ks: set<string>, i: nat)
    requires i < |p|
    requires forall b :: b in BaseVariableNames() ==> i >= |b| || b[i] != p[i]
    ensures BaseVariableNames() !! Prefixed(p, ks)
  {
    PrefixedAt(p, ks, i);
  }

  lemma BaseNamesApartRack(rack: set<string>)
    ensures BaseVariableNames() !! Prefixed(Prefix(RackVar), rack)
  {
    BaseNamesApart(Prefix(RackVar), rack, 7);
  }

  lemma BaseNamesApartRail(rail: set<string>)
    ensures BaseVariableNames() !! Prefixed(Prefix(RailVar), rail)
  {
    BaseNamesApart(Prefix(RailVar), rail, 10);
  }

  lemma BaseNamesApartOffset(offsets: set<string>)
    ensures BaseVariableNames() !! Prefixed(Prefix(OffsetVar), offsets)
  {
    BaseNamesApart(Prefix(OffsetVar), offsets, 5);
  }

  /** The six base properties hold the shared settings, the available space in px and
      the breakpoint's own name. */
  lemma BaseVariablesSpec(bp: string, vp: ViewportConfig, cfg: GridConfig)
    ensures var base := BaseVariables(bp, vp, cfg);
      && base.Keys == BaseVariableNames()
      && base["--tw-layout-padding"] == cfg.containerPadding
      && base["--tw-layout-gap"] == cfg.gap
      && base["--tw-layout-max-width"] == Text(vp.availableSpace + "px")
      && base["--tw-layout-breakpoint"] == Text(bp)
      && base["--tw-rail-gap-standard"] == cfg.railGapStandard
      && base["--tw-rail-gap-slide"] == (if bp in cfg.slideGaps then cfg.slideGaps[bp] else Undefined)
  {
  }

  /** The properties of a breakpoint other than xs are exactly the six base properties
      and one per entry of its rack, rail and offset tables. */
  lemma CssVariablesKeys(bp: string, vp: ViewportConfig, cfg: GridConfig)
    requires bp != "xs" && bp in cfg.rackColumns && bp in cfg.railColumns && bp in cfg.offsets
    ensures CssVariables(bp, vp, cfg).Some?
    ensures CssVariables(bp, vp, cfg).value.Keys ==
      BaseVariableNames()
      + Prefixed("--tw-rack-col-", KeySet(cfg.rackColumns[bp]))
      + Prefixed("--tw-rail-col-", KeySet(cfg.railColumns[bp]))
      + Prefixed("--tw-offset-", KeySet(cfg.offsets[bp]))
  {
    var base := BaseVariables(bp, vp, cfg);
    var v1 := Assign(base, RackVar, cfg.rackColumns[bp]);
    var v2 := Assign(v1, RailVar, cfg.railColumns[bp]);
    BaseVariablesSpec(bp, vp, cfg);
    AssignKeys(base, RackVar, cfg.rackColumns[bp]);
    AssignKeys(v1, RailVar, cfg.railColumns[bp]);
    AssignKeys(v2, OffsetVar, cfg.offsets[bp]);
  }

  /** The base properties of a breakpoint other than xs survive the table loops: no
      table entry overwrites them. */
  lemma CssVariablesBase(bp: string, vp: ViewportConfig, cfg: GridConfig)
    requires bp != "xs" && bp in cfg.rackColumns && bp in cfg.railColumns && bp in cfg.offsets
    ensures CssVariables(bp, vp, cfg).Some?
    ensures forall k :: k in BaseVariableNames() ==>
      k in CssVariables(bp, vp, cfg).value && CssVariables(bp, vp, cfg).value[k] == BaseVariables(bp, vp, cfg)[k]
  {
    var rack, rail, offsets := cfg.rackColumns[bp], cfg.railColumns[bp], cfg.offsets[bp];
    var base := BaseVariables(bp, vp, cfg);
    var v1 := Assign(base, RackVar, rack);
    var v2 := Assign(v1, RailVar, rail);
    BaseVariablesSpec(bp, vp, cfg);
    VariableFamiliesApart(KeySet(rack), KeySet(rail), KeySet(offsets));
    forall k | k in BaseVariableNames()
      ensures k in Assign(v2, OffsetVar, offsets) && Assign(v2, OffsetVar, offsets)[k] == base[k]
    {
      AssignKeeps(base, RackVar, rack, k);
      AssignKeeps(v1, RailVar, rail, k);
      AssignKeeps(v2, OffsetVar, offsets, k);
    }
  }

  /** Each entry of the rack, rail and offset tables of a breakpoint other than xs is
      published under its prefixed name with the entry's own value. */
  lemma CssVariablesEntries(bp: string, vp: ViewportConfig, cfg: GridConfig)
    requires bp != "xs" && bp in cfg.rackColumns && bp in cfg.railColumns && bp in cfg.offsets
    requires DistinctKeys(cfg.rackColumns[bp])
    requires DistinctKeys(cfg.railColumns[bp])
    requires DistinctKeys(cfg.offsets[bp])
    ensures CssVariables(bp, vp, cfg).Some?
    ensures var vars := CssVariables(bp, vp, cfg).value;
      var rack, rail, offsets := cfg.rackColumns[bp], cfg.railColumns[bp], cfg.offsets[bp];
      && (forall j :: 0 <= j < |rack| ==>
            "--tw-rack-col-" + rack[j].0 in vars && vars["--tw-rack-col-" + rack[j].0] == rack[j].1)
      && (forall j :: 0 <= j < |rail| ==>
            "--tw-rail-col-" + rail[j].0 in vars && vars["--tw-rail-col-" + rail[j].0] == rail[j].1)
      && (forall j :: 0 <= j < |offsets| ==>
            "--tw-offset-" + offsets[j].0 in vars && vars["--tw-offset-" + offsets[j].0] == offsets[j].1)
  {
    var rack, rail, offsets := cfg.rackColumns[bp], cfg.railColumns[bp], cfg.offsets[bp];
    var base := BaseVariables(bp, vp, cfg);
    var v1 := Assign(base, RackVar, rack);
    var v2 := Assign(v1, RailVar, rail);
    var v3 := Assign(v2, OffsetVar, offsets);
    var pRack, pRail := Prefixed(Prefix(RackVar), KeySet(rack)), Prefixed(Prefix(RailVar), KeySet(rail));
    VariableFamiliesApart(KeySet(rack), KeySet(rail), KeySet(offsets));
    forall j | 0 <= j < |rack|
      ensures Prefix(RackVar) + rack[j].0 in v3 && v3[Prefix(RackVar) + rack[j].0] == rack[j].1
    {
      var k := Prefix(RackVar) + rack[j].0;
      AssignAt(base, RackVar, rack, j);
      assert k in pRack;
      AssignKeeps(v1, RailVar, rail, k);
      AssignKeeps(v2, OffsetVar, offsets, k);
    }
    forall j | 0 <= j < |rail|
      ensures Prefix(RailVar) + rail[j].0 in v3 && v3[Prefix(RailVar) + rail[j].0] == rail[j].1
    {
      var k := Prefix(RailVar) + rail[j].0;
      AssignAt(v1, RailVar, rail, j);
      assert k in pRail;
      AssignKeeps(v2, OffsetVar, offsets, k);
    }
    forall j | 0 <= j < |offsets|
      ensures Prefix(OffsetVar) + offsets[j].0 in v3 && v3[Prefix(OffsetVar) + offsets[j].0] == offsets[j].1
    {
      AssignAt(v2, OffsetVar, offsets, j);
    }
  }

  // ---------------------------------------------------------------------------
  // generateColumnClasses

  function PageWrapperRule(): Value {
    Obj(map["maxWidth" := VarRef("--tw-layout-max-width")])
  }

  /** The column classes of one breakpoint; `None` when its rack or rail table is
      missing, where `Object.entries(undefined)` throws. */
  function ColumnClasses(bp: string, cfg: GridConfig): (r: Option<Style>)
    ensures r.Some? <==> bp in cfg.rackColumns && bp in cfg.railColumns
  {
    if bp !in cfg.rackColumns || bp !in cfg.railColumns then None
    else
      var withRack := Assign(map[], RackClass, cfg.rackColumns[bp]);
      Some(Assign(withRack, RailClass, cfg.railColumns[bp])[".page-wrapper" := PageWrapperRule()])
  }

  method GenerateColumnClasses(bp: string, cfg: GridConfig) returns (r: Option<Style>)
    ensures r == ColumnClasses(bp, cfg)
  {
    var classes: Style := map[];
    if bp !in cfg.rackColumns {
      return None;
    }
    classes := AssignEach(classes, RackClass, cfg.rackColumns[bp]);
    if bp !in cfg.railColumns {
      return None;
    }
    classes := AssignEach(classes, RailClass, cfg.railColumns[bp]);
    classes := classes[".page-wrapper" := PageWrapperRule()];
    return Some(classes);
  }

  function ClassNames(rack: Entries, rail: Entries): set<string> {
    Prefixed(".col-", KeySet(rack)) + Prefixed(".rail .col-", KeySet(rail)) + {".page-wrapper"}
  }

  /** The rack classes, the rail classes and the page wrapper never collide. */
  lemma ClassFamiliesApart(rack: set<string>, rail: set<string>)
    ensures Prefixed(".col-", rack) !! Prefixed(".rail .col-", rail)
    ensures ".page-wrapper" !in Prefixed(".col-", rack)
    ensures ".page-wrapper" !in Prefixed(".rail .col-", rail)
  {
    PrefixedAt(".col-", rack, 1);
    PrefixedAt(".rail .col-", rail, 1);
  }

  /** The class names of a breakpoint are exactly those derived from its rack and rail
      tables plus `.page-wrapper`. */
  lemma ColumnClassesKeys(bp: string, cfg: GridConfig)
    requires bp in cfg.rackColumns && bp in cfg.railColumns
    ensures ColumnClasses(bp, cfg).Some?
    ensures ColumnClasses(bp, cfg).value.Keys == ClassNames(cfg.rackColumns[bp], cfg.railColumns[bp])
  {
    var rack, rail := cfg.rackColumns[bp], cfg.railColumns[bp];
    var c1 := Assign(map[], RackClass, rack);
    AssignKeys(map[], RackClass, rack);
    AssignKeys(c1, RailClass, rail);
    assert Assign(c1, RailClass, rail).Keys == Prefixed(".col-", KeySet(rack)) + Prefixed(".rail .col-", KeySet(rail));
  }

  /** No class name is `:root`, so merging the classes beside `:root` loses nothing. */
  lemma RootIsNoClass(rack: Entries, rail: Entries)
    ensures ":root" !in ClassNames(rack, rail)
  {
    PrefixedAt(".col-", KeySet(rack), 0);
    PrefixedAt(".rail .col-", KeySet(rail), 0);
    assert ":root"[0] == ':';
  }

  /** The classes are exactly one `.col-{col}` per rack entry, whose only property is the
      entry's span as gridColumn; one `.rail .col-{col}` per rail entry, whose width and
      minWidth are both the column's custom property and which does not shrink; and
      `.page-wrapper`, capped at the layout's maximum width. */
  lemma ColumnClassesSpec(bp: string, cfg: GridConfig)
    requires bp in cfg.rackColumns && bp in cfg.railColumns
    requires DistinctKeys(cfg.rackColumns[bp]) && DistinctKeys(cfg.railColumns[bp])
    ensures ColumnClasses(bp, cfg).Some?
    ensures var classes := ColumnClasses(bp, cfg).value;
      var rack, rail := cfg.rackColumns[bp], cfg.railColumns[bp];
      && classes.Keys == ClassNames(rack, rail)
      && classes[".page-wrapper"] == Obj(map["maxWidth" := VarRef("--tw-layout-max-width")])
      && (forall j :: 0 <= j < |rack| ==>
            classes[".col-" + rack[j].0] == Obj(map["gridColumn" := rack[j].1]))
      && (forall j :: 0 <= j < |rail| ==>
            var rule := classes[".rail .col-" + rail[j].0];
            && rule.Obj?
            && rule.fields.Keys == {"width", "minWidth", "flexShrink"}
            && rule.fields["width"] == rule.fields["minWidth"] == VarRef("--tw-rail-col-" + rail[j].0)
            && rule.fields["flexShrink"] == Num(0))
  {
    var rack, rail := cfg.rackColumns[bp], cfg.railColumns[bp];
    var classes := ColumnClasses(bp, cfg).value;
    RackRailKeys(rack, rail);
    forall j | 0 <= j < |rack|
      ensures classes[".col-" + rack[j].0] == Obj(map["gridColumn" := rack[j].1])
    {
      RackClassAt(rack, rail, j);
    }
    forall j | 0 <= j < |rail|
      ensures var rule := classes[".rail .col-" + rail[j].0];
        && rule.Obj?
        && rule.fields.Keys == {"width", "minWidth", "flexShrink"}
        && rule.fields["width"] == rule.fields["minWidth"] == VarRef("--tw-rail-col-" + rail[j].0)
        && rule.fields["flexShrink"] == Num(0)
    {
      RailClassAt(rack, rail, j);
    }
  }

  /** Before `.page-wrapper` is added, the classes are both loops' keys, apart from it. */
  lemma RackRailKeys(rack: Entries, rail: Entries)
    ensures var classes := Assign(Assign(map[], RackClass, rack), RailClass, rail);
      && classes.Keys == Prefixed(".col-", KeySet(rack)) + Prefixed(".rail .col-", KeySet(rail))
      && ".page-wrapper" !in classes
  {
    ClassFamiliesApart(KeySet(rack), KeySet(rail));
    AssignKeys(map[], RackClass, rack);
    AssignKeys(Assign(map[], RackClass, rack), RailClass, rail);
  }

  /** The rail loop leaves every rack class as the rack loop wrote it. */
  lemma RackClassAt(rack: Entries, rail: Entries, j: int)
    requires DistinctKeys(rack)
    requires 0 <= j < |rack|
    ensures var classes := Assign(Assign(map[], RackClass, rack), RailClass, rail);
      && ".col-" + rack[j].0 != ".page-wrapper"
      && ".col-" + rack[j].0 in classes
      && classes[".col-" + rack[j].0] == Obj(map["gridColumn" := rack[j].1])
  {
    var k := Prefix(RackClass) + rack[j].0;
    ClassFamiliesApart(KeySet(rack), KeySet(rail));
    AssignAt(map[], RackClass, rack, j);
    assert k in Prefixed(Prefix(RackClass), KeySet(rack));
    AssignKeeps(Assign(map[], RackClass, rack), RailClass, rail, k);
  }

  /** Every rail class holds its column's fixed-width rule. */
  lemma RailClassAt(rack: Entries, rail: Entries, j: int)
    requires DistinctKeys(rail)
    requires 0 <= j < |rail|
    ensures var classes := Assign(Assign(map[], RackClass, rack), RailClass, rail);
      && ".rail .col-" + rail[j].0 != ".page-wrapper"
      && ".rail .col-" + rail[j].0 in classes
      && classes[".rail .col-" + rail[j].0] == RailRule(rail[j].0)
      && RailRule(rail[j].0).fields.Keys == {"width", "minWidth", "flexShrink"}
  {
    ClassFamiliesApart(KeySet(rack), KeySet(rail));
    AssignAt(Assign(map[], RackClass, rack), RailClass, rail, j);
    assert Prefix(RailClass) + rail[j].0 in Prefixed(Prefix(RailClass), KeySet(rail));
  }

  // ---------------------------------------------------------------------------
  // generateBaseComponents

  /** `repeat(n, track)`: n grid tracks of the given size. */
  function RepeatTracks(n: nat, track: string): string {
    "repeat(" + Digits(n) + ", " + track + ")"
  }

  /** The number of tracks a `repeat(n, ...)` template declares. */
  function TrackCount(template: string): Option<nat> {
    if |template| >= 7 && template[..7] == "repeat(" then
      var rest := template[7..];
      var k := DigitRun(rest);
      if k < |rest| && rest[k] == ',' then ParseNat(rest[..k]) else None
    else None
  }

  lemma TrackCountOfRepeat(n: nat, track: string)
    ensures TrackCount(RepeatTracks(n, track)) == Some(n)
  {
    var d, t := Digits(n), ", " + track + ")";
    var s := RepeatTracks(n, track);
    assert s == "repeat(" + (d + t);
    assert s[..7] == "repeat(" && s[7..] == d + t;
    DigitRunOfDigits(d, t);
    assert (d + t)[..|d|] == d && (d + t)[|d|] == ',';
    ParseDigits(n);
  }

  function RackRule(): Value {
    Obj(map["display" := Text("grid"),
            "gridTemplateColumns" := Text("repeat(12, minmax(0, 1fr))"),
            "gap" := VarRef("--tw-layout-gap")])
  }

  function RailBaseRule(): Value {
    Obj(map["display" := Text("flex"),
            "gap" := VarRef("--tw-rail-gap-standard"),
            "flexWrap" := Text("nowrap"),
            "overflowX" := Text("auto"),
            "scrollbarWidth" := Text("none"),
            "-ms-overflow-style" := Text("none"),
            "&::-webkit-scrollbar" := Obj(map["display" := Text("none")])])
  }

  function SlideGapRule(): Value {
    Obj(map["gap" := VarRef("--tw-rail-gap-slide")])
  }

  function BoxRule(): Value {
    Obj(map["width" := Text("100%"), "boxSizing" := Text("border-box")])
  }

  function FixedRule(): Value {
    Obj(map["position" := Text("fixed !important")])
  }

  function PageWrapperBaseRule(): Value {
    Obj(map["width" := Text("100%"),
            "margin" := Text("0 auto"),
            "paddingLeft" := VarRef("--tw-layout-padding"),
            "paddingRight" := VarRef("--tw-layout-padding")])
  }

  /** generateBaseComponents: the fixed rack and rail container styles. */
  function BaseComponents(): (r: Style)
    ensures ".rack" in r && ".rail" in r && ".page-wrapper" in r
  {
    map[
      ".rack, .rail" := BoxRule(),
      ".rack" := RackRule(),
      ".rack.fixed" := FixedRule(),
      ".rail" := RailBaseRule(),
      ".rail.slide-mode" := SlideGapRule(),
      ".rail:has(.col-12)" := SlideGapRule(),
      ".page-wrapper" := PageWrapperBaseRule()
    ]
  }

  /** Slide mode, explicit or implied by a full-width column, uses the slide gap, and a
      plain rail the standard gap. */
  lemma BaseComponentsGaps()
    ensures ".rail.slide-mode" in BaseComponents() && ".rail:has(.col-12)" in BaseComponents()
    ensures ".rail" in BaseComponents()
    ensures BaseComponents()[".rail.slide-mode"] == Obj(map["gap" := VarRef("--tw-rail-gap-slide")])
    ensures BaseComponents()[".rail:has(.col-12)"] == BaseComponents()[".rail.slide-mode"]
    ensures BaseComponents()[".rail"].Obj? && "gap" in BaseComponents()[".rail"].fields
    ensures BaseComponents()[".rail"].fields["gap"] == VarRef("--tw-rail-gap-standard")
  {
  }

  /** The rack template is `repeat` of twelve equal tracks. */
  lemma RackTemplateTwelve()
    ensures "repeat(12, minmax(0, 1fr))" == RepeatTracks(12, "minmax(0, 1fr)")
    ensures TrackCount("repeat(12, minmax(0, 1fr))") == Some(12)
  {
    DigitsToTwelve();
    assert "repeat(" + "12" + ", " + "minmax(0, 1fr)" + ")" == "repeat(12, minmax(0, 1fr))";
    TrackCountOfRepeat(12, "minmax(0, 1fr)");
  }

  lemma RackSelector()
    ensures ".rack" in BaseComponents() && BaseComponents()[".rack"] == RackRule()
  {
  }

  lemma RackRuleFields()
    ensures "display" in RackRule().fields && RackRule().fields["display"] == Text("grid")
    ensures "gridTemplateColumns" in RackRule().fields
    ensures RackRule().fields["gridTemplateColumns"] == Text("repeat(12, minmax(0, 1fr))")
  {
  }

  /** A rack is a grid of twelve equal tracks. */
  lemma BaseComponentsRack()
    ensures ".rack" in BaseComponents() && BaseComponents()[".rack"] == RackRule()
    ensures "display" in RackRule().fields && RackRule().fields["display"] == Text("grid")
    ensures "gridTemplateColumns" in RackRule().fields
    ensures TrackCount(RackRule().fields["gridTemplateColumns"].s) == Some(12)
  {
    RackSelector();
    RackRuleFields();
    RackTemplateTwelve();
  }

  /** The base padding block added beneath components and utilities. */
  function PaddingBase(): (r: Style)
    ensures r.Keys == {".rack, .rail"}
    ensures var rule := r[".rack, .rail"];
      && rule.Obj? && rule.fields.Keys == {"paddingLeft", "paddingRight"}
      && rule.fields["paddingLeft"] == rule.fields["paddingRight"] == VarRef("--tw-layout-padding")
  {
    map[".rack, .rail" := Obj(map["paddingLeft" := VarRef("--tw-layout-padding"),
                                  "paddingRight" := VarRef("--tw-layout-padding")])]
  }

  // ---------------------------------------------------------------------------
  // The plugin body

  /** What the plugin hands to the framework, in order. `Utilities` stands for the
      constant utility classes. */
  datatype Emission = Components(styles: Style) | Base(styles: Style) | Utilities

  function MediaQuery(vp: ViewportConfig): string {
    "@media (min-width: " + vp.minWidth + ")"
  }

  /** `{':root': vars, ...classes}`. */
  function Responsive(vars: Style, classes: Style): Style {
    map[":root" := Obj(vars)] + classes
  }

  /** The block added for one viewport, or `None` when generating it throws. */
  function MediaBlock(bp: string, vp: ViewportConfig, cfg: GridConfig): (r: Option<Emission>)
    ensures r.Some? <==>
      bp in cfg.rackColumns && bp in cfg.railColumns && (bp == "xs" || bp in cfg.offsets)
    ensures r.Some? ==> r.value.Base?
  {
    match (CssVariables(bp, vp, cfg), ColumnClasses(bp, cfg))
    case (Some(vars), Some(classes)) => Some(Base(map[MediaQuery(vp) := Obj(Responsive(vars, classes))]))
    case _ => None
  }

  /** The blocks added by the `forEach` over the first n viewports, and whether it got
      through them without throwing. */
  function MediaRun(cfg: GridConfig, n: nat): (r: (seq<Emission>, bool))
    requires n <= |cfg.viewports|
    ensures |r.0| <= n
    ensures r.1 <==> |r.0| == n
    decreases n
  {
    if n == 0 then ([], true)
    else
      var prev := MediaRun(cfg, n - 1);
      if !prev.1 then prev
      else
        var (bp, vp) := cfg.viewports[n - 1];
        match MediaBlock(bp, vp, cfg)
        case Some(b) => (prev.0 + [b], true)
        case None => (prev.0, false)
  }

  /** Everything the plugin emits for a validation verdict and a configuration. A throw
      inside the viewport loop is caught by the plugin, after the blocks already added. */
  function PluginEmissions(valid: bool, cfg: GridConfig): (r: seq<Emission>)
    ensures !valid ==> r == []
    ensures valid ==> |r| >= 2 && r[0] == Components(BaseComponents()) && r[1] == Base(PaddingBase())
  {
    if !valid then []
    else
      var run := MediaRun(cfg, |cfg.viewports|);
      [Components(BaseComponents()), Base(PaddingBase())] + run.0 + (if run.1 then [Utilities] else [])
  }

  lemma {:induction false} MediaRunStops(cfg: GridConfig, i: nat, n: nat)
    requires i <= n <= |cfg.viewports|
    requires !MediaRun(cfg, i).1
    ensures MediaRun(cfg, n) == MediaRun(cfg, i)
    decreases n
  {
    if n > i {
      MediaRunStops(cfg, i, n - 1);
    }
  }

  /** One iteration of the viewport loop: the variables, then the classes, then the
      block; `None` when either generator throws. */
  method GenerateMediaBlock(bp: string, vp: ViewportConfig, cfg: GridConfig) returns (r: Option<Emission>)
    ensures r == MediaBlock(bp, vp, cfg)
  {
    var vars := GenerateCssVariables(bp, vp, cfg);
    if vars.None? {
      return None;
    }
    var classes := GenerateColumnClasses(bp, cfg);
    if classes.None? {
      return None;
    }
    return Some(Base(map[MediaQuery(vp) := Obj(Responsive(vars.value, classes.value))]));
  }

  /** The plugin body: validate, then add the base components, the padding base and one
      media block per viewport, then the utilities. */
  method RunPlugin(valid: bool, cfg: GridConfig) returns (emitted: seq<Emission>)
    ensures emitted == PluginEmissions(valid, cfg)
  {
    emitted := [];
    if !valid {
      return;
    }
    emitted := emitted + [Components(BaseComponents())];
    emitted := emitted + [Base(PaddingBase())];
    var i := 0;
    while i < |cfg.viewports|
      invariant 0 <= i <= |cfg.viewports|
      invariant MediaRun(cfg, i).1
      invariant emitted == [Components(BaseComponents()), Base(PaddingBase())] + MediaRun(cfg, i).0
    {
      var (bp, vp) := cfg.viewports[i];
      var block := GenerateMediaBlock(bp, vp, cfg);
      if block.None? {
        MediaRunStops(cfg, i + 1, |cfg.viewports|);
        return;
      }
      assert MediaRun(cfg, i + 1) == (MediaRun(cfg, i).0 + [block.value], true);
      emitted := emitted + [block.value];
      i := i + 1;
    }
    emitted := emitted + [Utilities];
  }

  /** The viewport loop emits the blocks of the longest prefix of viewports whose block
      can be generated, in viewport order, and stops at the first that cannot. */
  lemma {:induction false} MediaRunSpec(cfg: GridConfig, n: nat)
    requires n <= |cfg.viewports|
    ensures var r := MediaRun(cfg, n);
      && (forall i :: 0 <= i < |r.0| ==>
            MediaBlock(cfg.viewports[i].0, cfg.viewports[i].1, cfg).Some?
            && r.0[i] == MediaBlock(cfg.viewports[i].0, cfg.viewports[i].1, cfg).value)
      && (!r.1 ==> MediaBlock(cfg.viewports[|r.0|].0, cfg.viewports[|r.0|].1, cfg).None?)
    decreases n
  {
    if n > 0 {
      MediaRunSpec(cfg, n - 1);
      var prev, r := MediaRun(cfg, n - 1), MediaRun(cfg, n);
      if prev.1 {
        var b := MediaBlock(cfg.viewports[n - 1].0, cfg.viewports[n - 1].1, cfg);
        if b.Some? {
          assert r.0 == prev.0 + [b.value];
        } else {
          assert r == (prev.0, false);
        }
      } else {
        assert r == prev;
      }
    }
  }

  /** The utilities are added exactly when the viewport loop got through every viewport
      without throwing. */
  lemma UtilitiesOnlyWhenComplete(valid: bool, cfg: GridConfig)
    ensures Utilities in PluginEmissions(valid, cfg) <==> valid && MediaRun(cfg, |cfg.viewports|).1
  {
    if valid {
      MediaRunSpec(cfg, |cfg.viewports|);
    }
  }

  /** A viewport's block is one `@media (min-width: ...)` rule holding `:root` with the
      breakpoint's variables next to all of its column classes, and nothing else. */
  lemma MediaBlockSpec(bp: string, vp: ViewportConfig, cfg: GridConfig)
    requires MediaBlock(bp, vp, cfg).Some?
    ensures var vars, classes := CssVariables(bp, vp, cfg).value, ColumnClasses(bp, cfg).value;
      var b := MediaBlock(bp, vp, cfg).value;
      && b.Base?
      && b.styles.Keys == {"@media (min-width: " + vp.minWidth + ")"}
      && var st := b.styles[MediaQuery(vp)];
      && st.Obj?
      && st.fields.Keys == {":root"} + classes.Keys
      && st.fields[":root"] == Obj(vars)
      && (forall k :: k in classes ==> st.fields[k] == classes[k])
  {
    ColumnClassesKeys(bp, cfg);
    RootIsNoClass(cfg.rackColumns[bp], cfg.railColumns[bp]);
    var vars, classes := CssVariables(bp, vp, cfg).value, ColumnClasses(bp, cfg).value;
    var st := Responsive(vars, classes);
    assert st.Keys == {":root"} + classes.Keys;
    assert st[":root"] == Obj(vars);
  }

  /** A valid configuration whose viewports all have their tables emits the base
      components, the padding base, one media block per viewport in viewport order, and
      then the utilities. */
  lemma PluginSpec(cfg: GridConfig)
    requires forall i :: 0 <= i < |cfg.viewports| ==>
      MediaBlock(cfg.viewports[i].0, cfg.viewports[i].1, cfg).Some?
    ensures var e := PluginEmissions(true, cfg);
      && |e| == |cfg.viewports| + 3
      && e[0] == Components(BaseComponents())
      && e[1] == Base(PaddingBase())
      && (forall i :: 0 <= i < |cfg.viewports| ==>
            e[i + 2] == MediaBlock(cfg.viewports[i].0, cfg.viewports[i].1, cfg).value)
      && e[|e| - 1] == Utilities
  {
    var run := MediaRun(cfg, |cfg.viewports|);
    MediaRunSpec(cfg, |cfg.viewports|);
    assert run.1;
    var e := PluginEmissions(true, cfg);
    assert e == [Components(BaseComponents()), Base(PaddingBase())] + run.0 + [Utilities];
    forall i | 0 <= i < |cfg.viewports|
      ensures e[i + 2] == MediaBlock(cfg.viewports[i].0, cfg.viewports[i].1, cfg).value
    {
      assert e[i + 2] == run.0[i];
    }
  }
}
