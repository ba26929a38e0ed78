/** The custom properties the TWLayout styles refer to through `var(...)`, and the
    proof that each breakpoint's variables define them. */
module LayoutRefs {

  import opened Wrappers
  import opened TwLayout

  /** The text is a `var(...)` reference. */
  predicate IsVarRef(s: string) {
    |s| >= 5 && s[..4] == "var(" && s[|s| - 1] == ')'
  }

  /** The custom property every `var(...)` in a value refers to, at any depth. */
  function Refs(v: Value): set<string> {
    match v
    case Text(s) => if IsVarRef(s) then {s[4..|s| - 1]} else {}
    case Obj(fields) => set k, name | k in fields && name in Refs(fields[k]) :: name
    case _ => {}
  }

  function StyleRefs(st: Style): set<string> {
    Refs(Obj(st))
  }

  lemma RefsOfVarRef(name: string)
    ensures Refs(VarRef(name)) == {name}
  {
    var s := "var(" + name + ")";
    assert s[..4] == "var(" && s[4..|s| - 1] == name;
  }

  /** The custom properties the entries of a family refer to, in table order. */
  function EntryRefs(f: Family, es: Entries): set<string>
    decreases |es|
  {
    if es == [] then {}
    else EntryRefs(f, es[..|es| - 1]) + Refs(Entry(f, es[|es| - 1].0, es[|es| - 1].1))
  }

  /** Setting one key adds at most the new value's references. */
  lemma RefsUpdate(m: Style, k: string, v: Value)
    ensures StyleRefs(m[k := v]) <= StyleRefs(m) + Refs(v)
  {
    forall name | name in StyleRefs(m[k := v])
      ensures name in StyleRefs(m) + Refs(v)
    {
      var k' :| k' in m[k := v] && name in Refs(m[k := v][k']);
      if k' != k {
        assert name in Refs(m[k']);
      }
    }
  }

  lemma RefsUpdateWithin(m: Style, k: string, v: Value, u: set<string>)
    requires StyleRefs(m) <= u && Refs(v) <= u
    ensures StyleRefs(m[k := v]) <= u
  {
    RefsUpdate(m, k, v);
  }

  /** The `forEach` loop adds at most the references of the entries it writes. */
  lemma {:induction false} AssignRefs(m: Style, f: Family, es: Entries)
    ensures StyleRefs(Assign(m, f, es)) <= StyleRefs(m) + EntryRefs(f, es)
    decreases |es|
  {
    if es != [] {
      var init, last := es[..|es| - 1], es[|es| - 1];
      AssignRefs(m, f, init);
      RefsUpdate(Assign(m, f, init), Prefix(f) + last.0, Entry(f, last.0, last.1));
    }
  }

  /** A rule holding one property refers to what that property's value refers to. */
  lemma RefsSingle(p: string, v: Value)
    ensures Refs(Obj(map[p := v])) == Refs(v)
  {
    assert forall name :: name in Refs(v) ==> p in map[p := v] && name in Refs(map[p := v][p]);
  }

  /** A `.col-{col}` rule refers only to what the configured span refers to. */
  lemma {:induction false} RackClassRefs(es: Entries)
    ensures EntryRefs(RackClass, es) == EntryRefs(RackVar, es)
    decreases |es|
  {
    if es != [] {
      RackClassRefs(es[..|es| - 1]);
      RefsSingle("gridColumn", es[|es| - 1].1);
    }
  }

  /** A `.rail .col-{col}` rule refers only to `--tw-rail-col-{col}`. */
  lemma RailRuleRefs(col: string)
    ensures Refs(RailRule(col)) == {"--tw-rail-col-" + col}
  {
    var name := "--tw-rail-col-" + col;
    RefsOfVarRef(name);
    assert "width" in RailRule(col).fields && name in Refs(RailRule(col).fields["width"]);
  }

  /** The rail rules refer only to the rail family's properties of their own table. */
  lemma {:induction false} RailClassRefs(es: Entries)
    ensures EntryRefs(RailClass, es) <= Prefixed("--tw-rail-col-", KeySet(es))
    decreases |es|
  {
    if es != [] {
      var init, last := es[..|es| - 1], es[|es| - 1];
      RailClassRefs(init);
      RailRuleRefs(last.0);
      assert es == init + [last];
      assert KeySet(es) == KeySet(init) + {last.0};
    }
  }

  /** The column classes refer to the layout's maximum width, to the rail family of the
      breakpoint's rail table, and otherwise only to what the rack spans themselves name. */
  lemma ColumnClassesRefs(bp: string, cfg: GridConfig)
    requires bp in cfg.rackColumns && bp in cfg.railColumns
    ensures ColumnClasses(bp, cfg).Some?
    ensures StyleRefs(ColumnClasses(bp, cfg).value) <=
      {"--tw-layout-max-width"}
      + Prefixed("--tw-rail-col-", KeySet(cfg.railColumns[bp]))
      + EntryRefs(RackVar, cfg.rackColumns[bp])
  {
    var rack, rail := cfg.rackColumns[bp], cfg.railColumns[bp];
    var c1 := Assign(map[], RackClass, rack);
    var c2 := Assign(c1, RailClass, rail);
    AssignRefs(map[], RackClass, rack);
    RackClassRefs(rack);
    AssignRefs(c1, RailClass, rail);
    RailClassRefs(rail);
    RefsUpdate(c2, ".page-wrapper", PageWrapperRule());
    RefsSingle("maxWidth", VarRef("--tw-layout-max-width"));
    RefsOfVarRef("--tw-layout-max-width");
  }

  lemma BoxRuleRefs()
    ensures Refs(BoxRule()) == {} && Refs(FixedRule()) == {}
  {
  }

  lemma RackRuleRefs()
    ensures Refs(RackRule()) <= {"--tw-layout-gap"}
  {
    RefsOfVarRef("--tw-layout-gap");
    assert !IsVarRef("repeat(12, minmax(0, 1fr))") by {
      assert "repeat(12, minmax(0, 1fr))"[0] == 'r';
    }
  }

  lemma RailBaseRuleRefs()
    ensures Refs(RailBaseRule()) <= {"--tw-rail-gap-standard"}
  {
    RefsOfVarRef("--tw-rail-gap-standard");
  }

  lemma SlideGapRuleRefs()
    ensures Refs(SlideGapRule()) <= {"--tw-rail-gap-slide"}
  {
    RefsOfVarRef("--tw-rail-gap-slide");
  }

  lemma PageWrapperBaseRuleRefs()
    ensures Refs(PageWrapperBaseRule()) <= {"--tw-layout-padding"}
  {
    RefsOfVarRef("--tw-layout-padding");
  }

  /** The fixed components refer to the padding, the gap and the two rail gaps. */
  lemma BaseComponentsRefs()
    ensures StyleRefs(BaseComponents()) <=
      {"--tw-layout-padding", "--tw-layout-gap", "--tw-rail-gap-standard", "--tw-rail-gap-slide"}
  {
    var u := {"--tw-layout-padding", "--tw-layout-gap", "--tw-rail-gap-standard", "--tw-rail-gap-slide"};
    BoxRuleRefs();
    RackRuleRefs();
    RailBaseRuleRefs();
    SlideGapRuleRefs();
    PageWrapperBaseRuleRefs();
    var m: Style := map[];
    RefsUpdateWithin(m, ".rack, .rail", BoxRule(), u);
    m := m[".rack, .rail" := BoxRule()];
    RefsUpdateWithin(m, ".rack", RackRule(), u);
    m := m[".rack" := RackRule()];
    RefsUpdateWithin(m, ".rack.fixed", FixedRule(), u);
    m := m[".rack.fixed" := FixedRule()];
    RefsUpdateWithin(m, ".rail", RailBaseRule(), u);
    m := m[".rail" := RailBaseRule()];
    RefsUpdateWithin(m, ".rail.slide-mode", SlideGapRule(), u);
    m := m[".rail.slide-mode" := SlideGapRule()];
    RefsUpdateWithin(m, ".rail:has(.col-12)", SlideGapRule(), u);
    m := m[".rail:has(.col-12)" := SlideGapRule()];
    RefsUpdateWithin(m, ".page-wrapper", PageWrapperBaseRule(), u);
  }

  /** The padding base refers to the padding alone. */
  lemma PaddingBaseRefs()
    ensures StyleRefs(PaddingBase()) <= {"--tw-layout-padding"}
  {
  }

  /** For every breakpoint but xs, each custom property the fixed components, the padding
      base and the column classes refer to is a key of the same breakpoint's variables,
      unless the configured rack span text itself names it. The base names the components
      refer to hold the shared settings; the slide gap is `undefined` for a breakpoint
      that the slide-gap table lacks. */
  lemma ReferencedVariablesDefined(bp: string, vp: ViewportConfig, cfg: GridConfig)
    requires bp != "xs" && bp in cfg.rackColumns && bp in cfg.railColumns && bp in cfg.offsets
    ensures CssVariables(bp, vp, cfg).Some? && ColumnClasses(bp, cfg).Some?
    ensures StyleRefs(BaseComponents()) + StyleRefs(PaddingBase()) + StyleRefs(ColumnClasses(bp, cfg).value)
      <= CssVariables(bp, vp, cfg).value.Keys + EntryRefs(RackVar, cfg.rackColumns[bp])
    ensures var vars := CssVariables(bp, vp, cfg).value;
      && "--tw-layout-padding" in vars && vars["--tw-layout-padding"] == cfg.containerPadding
      && "--tw-layout-gap" in vars && vars["--tw-layout-gap"] == cfg.gap
      && "--tw-layout-max-width" in vars && vars["--tw-layout-max-width"] == Text(vp.availableSpace + "px")
      && "--tw-rail-gap-standard" in vars && vars["--tw-rail-gap-standard"] == cfg.railGapStandard
      && "--tw-rail-gap-slide" in vars
      && vars["--tw-rail-gap-slide"] == (if bp in cfg.slideGaps then cfg.slideGaps[bp] else Undefined)
  {
    BaseComponentsRefs();
    PaddingBaseRefs();
    ColumnClassesRefs(bp, cfg);
    CssVariablesKeys(bp, vp, cfg);
    CssVariablesBase(bp, vp, cfg);
    BaseVariablesSpec(bp, vp, cfg);
  }

  /** Whichever entry for a column wins, its rail rule depends on the column alone. */
  lemma {:induction false} RailAssignAt(m: Style, es: Entries, col: string)
    requires col in KeySet(es)
    ensures Prefix(RailClass) + col in Assign(m, RailClass, es)
    ensures Assign(m, RailClass, es)[Prefix(RailClass) + col] == RailRule(col)
    decreases |es|
  {
    var init, last := es[..|es| - 1], es[|es| - 1];
    if last.0 != col {
      assert es == init + [last];
      assert col in KeySet(init);
      RailAssignAt(m, init, col);
      if Prefix(RailClass) + last.0 == Prefix(RailClass) + col {
        PrefixInjective(Prefix(RailClass), last.0, col);
      }
    }
  }

  /** At xs the variables are empty, yet the column classes refer to the layout's
      maximum width and to the rail property of every rail column. */
  lemma XsReferencesUndefined(vp: ViewportConfig, cfg: GridConfig, col: string)
    requires "xs" in cfg.rackColumns && "xs" in cfg.railColumns
    requires col in KeySet(cfg.railColumns["xs"])
    ensures CssVariables("xs", vp, cfg) == Some(map[]) && ColumnClasses("xs", cfg).Some?
    ensures "--tw-layout-max-width" in StyleRefs(ColumnClasses("xs", cfg).value)
    ensures "--tw-rail-col-" + col in StyleRefs(ColumnClasses("xs", cfg).value)
  {
    var classes := ColumnClasses("xs", cfg).value;
    RefsOfVarRef("--tw-layout-max-width");
    RefsSingle("maxWidth", VarRef("--tw-layout-max-width"));
    assert "--tw-layout-max-width" in Refs(classes[".page-wrapper"]);
    var k := ".rail .col-" + col;
    RailAssignAt(Assign(map[], RackClass, cfg.rackColumns["xs"]), cfg.railColumns["xs"], col);
    assert k != ".page-wrapper" by {
      ClassFamiliesApart({}, {col});
      assert k in Prefixed(".rail .col-", {col});
    }
    RailRuleRefs(col);
    RefsOfVarRef("--tw-rail-col-" + col);
    assert "--tw-rail-col-" + col in Refs(classes[k]);
  }
}
