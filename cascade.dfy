/**
 * The pure pieces of the cascading option menus of the material frame, shared
 * by both windows: the visibility rules, the reset of a menu, the list of
 * visible menus, the descent through the tree by the selected names, the names
 * offered to the next menu and the totals shown once a selection resolves.
 */
module Cascade {
  import opened Wrappers
  import opened Dicts
  import opened Catalog

  /** The option menus of the material frame. */
  datatype Field = Material | Subject | Provider | Category | Stage | Grade | Volume

  /** One option menu: its selected value, whether it is gridded, whether it is enabled, its entries. */
  datatype Menu = Menu(value: string, visible: bool, enabled: bool, options: seq<string>)

  /** The option menus of the material frame, one per field. */
  datatype Menus = Menus(material: Menu, subject: Menu, provider: Menu, category: Menu,
                         stage: Menu, grade: Menu, volume: Menu)
  {
    /** The menu of field `f`. */
    function At(f: Field): Menu {
      match f
      case Material => material
      case Subject => subject
      case Provider => provider
      case Category => category
      case Stage => stage
      case Grade => grade
      case Volume => volume
    }

    /** These menus with the menu of field `f` replaced by `m`. */
    function With(f: Field, m: Menu): (r: Menus)
      ensures r.At(f) == m
      ensures forall g {:trigger r.At(g)} :: g != f ==> r.At(g) == At(g)
    {
      match f
      case Material => this.(material := m)
      case Subject => this.(subject := m)
      case Provider => this.(provider := m)
      case Category => this.(category := m)
      case Stage => this.(stage := m)
      case Grade => this.(grade := m)
      case Volume => this.(volume := m)
    }
  }

  /** Replacing the same menu twice keeps the second replacement. */
  lemma WithTwice(menus: Menus, f: Field, a: Menu, b: Menu)
    ensures menus.With(f, a).With(f, b) == menus.With(f, b)
  {
  }

  /** Putting back the menu that is there changes nothing. */
  lemma WithAt(menus: Menus, f: Field)
    ensures menus.With(f, menus.At(f)) == menus
  {
  }

  /** Menus that agree field by field are the same menus. */
  lemma MenusExt(a: Menus, b: Menus)
    requires forall f :: a.At(f) == b.At(f)
    ensures a == b
  {
    assert a.At(Material) == b.At(Material) && a.At(Subject) == b.At(Subject) && a.At(Provider) == b.At(Provider);
    assert a.At(Category) == b.At(Category) && a.At(Stage) == b.At(Stage) && a.At(Grade) == b.At(Grade);
    assert a.At(Volume) == b.At(Volume);
  }

  /**
   * The widget configuration the window reads: the order of the material-frame
   * menus, each menu's default value, and the subject menu's configured width.
   */
  datatype Config = Config(order: seq<Field>, defaults: Field -> string, subjectWidth: int)

  /*
   * Visibility rules (src/basic.py:570-625, src/gui.py:413-490)
   */

  /** The values the rules read; subject and category read as `None` when the material menu is the one that changed. */
  datatype Selection = Selection(material: string, subject: Option<string>, category: Option<string>)

  function SelectionOf(menus: Menus, key: Field): Selection
  {
    if key == Material then Selection(menus.At(Material).value, None, None)
    else Selection(menus.At(Material).value, Some(menus.At(Subject).value), Some(menus.At(Category).value))
  }

  const Primary: string := "小学"
  const Junior: string := "初中"
  const Senior: string := "高中"
  const SpecialEducation: string := "特殊教育"
  const InfoTechnology: string := "信息科技"
  const InformationTechnology: string := "信息技术"
  const IntellectualSchool: string := "培智学校"
  const German: string := "德语"
  const French: string := "法语"

  /** `is_info_tech`: primary or junior school information technology. */
  predicate IsInfoTech(s: Selection) {
    (s.material == Primary || s.material == Junior) && s.subject == Some(InfoTechnology)
  }

  /** `is_spec_educ`. */
  predicate IsSpecialEducation(s: Selection) {
    s.material == SpecialEducation
  }

  /** `is_spec_edu_info_tech`: information technology at a school for intellectual disability. */
  predicate IsSpecialInfoTech(s: Selection) {
    IsSpecialEducation(s) && s.category == Some(IntellectualSchool) && s.subject == Some(InformationTechnology)
  }

  /** `is_special_grade`: a senior-school subject other than German and French, which has no grade menu. */
  predicate IsGradeless(s: Selection) {
    s.material == Senior && s.subject != Some(German) && s.subject != Some(French)
  }

  /** Whether the rules show field `f`; material and subject are not governed by them. */
  function Shown(s: Selection, f: Field): (r: Option<bool>)
    ensures r.None? <==> f == Material || f == Subject
  {
    match f
    case Material => None
    case Subject => None
    case Provider => Some(!(IsSpecialEducation(s) || IsInfoTech(s)))
    case Category => Some(IsSpecialEducation(s))
    case Stage => Some(IsSpecialEducation(s) && s.category != Some(IntellectualSchool))
    case Grade => Some(!(IsGradeless(s) || IsSpecialInfoTech(s)))
    case Volume => Some(IsSpecialInfoTech(s))
  }

  /** The subject menu's width: 48 for information technology, the configured width otherwise. */
  function Width(cfg: Config, s: Selection): (w: int)
    ensures IsInfoTech(s) ==> w == 48
    ensures !IsInfoTech(s) ==> w == cfg.subjectWidth
  {
    if IsInfoTech(s) then 48 else cfg.subjectWidth
  }

  /**
   * `_reset_menu_option` / `_reset_options` on one menu: disabled, every entry
   * after the first deleted, the configured default selected; its visibility
   * is left alone.
   */
  function Reset(m: Menu, default: string): (r: Menu)
    ensures r.value == default && !r.enabled && r.visible == m.visible
    ensures |r.options| <= 1 && r.options <= m.options && (m.options != [] ==> r.options == [m.options[0]])
  {
    Menu(default, m.visible, false, if m.options == [] then [] else [m.options[0]])
  }

  /** `toggle_widget_state(menu, visible)`, followed by a reset when the menu is hidden. */
  function Toggled(cfg: Config, m: Menu, f: Field, visible: bool): (r: Menu)
    ensures r.visible == visible
  {
    if visible then m.(visible := true) else Reset(m.(visible := false), cfg.defaults(f))
  }

  /** Menu `f` once the rules have run. */
  function Governed(cfg: Config, menus: Menus, s: Selection, f: Field): Menu {
    match Shown(s, f)
    case None => menus.At(f)
    case Some(v) => Toggled(cfg, menus.At(f), f, v)
  }

  /**
   * The menus once the rules have run: a governed menu takes the visibility the
   * rules give it and is reset when hidden; nothing else changes.
   */
  function Arrange(cfg: Config, menus: Menus, s: Selection): (r: Menus)
    ensures r.At(Material) == menus.At(Material) && r.At(Subject) == menus.At(Subject)
  {
    Menus(Governed(cfg, menus, s, Material), Governed(cfg, menus, s, Subject), Governed(cfg, menus, s, Provider),
          Governed(cfg, menus, s, Category), Governed(cfg, menus, s, Stage), Governed(cfg, menus, s, Grade),
          Governed(cfg, menus, s, Volume))
  }

  /** Each menu is arranged by its own rule. */
  lemma ArrangeAt(cfg: Config, menus: Menus, s: Selection, f: Field)
    ensures Arrange(cfg, menus, s).At(f) == Governed(cfg, menus, s, f)
  {
    match f {
      case Material =>
      case Subject =>
      case Provider =>
      case Category =>
      case Stage =>
      case Grade =>
      case Volume =>
    }
  }

  /**
   * A menu the rules do not govern is left alone; one they show is only made
   * visible; one they hide is also disabled, set to its default and keeps at
   * most its first entry.
   */
  lemma ArrangeRules(cfg: Config, menus: Menus, s: Selection, f: Field)
    ensures var r := Arrange(cfg, menus, s).At(f);
      && (Shown(s, f).None? ==> r == menus.At(f))
      && (Shown(s, f) == Some(true) ==> r == menus.At(f).(visible := true))
      && (Shown(s, f) == Some(false) ==>
            && !r.visible && !r.enabled && r.value == cfg.defaults(f)
            && |r.options| <= 1 && r.options <= menus.At(f).options)
  {
    ArrangeAt(cfg, menus, s, f);
  }

  /** Running the rules twice on the same selection changes nothing the first run did not. */
  lemma ArrangeTwice(cfg: Config, menus: Menus, s: Selection)
    ensures Arrange(cfg, Arrange(cfg, menus, s), s) == Arrange(cfg, menus, s)
  {
    var a := Arrange(cfg, menus, s);
    var b := Arrange(cfg, a, s);
    forall f ensures b.At(f) == a.At(f) {
      ArrangeAt(cfg, menus, s, f);
      ArrangeAt(cfg, a, s, f);
    }
    MenusExt(b, a);
  }

  /** The volume menu replaces the grade menu: they are never shown together, and without special education neither the category, the stage nor the volume menu shows. */
  lemma VolumeReplacesGrade(s: Selection)
    ensures Shown(s, Volume) == Some(true) ==> Shown(s, Grade) == Some(false)
    ensures !IsSpecialEducation(s) ==> Shown(s, Category) == Some(false) && Shown(s, Stage) == Some(false) && Shown(s, Volume) == Some(false)
    ensures IsSpecialEducation(s) ==> Shown(s, Provider) == Some(false)
  {
  }

  /** When the material menu changed, the subject and category values play no part. */
  lemma MaterialChangeRules(menus: Menus)
    ensures var s := SelectionOf(menus, Material);
      && !IsInfoTech(s) && !IsSpecialInfoTech(s)
      && Shown(s, Provider) == Some(menus.At(Material).value != SpecialEducation)
      && Shown(s, Stage) == Some(menus.At(Material).value == SpecialEducation)
      && Shown(s, Grade) == Some(menus.At(Material).value != Senior)
  {
  }

  /** The menus shown or hidden by `rules` in turn, each hidden one reset. */
  function ShowAll(cfg: Config, menus: Menus, rules: seq<(Field, bool)>): (r: Menus)
    decreases |rules|
  {
    if rules == [] then menus
    else
      var m := ShowAll(cfg, menus, rules[..|rules| - 1]);
      var (f, visible) := rules[|rules| - 1];
      m.With(f, Toggled(cfg, m.At(f), f, visible))
  }

  /** The special-education rules of src/basic.py:594-599 and src/gui.py:445-449, in the source's order. */
  function Rules(s: Selection): seq<(Field, bool)> {
    [(Category, IsSpecialEducation(s)),
     (Stage, IsSpecialEducation(s) && s.category != Some(IntellectualSchool)),
     (Provider, !(IsSpecialEducation(s) || IsInfoTech(s)))]
  }

  /** Toggling a menu twice is toggling it once, unless a hidden menu is shown again. */
  lemma ToggledTwice(cfg: Config, m: Menu, f: Field, first: bool, second: bool)
    requires !first ==> !second
    ensures Toggled(cfg, Toggled(cfg, m, f, first), f, second) == Toggled(cfg, m, f, second)
  {
  }

  /** Six toggles in the order the rules run them come to one toggle per menu. */
  lemma ToggleChain(cfg: Config, menus: Menus, a: bool, b: bool, c: bool, d: bool, e: bool, g: bool)
    requires !a ==> !d
    ensures var m1 := menus.With(Provider, Toggled(cfg, menus.At(Provider), Provider, a));
      var m2 := m1.With(Category, Toggled(cfg, m1.At(Category), Category, b));
      var m3 := m2.With(Stage, Toggled(cfg, m2.At(Stage), Stage, c));
      var m4 := m3.With(Provider, Toggled(cfg, m3.At(Provider), Provider, d));
      var m5 := m4.With(Grade, Toggled(cfg, m4.At(Grade), Grade, e));
      var m6 := m5.With(Volume, Toggled(cfg, m5.At(Volume), Volume, g));
      m6 == menus.With(Provider, Toggled(cfg, menus.At(Provider), Provider, d))
                 .With(Category, Toggled(cfg, menus.At(Category), Category, b))
                 .With(Stage, Toggled(cfg, menus.At(Stage), Stage, c))
                 .With(Grade, Toggled(cfg, menus.At(Grade), Grade, e))
                 .With(Volume, Toggled(cfg, menus.At(Volume), Volume, g))
  {
    ToggledTwice(cfg, menus.At(Provider), Provider, a, d);
  }

  /** The rule table, written out menu by menu. */
  lemma ArrangeAll(cfg: Config, menus: Menus, s: Selection)
    ensures Arrange(cfg, menus, s) ==
      menus.With(Provider, Toggled(cfg, menus.At(Provider), Provider, Shown(s, Provider).value))
           .With(Category, Toggled(cfg, menus.At(Category), Category, Shown(s, Category).value))
           .With(Stage, Toggled(cfg, menus.At(Stage), Stage, Shown(s, Stage).value))
           .With(Grade, Toggled(cfg, menus.At(Grade), Grade, Shown(s, Grade).value))
           .With(Volume, Toggled(cfg, menus.At(Volume), Volume, Shown(s, Volume).value))
  {
  }

  /** Three rules run in turn. */
  lemma ShowThree(cfg: Config, menus: Menus, a: (Field, bool), b: (Field, bool), c: (Field, bool))
    ensures var m1 := menus.With(a.0, Toggled(cfg, menus.At(a.0), a.0, a.1));
      var m2 := m1.With(b.0, Toggled(cfg, m1.At(b.0), b.0, b.1));
      ShowAll(cfg, menus, [a, b, c]) == m2.With(c.0, Toggled(cfg, m2.At(c.0), c.0, c.1))
  {
    var m1 := menus.With(a.0, Toggled(cfg, menus.At(a.0), a.0, a.1));
    var m2 := m1.With(b.0, Toggled(cfg, m1.At(b.0), b.0, b.1));
    assert [a][..0] == [];
    assert ShowAll(cfg, menus, [a]) == m1;
    assert [a, b][..1] == [a];
    assert ShowAll(cfg, menus, [a, b]) == m2;
    assert [a, b, c][..2] == [a, b];
  }

  /**
   * The rules as `_update_menu_state` runs them (the provider first, then the
   * special-education rules, the grade and the volume) arrange the menus as
   * the rule table says.
   */
  lemma ArrangeInSteps(cfg: Config, menus: Menus, s: Selection)
    ensures var m1 := menus.With(Provider, Toggled(cfg, menus.At(Provider), Provider, !IsInfoTech(s)));
      var m4 := ShowAll(cfg, m1, Rules(s));
      var m5 := m4.With(Grade, Toggled(cfg, m4.At(Grade), Grade, !(IsGradeless(s) || IsSpecialInfoTech(s))));
      m5.With(Volume, Toggled(cfg, m5.At(Volume), Volume, IsSpecialInfoTech(s))) == Arrange(cfg, menus, s)
  {
    var b, c, d := Shown(s, Category).value, Shown(s, Stage).value, Shown(s, Provider).value;
    var e, g := Shown(s, Grade).value, Shown(s, Volume).value;
    assert Rules(s) == [(Category, b), (Stage, c), (Provider, d)];
    assert e == !(IsGradeless(s) || IsSpecialInfoTech(s)) && g == IsSpecialInfoTech(s);
    var m1 := menus.With(Provider, Toggled(cfg, menus.At(Provider), Provider, !IsInfoTech(s)));
    ShowThree(cfg, m1, (Category, b), (Stage, c), (Provider, d));
    ToggleChain(cfg, menus, !IsInfoTech(s), b, c, d, e, g);
    ArrangeAll(cfg, menus, s);
  }

  /** A panel whose menus and subject width are those the rules give, and nothing else changed, is the arranged panel. */
  lemma ArrangedPanel(cfg: Config, p: Panel, key: Field, q: Panel)
    requires q.menus == Arrange(cfg, p.menus, SelectionOf(p.menus, key))
    requires q.subjectWidth == Width(cfg, SelectionOf(p.menus, key))
    requires q.materials == p.materials && q.resources == p.resources && q.status == p.status
    requires q.download == p.download && q.alerts == p.alerts
    ensures q == Arranged(cfg, p, key)
  {
  }

  /*
   * The visible menus (src/basic.py:312-320, src/gui.py:271-279)
   */

  /** `ks` is `order` with some of its elements left out, the rest in the same order. */
  predicate Sublist(ks: seq<Field>, order: seq<Field>)
    decreases |order|
  {
    ks == [] || (order != [] && ((ks[0] == order[0] && Sublist(ks[1..], order[1..])) || Sublist(ks, order[1..])))
  }

  /** No menu is listed twice. */
  predicate Distinct(ks: seq<Field>) {
    forall i, j :: 0 <= i < j < |ks| ==> ks[i] != ks[j]
  }

  /** The tail of a list without repeats has none, and does not hold its head. */
  lemma DistinctTail(order: seq<Field>)
    requires order != []
    ensures Distinct(order) ==> Distinct(order[1..]) && order[0] !in order[1..]
  {
    if !Distinct(order) {
      return;
    }
    forall i, j | 0 <= i < j < |order[1..]| ensures order[1..][i] != order[1..][j] {
      assert order[1..][i] == order[i + 1] && order[1..][j] == order[j + 1];
    }
    forall i | 0 <= i < |order[1..]| ensures order[1..][i] != order[0] {
      assert order[1..][i] == order[i + 1];
    }
  }

  /** A new head in front of a list without repeats gives a list without repeats. */
  lemma DistinctCons(x: Field, rest: seq<Field>)
    ensures Distinct(rest) && x !in rest ==> Distinct([x] + rest)
  {
    if !Distinct(rest) || x in rest {
      return;
    }
    var ks := [x] + rest;
    forall i, j | 0 <= i < j < |ks| ensures ks[i] != ks[j] {
      assert ks[j] == rest[j - 1];
      if i > 0 {
        assert ks[i] == rest[i - 1];
      }
    }
  }

  /** The menus of the material frame that are mapped, in configured order. */
  function VisibleKeys(order: seq<Field>, menus: Menus): (ks: seq<Field>)
    ensures forall f :: f in ks <==> f in order && menus.At(f).visible
    ensures Sublist(ks, order)
    ensures Distinct(order) ==> Distinct(ks)
    ensures |ks| <= |order|
  {
    if order == [] then []
    else
      var rest := VisibleKeys(order[1..], menus);
      DistinctTail(order);
      if menus.At(order[0]).visible then
        var ks := [order[0]] + rest;
        assert ks[0] == order[0] && ks[1..] == rest;
        DistinctCons(order[0], rest);
        ks
      else
        rest
  }

  /** `keys.index(key)`: the first position of `key`, `ValueError` when it is absent. */
  function IndexOf(keys: seq<Field>, key: Field): (r: Result<nat>)
    ensures r.Ok? ==> r.value < |keys| && keys[r.value] == key && key !in keys[..r.value]
    ensures r.Err? ==> r.fault == ValueError && key !in keys
  {
    if keys == [] then Err(ValueError)
    else if keys[0] == key then Ok(0)
    else match IndexOf(keys[1..], key)
      case Err(f) => Err(f)
      case Ok(i) =>
        assert keys[..i + 1] == [keys[0]] + keys[1..][..i];
        Ok(i + 1)
  }

  /** The menus after `_reset_menu_option(fs, 0)`: each listed menu reset in turn. */
  function ResetAll(cfg: Config, menus: Menus, fs: seq<Field>): (r: Menus)
    ensures forall g :: r.At(g).visible == menus.At(g).visible
    decreases |fs|
  {
    if fs == [] then menus
    else
      var m := ResetAll(cfg, menus, fs[..|fs| - 1]);
      var f := fs[|fs| - 1];
      m.With(f, Reset(m.At(f), cfg.defaults(f)))
  }

  /** Resetting one more menu after a list of them. */
  lemma ResetAllSnoc(cfg: Config, menus: Menus, fs: seq<Field>, f: Field)
    ensures var m := ResetAll(cfg, menus, fs);
      ResetAll(cfg, menus, fs + [f]) == m.With(f, Reset(m.At(f), cfg.defaults(f)))
  {
    assert (fs + [f])[..|fs + [f]| - 1] == fs;
  }

  /** A listed menu ends up reset, however often it is listed; an unlisted one is untouched. */
  lemma {:induction false} ResetAllAt(cfg: Config, menus: Menus, fs: seq<Field>, f: Field)
    ensures ResetAll(cfg, menus, fs).At(f) == if f in fs then Reset(menus.At(f), cfg.defaults(f)) else menus.At(f)
    decreases |fs|
  {
    if fs != [] {
      var init := fs[..|fs| - 1];
      ResetAllAt(cfg, menus, init, f);
      assert f in fs <==> f in init || f == fs[|fs| - 1] by {
        assert fs == init + [fs[|fs| - 1]];
      }
    }
  }

  /** One more step of the reset loop over `keys` from `start`. */
  lemma ResetAllNext(cfg: Config, menus: Menus, keys: seq<Field>, start: nat, i: nat)
    requires start <= i < |keys|
    ensures var m := ResetAll(cfg, menus, keys[start..i]);
      ResetAll(cfg, menus, keys[start..i + 1]) == m.With(keys[i], Reset(m.At(keys[i]), cfg.defaults(keys[i])))
  {
    assert keys[start..i + 1] == keys[start..i] + [keys[i]];
    ResetAllSnoc(cfg, menus, keys[start..i], keys[i]);
  }

  /** Resetting a list of menus leaves every unlisted menu as it was. */
  lemma ResetAllFrame(cfg: Config, menus: Menus, fs: seq<Field>)
    ensures forall g :: g !in fs ==> ResetAll(cfg, menus, fs).At(g) == menus.At(g)
  {
    forall g | g !in fs {
      ResetAllAt(cfg, menus, fs, g);
    }
  }

  /** Resetting one listed menu. */
  lemma ResetOne(cfg: Config, menus: Menus, f: Field)
    ensures ResetAll(cfg, menus, [f]) == menus.With(f, Reset(menus.At(f), cfg.defaults(f)))
  {
    assert [f][..0] == [];
  }

  /** Hiding a menu and then resetting it is the toggle that hides it. */
  lemma HideAndReset(cfg: Config, menus: Menus, f: Field)
    ensures ResetAll(cfg, menus.With(f, menus.At(f).(visible := false)), [f]) == menus.With(f, Toggled(cfg, menus.At(f), f, false))
  {
    var hidden := menus.With(f, menus.At(f).(visible := false));
    ResetOne(cfg, hidden, f);
    WithTwice(menus, f, menus.At(f).(visible := false), Toggled(cfg, menus.At(f), f, false));
  }

  /** The values selected in the menus `keys`, in order. */
  function Values(menus: Menus, keys: seq<Field>): (vs: seq<string>)
    ensures |vs| == |keys| && forall i :: 0 <= i < |keys| ==> vs[i] == menus.At(keys[i]).value
    decreases |keys|
  {
    if keys == [] then []
    else
      var rest := Values(menus, keys[1..]);
      var vs := [menus.At(keys[0]).value] + rest;
      assert forall i :: 1 <= i < |keys| ==> vs[i] == rest[i - 1] && keys[1..][i - 1] == keys[i];
      vs
  }

  /*
   * The descent (src/basic.py:338-351, src/gui.py:293-306)
   */

  /**
   * `next(m["children"] for m in level.values() if m["tag_name"] == name)` over
   * the entries `es`: the children of the first tag named `name`; a record met
   * before it has no `tag_name` (`KeyError`).
   */
  function PickIn(es: seq<Pair<Node>>, name: string): (r: Result<Option<Children>>)
    ensures r.Err? ==> r.fault == KeyError && exists i :: 0 <= i < |es| && es[i].val.Res?
    ensures r == Ok(None) <==> forall j :: 0 <= j < |es| ==> es[j].val.Tag? && es[j].val.tagName != name
    ensures r.Ok? && r.value.Some? ==>
      exists i :: (0 <= i < |es| && es[i].val == Tag(name, r.value.value)
                   && forall j :: 0 <= j < i ==> es[j].val.Tag? && es[j].val.tagName != name)
  {
    if es == [] then Ok(None)
    else match es[0].val
      case Res(_) => Err(KeyError)
      case Tag(n, ch) =>
        if n == name then Ok(Some(ch))
        else
          var r := PickIn(es[1..], name);
          assert forall j :: 1 <= j < |es| ==> es[j] == es[1..][j - 1];
          r
  }

  /** One level of the descent: `.values()` of `None` raises `AttributeError`. */
  function Pick(level: Children, name: string): Result<Option<Children>> {
    match level
    case Null => Err(AttributeError)
    case Entries(es) => PickIn(es, name)
  }

  /** Where the descent ends: the level reached, and whether a name found no tag (`StopIteration`). */
  datatype Reach = Reach(level: Children, stopped: bool)

  /** The descent from `level` by the selected `names`, stopping at the first name that matches no tag. */
  function Descend(level: Children, names: seq<string>): (r: Result<Reach>)
    ensures r.Err? ==> r.fault == AttributeError || r.fault == KeyError
    ensures r.Ok? && r.value.stopped ==> names != []
    decreases |names|
  {
    if names == [] then Ok(Reach(level, false))
    else match Pick(level, names[0])
      case Err(f) => Err(f)
      case Ok(None) => Ok(Reach(level, true))
      case Ok(Some(ch)) => Descend(ch, names[1..])
  }

  /** One level of the descent from position `i` of the names. */
  lemma DescendStep(level: Children, names: seq<string>, i: nat)
    requires i < |names|
    ensures Descend(level, names[i..]) == match Pick(level, names[i])
      case Err(f) => Err(f)
      case Ok(None) => Ok(Reach(level, true))
      case Ok(Some(ch)) => Descend(ch, names[i + 1..])
  {
    assert names[i..][0] == names[i] && names[i..][1..] == names[i + 1..];
  }

  /**
   * The descent of the change handlers: from the tree, one level per visible
   * menu up to `keys[index]`, by that menu's selected value; a value that names
   * no tag stops it (src/basic.py:338-351, src/gui.py:293-306).
   */
  method DescendSelected(materials: Children, menus: Menus, keys: seq<Field>, index: nat) returns (r: Result<Reach>)
    requires index < |keys|
    ensures r == Descend(materials, Values(menus, keys[..index + 1]))
  {
    ghost var names := Values(menus, keys[..index + 1]);
    var level := materials;
    var stopped := false;
    var i := 0;
    assert names[0..] == names;
    while i <= index && !stopped
      invariant 0 <= i <= index + 1
      invariant !stopped ==> Descend(materials, names) == Descend(level, names[i..])
      invariant stopped ==> Descend(materials, names) == Ok(Reach(level, true))
      decreases index + 1 - i, if stopped then 0 else 1
    {
      assert names[i] == menus.At(keys[i]).value;
      DescendStep(level, names, i);
      match Pick(level, menus.At(keys[i]).value) {
        case Err(f) =>
          return Err(f);
        case Ok(None) =>
          stopped := true;
        case Ok(Some(ch)) =>
          level := ch;
          i := i + 1;
      }
    }
    if !stopped {
      assert names[i..] == [];
    }
    return Ok(Reach(level, stopped));
  }

  /*
   * The options offered to the next menu (src/basic.py:353-368, src/gui.py:308-323)
   */

  /** The names added to a menu, and the error that cut the listing short, if any. */
  datatype Listing = Listing(names: seq<string>, fault: Option<Fault>)

  /** `m["tag_name"]` of every entry in order, up to the first record, which has none. */
  function NamesIn(es: seq<Pair<Node>>): (l: Listing)
    ensures |l.names| <= |es|
    ensures l.fault.None? <==> |l.names| == |es|
    ensures l.fault.Some? ==> l.fault.value == KeyError && es[|l.names|].val.Res?
  {
    if es == [] then Listing([], None)
    else match es[0].val
      case Res(_) => Listing([], Some(KeyError))
      case Tag(n, _) =>
        var rest := NamesIn(es[1..]);
        Listing([n] + rest.names, rest.fault)
  }

  /** The names listed are those of the leading tags, in order. */
  lemma {:induction false} NamesInTags(es: seq<Pair<Node>>)
    ensures forall i :: 0 <= i < |NamesIn(es).names| ==> es[i].val.Tag? && es[i].val.tagName == NamesIn(es).names[i]
    decreases |es|
  {
    if es != [] && es[0].val.Tag? {
      NamesInTags(es[1..]);
    }
  }

  /** The names of the tags of a level; `.values()` of `None` raises before any is added. */
  function ListNames(level: Children): (l: Listing)
    ensures level.Null? ==> l == Listing([], Some(AttributeError))
    ensures level.Entries? ==> l == NamesIn(level.entries)
  {
    match level
    case Null => Listing([], Some(AttributeError))
    case Entries(es) => NamesIn(es)
  }

  /** The tag names of `level` collected one entry at a time, as the option loop reads them. */
  method ListTagNames(level: Children) returns (l: Listing)
    ensures l == ListNames(level)
  {
    if level.Null? {
      return Listing([], Some(AttributeError));
    }
    var es := level.entries;
    var names: seq<string> := [];
    var i := 0;
    assert es[0..] == es;
    while i < |es|
      invariant 0 <= i <= |es|
      invariant names + NamesIn(es[i..]).names == NamesIn(es).names
      invariant NamesIn(es[i..]).fault == NamesIn(es).fault
    {
      assert es[i..][0] == es[i] && es[i..][1..] == es[i + 1..];
      match es[i].val {
        case Res(_) =>
          assert names + [] == names;
          return Listing(names, Some(KeyError));
        case Tag(name, _) =>
          assert names + ([name] + NamesIn(es[i + 1..]).names) == (names + [name]) + NamesIn(es[i + 1..]).names;
          names := names + [name];
      }
      i := i + 1;
    }
    assert es[i..] == [] && names + [] == names;
    return Listing(names, None);
  }

  /*
   * The totals (src/basic.py:382-387, src/gui.py:330-335)
   */

  /** `sum(r["custom_properties"].get("size", 0) for r in resources.values())`; a record without `custom_properties` raises `KeyError`. */
  function SizeTotal(d: seq<Pair<Record>>): (r: Result<int>)
    ensures r.Ok? <==> forall i :: 0 <= i < |d| ==> d[i].val.props.Some?
    ensures r.Err? ==> r.fault == KeyError
    ensures d == [] ==> r == Ok(0)
    ensures |d| == 1 && d[0].val.props.Some? ==> r == Ok(d[0].val.props.value.size.GetOr(0))
  {
    if d == [] then Ok(0)
    else match d[0].val.props
      case None => Err(KeyError)
      case Some(p) =>
        match SizeTotal(d[1..])
        case Err(f) => Err(f)
        case Ok(rest) =>
          assert forall i :: 1 <= i < |d| ==> d[i] == d[1..][i - 1];
          Ok(p.size.GetOr(0) + rest)
  }

  /** The total over two runs of records is the sum of their totals; a record without a size adds nothing. */
  lemma {:induction false} SizeTotalAppend(a: seq<Pair<Record>>, b: seq<Pair<Record>>)
    requires SizeTotal(a).Ok? && SizeTotal(b).Ok?
    ensures SizeTotal(a + b) == Ok(SizeTotal(a).value + SizeTotal(b).value)
    decreases |a|
  {
    if a != [] {
      assert (a + b)[0] == a[0] && (a + b)[1..] == a[1..] + b;
      SizeTotalAppend(a[1..], b);
    } else {
      assert a + b == b;
    }
  }

  /*
   * The state of a window that the cascade reads and writes
   */

  /** `self.status`: the totals set so far (`{}` is `Status(None, None)`). */
  datatype Status = Status(countTotal: Option<int>, sizeTotal: Option<int>)

  const Cleared: Status := Status(None, None)

  /** A message box shown to the user. */
  datatype Alert = Alert(message: string, detail: string)

  /** How a change of menu ended: the next menu filled, the selection resolved, or an exception that escaped the handler. */
  datatype Outcome = Populated | Resolved | Aborted(fault: Fault)

  /**
   * What the cascade of a window reads and writes: the menus, the subject
   * menu's width, the tree, the listed resources, the totals, whether the
   * download button is enabled, and the message boxes shown so far.
   */
  datatype Panel = Panel(menus: Menus, subjectWidth: int, materials: Children,
                         resources: seq<Pair<Record>>, status: Status, download: bool, alerts: seq<Alert>)

  /** The panel once the rules have run for a change of `key`. */
  function Arranged(cfg: Config, p: Panel, key: Field): (r: Panel)
  {
    var s := SelectionOf(p.menus, key);
    p.(menus := Arrange(cfg, p.menus, s), subjectWidth := Width(cfg, s))
  }

  /** `m` with the listed names added as entries. */
  function Offer(m: Menu, l: Listing): (r: Menu)
    ensures r.options == m.options + l.names
    ensures r.(options := m.options) == m
  {
    m.(options := m.options + l.names)
  }

  /** The next menu `f` given the names of `level`, and enabled when the listing completes. */
  function Populate(p: Panel, f: Field, level: Children): (r: (Panel, Outcome))
    ensures r.1 == Populated <==> ListNames(level).fault.None?
    ensures r.1 != Populated ==> r.1 == Aborted(ListNames(level).fault.value)
    ensures r.0.menus.At(f) == Offer(p.menus.At(f), ListNames(level)).(enabled := r.1 == Populated || p.menus.At(f).enabled)
    ensures forall g :: g != f ==> r.0.menus.At(g) == p.menus.At(g)
    ensures r.0.(menus := p.menus) == p
  {
    var l := ListNames(level);
    var m := Offer(p.menus.At(f), l);
    if l.fault.None? then (p.(menus := p.menus.With(f, m.(enabled := true))), Populated)
    else (p.(menus := p.menus.With(f, m)), Aborted(l.fault.value))
  }

  /** `next(iter(tree.values()))`: the first top-level node of the tree. */
  function FirstValue(tree: Children): (r: Result<Node>)
    ensures r.Ok? <==> tree.Entries? && tree.entries != []
    ensures r.Ok? ==> r.value == tree.entries[0].val
    ensures tree.Null? ==> r == Err(AttributeError)
    ensures tree == Entries([]) ==> r == Err(StopIteration)
  {
    match tree
    case Null => Err(AttributeError)
    case Entries(es) => if es == [] then Err(StopIteration) else Ok(es[0].val)
  }

  /** Filling the next menu adds the names of the level's tags, in order, and touches nothing but that menu. */
  lemma {:induction false} PopulateNames(p: Panel, f: Field, es: seq<Pair<Node>>)
    requires forall i :: 0 <= i < |es| ==> es[i].val.Tag?
    ensures var (q, o) := Populate(p, f, Entries(es));
      && o == Populated && q.menus.At(f).enabled
      && |q.menus.At(f).options| == |p.menus.At(f).options| + |es|
      && (forall i :: 0 <= i < |es| ==> q.menus.At(f).options[|p.menus.At(f).options| + i] == es[i].val.tagName)
      && q.menus.At(f).value == p.menus.At(f).value
      && (forall g :: g != f ==> q.menus.At(g) == p.menus.At(g))
      && q.(menus := p.menus) == p
  {
    NamesInTags(es);
  }
}
