/**
 * The live textbook window (src/basic.py): the catalog tree built from the
 * taxonomy and the resource shards, and the cascade of option menus over it.
 * The HTTP responses are inputs: the taxonomy, the list of shard URLs, and the
 * response for each URL.
 */
module Basic {
  import opened Wrappers
  import opened Dicts
  import opened Text
  import opened Catalog
  import opened Utils
  import opened Splice
  import opened Cascade

  /*
   * Building the tree (src/basic.py:469-526)
   */

  /**
   * One record of a shard spliced into the tree: skipped without a first tag
   * path, or when the segment after the top tag is not a child of the top tag;
   * otherwise walked and stored. A path too short or naming an unknown top tag
   * raises.
   */
  function SpliceRecord(c: Children, rec: Record): (r: Result<Children>)
    ensures r.Err? ==> RecordFault(r.fault)
    ensures rec.tagPaths.None? || rec.id.None? ==> r.Err? || r == Ok(c)
  {
    if rec.tagPaths.None? || rec.tagPaths.value == [] || rec.tagPaths.value[0] == "" then Ok(c)
    else
      var parts := Split(rec.tagPaths.value[0], '/');
      if |parts| < 2 then Err(IndexError)
      else if c.Null? then Err(TypeError)
      else match Lookup(c, parts[1])
        case None => Err(KeyError)
        case Some(top) =>
          var segments := parts[2..];
          if segments == [] then Err(IndexError)
          else match top
            case Res(_) => Ok(c)
            case Tag(_, Null) => Err(TypeError)
            case Tag(_, Entries(es)) =>
              if segments[0] !in Keys(es) then Ok(c) else Insert(c, parts[1], segments, rec)
  }

  /** The records of one shard spliced in order; the first exception ends the build. */
  function SpliceShard(c: Children, recs: seq<Record>): (r: Result<Children>)
    ensures r.Err? ==> RecordFault(r.fault)
    decreases |recs|
  {
    if recs == [] then Ok(c)
    else match SpliceRecord(c, recs[0])
      case Err(f) => Err(f)
      case Ok(c') => SpliceShard(c', recs[1..])
  }

  /** The shards of the non-empty URLs in order; a shard whose request failed is skipped. */
  function SpliceShards(c: Children, urls: seq<string>, shards: string -> Fetch<seq<Record>>): (r: Result<Children>)
    ensures r.Err? ==> RecordFault(r.fault)
    decreases |urls|
  {
    if urls == [] then Ok(c)
    else if urls[0] == "" then SpliceShards(c, urls[1..], shards)
    else match shards(urls[0])
      case FetchFailed => SpliceShards(c, urls[1..], shards)
      case Fetched(recs) =>
        match SpliceShard(c, recs)
        case Err(f) => Err(f)
        case Ok(c') => SpliceShards(c', urls[1..], shards)
  }

  /** What `_fetch_materials` returns, or the exception it lets escape, and the message boxes it shows. */
  datatype Build = Build(tree: Result<Children>, alerts: seq<Alert>)

  const Unreachable: Alert := Alert("获取教材失败", "请检查网络连接或重新打开应用")

  /**
   * `_fetch_materials`: a failed taxonomy or URL-list request shows a message
   * and gives `{}`; otherwise the taxonomy tree with every shard spliced in.
   */
  function BuildTree(tags: Fetch<Option<seq<Hierarchy>>>, list: Fetch<Option<string>>,
                     shards: string -> Fetch<seq<Record>>): (r: Build)
    ensures r.alerts == [] || (r.alerts == [Unreachable] && r.tree == Ok(Entries([])))
    ensures r.tree.Err? ==> RecordFault(r.tree.fault)
  {
    if tags.FetchFailed? || list.FetchFailed? then Build(Ok(Entries([])), [Unreachable])
    else Build(SpliceShards(ParseMaterial(tags.body.GetOr([])), Split(list.body.GetOr(""), ','), shards), [])
  }

  /** Splicing two runs of records is splicing the first, then the second into the result. */
  lemma {:induction false} SpliceShardAppend(c: Children, a: seq<Record>, b: seq<Record>)
    ensures SpliceShard(c, a + b) == match SpliceShard(c, a)
      case Err(f) => Err(f)
      case Ok(c') => SpliceShard(c', b)
    decreases |a|
  {
    if a == [] {
      assert a + b == b;
    } else {
      assert (a + b)[0] == a[0] && (a + b)[1..] == a[1..] + b;
      match SpliceRecord(c, a[0]) {
        case Err(_) =>
        case Ok(c') => SpliceShardAppend(c', a[1..], b);
      }
    }
  }

  /** Splicing two runs of shards is splicing the first, then the second into the result. */
  lemma {:induction false} SpliceShardsAppend(c: Children, a: seq<string>, b: seq<string>, shards: string -> Fetch<seq<Record>>)
    ensures SpliceShards(c, a + b, shards) == match SpliceShards(c, a, shards)
      case Err(f) => Err(f)
      case Ok(c') => SpliceShards(c', b, shards)
    decreases |a|
  {
    if a == [] {
      assert a + b == b;
    } else {
      assert (a + b)[0] == a[0] && (a + b)[1..] == a[1..] + b;
      if a[0] == "" || shards(a[0]).FetchFailed? {
        SpliceShardsAppend(c, a[1..], b, shards);
      } else {
        match SpliceShard(c, shards(a[0]).body) {
          case Err(_) =>
          case Ok(c') => SpliceShardsAppend(c', a[1..], b, shards);
        }
      }
    }
  }

  /** A shard whose request failed, or an empty URL, leaves the build exactly as if it were not listed. */
  lemma SkippedShard(c: Children, a: seq<string>, u: string, b: seq<string>, shards: string -> Fetch<seq<Record>>)
    requires u == "" || shards(u).FetchFailed?
    ensures SpliceShards(c, a + [u] + b, shards) == SpliceShards(c, a + b, shards)
  {
    SpliceShardsAppend(c, a, [u] + b, shards);
    SpliceShardsAppend(c, a, b, shards);
    assert a + [u] + b == a + ([u] + b);
    assert ([u] + b)[1..] == b;
  }

  /**
   * A record that raises ends the whole build with its exception, whatever
   * shards were spliced before it and whatever follow.
   */
  lemma RecordAborts(c: Children, a: seq<Record>, rec: Record, b: seq<Record>)
    requires SpliceShard(c, a).Ok? && SpliceRecord(SpliceShard(c, a).value, rec).Err?
    ensures SpliceShard(c, a + [rec] + b) == Err(SpliceRecord(SpliceShard(c, a).value, rec).fault)
  {
    SpliceShardAppend(c, a, [rec] + b);
    assert a + [rec] + b == a + ([rec] + b);
    assert ([rec] + b)[0] == rec;
  }

  /** A record without a first tag path, or whose path leaves the top tag's children, changes nothing. */
  lemma SpliceRecordSkips(c: Children, rec: Record, top: string, segments: seq<string>)
    requires rec.tagPaths.Some? && rec.tagPaths.value != [] && rec.tagPaths.value[0] != ""
    requires Split(rec.tagPaths.value[0], '/') == [Split(rec.tagPaths.value[0], '/')[0], top] + segments
    requires Lookup(c, top).Some? && Lookup(c, top).value.Tag? && Lookup(c, top).value.children.Entries?
    requires segments != [] && segments[0] !in Keys(Lookup(c, top).value.children.entries)
    ensures SpliceRecord(c, rec) == Ok(c)
  {
    var parts := Split(rec.tagPaths.value[0], '/');
    assert parts[1] == top && parts[2..] == segments;
  }

  /**
   * A record that is stored lands at the end of its walk, under its id, and
   * nothing else in the tree changes: nodes off the walked path, and the other
   * children of the landing tag with all below them, stay as they were.
   */
  lemma SpliceRecordStores(c: Children, rec: Record, top: string, segments: seq<string>, q: seq<string>)
    requires rec.tagPaths.Some? && rec.tagPaths.value != [] && rec.tagPaths.value[0] != ""
    requires Split(rec.tagPaths.value[0], '/') == [Split(rec.tagPaths.value[0], '/')[0], top] + segments
    requires Lookup(c, top).Some? && Lookup(c, top).value.Tag? && Lookup(c, top).value.children.Entries?
    requires segments != [] && segments[0] in Keys(Lookup(c, top).value.children.entries)
    requires SpliceRecord(c, rec).Ok?
    ensures Walk(Lookup(c, top).value, segments).Ok? && rec.id.Some?
    ensures var p := [top] + Walk(Lookup(c, top).value, segments).value;
      var c' := SpliceRecord(c, rec).value;
      && NodeAt(c', p + [rec.id.value]) == Some(Res(rec))
      && (!(p <= q) && !(q <= p) ==> NodeAt(c', q) == NodeAt(c, q))
      && (p < q && q[|p|] != rec.id.value ==> NodeAt(c', q) == NodeAt(c, q))
  {
    var parts := Split(rec.tagPaths.value[0], '/');
    assert parts[1] == top && parts[2..] == segments;
    assert SpliceRecord(c, rec) == Insert(c, top, segments, rec);
    InsertLands(c, top, segments, rec);
    InsertElsewhere(c, top, segments, rec, q);
  }

  /** A path with fewer than three parts, or naming a top tag the tree lacks, raises. */
  lemma SpliceRecordRaises(c: Children, rec: Record)
    requires rec.tagPaths.Some? && rec.tagPaths.value != [] && rec.tagPaths.value[0] != ""
    requires c.Entries?
    ensures var parts := Split(rec.tagPaths.value[0], '/');
      && (|parts| < 2 ==> SpliceRecord(c, rec) == Err(IndexError))
      && (|parts| >= 2 && Lookup(c, parts[1]).None? ==> SpliceRecord(c, rec) == Err(KeyError))
      && (|parts| == 2 && Lookup(c, parts[1]).Some? ==> SpliceRecord(c, rec) == Err(IndexError))
  {
  }

  /** A failed taxonomy or URL-list request shows one message and gives the empty tree. */
  lemma BuildTreeUnreachable(tags: Fetch<Option<seq<Hierarchy>>>, list: Fetch<Option<string>>,
                             shards: string -> Fetch<seq<Record>>)
    requires tags.FetchFailed? || list.FetchFailed?
    ensures BuildTree(tags, list, shards) == Build(Ok(Entries([])), [Unreachable])
  {
  }

  /** With no shard URL, the tree is the parsed taxonomy. */
  lemma BuildTreeNoShards(hs: seq<Hierarchy>, shards: string -> Fetch<seq<Record>>)
    ensures BuildTree(Fetched(Some(hs)), Fetched(None), shards) == Build(Ok(ParseMaterial(hs)), [])
  {
    var urls := Split("", ',');
    assert urls == [""] && urls[1..] == [];
  }

  /** A record is spliced as the source does it step by step: the walk runs as a loop over the segments. */
  method SpliceOne(c: Children, rec: Record) returns (r: Result<Children>)
    ensures r == SpliceRecord(c, rec)
  {
    if rec.tagPaths.None? || rec.tagPaths.value == [] || rec.tagPaths.value[0] == "" {
      return Ok(c);
    }
    var parts := Split(rec.tagPaths.value[0], '/');
    if |parts| < 2 {
      return Err(IndexError);
    }
    if c.Null? {
      return Err(TypeError);
    }
    var found := Lookup(c, parts[1]);
    if found.None? {
      return Err(KeyError);
    }
    var segments := parts[2..];
    if segments == [] {
      return Err(IndexError);
    }
    match found.value {
      case Res(_) =>
        r := Ok(c);
      case Tag(_, Null) =>
        r := Err(TypeError);
      case Tag(_, Entries(es)) =>
        if segments[0] !in Keys(es) {
          r := Ok(c);
        } else {
          r := Land(c, parts[1], segments, rec);
        }
    }
  }

  /**
   * `_fetch_materials`: the loop over the shard URLs and, within a shard, over
   * its records, splicing each into the tree.
   */
  method FetchMaterials(tags: Fetch<Option<seq<Hierarchy>>>, list: Fetch<Option<string>>,
                        shards: string -> Fetch<seq<Record>>) returns (b: Build)
    ensures b == BuildTree(tags, list, shards)
  {
    if tags.FetchFailed? {
      return Build(Ok(Entries([])), [Unreachable]);
    }
    var materials := ParseMaterial(tags.body.GetOr([]));
    if list.FetchFailed? {
      return Build(Ok(Entries([])), [Unreachable]);
    }
    var urls := Split(list.body.GetOr(""), ',');
    ghost var start := materials;
    var i := 0;
    while i < |urls|
      invariant 0 <= i <= |urls|
      invariant SpliceShards(start, urls, shards) == SpliceShards(materials, urls[i..], shards)
    {
      assert urls[i..][0] == urls[i] && urls[i..][1..] == urls[i + 1..];
      var url := urls[i];
      if url != "" {
        var response := shards(url);
        if response.Fetched? {
          var recs := response.body;
          ghost var before := materials;
          var j := 0;
          while j < |recs|
            invariant 0 <= j <= |recs|
            invariant SpliceShard(before, recs) == SpliceShard(materials, recs[j..])
          {
            assert recs[j..][0] == recs[j] && recs[j..][1..] == recs[j + 1..];
            var r := SpliceOne(materials, recs[j]);
            if r.Err? {
              return Build(Err(r.fault), []);
            }
            materials := r.value;
            j := j + 1;
          }
        }
      }
      i := i + 1;
    }
    return Build(Ok(materials), []);
  }

  /*
   * The cascade (src/basic.py:214-238, 300-392, 570-625, 661-677)
   */

  const MaterialsBroken: Alert := Alert("教材解析失败", "请重新打开应用或稍后再试")
  const ResourcesBroken: Alert := Alert("资源解析失败", "请重新打开应用或稍后再试")

  /**
   * The resolution of a selection: the resources under the level reached (a
   * failure shows a message and keeps the resources as they were), the totals,
   * and the download button enabled when there is something to download.
   */
  function Resolution(p: Panel, level: Children): (r: (Panel, Outcome))
    ensures r.0.menus == p.menus && r.0.materials == p.materials && p.alerts <= r.0.alerts
    ensures r.1 == Resolved || r.1 == Aborted(KeyError)
  {
    var p1 := match ParseResource(level)
      case Ok(d) => p.(resources := d)
      case Err(_) => p.(alerts := p.alerts + [ResourcesBroken]);
    match SizeTotal(p1.resources)
    case Err(f) => (p1, Aborted(f))
    case Ok(size) =>
      (p1.(status := p1.status.(sizeTotal := Some(size), countTotal := Some(|p1.resources|)),
           download := if p1.resources != [] then true else p1.download),
       Resolved)
  }

  /**
   * `_on_option_change(key)`: the rules run; the visible menus after `key` are
   * reset; the resources, the totals and the download button are cleared; the
   * tree is descended by the selected values up to `key`; then either the next
   * menu is filled or the selection resolves.
   */
  function OptionChange(cfg: Config, p: Panel, key: Field): (r: (Panel, Outcome))
    ensures r.0.materials == p.materials && p.alerts <= r.0.alerts
    ensures r.0.subjectWidth == Width(cfg, SelectionOf(p.menus, key))
  {
    Settled(cfg, Arranged(cfg, p, key), key)
  }

  /** The handler once the rules have run: find `key` among the visible menus, clear what follows it, descend. */
  function Settled(cfg: Config, p: Panel, key: Field): (r: (Panel, Outcome))
    ensures r.0.materials == p.materials && r.0.subjectWidth == p.subjectWidth && p.alerts <= r.0.alerts
  {
    var keys := VisibleKeys(cfg.order, p.menus);
    match IndexOf(keys, key)
    case Err(f) => (p, Aborted(f))
    case Ok(k) => Followed(ClearedFrom(cfg, p, keys[k + 1..]), keys, k)
  }

  /** The descent by the values selected in `keys[..k + 1]`, then the next menu filled or the selection resolved. */
  function Followed(p: Panel, keys: seq<Field>, k: nat): (r: (Panel, Outcome))
    requires k < |keys|
    ensures r.0.materials == p.materials && r.0.subjectWidth == p.subjectWidth && p.alerts <= r.0.alerts
    ensures forall g :: r.0.menus.At(g) != p.menus.At(g) ==> k + 1 < |keys| && g == keys[k + 1]
  {
    match Descend(p.materials, Values(p.menus, keys[..k + 1]))
    case Err(f) => (p, Aborted(f))
    case Ok(reach) => Proceed(p, keys, k, reach)
  }

  /** The handler after the rules when `key` is not a visible menu. */
  lemma SettledMissing(cfg: Config, p: Panel, key: Field, keys: seq<Field>)
    requires keys == VisibleKeys(cfg.order, p.menus) && IndexOf(keys, key).Err?
    ensures Settled(cfg, p, key) == (p, Aborted(IndexOf(keys, key).fault))
  {
  }

  /** The handler after the rules when `key` is the visible menu `keys[k]`. */
  lemma SettledFound(cfg: Config, p: Panel, key: Field, keys: seq<Field>, k: nat)
    requires keys == VisibleKeys(cfg.order, p.menus) && IndexOf(keys, key) == Ok(k)
    ensures Settled(cfg, p, key) == Followed(ClearedFrom(cfg, p, keys[k + 1..]), keys, k)
  {
  }

  /** The menus `rest` reset, the resource list, the download button and the totals cleared. */
  function ClearedFrom(cfg: Config, p: Panel, rest: seq<Field>): (r: Panel)
    ensures forall g :: g !in rest ==> r.menus.At(g) == p.menus.At(g)
    ensures r.resources == [] && r.status == Cleared && !r.download
    ensures r.materials == p.materials && r.alerts == p.alerts
  {
    ResetAllFrame(cfg, p.menus, rest);
    p.(menus := ResetAll(cfg, p.menus, rest), download := false, resources := [], status := Cleared)
  }

  /** After the descent: fill the menu after `keys[k]` unless it is the last or a name missed, else resolve. */
  function Proceed(p: Panel, keys: seq<Field>, k: nat, reach: Reach): (r: (Panel, Outcome))
    requires k < |keys|
    ensures r.0.materials == p.materials && r.0.subjectWidth == p.subjectWidth && p.alerts <= r.0.alerts
    ensures forall g :: r.0.menus.At(g) != p.menus.At(g) ==> k + 1 < |keys| && g == keys[k + 1]
  {
    if k < |keys| - 1 && !reach.stopped then Populate(p, keys[k + 1], reach.level)
    else Resolution(p, reach.level)
  }

  /**
   * `_init_materials`: the children of the first top-level tag become the
   * materials, their names fill the material menu, which is then enabled; any
   * exception shows one message.
   */
  function Initialised(p: Panel, b: Build): (r: Panel)
    ensures forall g :: g != Material ==> r.menus.At(g) == p.menus.At(g)
    ensures p.alerts + b.alerts <= r.alerts && |r.alerts| <= |p.alerts| + |b.alerts| + 1
  {
    var p1 := p.(alerts := p.alerts + b.alerts);
    match b.tree
    case Err(_) => p1.(alerts := p1.alerts + [MaterialsBroken])
    case Ok(tree) =>
      match FirstValue(tree)
      case Err(_) => p1.(alerts := p1.alerts + [MaterialsBroken])
      case Ok(top) =>
        var level := if top.Tag? then top.children else Entries([]);
        var (p2, o) := Populate(p1.(materials := level), Material, level);
        if o.Aborted? then p2.(alerts := p2.alerts + [MaterialsBroken]) else p2
  }

  /**
   * After a change of the visible menu `key`, every visible menu after it holds
   * its default value; all but the next one are also disabled and keep at most
   * their first entry; the next one keeps at most its first entry followed by
   * the names offered, and is enabled exactly when it was filled.
   */
  lemma {:induction false} OptionChangeResets(cfg: Config, p: Panel, key: Field, keys: seq<Field>, k: nat, f: Field)
    requires keys == VisibleKeys(cfg.order, Arranged(cfg, p, key).menus)
    requires IndexOf(keys, key) == Ok(k) && f in keys[k + 1..]
    ensures var m := Arranged(cfg, p, key).menus;
      var (q, o) := OptionChange(cfg, p, key);
      && q.menus.At(f).value == cfg.defaults(f)
      && Reset(m.At(f), cfg.defaults(f)).options <= q.menus.At(f).options
      && (f != keys[k + 1] ==> !q.menus.At(f).enabled && q.menus.At(f).options == Reset(m.At(f), cfg.defaults(f)).options)
      && (f == keys[k + 1] ==> (q.menus.At(f).enabled <==> o == Populated))
  {
    var p1 := Arranged(cfg, p, key);
    var p2 := ClearedFrom(cfg, p1, keys[k + 1..]);
    OptionChangeFollowed(cfg, p, key, keys, k);
    ResetAllAt(cfg, p1.menus, keys[k + 1..], f);
    FollowedMenus(p2, keys, k, f);
  }

  /**
   * The descent and what follows it change no menu but the next one, which only
   * gains the names offered, and is enabled when it was filled; the tree stays.
   */
  lemma {:induction false} FollowedMenus(p: Panel, keys: seq<Field>, k: nat, f: Field)
    requires k < |keys|
    ensures var (q, o) := Followed(p, keys, k);
      && q.materials == p.materials && p.alerts <= q.alerts
      && (k == |keys| - 1 || f != keys[k + 1] ==> q.menus.At(f) == p.menus.At(f))
      && (k < |keys| - 1 && f == keys[k + 1] ==>
            && q.menus.At(f).value == p.menus.At(f).value
            && p.menus.At(f).options <= q.menus.At(f).options
            && (q.menus.At(f).enabled <==> o == Populated || p.menus.At(f).enabled))
  {
    match Descend(p.materials, Values(p.menus, keys[..k + 1])) {
      case Err(e) =>
        assert Followed(p, keys, k) == (p, Aborted(e));
      case Ok(reach) =>
        if k < |keys| - 1 && !reach.stopped {
          assert Followed(p, keys, k) == Populate(p, keys[k + 1], reach.level);
        } else {
          assert Followed(p, keys, k) == Resolution(p, reach.level);
        }
    }
  }

  /**
   * The descent decides between filling and resolving: the next menu is filled
   * exactly when `key` is not the last visible menu and no selected value missed;
   * otherwise the selection resolves and nothing of the clearing is left behind
   * but what the resolution sets.
   */
  lemma {:induction false} OptionChangeBranches(cfg: Config, p: Panel, key: Field, keys: seq<Field>, k: nat, reach: Reach)
    requires keys == VisibleKeys(cfg.order, Arranged(cfg, p, key).menus)
    requires IndexOf(keys, key) == Ok(k)
    requires Descend(p.materials, Values(ResetAll(cfg, Arranged(cfg, p, key).menus, keys[k + 1..]), keys[..k + 1])) == Ok(reach)
    ensures var (q, o) := OptionChange(cfg, p, key);
      && q.materials == p.materials && p.alerts <= q.alerts
      && (k < |keys| - 1 && !reach.stopped ==>
            o != Resolved && q.resources == [] && q.status == Cleared && !q.download && q.alerts == p.alerts)
      && ((k == |keys| - 1 || reach.stopped) ==>
            (o == Resolved || o == Aborted(KeyError)) && q.menus == ResetAll(cfg, Arranged(cfg, p, key).menus, keys[k + 1..]))
  {
    OptionChangeFollowed(cfg, p, key, keys, k);
    FollowedBranches(ClearedFrom(cfg, Arranged(cfg, p, key), keys[k + 1..]), keys, k, reach);
  }

  /** Once `key` is found at position `k` of the visible menus, the handler clears what follows it and descends. */
  lemma OptionChangeFollowed(cfg: Config, p: Panel, key: Field, keys: seq<Field>, k: nat)
    requires keys == VisibleKeys(cfg.order, Arranged(cfg, p, key).menus)
    requires IndexOf(keys, key) == Ok(k)
    ensures k < |keys|
    ensures OptionChange(cfg, p, key) == Followed(ClearedFrom(cfg, Arranged(cfg, p, key), keys[k + 1..]), keys, k)
  {
    SettledFound(cfg, Arranged(cfg, p, key), key, keys, k);
  }

  /** After the clearing, the descent either fills the next menu, leaving the rest cleared, or resolves, leaving the menus. */
  lemma FollowedBranches(p: Panel, keys: seq<Field>, k: nat, reach: Reach)
    requires k < |keys| && Descend(p.materials, Values(p.menus, keys[..k + 1])) == Ok(reach)
    requires p.resources == [] && p.status == Cleared && !p.download
    ensures var (q, o) := Followed(p, keys, k);
      && q.materials == p.materials && p.alerts <= q.alerts
      && (k < |keys| - 1 && !reach.stopped ==>
            o != Resolved && q.resources == [] && q.status == Cleared && !q.download && q.alerts == p.alerts)
      && ((k == |keys| - 1 || reach.stopped) ==> (o == Resolved || o == Aborted(KeyError)) && q.menus == p.menus)
  {
    assert Followed(p, keys, k) == Proceed(p, keys, k, reach);
  }

  /**
   * A resolution after the clearing lists exactly the records under the level
   * reached, each under its own id, or none when flattening fails (with a
   * message); when it completes, the totals count and sum them and the download
   * button is enabled exactly when there is a record. It fails only on a record
   * without `custom_properties`, leaving the totals cleared.
   */
  lemma {:induction false} ResolutionTotals(p: Panel, level: Children)
    requires p.resources == [] && p.status == Cleared && !p.download
    ensures var (q, o) := Resolution(p, level);
      && (ParseResource(level).Ok? ==> q.resources == ParseResource(level).value && q.alerts == p.alerts)
      && (ParseResource(level).Err? ==> q.resources == [] && q.alerts == p.alerts + [ResourcesBroken] && o == Resolved)
      && (forall i :: 0 <= i < |q.resources| ==> q.resources[i].val.id == Some(q.resources[i].key))
      && (o == Resolved ==> q.status == Status(Some(|q.resources|), Some(SizeTotal(q.resources).value))
                            && (q.download <==> q.resources != []))
      && (o != Resolved ==> o == Aborted(KeyError) && q.status == Cleared && !q.download)
      && q.menus == p.menus && q.materials == p.materials
  {
    ParseResourceShape(level);
  }

  /** The first top-level tag's children fill the material menu and enable it when they are all tags. */
  lemma {:induction false} InitialisedFills(p: Panel, name: string, es: seq<Pair<Node>>, rest: seq<Pair<Node>>, id: string)
    requires forall i :: 0 <= i < |es| ==> es[i].val.Tag?
    ensures var q := Initialised(p, Build(Ok(Entries([Pair(id, Tag(name, Entries(es)))] + rest)), []));
      && q.materials == Entries(es) && q.alerts == p.alerts
      && q.menus.At(Material).enabled
      && q.menus.At(Material).options == p.menus.At(Material).options + NamesIn(es).names
      && (forall i :: 0 <= i < |es| ==> NamesIn(es).names[i] == es[i].val.tagName)
  {
    var tree := Entries([Pair(id, Tag(name, Entries(es)))] + rest);
    assert FirstValue(tree) == Ok(Tag(name, Entries(es)));
    NamesInTags(es);
    assert NamesIn(es).fault.None?;
  }

  /** A build that raised, an empty tree, or a top tag without children shows the parse failure and enables nothing. */
  lemma {:induction false} InitialisedFails(p: Panel, b: Build)
    requires b.tree.Err? || b.tree == Ok(Entries([]))
      || (b.tree.Ok? && b.tree.value.Entries? && b.tree.value.entries != []
          && b.tree.value.entries[0].val.Tag? && b.tree.value.entries[0].val.children.Null?)
    ensures var q := Initialised(p, b);
      && q.alerts == p.alerts + b.alerts + [MaterialsBroken]
      && q.menus == p.menus
  {
    var m := p.menus.At(Material);
    assert m.(options := m.options + []) == m;
  }

  /** The live window: the menus of the material frame and what the cascade sets. */
  class Basic {
    const cfg: Config
    var menus: Menus
    var subjectWidth: int
    var materials: Children
    var resources: seq<Pair<Record>>
    var status: Status
    var download: bool
    var alerts: seq<Alert>

    /** Everything the cascade reads and writes. */
    function Snapshot(): Panel
      reads this
    {
      Panel(menus, subjectWidth, materials, resources, status, download, alerts)
    }

    /** The window as created: the configured menus, with the category, stage and volume menus hidden (src/basic.py:201-203). */
    constructor (cfg: Config, configured: Menus)
      ensures this.cfg == cfg
      ensures Snapshot() == Panel(
        configured.With(Category, configured.At(Category).(visible := false))
                  .With(Stage, configured.At(Stage).(visible := false))
                  .With(Volume, configured.At(Volume).(visible := false)),
        cfg.subjectWidth, Entries([]), [], Cleared, false, [])
    {
      this.cfg := cfg;
      menus := configured.With(Category, configured.At(Category).(visible := false))
                         .With(Stage, configured.At(Stage).(visible := false))
                         .With(Volume, configured.At(Volume).(visible := false));
      subjectWidth := cfg.subjectWidth;
      materials := Entries([]);
      resources := [];
      status := Cleared;
      download := false;
      alerts := [];
    }

    /** `toggle_widget_state(menu, visible)`. */
    method ToggleWidget(f: Field, visible: bool)
      modifies this`menus
      ensures menus == old(menus).With(f, old(menus).At(f).(visible := visible))
    {
      menus := menus.With(f, menus.At(f).(visible := visible));
    }

    /** `_reset_menu_option(keys, start)`: each menu from `start` on reset, with its change handler detached. */
    method ResetMenuOption(keys: seq<Field>, start: nat)
      modifies this`menus
      ensures menus == ResetAll(cfg, old(menus), if start <= |keys| then keys[start..] else [])
    {
      if start > |keys| {
        return;
      }
      assert keys[start..|keys|] == keys[start..];
      for i := start to |keys|
        invariant menus == ResetAll(cfg, old(menus), keys[start..i])
      {
        ResetAllNext(cfg, old(menus), keys, start, i);
        var f := keys[i];
        menus := menus.With(f, Reset(menus.At(f), cfg.defaults(f)));
      }
    }

    /** `toggle_widget_state(menu, visible)`, then `_reset_menu_option([menu], 0)` when hidden. */
    method ToggleAndReset(f: Field, visible: bool)
      modifies this`menus
      ensures menus == old(menus).With(f, Toggled(cfg, old(menus).At(f), f, visible))
    {
      ToggleWidget(f, visible);
      if !visible {
        ResetOne(cfg, menus, f);
        WithTwice(old(menus), f, old(menus).At(f).(visible := false), Toggled(cfg, old(menus).At(f), f, visible));
        assert [f][0..] == [f];
        ResetMenuOption([f], 0);
      } else {
        assert old(menus).At(f).(visible := visible) == Toggled(cfg, old(menus).At(f), f, visible);
      }
    }

    /** The special-education rules, run in turn. */
    method ApplyRules(rules: seq<(Field, bool)>)
      modifies this`menus
      ensures menus == ShowAll(cfg, old(menus), rules)
    {
      assert rules[..0] == [];
      for i := 0 to |rules|
        invariant menus == ShowAll(cfg, old(menus), rules[..i])
      {
        assert rules[..i + 1][..i] == rules[..i];
        ToggleAndReset(rules[i].0, rules[i].1);
      }
      assert rules[..|rules|] == rules;
    }

    /** `_update_menu_state(key)`: the rules, run as the source runs them, one menu at a time. */
    method UpdateMenuState(key: Field)
      modifies this`menus, this`subjectWidth
      ensures menus == Arrange(cfg, old(menus), SelectionOf(old(menus), key))
      ensures subjectWidth == Width(cfg, SelectionOf(old(menus), key))
    {
      var s := SelectionOf(menus, key);
      var infoTech := IsInfoTech(s);
      if infoTech {
        ToggleAndReset(Provider, false);
        subjectWidth := 48;
      } else {
        ToggleAndReset(Provider, true);
        subjectWidth := cfg.subjectWidth;
      }
      var specialEducation := IsSpecialEducation(s);
      var rules := [(Category, specialEducation),
                    (Stage, specialEducation && s.category != Some(IntellectualSchool)),
                    (Provider, !(specialEducation || infoTech))];
      assert rules == Rules(s);
      ApplyRules(rules);
      var gradeVisible := !(IsGradeless(s) || IsSpecialInfoTech(s));
      ToggleAndReset(Grade, gradeVisible);
      var volumeVisible := IsSpecialInfoTech(s);
      ToggleAndReset(Volume, volumeVisible);
      ArrangeInSteps(cfg, old(menus), s);
    }

    /** The next menu `f` given the names of `level`'s tags, in order, then enabled (src/basic.py:358-368). */
    method OfferNames(f: Field, level: Children) returns (outcome: Outcome)
      modifies this`menus
      ensures (Snapshot(), outcome) == Populate(old(Snapshot()), f, level)
    {
      var l := ListTagNames(level);
      menus := menus.With(f, Offer(menus.At(f), l));
      if l.fault.Some? {
        return Aborted(l.fault.value);
      }
      WithTwice(old(menus), f, Offer(old(menus).At(f), l), Offer(old(menus).At(f), l).(enabled := true));
      menus := menus.With(f, menus.At(f).(enabled := true));
      return Populated;
    }

    /** The resolution of a selection (src/basic.py:370-392). */
    method ResolveSelection(level: Children) returns (outcome: Outcome)
      modifies this`resources, this`alerts, this`status, this`download
      ensures (Snapshot(), outcome) == Resolution(old(Snapshot()), level)
    {
      var parsed := ParseResource(level);
      if parsed.Ok? {
        resources := parsed.value;
      } else {
        alerts := alerts + [ResourcesBroken];
      }
      var size := SizeTotal(resources);
      if size.Err? {
        return Aborted(size.fault);
      }
      status := status.(sizeTotal := Some(size.value));
      status := status.(countTotal := Some(|resources|));
      if resources != [] {
        download := true;
      }
      return Resolved;
    }

    /** The descent and what follows it in `_on_option_change` (src/basic.py:338-392). */
    method FollowSelection(keys: seq<Field>, index: nat) returns (outcome: Outcome)
      requires index < |keys|
      modifies this`menus, this`resources, this`alerts, this`status, this`download
      ensures (Snapshot(), outcome) == Followed(old(Snapshot()), keys, index)
    {
      var reach := DescendSelected(materials, menus, keys, index);
      if reach.Err? {
        return Aborted(reach.fault);
      }
      if index < |keys| - 1 && !reach.value.stopped {
        outcome := OfferNames(keys[index + 1], reach.value.level);
      } else {
        outcome := ResolveSelection(reach.value.level);
      }
    }

    /** `_on_option_change(key)` once the rules have run (src/basic.py:312-336). */
    method SettleChange(key: Field) returns (outcome: Outcome)
      modifies this`menus, this`resources, this`alerts, this`status, this`download
      ensures (Snapshot(), outcome) == Settled(cfg, old(Snapshot()), key)
    {
      ghost var p0 := Snapshot();
      var keys := VisibleKeys(cfg.order, menus);
      var found := IndexOf(keys, key);
      if found.Err? {
        SettledMissing(cfg, p0, key, keys);
        return Aborted(found.fault);
      }
      var index := found.value;
      ResetMenuOption(keys, index + 1);
      download := false;
      resources := [];
      status := Cleared;
      assert Snapshot() == ClearedFrom(cfg, p0, keys[index + 1..]);
      SettledFound(cfg, p0, key, keys, index);
      outcome := FollowSelection(keys, index);
    }

    /** `_on_option_change(key)`. */
    method OnOptionChange(key: Field) returns (outcome: Outcome)
      modifies this`menus, this`subjectWidth, this`resources, this`alerts, this`status, this`download
      ensures (Snapshot(), outcome) == OptionChange(cfg, old(Snapshot()), key)
    {
      UpdateMenuState(key);
      ArrangedPanel(cfg, old(Snapshot()), key, Snapshot());
      outcome := SettleChange(key);
    }

    /** `_init_materials`, with `_fetch_materials` given the responses. */
    method InitMaterials(tags: Fetch<Option<seq<Hierarchy>>>, list: Fetch<Option<string>>,
                         shards: string -> Fetch<seq<Record>>)
      modifies this
      ensures Snapshot() == Initialised(old(Snapshot()), BuildTree(tags, list, shards))
    {
      var b := FetchMaterials(tags, list, shards);
      alerts := alerts + b.alerts;
      if b.tree.Err? {
        alerts := alerts + [MaterialsBroken];
        return;
      }
      var first := FirstValue(b.tree.value);
      if first.Err? {
        alerts := alerts + [MaterialsBroken];
        return;
      }
      materials := if first.value.Tag? then first.value.children else Entries([]);
      var o := OfferNames(Material, materials);
      if o.Aborted? {
        alerts := alerts + [MaterialsBroken];
      }
    }
  }
}
