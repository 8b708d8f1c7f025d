/**
 * The older window (src/gui.py): the same catalog tree and cascade of option
 * menus as the live window, written with fewer guards. Any failed request
 * ends the build, a record that does not fit raises instead of being skipped,
 * the exception is classified into one of three messages, the resources are
 * not cleared when a menu changes, and the download button is enabled on
 * every resolution.
 */
module Gui {
  import opened Wrappers
  import opened Dicts
  import opened Text
  import opened Catalog
  import opened Utils
  import opened Splice
  import opened Cascade
  import Basic

  /*
   * Building the tree (src/gui.py:510-556)
   */

  /**
   * One record of a shard spliced into the tree. A record without
   * `tag_paths` raises, one whose path list is empty is skipped; a path too
   * short, an unknown top tag, a top node that is a record or has `None`
   * children raises; a record whose first segment is not a child of the top
   * tag is skipped; otherwise it is walked and stored.
   */
  function SpliceRecord(c: Children, rec: Record): (r: Result<Children>)
    ensures r.Err? ==> RecordFault(r.fault)
    ensures rec.tagPaths.None? ==> r == Err(KeyError)
  {
    if rec.tagPaths.None? then Err(KeyError)
    else if rec.tagPaths.value == [] then Ok(c)
    else
      var parts := Split(rec.tagPaths.value[0], '/');
      if |parts| < 2 then Err(IndexError)
      else if c.Null? then Err(TypeError)
      else match Lookup(c, parts[1])
        case None => Err(KeyError)
        case Some(top) =>
          var segments := parts[2..];
          if segments == [] then Err(IndexError)
          else match top
            case Res(_) => Err(KeyError)
            case Tag(_, Null) => Err(TypeError)
            case Tag(_, Entries(es)) =>
              if segments[0] !in Keys(es) then Ok(c) else Insert(c, parts[1], segments, rec)
  }

  /** The records of one shard spliced in order; the first exception ends the build. */
  function SpliceShard(c: Children, recs: seq<Record>): (r: Result<Children>)
    ensures r.Err? ==> RecordFault(r.fault)
    ensures (exists i :: 0 <= i < |recs| && recs[i].tagPaths.None?) ==> r.Err?
    decreases |recs|
  {
    if recs == [] then Ok(c)
    else match SpliceRecord(c, recs[0])
      case Err(f) => Err(f)
      case Ok(c') => SpliceShard(c', recs[1..])
  }

  /**
   * The shards of all the URLs in order. Every URL is requested, the empty one
   * too (`requests` refuses a URL without a scheme), and a failed request ends
   * the build.
   */
  function SpliceShards(c: Children, urls: seq<string>, shards: string -> Fetch<seq<Record>>): (r: Result<Children>)
    ensures r.Err? ==> r.fault == RequestError || RecordFault(r.fault)
    ensures "" in urls ==> r.Err?
    decreases |urls|
  {
    if urls == [] then Ok(c)
    else if urls[0] == "" then Err(RequestError)
    else match shards(urls[0])
      case FetchFailed => Err(RequestError)
      case Fetched(recs) =>
        match SpliceShard(c, recs)
        case Err(f) => Err(f)
        case Ok(c') => SpliceShards(c', urls[1..], shards)
  }

  /**
   * `_fetch_materials`: a failed taxonomy or URL-list request raises, a URL
   * list without `urls` raises `KeyError`; otherwise the taxonomy tree with
   * every shard spliced in.
   */
  function BuildTree(tags: Fetch<Option<seq<Hierarchy>>>, list: Fetch<Option<string>>,
                     shards: string -> Fetch<seq<Record>>): (r: Result<Children>)
    ensures tags.FetchFailed? || list.FetchFailed? ==> r == Err(RequestError)
    ensures r.Err? ==> r.fault == RequestError || RecordFault(r.fault)
  {
    if tags.FetchFailed? || list.FetchFailed? then Err(RequestError)
    else if list.body.None? then Err(KeyError)
    else SpliceShards(ParseMaterial(tags.body.GetOr([])), Split(list.body.value, ','), shards)
  }

  /**
   * This window is the stricter of the two: where it stores or skips a record,
   * the live window does the same; where the live window raises, it raises the
   * same exception. It raises, where the live window skips, on a record without
   * `tag_paths`, with an empty first path, or whose top node is a record.
   */
  lemma {:induction false} SpliceRecordStricter(c: Children, rec: Record)
    ensures SpliceRecord(c, rec).Ok? ==> Basic.SpliceRecord(c, rec) == SpliceRecord(c, rec)
    ensures Basic.SpliceRecord(c, rec).Err? ==> SpliceRecord(c, rec) == Basic.SpliceRecord(c, rec)
    ensures rec.tagPaths.None? ==> SpliceRecord(c, rec) == Err(KeyError) && Basic.SpliceRecord(c, rec) == Ok(c)
    ensures rec.tagPaths.Some? && rec.tagPaths.value != [] && rec.tagPaths.value[0] == "" ==>
      SpliceRecord(c, rec) == Err(IndexError) && Basic.SpliceRecord(c, rec) == Ok(c)
  {
    if rec.tagPaths.Some? && rec.tagPaths.value != [] && rec.tagPaths.value[0] == "" {
      assert Split(rec.tagPaths.value[0], '/') == [""];
    }
  }

  /** A shard this window splices is spliced by the live window to the same tree; a shard the live window fails on fails here too. */
  lemma {:induction false} SpliceShardStricter(c: Children, recs: seq<Record>)
    ensures SpliceShard(c, recs).Ok? ==> Basic.SpliceShard(c, recs) == SpliceShard(c, recs)
    ensures Basic.SpliceShard(c, recs).Err? ==> SpliceShard(c, recs).Err?
    decreases |recs|
  {
    if recs != [] {
      SpliceRecordStricter(c, recs[0]);
      if SpliceRecord(c, recs[0]).Ok? {
        SpliceShardStricter(SpliceRecord(c, recs[0]).value, recs[1..]);
      }
    }
  }

  /** When every request succeeds and the splicing completes here, the live window builds the same tree. */
  lemma {:induction false} SpliceShardsStricter(c: Children, urls: seq<string>, shards: string -> Fetch<seq<Record>>)
    ensures SpliceShards(c, urls, shards).Ok? ==> Basic.SpliceShards(c, urls, shards) == SpliceShards(c, urls, shards)
    decreases |urls|
  {
    if urls != [] && urls[0] != "" && shards(urls[0]).Fetched? {
      var recs := shards(urls[0]).body;
      SpliceShardStricter(c, recs);
      if SpliceShard(c, recs).Ok? {
        SpliceShardsStricter(SpliceShard(c, recs).value, urls[1..], shards);
      }
    }
  }

  /** A record with an empty path list, or whose path leaves the top tag's children, changes nothing. */
  lemma SpliceRecordSkips(c: Children, rec: Record, top: string, segments: seq<string>)
    requires rec.tagPaths.Some? && rec.tagPaths.value != []
    requires Split(rec.tagPaths.value[0], '/') == [Split(rec.tagPaths.value[0], '/')[0], top] + segments
    requires Lookup(c, top).Some? && Lookup(c, top).value.Tag? && Lookup(c, top).value.children.Entries?
    requires segments != [] && segments[0] !in Keys(Lookup(c, top).value.children.entries)
    ensures SpliceRecord(c, rec) == Ok(c)
    ensures SpliceRecord(c, rec.(tagPaths := Some([]))) == Ok(c)
  {
    var parts := Split(rec.tagPaths.value[0], '/');
    assert parts[1] == top && parts[2..] == segments;
  }

  /**
   * A record that is stored lands at the end of its walk, under its id, and
   * nothing else in the tree changes: nodes off the walked path, and the other
   * children of the landing tag with all below them, stay as they were.
   */
  lemma SpliceRecordStores(c: Children, rec: Record, top: string, segments: seq<string>, q: seq<string>)
    requires rec.tagPaths.Some? && rec.tagPaths.value != []
    requires Split(rec.tagPaths.value[0], '/') == [Split(rec.tagPaths.value[0], '/')[0], top] + segments
    requires Lookup(c, top).Some? && Lookup(c, top).value.Tag? && Lookup(c, top).value.children.Entries?
    requires segments != [] && segments[0] in Keys(Lookup(c, top).value.children.entries)
    requires SpliceRecord(c, rec).Ok?
    ensures Walk(Lookup(c, top).value, segments).Ok? && rec.id.Some?
    ensures var p := [top] + Walk(Lookup(c, top).value, segments).value;
      var c' := SpliceRecord(c, rec).value;
      && NodeAt(c', p + [rec.id.value]) == Some(Res(rec))
      && (!(p <= q) && !(q <= p) ==> NodeAt(c', q) == NodeAt(c, q))
      && (p < q && q[|p|] != rec.id.value ==> NodeAt(c', q) == NodeAt(c, q))
  {
    assert Split("", '/') == [""];
    SpliceRecordStricter(c, rec);
    Basic.SpliceRecordStores(c, rec, top, segments, q);
  }

  /** Splicing two runs of records is splicing the first, then the second into the result. */
  lemma {:induction false} SpliceShardAppend(c: Children, a: seq<Record>, b: seq<Record>)
    ensures SpliceShard(c, a + b) == match SpliceShard(c, a)
      case Err(f) => Err(f)
      case Ok(c') => SpliceShard(c', b)
    decreases |a|
  {
    if a == [] {
      assert a + b == b;
    } else {
      assert (a + b)[0] == a[0] && (a + b)[1..] == a[1..] + b;
      match SpliceRecord(c, a[0]) {
        case Err(_) =>
        case Ok(c') => SpliceShardAppend(c', a[1..], b);
      }
    }
  }

  /** A record that raises ends the whole build with its exception, whatever was spliced before it and whatever follows. */
  lemma RecordAborts(c: Children, a: seq<Record>, rec: Record, b: seq<Record>)
    requires SpliceShard(c, a).Ok? && SpliceRecord(SpliceShard(c, a).value, rec).Err?
    ensures SpliceShard(c, a + [rec] + b) == Err(SpliceRecord(SpliceShard(c, a).value, rec).fault)
  {
    SpliceShardAppend(c, a, [rec] + b);
    assert a + [rec] + b == a + ([rec] + b);
    assert ([rec] + b)[0] == rec;
  }

  /** A build that completes here gives the tree the live window builds, without its message. */
  lemma BuildTreeStricter(tags: Fetch<Option<seq<Hierarchy>>>, list: Fetch<Option<string>>,
                          shards: string -> Fetch<seq<Record>>)
    ensures BuildTree(tags, list, shards).Ok? ==>
      Basic.BuildTree(tags, list, shards) == Basic.Build(BuildTree(tags, list, shards), [])
  {
    if tags.Fetched? && list.Fetched? && list.body.Some? {
      SpliceShardsStricter(ParseMaterial(tags.body.GetOr([])), Split(list.body.value, ','), shards);
    }
  }

  /** A failed shard request, or an empty URL, ends the build whatever was spliced before it and whatever follows. */
  lemma ShardFailureAborts(c: Children, a: seq<string>, u: string, b: seq<string>, shards: string -> Fetch<seq<Record>>)
    requires SpliceShards(c, a, shards).Ok?
    requires u == "" || shards(u).FetchFailed?
    ensures SpliceShards(c, a + [u] + b, shards) == Err(RequestError)
  {
    SpliceShardsAppend(c, a, [u] + b, shards);
    assert a + [u] + b == a + ([u] + b);
    assert ([u] + b)[0] == u;
  }

  /** Splicing two runs of shards is splicing the first, then the second into the result. */
  lemma {:induction false} SpliceShardsAppend(c: Children, a: seq<string>, b: seq<string>, shards: string -> Fetch<seq<Record>>)
    ensures SpliceShards(c, a + b, shards) == match SpliceShards(c, a, shards)
      case Err(f) => Err(f)
      case Ok(c') => SpliceShards(c', b, shards)
    decreases |a|
  {
    if a == [] {
      assert a + b == b;
    } else {
      assert (a + b)[0] == a[0] && (a + b)[1..] == a[1..] + b;
      if a[0] != "" && shards(a[0]).Fetched? {
        match SpliceShard(c, shards(a[0]).body) {
          case Err(_) =>
          case Ok(c') => SpliceShardsAppend(c', a[1..], b, shards);
        }
      }
    }
  }

  /** A record is spliced as the source does it step by step: the walk runs as a loop over the segments. */
  method SpliceOne(c: Children, rec: Record) returns (r: Result<Children>)
    ensures r == SpliceRecord(c, rec)
  {
    if rec.tagPaths.None? {
      return Err(KeyError);
    }
    if rec.tagPaths.value == [] {
      return Ok(c);
    }
    var parts := Split(rec.tagPaths.value[0], '/');
    var segments := parts[if |parts| < 2 then |parts| else 2..];
    if |parts| < 2 {
      return Err(IndexError);
    }
    if c.Null? {
      return Err(TypeError);
    }
    var found := Lookup(c, parts[1]);
    if found.None? {
      return Err(KeyError);
    }
    if segments == [] {
      return Err(IndexError);
    }
    match found.value {
      case Res(_) =>
        r := Err(KeyError);
      case Tag(_, Null) =>
        r := Err(TypeError);
      case Tag(_, Entries(es)) =>
        if segments[0] !in Keys(es) {
          r := Ok(c);
        } else {
          r := Land(c, parts[1], segments, rec);
        }
    }
  }

  /** `_fetch_materials`: the loop over the shard URLs and, within a shard, over its records. */
  method FetchMaterials(tags: Fetch<Option<seq<Hierarchy>>>, list: Fetch<Option<string>>,
                        shards: string -> Fetch<seq<Record>>) returns (b: Result<Children>)
    ensures b == BuildTree(tags, list, shards)
  {
    if tags.FetchFailed? {
      return Err(RequestError);
    }
    var parsed := ParseMaterial(tags.body.GetOr([]));
    if list.FetchFailed? {
      return Err(RequestError);
    }
    if list.body.None? {
      return Err(KeyError);
    }
    var urls := Split(list.body.value, ',');
    ghost var start := parsed;
    var i := 0;
    while i < |urls|
      invariant 0 <= i <= |urls|
      invariant SpliceShards(start, urls, shards) == SpliceShards(parsed, urls[i..], shards)
    {
      assert urls[i..][0] == urls[i] && urls[i..][1..] == urls[i + 1..];
      var url := urls[i];
      if url == "" {
        return Err(RequestError);
      }
      var response := shards(url);
      if response.FetchFailed? {
        return Err(RequestError);
      }
      var recs := response.body;
      ghost var before := parsed;
      var j := 0;
      while j < |recs|
        invariant 0 <= j <= |recs|
        invariant SpliceShard(before, recs) == SpliceShard(parsed, recs[j..])
      {
        assert recs[j..][0] == recs[j] && recs[j..][1..] == recs[j + 1..];
        var r := SpliceOne(parsed, recs[j]);
        if r.Err? {
          return Err(r.fault);
        }
        parsed := r.value;
        j := j + 1;
      }
      i := i + 1;
    }
    return Ok(parsed);
  }

  /*
   * The cascade (src/gui.py:227-358, 413-507)
   */

  const LoadFailed: Alert := Alert("数据加载异常", "请检查网络连接或重新打开应用")
  const ParseFailed: Alert := Alert("数据解析错误", "请重新打开应用或稍后再试")
  const UnknownFailure: Alert := Alert("未知错误", "请重新打开应用或稍后再试")

  /** The message `_init_materials` shows for an exception: a request error, a parse error, or anything else. */
  function Classify(f: Fault): (a: Alert)
    ensures f == RequestError <==> a == LoadFailed
    ensures f == ValueError || f == KeyError <==> a == ParseFailed
    ensures a == LoadFailed || a == ParseFailed || a == UnknownFailure
  {
    match f
    case RequestError => LoadFailed
    case ValueError => ParseFailed
    case KeyError => ParseFailed
    case _ => UnknownFailure
  }

  /*
   * The rendering of the resource list (src/gui.py:341-358, src/utils.py:54-57)
   */

  /**
   * What rendering one record raises: `res["custom_properties"]` raises
   * `KeyError` when the key is missing, and a size of 0 makes `format_bytes`
   * return the int `0`, to which `+ "  "` cannot add a string.
   */
  function RenderFault(rec: Record): (r: Option<Fault>)
    ensures r.None? <==> rec.props.Some? && rec.props.value.size != Some(0)
    ensures r == Some(KeyError) <==> rec.props.None?
    ensures r == Some(TypeError) <==> rec.props.Some? && rec.props.value.size == Some(0)
  {
    match rec.props
    case None => Some(KeyError)
    case Some(props) => if props.size == Some(0) then Some(TypeError) else None
  }

  /** `_update_resources`: the records rendered in order, and the exception of the first that raises. */
  function Rendered(d: seq<Pair<Record>>): (r: Option<Fault>)
    ensures r.None? <==> forall i :: 0 <= i < |d| ==> RenderFault(d[i].val).None?
    ensures r.None? ==> SizeTotal(d).Ok?
    ensures r.Some? ==> r.value == KeyError || r.value == TypeError
    ensures r.Some? ==> exists i :: 0 <= i < |d| && r == RenderFault(d[i].val)
  {
    if d == [] then None
    else if RenderFault(d[0].val).Some? then RenderFault(d[0].val)
    else
      assert forall i :: 1 <= i < |d| ==> d[i] == d[1..][i - 1];
      Rendered(d[1..])
  }

  /** The rendering stops with the exception of the first record that raises, whatever follows it. */
  lemma {:induction false} RenderedFirst(d: seq<Pair<Record>>, i: nat)
    requires i < |d| && RenderFault(d[i].val).Some?
    requires forall j :: 0 <= j < i ==> RenderFault(d[j].val).None?
    ensures Rendered(d) == RenderFault(d[i].val)
    decreases i
  {
    if i > 0 {
      assert forall j :: 0 <= j < i - 1 ==> d[1..][j] == d[j + 1];
      RenderedFirst(d[1..], i - 1);
    }
  }

  /**
   * The resolution of a selection: the resources under the level reached
   * (an exception escapes and leaves them as they were), their rendering, the
   * count and the size total, and the download button enabled. The rendering
   * raises for a record without `custom_properties` or of size 0, after the
   * resources are stored and before either total is set.
   */
  function Resolution(p: Panel, level: Children): (r: (Panel, Outcome))
    ensures r.0.menus == p.menus && r.0.materials == p.materials && r.0.alerts == p.alerts
    ensures r.1 != Populated
  {
    match ParseResource(level)
    case Err(f) => (p, Aborted(f))
    case Ok(d) =>
      match Rendered(d)
      case Some(f) => (p.(resources := d), Aborted(f))
      case None =>
        (p.(resources := d, status := p.status.(countTotal := Some(|d|), sizeTotal := Some(SizeTotal(d).value)), download := true),
         Resolved)
  }

  /**
   * `_update_options(key)`: the rules run; the visible menus after `key` are
   * reset; the totals and the download button are cleared; the tree is
   * descended by the selected values up to `key`; then either the next menu is
   * filled or the selection resolves.
   */
  function OptionChange(cfg: Config, p: Panel, key: Field): (r: (Panel, Outcome))
    ensures r.0.materials == p.materials && r.0.alerts == p.alerts
    ensures r.0.subjectWidth == Width(cfg, SelectionOf(p.menus, key))
  {
    Settled(cfg, Arranged(cfg, p, key), key)
  }

  /** The handler once the rules have run: find `key` among the visible menus, clear what follows it, descend. */
  function Settled(cfg: Config, p: Panel, key: Field): (r: (Panel, Outcome))
    ensures r.0.materials == p.materials && r.0.subjectWidth == p.subjectWidth && r.0.alerts == p.alerts
  {
    var keys := VisibleKeys(cfg.order, p.menus);
    match IndexOf(keys, key)
    case Err(f) => (p, Aborted(f))
    case Ok(k) => Followed(ClearedFrom(cfg, p, keys[k + 1..]), keys, k)
  }

  /** The handler after the rules when `key` is not a visible menu. */
  lemma SettledMissing(cfg: Config, p: Panel, key: Field, keys: seq<Field>)
    requires keys == VisibleKeys(cfg.order, p.menus) && IndexOf(keys, key).Err?
    ensures Settled(cfg, p, key) == (p, Aborted(IndexOf(keys, key).fault))
  {
  }

  /** The handler after the rules when `key` is the visible menu `keys[k]`. */
  lemma SettledFound(cfg: Config, p: Panel, key: Field, keys: seq<Field>, k: nat)
    requires keys == VisibleKeys(cfg.order, p.menus) && IndexOf(keys, key) == Ok(k)
    ensures Settled(cfg, p, key) == Followed(ClearedFrom(cfg, p, keys[k + 1..]), keys, k)
  {
  }

  /** The menus `rest` reset, the download button and the totals cleared; the resource list is kept. */
  function ClearedFrom(cfg: Config, p: Panel, rest: seq<Field>): (r: Panel)
    ensures forall g :: g !in rest ==> r.menus.At(g) == p.menus.At(g)
    ensures r.resources == p.resources && r.status == Cleared && !r.download
    ensures r.materials == p.materials && r.alerts == p.alerts
  {
    ResetAllFrame(cfg, p.menus, rest);
    p.(menus := ResetAll(cfg, p.menus, rest), download := false, status := Cleared)
  }

  /** The descent by the values selected in `keys[..k + 1]`, then the next menu filled or the selection resolved. */
  function Followed(p: Panel, keys: seq<Field>, k: nat): (r: (Panel, Outcome))
    requires k < |keys|
    ensures r.0.materials == p.materials && r.0.subjectWidth == p.subjectWidth && r.0.alerts == p.alerts
    ensures forall g :: r.0.menus.At(g) != p.menus.At(g) ==> k + 1 < |keys| && g == keys[k + 1]
  {
    match Descend(p.materials, Values(p.menus, keys[..k + 1]))
    case Err(f) => (p, Aborted(f))
    case Ok(reach) =>
      if k < |keys| - 1 && !reach.stopped then Populate(p, keys[k + 1], reach.level)
      else Resolution(p, reach.level)
  }

  /**
   * `_init_materials`: the children of the first top-level tag become the
   * materials and their names fill the material menu, which stays as enabled
   * as it was; an exception shows the message its class calls for.
   */
  function Initialised(p: Panel, b: Result<Children>): (r: Panel)
    ensures forall g :: g != Material ==> r.menus.At(g) == p.menus.At(g)
    ensures r.menus.At(Material).enabled == p.menus.At(Material).enabled
    ensures p.alerts <= r.alerts && |r.alerts| <= |p.alerts| + 1
  {
    match b
    case Err(f) => p.(alerts := p.alerts + [Classify(f)])
    case Ok(tree) =>
      match FirstValue(tree)
      case Err(f) => p.(alerts := p.alerts + [Classify(f)])
      case Ok(top) =>
        if top.Res? then p.(alerts := p.alerts + [Classify(KeyError)])
        else
          var l := ListNames(top.children);
          var p1 := p.(materials := top.children, menus := p.menus.With(Material, Offer(p.menus.At(Material), l)));
          if l.fault.Some? then p1.(alerts := p1.alerts + [Classify(l.fault.value)]) else p1
  }

  /**
   * A resolution lists the records under the level reached, counts them and
   * sums their sizes, and enables the download button even when there is none.
   * Flattening that fails leaves everything as it was; a record without
   * `custom_properties` or of size 0 stops the rendering with the records
   * stored but the totals and the download button as they were.
   */
  lemma {:induction false} ResolutionEnables(p: Panel, level: Children)
    ensures var (q, o) := Resolution(p, level);
      && (o == Resolved ==>
            && q.download && ParseResource(level) == Ok(q.resources)
            && (forall i :: 0 <= i < |q.resources| ==> RenderFault(q.resources[i].val).None?)
            && q.status == Status(Some(|q.resources|), Some(SizeTotal(q.resources).value)))
      && (ParseResource(level).Err? ==> q == p && o == Aborted(AttributeError))
      && (ParseResource(level).Ok? && o != Resolved ==>
            && (o == Aborted(KeyError) || o == Aborted(TypeError))
            && q.resources == ParseResource(level).value
            && (exists i :: 0 <= i < |q.resources| && RenderFault(q.resources[i].val) == Some(o.fault))
            && q.status == p.status && q.download == p.download)
  {
    ParseResourceShape(level);
  }

  /** A single record of size 0 is stored, but its rendering raises `TypeError`, so no total is set and download stays as it was. */
  lemma ZeroSizeStops(p: Panel)
    ensures var rec := Record(Some("r"), Some(["a/b/c"]), Some(Props(Some(0))));
      Resolution(p, Entries([Pair("r", Res(rec))])) == (p.(resources := [Pair("r", rec)]), Aborted(TypeError))
  {
  }

  /**
   * When a change fills the next menu, the resource list is the one from
   * before the change, while the totals and the download button are cleared;
   * when it resolves, the list is replaced only if flattening succeeds, and a
   * resolution that fails leaves the totals and the download button cleared.
   */
  lemma {:induction false} OptionChangeKeepsResources(cfg: Config, p: Panel, key: Field, keys: seq<Field>, k: nat, reach: Reach)
    requires keys == VisibleKeys(cfg.order, Arranged(cfg, p, key).menus)
    requires IndexOf(keys, key) == Ok(k)
    requires Descend(p.materials, Values(ResetAll(cfg, Arranged(cfg, p, key).menus, keys[k + 1..]), keys[..k + 1])) == Ok(reach)
    ensures var (q, o) := OptionChange(cfg, p, key);
      && (k < |keys| - 1 && !reach.stopped ==>
            o != Resolved && q.resources == p.resources && q.status == Cleared && !q.download)
      && ((k == |keys| - 1 || reach.stopped) ==>
            o != Populated
            && q.resources == (if ParseResource(reach.level).Ok? then ParseResource(reach.level).value else p.resources)
            && (o == Resolved ==> q.download)
            && (o != Resolved ==> q.status == Cleared && !q.download))
  {
    var p2 := ClearedFrom(cfg, Arranged(cfg, p, key), keys[k + 1..]);
    assert OptionChange(cfg, p, key) == Followed(p2, keys, k);
    if k < |keys| - 1 && !reach.stopped {
      assert Followed(p2, keys, k) == Populate(p2, keys[k + 1], reach.level);
    } else {
      assert Followed(p2, keys, k) == Resolution(p2, reach.level);
      ResolutionEnables(p2, reach.level);
    }
  }

  /**
   * Both windows leave the menus and the tree in the same state after a change
   * of menu, and fill the next menu in the same cases; they differ only in the
   * resources, the totals, the download button and the messages.
   */
  lemma {:induction false} OptionChangeAgrees(cfg: Config, p: Panel, key: Field)
    ensures var (q, o) := OptionChange(cfg, p, key);
      var (q', o') := Basic.OptionChange(cfg, p, key);
      q.menus == q'.menus && q.materials == q'.materials && (o == Populated <==> o' == Populated)
  {
    var p1 := Arranged(cfg, p, key);
    var keys := VisibleKeys(cfg.order, p1.menus);
    match IndexOf(keys, key) {
      case Err(f) =>
      case Ok(k) =>
        var p2 := ClearedFrom(cfg, p1, keys[k + 1..]);
        var p2' := Basic.ClearedFrom(cfg, p1, keys[k + 1..]);
        assert OptionChange(cfg, p, key) == Followed(p2, keys, k);
        assert Basic.OptionChange(cfg, p, key) == Basic.Followed(p2', keys, k);
        assert p2.menus == p2'.menus && p2.materials == p2'.materials;
        match Descend(p2.materials, Values(p2.menus, keys[..k + 1])) {
          case Err(e) =>
          case Ok(reach) =>
            if k < |keys| - 1 && !reach.stopped {
              assert Followed(p2, keys, k) == Populate(p2, keys[k + 1], reach.level);
              assert Basic.Followed(p2', keys, k) == Populate(p2', keys[k + 1], reach.level);
            } else {
              assert Followed(p2, keys, k) == Resolution(p2, reach.level);
              assert Basic.Followed(p2', keys, k) == Basic.Resolution(p2', reach.level);
            }
        }
    }
  }

  /** The first top-level tag's children fill the material menu when they are all tags; the menu is not enabled. */
  lemma {:induction false} InitialisedFills(p: Panel, name: string, es: seq<Pair<Node>>, rest: seq<Pair<Node>>, id: string)
    requires forall i :: 0 <= i < |es| ==> es[i].val.Tag?
    ensures var q := Initialised(p, Ok(Entries([Pair(id, Tag(name, Entries(es)))] + rest)));
      && q.materials == Entries(es) && q.alerts == p.alerts
      && q.menus.At(Material) == p.menus.At(Material).(options := p.menus.At(Material).options + NamesIn(es).names)
      && (forall g :: g != Material ==> q.menus.At(g) == p.menus.At(g))
      && (forall i :: 0 <= i < |es| ==> NamesIn(es).names[i] == es[i].val.tagName)
  {
    var tree := Entries([Pair(id, Tag(name, Entries(es)))] + rest);
    assert FirstValue(tree) == Ok(Tag(name, Entries(es)));
    NamesInTags(es);
    assert NamesIn(es).fault.None?;
  }

  /**
   * A failure shows exactly one message, chosen by the exception: a failed
   * request the load message; an empty tree, or a first tag without children,
   * the unknown-error message; a first node that is a record the parse message.
   */
  lemma {:induction false} InitialisedClassifies(p: Panel, b: Result<Children>)
    ensures b.Err? ==> Initialised(p, b) == p.(alerts := p.alerts + [Classify(b.fault)])
    ensures b == Err(RequestError) ==> Initialised(p, b).alerts == p.alerts + [LoadFailed]
    ensures b == Ok(Entries([])) ==> Initialised(p, b).alerts == p.alerts + [UnknownFailure]
    ensures b.Ok? && b.value.Entries? && b.value.entries != [] && b.value.entries[0].val.Res? ==>
      Initialised(p, b) == p.(alerts := p.alerts + [ParseFailed])
    ensures b.Ok? && b.value.Entries? && b.value.entries != [] && b.value.entries[0].val.Tag?
            && b.value.entries[0].val.children.Null? ==>
      Initialised(p, b).alerts == p.alerts + [UnknownFailure] && Initialised(p, b).materials == Null
  {
  }

  /** Grade shown, then volume shown and grade hidden and reset: the special-education information-technology case. */
  lemma GradeVolumeSpecialInfoTech(cfg: Config, m: Menus)
    ensures var m5 := m.With(Grade, Toggled(cfg, m.At(Grade), Grade, true));
      var m6 := m5.With(Volume, m5.At(Volume).(visible := true));
      var m7 := m6.With(Grade, m6.At(Grade).(visible := false));
      var t := m.With(Grade, Toggled(cfg, m.At(Grade), Grade, false));
      ResetAll(cfg, m7, [Grade]) == t.With(Volume, Toggled(cfg, t.At(Volume), Volume, true))
  {
    var m5 := m.With(Grade, Toggled(cfg, m.At(Grade), Grade, true));
    var m6 := m5.With(Volume, m5.At(Volume).(visible := true));
    var m7 := m6.With(Grade, m6.At(Grade).(visible := false));
    ResetOne(cfg, m7, Grade);
  }

  /** Grade hidden and reset, then grade and volume hidden and both reset: the senior-school case. */
  lemma GradeVolumeGradeless(cfg: Config, m: Menus)
    ensures var m5 := m.With(Grade, Toggled(cfg, m.At(Grade), Grade, false));
      var m6 := m5.With(Grade, m5.At(Grade).(visible := false));
      var m7 := m6.With(Volume, m6.At(Volume).(visible := false));
      var t := m.With(Grade, Toggled(cfg, m.At(Grade), Grade, false));
      ResetAll(cfg, m7, [Grade, Volume]) == t.With(Volume, Toggled(cfg, t.At(Volume), Volume, false))
  {
    var m5 := m.With(Grade, Toggled(cfg, m.At(Grade), Grade, false));
    var m6 := m5.With(Grade, m5.At(Grade).(visible := false));
    var m7 := m6.With(Volume, m6.At(Volume).(visible := false));
    assert [Grade, Volume][..1] == [Grade];
    ResetOne(cfg, m7, Grade);
  }

  /** Grade shown twice, then volume hidden and reset: every other case. */
  lemma GradeVolumeOther(cfg: Config, m: Menus)
    ensures var m5 := m.With(Grade, Toggled(cfg, m.At(Grade), Grade, true));
      var m6 := m5.With(Grade, m5.At(Grade).(visible := true));
      var m7 := m6.With(Volume, m6.At(Volume).(visible := false));
      var t := m.With(Grade, Toggled(cfg, m.At(Grade), Grade, true));
      ResetAll(cfg, m7, [Volume]) == t.With(Volume, Toggled(cfg, t.At(Volume), Volume, false))
  {
    var m5 := m.With(Grade, Toggled(cfg, m.At(Grade), Grade, true));
    var m6 := m5.With(Grade, m5.At(Grade).(visible := true));
    var m7 := m6.With(Volume, m6.At(Volume).(visible := false));
    ResetOne(cfg, m7, Volume);
  }

  /** The older window: the menus of the material frame and what the cascade sets. */
  class GUI {
    const cfg: Config
    var menus: Menus
    var subjectWidth: int
    var materials: Children
    var resources: seq<Pair<Record>>
    var status: Status
    var download: bool
    var alerts: seq<Alert>

    /** Everything the cascade reads and writes. */
    function Snapshot(): Panel
      reads this
    {
      Panel(menus, subjectWidth, materials, resources, status, download, alerts)
    }

    /** The window as created: the configured menus, with the category, stage and volume menus hidden (src/gui.py:220-222). */
    constructor (cfg: Config, configured: Menus)
      ensures this.cfg == cfg
      ensures Snapshot() == Panel(
        configured.With(Category, configured.At(Category).(visible := false))
                  .With(Stage, configured.At(Stage).(visible := false))
                  .With(Volume, configured.At(Volume).(visible := false)),
        cfg.subjectWidth, Entries([]), [], Cleared, false, [])
    {
      this.cfg := cfg;
      menus := configured.With(Category, configured.At(Category).(visible := false))
                         .With(Stage, configured.At(Stage).(visible := false))
                         .With(Volume, configured.At(Volume).(visible := false));
      subjectWidth := cfg.subjectWidth;
      materials := Entries([]);
      resources := [];
      status := Cleared;
      download := false;
      alerts := [];
    }

    /** `grid()` or `grid_remove()` of one menu. */
    method ToggleWidget(f: Field, visible: bool)
      modifies this`menus
      ensures menus == old(menus).With(f, old(menus).At(f).(visible := visible))
    {
      menus := menus.With(f, menus.At(f).(visible := visible));
    }

    /** `_reset_options(keys, start)`: each menu from `start` on reset, with its change handler detached. */
    method ResetOptions(keys: seq<Field>, start: nat)
      modifies this`menus
      ensures menus == ResetAll(cfg, old(menus), if start <= |keys| then keys[start..] else [])
    {
      if start > |keys| {
        return;
      }
      assert keys[start..|keys|] == keys[start..];
      for i := start to |keys|
        invariant menus == ResetAll(cfg, old(menus), keys[start..i])
      {
        ResetAllNext(cfg, old(menus), keys, start, i);
        var f := keys[i];
        menus := menus.With(f, Reset(menus.At(f), cfg.defaults(f)));
      }
    }

    /** `grid_remove()` and `_reset_options([menu], 0)` of one menu. */
    method Hide(f: Field)
      modifies this`menus
      ensures menus == old(menus).With(f, Toggled(cfg, old(menus).At(f), f, false))
    {
      ToggleWidget(f, false);
      assert [f][0..] == [f];
      ResetOptions([f], 0);
      HideAndReset(cfg, old(menus), f);
    }

    /** The special-education rules, run in turn: a hidden menu is also reset. */
    method ApplyRules(rules: seq<(Field, bool)>)
      modifies this`menus
      ensures menus == ShowAll(cfg, old(menus), rules)
    {
      assert rules[..0] == [];
      for i := 0 to |rules|
        invariant menus == ShowAll(cfg, old(menus), rules[..i])
      {
        assert rules[..i + 1][..i] == rules[..i];
        var (f, visible) := rules[i];
        if !visible {
          Hide(f);
        } else {
          ToggleWidget(f, true);
        }
      }
      assert rules[..|rules|] == rules;
    }

    /** The grade and volume steps of `_adjust_widgets` (src/gui.py:458-487). */
    method AdjustGradeVolume(s: Selection)
      modifies this`menus
      ensures var t := old(menus).With(Grade, Toggled(cfg, old(menus).At(Grade), Grade, !(IsGradeless(s) || IsSpecialInfoTech(s))));
        menus == t.With(Volume, Toggled(cfg, t.At(Volume), Volume, IsSpecialInfoTech(s)))
    {
      var isSpecialGrade := IsGradeless(s);
      if isSpecialGrade {
        Hide(Grade);
      } else {
        ToggleWidget(Grade, true);
      }
      var isSpecialInfoTech := IsSpecialInfoTech(s);
      if isSpecialInfoTech {
        ToggleWidget(Volume, true);
        ToggleWidget(Grade, false);
        ResetOptions([Grade], 0);
        assert [Grade][0..] == [Grade];
        GradeVolumeSpecialInfoTech(cfg, old(menus));
      } else if isSpecialGrade {
        ToggleWidget(Grade, false);
        ToggleWidget(Volume, false);
        ResetOptions([Grade, Volume], 0);
        assert [Grade, Volume][0..] == [Grade, Volume];
        GradeVolumeGradeless(cfg, old(menus));
      } else {
        ToggleWidget(Grade, true);
        ToggleWidget(Volume, false);
        ResetOptions([Volume], 0);
        assert [Volume][0..] == [Volume];
        GradeVolumeOther(cfg, old(menus));
      }
    }

    /** `_adjust_widgets(key)`: the rules, run as the source runs them; the menus end as the rule table says. */
    method AdjustWidgets(key: Field)
      modifies this`menus, this`subjectWidth
      ensures menus == Arrange(cfg, old(menus), SelectionOf(old(menus), key))
      ensures subjectWidth == Width(cfg, SelectionOf(old(menus), key))
    {
      var s := SelectionOf(menus, key);
      var isInfoTech := IsInfoTech(s);
      if isInfoTech {
        Hide(Provider);
        subjectWidth := 48;
      } else {
        ToggleWidget(Provider, true);
        subjectWidth := cfg.subjectWidth;
      }
      var isSpecialEducation := IsSpecialEducation(s);
      var rules := [(Category, isSpecialEducation),
                    (Stage, isSpecialEducation && s.category != Some(IntellectualSchool)),
                    (Provider, !isSpecialEducation && !isInfoTech)];
      assert rules == Rules(s);
      ApplyRules(rules);
      AdjustGradeVolume(s);
      ArrangeInSteps(cfg, old(menus), s);
    }

    /** The next menu `f` given the names of `level`'s tags, in order, then enabled (src/gui.py:309-323). */
    method OfferNames(f: Field, level: Children) returns (outcome: Outcome)
      modifies this`menus
      ensures (Snapshot(), outcome) == Populate(old(Snapshot()), f, level)
    {
      var l := ListTagNames(level);
      menus := menus.With(f, Offer(menus.At(f), l));
      if l.fault.Some? {
        return Aborted(l.fault.value);
      }
      WithTwice(old(menus), f, Offer(old(menus).At(f), l), Offer(old(menus).At(f), l).(enabled := true));
      menus := menus.With(f, menus.At(f).(enabled := true));
      return Populated;
    }

    /** `_update_resources` (src/gui.py:341-358): each record rendered in turn, until one raises. */
    method RenderResources() returns (fault: Option<Fault>)
      ensures fault == Rendered(resources)
    {
      var i := 0;
      while i < |resources|
        invariant i <= |resources|
        invariant forall j :: 0 <= j < i ==> RenderFault(resources[j].val).None?
      {
        var f := RenderFault(resources[i].val);
        if f.Some? {
          RenderedFirst(resources, i);
          return f;
        }
        i := i + 1;
      }
      return None;
    }

    /** The resolution of a selection (src/gui.py:325-358). */
    method ResolveSelection(level: Children) returns (outcome: Outcome)
      modifies this`resources, this`status, this`download
      ensures (Snapshot(), outcome) == Resolution(old(Snapshot()), level)
    {
      var parsed := ParseResource(level);
      if parsed.Err? {
        return Aborted(parsed.fault);
      }
      resources := parsed.value;
      var fault := RenderResources();
      if fault.Some? {
        return Aborted(fault.value);
      }
      var size := SizeTotal(resources);
      status := status.(countTotal := Some(|resources|));
      status := status.(sizeTotal := Some(size.value));
      download := true;
      return Resolved;
    }

    /** The descent and what follows it in `_update_options` (src/gui.py:293-358). */
    method FollowSelection(keys: seq<Field>, index: nat) returns (outcome: Outcome)
      requires index < |keys|
      modifies this`menus, this`resources, this`status, this`download
      ensures (Snapshot(), outcome) == Followed(old(Snapshot()), keys, index)
    {
      var reach := DescendSelected(materials, menus, keys, index);
      if reach.Err? {
        return Aborted(reach.fault);
      }
      if index < |keys| - 1 && !reach.value.stopped {
        outcome := OfferNames(keys[index + 1], reach.value.level);
      } else {
        outcome := ResolveSelection(reach.value.level);
      }
    }

    /** `_update_options(key)` once the rules have run (src/gui.py:271-291). */
    method SettleChange(key: Field) returns (outcome: Outcome)
      modifies this`menus, this`resources, this`status, this`download
      ensures (Snapshot(), outcome) == Settled(cfg, old(Snapshot()), key)
    {
      ghost var p0 := Snapshot();
      var keys := VisibleKeys(cfg.order, menus);
      var found := IndexOf(keys, key);
      if found.Err? {
        SettledMissing(cfg, p0, key, keys);
        return Aborted(found.fault);
      }
      var index := found.value;
      ResetOptions(keys, index + 1);
      download := false;
      status := Cleared;
      assert Snapshot() == ClearedFrom(cfg, p0, keys[index + 1..]);
      SettledFound(cfg, p0, key, keys, index);
      outcome := FollowSelection(keys, index);
    }

    /** `_update_options(key)`. */
    method UpdateOptions(key: Field) returns (outcome: Outcome)
      modifies this`menus, this`subjectWidth, this`resources, this`status, this`download
      ensures (Snapshot(), outcome) == OptionChange(cfg, old(Snapshot()), key)
    {
      AdjustWidgets(key);
      ArrangedPanel(cfg, old(Snapshot()), key, Snapshot());
      outcome := SettleChange(key);
    }

    /** `_init_materials`, with `_fetch_materials` given the responses. */
    method InitMaterials(tags: Fetch<Option<seq<Hierarchy>>>, list: Fetch<Option<string>>,
                         shards: string -> Fetch<seq<Record>>)
      modifies this
      ensures Snapshot() == Initialised(old(Snapshot()), BuildTree(tags, list, shards))
    {
      var b := FetchMaterials(tags, list, shards);
      if b.Err? {
        alerts := alerts + [Classify(b.fault)];
        return;
      }
      var first := FirstValue(b.value);
      if first.Err? {
        alerts := alerts + [Classify(first.fault)];
        return;
      }
      if first.value.Res? {
        alerts := alerts + [Classify(KeyError)];
        return;
      }
      materials := first.value.children;
      var l := ListTagNames(materials);
      menus := menus.With(Material, Offer(menus.At(Material), l));
      if l.fault.Some? {
        alerts := alerts + [Classify(l.fault.value)];
      }
    }
  }
}
