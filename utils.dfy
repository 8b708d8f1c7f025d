/**
 * The pure helpers the catalog window uses: building the tag tree from the
 * taxonomy payload (`parse_material`), collecting the records under a
 * subtree (`parse_resource`) and normalising a textbook title (`format_title`).
 */
module Utils {
  import opened Wrappers
  import opened Dicts
  import opened Text
  import opened Catalog

  /*
   * parse_material
   */

  /** `parse_material(hierarchies)`: `None` for an empty list, else every child tag of every hierarchy under its id. */
  function ParseMaterial(hs: seq<Hierarchy>): (r: Children)
    ensures r.Null? <==> |hs| == 0
    decreases hs, 2
  {
    if |hs| == 0 then Null else Entries(CollectHierarchies([], hs))
  }

  /** The outer loop of `parse_material`: the hierarchies in order. */
  function CollectHierarchies(acc: seq<Pair<Node>>, hs: seq<Hierarchy>): seq<Pair<Node>>
    decreases hs, 1
  {
    if hs == [] then acc else CollectHierarchies(CollectTags(acc, hs[0].children), hs[1..])
  }

  /** The inner loop of `parse_material`: each child assigned under its `tag_id`. */
  function CollectTags(acc: seq<Pair<Node>>, ts: seq<TagDef>): seq<Pair<Node>>
    decreases ts, 0
  {
    if ts == [] then acc
    else CollectTags(Put(acc, ts[0].tagId, Tag(ts[0].tagName, ParseMaterial(ts[0].hierarchies))), ts[1..])
  }

  /** The children of all hierarchies, in payload order. */
  function AllTags(hs: seq<Hierarchy>): seq<TagDef>
  {
    if hs == [] then [] else hs[0].children + AllTags(hs[1..])
  }

  /** The tree entry a child tag becomes. */
  function EntryOf(t: TagDef): Pair<Node> {
    Pair(t.tagId, Tag(t.tagName, ParseMaterial(t.hierarchies)))
  }

  /** The tree entries of a sequence of child tags, in order. */
  function EntriesOf(ts: seq<TagDef>): (e: seq<Pair<Node>>)
    ensures |e| == |ts| && forall i :: 0 <= i < |ts| ==> e[i] == EntryOf(ts[i])
  {
    if ts == [] then [] else [EntryOf(ts[0])] + EntriesOf(ts[1..])
  }

  /** The ids of a sequence of child tags, in order. */
  function IdsOf(ts: seq<TagDef>): (ids: seq<string>)
    ensures |ids| == |ts| && forall i :: 0 <= i < |ts| ==> ids[i] == ts[i].tagId
  {
    if ts == [] then [] else [ts[0].tagId] + IdsOf(ts[1..])
  }

  /** The last child tag with id `k`. */
  function LastTag(ts: seq<TagDef>, k: string): Option<TagDef>
    decreases |ts|
  {
    if ts == [] then None
    else if ts[|ts| - 1].tagId == k then Some(ts[|ts| - 1])
    else LastTag(ts[..|ts| - 1], k)
  }

  /** The inner loop assigns the entries of its tags in order. */
  lemma {:induction false} CollectTagsUpdate(acc: seq<Pair<Node>>, ts: seq<TagDef>)
    ensures CollectTags(acc, ts) == Update(acc, EntriesOf(ts))
    decreases |ts|
  {
    if ts != [] {
      var e := EntriesOf(ts);
      assert e[0] == EntryOf(ts[0]) && e[1..] == EntriesOf(ts[1..]);
      CollectTagsUpdate(Put(acc, ts[0].tagId, Tag(ts[0].tagName, ParseMaterial(ts[0].hierarchies))), ts[1..]);
    }
  }

  /** The entries of two tag sequences, one after the other. */
  lemma EntriesOfAppend(a: seq<TagDef>, b: seq<TagDef>)
    ensures EntriesOf(a + b) == EntriesOf(a) + EntriesOf(b)
  {
    var l, r := EntriesOf(a + b), EntriesOf(a) + EntriesOf(b);
    assert |l| == |r|;
    forall i | 0 <= i < |l| ensures l[i] == r[i] {
      if i < |a| { assert (a + b)[i] == a[i]; } else { assert (a + b)[i] == b[i - |a|]; }
    }
  }

  /** The outer loop assigns the entries of all children of all hierarchies in order. */
  lemma {:induction false} CollectHierarchiesUpdate(acc: seq<Pair<Node>>, hs: seq<Hierarchy>)
    ensures CollectHierarchies(acc, hs) == Update(acc, EntriesOf(AllTags(hs)))
    decreases |hs|
  {
    if hs != [] {
      var a := hs[0].children;
      CollectTagsUpdate(acc, a);
      CollectHierarchiesUpdate(CollectTags(acc, a), hs[1..]);
      UpdateAppend(acc, EntriesOf(a), EntriesOf(AllTags(hs[1..])));
      EntriesOfAppend(a, AllTags(hs[1..]));
    }
  }

  /** The last entry for a key is the entry of the last child tag with that id. */
  lemma {:induction false} LastValEntries(ts: seq<TagDef>, k: string)
    ensures LastVal(EntriesOf(ts), k) == match LastTag(ts, k)
      case None => None
      case Some(t) => Some(EntryOf(t).val)
    ensures Keys(EntriesOf(ts)) == IdsOf(ts)
    decreases |ts|
  {
    if ts != [] {
      var e := EntriesOf(ts);
      assert e[..|e| - 1] == EntriesOf(ts[..|ts| - 1]);
      LastValEntries(ts[..|ts| - 1], k);
    }
  }

  /**
   * The result of `parse_material` holds exactly the ids of all children of
   * all hierarchies, each id once; under each id sits the LAST child with that
   * id, as a tag with the child's name and `parse_material` of the child's own
   * hierarchies (so `None` when it has none).
   */
  lemma ParseMaterialEntries(hs: seq<Hierarchy>, k: string)
    requires |hs| > 0
    ensures Unique(ParseMaterial(hs).entries)
    ensures k in Keys(ParseMaterial(hs).entries) <==> k in IdsOf(AllTags(hs))
    ensures Get(ParseMaterial(hs).entries, k) == match LastTag(AllTags(hs), k)
      case None => None
      case Some(t) => Some(Tag(t.tagName, ParseMaterial(t.hierarchies)))
  {
    var e := EntriesOf(AllTags(hs));
    CollectHierarchiesUpdate([], hs);
    UpdateUnique([], e);
    UpdateKeys([], e, k);
    GetUpdate([], e, k);
    LastValEntries(AllTags(hs), k);
  }

  /** A duplicate id keeps the later child, and a child without hierarchies gets `None` children. */
  lemma ParseMaterialLaterWins()
    ensures ParseMaterial([Hierarchy([TagDef("a", "first", []), TagDef("b", "other", [])]),
                           Hierarchy([TagDef("a", "second", [])])])
         == Entries([Pair("a", Tag("second", Null)), Pair("b", Tag("other", Null))])
  {
  }

  /*
   * parse_resource
   */

  /** `parse_resource(children)`: every record with an `id` in the subtree, under that id; a later record wins. */
  function ParseResource(c: Children): (r: Result<seq<Pair<Record>>>)
    ensures r.Err? ==> r.fault == AttributeError
    ensures c == Entries([]) ==> r == Ok([])
    decreases c, 1
  {
    match c
    case Null => Err(AttributeError)
    case Entries(es) => Flatten([], es)
  }

  /** The loop of `parse_resource` over the entries of one dict. */
  function Flatten(acc: seq<Pair<Record>>, es: seq<Pair<Node>>): (r: Result<seq<Pair<Record>>>)
    ensures r.Err? ==> r.fault == AttributeError
    decreases es, 0
  {
    if es == [] then Ok(acc)
    else match es[0].val
      case Res(rec) =>
        if rec.id.Some? then Flatten(Put(acc, rec.id.value, rec), es[1..]) else Flatten(acc, es[1..])
      case Tag(_, ch) =>
        match ParseResource(ch)
        case Err(f) => Err(f)
        case Ok(sub) => Flatten(Update(acc, sub), es[1..])
  }

  /** Some tag on the way down has `None` children, where `.values()` raises. */
  predicate Broken(c: Children)
    decreases c, 1
  {
    match c
    case Null => true
    case Entries(es) => BrokenIn(es)
  }

  /** Some tag among `es`, or below one of them, has `None` children. */
  predicate BrokenIn(es: seq<Pair<Node>>)
    decreases es, 0
  {
    es != [] && ((es[0].val.Tag? && Broken(es[0].val.children)) || BrokenIn(es[1..]))
  }

  /** Every record the flattening visits and keeps, in visiting order: one with an id is taken whole, a tag is entered. */
  function Records(c: Children): seq<Pair<Record>>
    decreases c, 1
  {
    match c
    case Null => []
    case Entries(es) => RecordsIn(es)
  }

  /** `Records` of the entries `es`, in order. */
  function RecordsIn(es: seq<Pair<Node>>): seq<Pair<Record>>
    decreases es, 0
  {
    if es == [] then []
    else
      var here := match es[0].val
        case Res(rec) => if rec.id.Some? then [Pair(rec.id.value, rec)] else []
        case Tag(_, ch) => Records(ch);
      here + RecordsIn(es[1..])
  }

  /** Every record is stored under its own id. */
  ghost predicate Keyed(d: seq<Pair<Record>>) {
    forall i :: 0 <= i < |d| ==> d[i].val.id == Some(d[i].key)
  }

  /** Assigning a record under its own id keeps every record under its own id. */
  lemma {:induction false} PutKeyed(d: seq<Pair<Record>>, k: string, v: Record)
    requires Keyed(d) && v.id == Some(k)
    ensures Keyed(Put(d, k, v))
    decreases |d|
  {
    if d != [] && d[0].key != k {
      assert Keyed(d[1..]) by {
        forall i | 0 <= i < |d[1..]| ensures d[1..][i].val.id == Some(d[1..][i].key) {
          assert d[1..][i] == d[i + 1];
        }
      }
      PutKeyed(d[1..], k, v);
    }
  }

  /** Updating with records stored under their own ids keeps every record under its own id. */
  lemma {:induction false} UpdateKeyed(d: seq<Pair<Record>>, e: seq<Pair<Record>>)
    requires Keyed(d) && Keyed(e)
    ensures Keyed(Update(d, e))
    decreases |e|
  {
    if e != [] {
      PutKeyed(d, e[0].key, e[0].val);
      assert Keyed(e[1..]) by {
        forall i | 0 <= i < |e[1..]| ensures e[1..][i].val.id == Some(e[1..][i].key) {
          assert e[1..][i] == e[i + 1];
        }
      }
      UpdateKeyed(Put(d, e[0].key, e[0].val), e[1..]);
    }
  }

  /** The loop succeeds unless a tag with `None` children is met, and keeps its accumulator a dict of records under their own ids. */
  lemma {:induction false} FlattenShape(acc: seq<Pair<Record>>, es: seq<Pair<Node>>)
    requires Unique(acc) && Keyed(acc)
    ensures Flatten(acc, es).Ok? <==> !BrokenIn(es)
    ensures Flatten(acc, es).Err? ==> Flatten(acc, es).fault == AttributeError
    ensures Flatten(acc, es).Ok? ==> Unique(Flatten(acc, es).value) && Keyed(Flatten(acc, es).value)
    decreases es, 0
  {
    if es != [] {
      match es[0].val
      case Res(rec) =>
        if rec.id.Some? {
          PutUnique(acc, rec.id.value, rec);
          PutKeyed(acc, rec.id.value, rec);
          FlattenShape(Put(acc, rec.id.value, rec), es[1..]);
        } else {
          FlattenShape(acc, es[1..]);
        }
      case Tag(_, ch) =>
        ParseResourceShape(ch);
        if !Broken(ch) {
          var sub := ParseResource(ch).value;
          UpdateUnique(acc, sub);
          UpdateKeyed(acc, sub);
          FlattenShape(Update(acc, sub), es[1..]);
        }
    }
  }

  /**
   * `parse_resource` fails (with `AttributeError`) exactly when a tag with
   * `None` children is reachable; otherwise it returns a dict in which every
   * record is stored under its own id.
   */
  lemma {:induction false} ParseResourceShape(c: Children)
    ensures ParseResource(c).Ok? <==> !Broken(c)
    ensures ParseResource(c).Err? ==> ParseResource(c).fault == AttributeError
    ensures ParseResource(c).Ok? ==> Unique(ParseResource(c).value) && Keyed(ParseResource(c).value)
    decreases c, 1
  {
    if c.Entries? {
      FlattenShape([], c.entries);
    }
  }

  /** What the loop leaves under a key: the last record it visits with that id, else what the accumulator held. */
  lemma {:induction false} FlattenGet(acc: seq<Pair<Record>>, es: seq<Pair<Node>>, k: string)
    requires Unique(acc) && Keyed(acc) && !BrokenIn(es)
    ensures Flatten(acc, es).Ok? && Get(Flatten(acc, es).value, k)
      == if LastVal(RecordsIn(es), k).Some? then LastVal(RecordsIn(es), k) else Get(acc, k)
    decreases es, 0
  {
    FlattenShape(acc, es);
    if es != [] {
      var tail := RecordsIn(es[1..]);
      match es[0].val
      case Res(rec) =>
        if rec.id.Some? {
          var id := rec.id.value;
          PutUnique(acc, id, rec);
          PutKeyed(acc, id, rec);
          FlattenGet(Put(acc, id, rec), es[1..], k);
          LastValCons(RecordsIn(es), k);
          assert RecordsIn(es)[1..] == tail;
          if id != k {
            GetPutOther(acc, id, rec, k);
          }
        } else {
          assert RecordsIn(es) == tail;
          FlattenGet(acc, es[1..], k);
        }
      case Tag(_, ch) =>
        ParseResourceShape(ch);
        var sub := ParseResource(ch).value;
        UpdateUnique(acc, sub);
        UpdateKeyed(acc, sub);
        FlattenGet(Update(acc, sub), es[1..], k);
        GetUpdate(acc, sub, k);
        LastValUnique(sub, k);
        ParseResourceGet(ch, k);
        LastValAppend(Records(ch), tail, k);
    }
  }

  /** Under each key `parse_resource` leaves the LAST record visited with that id: later records overwrite earlier ones. */
  lemma {:induction false} ParseResourceGet(c: Children, k: string)
    requires !Broken(c)
    ensures ParseResource(c).Ok? && Get(ParseResource(c).value, k) == LastVal(Records(c), k)
    decreases c, 1
  {
    ParseResourceShape(c);
    FlattenGet([], c.entries, k);
  }

  /** A flat dict of records, as tree entries. */
  function AsEntries(d: seq<Pair<Record>>): (es: seq<Pair<Node>>)
    ensures |es| == |d| && forall i :: 0 <= i < |d| ==> es[i] == Pair(d[i].key, Res(d[i].val))
  {
    if d == [] then [] else [Pair(d[0].key, Res(d[0].val))] + AsEntries(d[1..])
  }

  /** The loop over a flat dict of records stored under their own ids assigns them in order. */
  lemma {:induction false} FlattenFlat(acc: seq<Pair<Record>>, d: seq<Pair<Record>>)
    requires Keyed(d)
    ensures Flatten(acc, AsEntries(d)) == Ok(Update(acc, d))
    decreases |d|
  {
    if d != [] {
      var es := AsEntries(d);
      assert es[0].val == Res(d[0].val) && d[0].val.id == Some(d[0].key);
      assert es[1..] == AsEntries(d[1..]);
      assert Keyed(d[1..]) by {
        forall i | 0 <= i < |d[1..]| ensures d[1..][i].val.id == Some(d[1..][i].key) {
          assert d[1..][i] == d[i + 1];
        }
      }
      FlattenFlat(Put(acc, d[0].key, d[0].val), d[1..]);
    }
  }

  /** Flattening an already-flat result of `parse_resource` gives it back unchanged. */
  lemma ParseResourceFlat(c: Children)
    requires !Broken(c)
    ensures ParseResource(c).Ok? && ParseResource(Entries(AsEntries(ParseResource(c).value))) == ParseResource(c)
  {
    ParseResourceShape(c);
    var d := ParseResource(c).value;
    var empty: seq<Pair<Record>> := [];
    FlattenFlat(empty, d);
    assert Keys(empty) == [];
    UpdateFresh(empty, d);
    assert empty + d == d;
  }

  /*
   * format_title
   */

  /** The marker after whose last occurrence the real title starts. */
  const Marker: string := "主义思想"

  /** The revision note, with full-width parentheses. */
  const RevisedFullWidth: string := "（根据2022年版课程标准修订）"

  /** The revision note, with ASCII parentheses. */
  const RevisedAscii: string := "(根据2022年版课程标准修订)"

  /** None of the three patterns can overlap itself. */
  lemma PatternsHeadOnce()
    ensures HeadOnce(Marker) && HeadOnce(RevisedFullWidth) && HeadOnce(RevisedAscii)
  {
  }

  /** The three patterns are not empty, so searching for them is defined. */
  lemma PatternsNonEmpty()
    ensures |Marker| > 0 && |RevisedFullWidth| > 0 && |RevisedAscii| > 0
  {
  }

  /** `format_title(title)`: the text after the last marker, without either revision note, stripped. */
  function FormatTitle(title: string): (r: string)
    ensures r == [] || (!IsSpace(r[0]) && !IsSpace(r[|r| - 1]))
  {
    PatternsNonEmpty();
    var t := if Find(title, Marker).Some? then LastPiece(title, Marker) else title;
    Strip(RemoveAll(RemoveAll(t, RevisedFullWidth), RevisedAscii))
  }

  /** Only the text after the last marker matters. */
  lemma FormatTitleAfterMarker(x: string, y: string)
    requires Find(y, Marker).None?
    ensures FormatTitle(x + Marker + y) == FormatTitle(y)
  {
    PatternsHeadOnce();
    var s := x + Marker + y;
    assert OccursAt(s, Marker, |x|) by { assert s[|x|..|x| + |Marker|] == Marker; }
    LastPieceAfter(x, Marker, y);
  }

  /** A title with no marker and no revision note is only stripped. */
  lemma FormatTitlePlain(title: string)
    requires Find(title, Marker).None?
    requires Find(title, RevisedFullWidth).None? && Find(title, RevisedAscii).None?
    ensures FormatTitle(title) == Strip(title)
  {
  }

  /** The full-width revision note is cut out of the title. */
  lemma FormatTitleFullWidth(x: string, y: string)
    requires Find(x + RevisedFullWidth + y, Marker).None?
    requires Find(x, RevisedFullWidth).None? && Find(y, RevisedFullWidth).None?
    requires Find(x + y, RevisedAscii).None?
    ensures FormatTitle(x + RevisedFullWidth + y) == Strip(x + y)
  {
    PatternsHeadOnce();
    RemoveAllSplice(x, RevisedFullWidth, y);
  }

  /** The ASCII revision note is cut out of the title. */
  lemma FormatTitleAscii(x: string, y: string)
    requires Find(x + RevisedAscii + y, Marker).None?
    requires Find(x + RevisedAscii + y, RevisedFullWidth).None?
    requires Find(x, RevisedAscii).None? && Find(y, RevisedAscii).None?
    ensures FormatTitle(x + RevisedAscii + y) == Strip(x + y)
  {
    PatternsHeadOnce();
    RemoveAllSplice(x, RevisedAscii, y);
  }

  /** A title carrying both revision notes has both cut out. */
  lemma FormatTitleBoth(x: string, y: string, z: string)
    requires Find(x + RevisedFullWidth + y + RevisedAscii + z, Marker).None?
    requires Find(x, RevisedFullWidth).None? && Find(y + RevisedAscii + z, RevisedFullWidth).None?
    requires Find(x + y, RevisedAscii).None? && Find(z, RevisedAscii).None?
    ensures FormatTitle(x + RevisedFullWidth + y + RevisedAscii + z) == Strip(x + y + z)
  {
    PatternsHeadOnce();
    RemoveBoth(x, RevisedFullWidth, y, RevisedAscii, z);
  }
}
