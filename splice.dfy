/**
 * The part of resource splicing both window variants share: from the top tag
 * a record's path names, walk down one level per path segment when the
 * segment is a child there and stay put otherwise; at the node where the
 * walk ends, make sure `children` is a dict and store the record under its id.
 */
module Splice {
  import opened Wrappers
  import opened Dicts
  import opened Catalog

  /** One step of `temp = temp["children"].get(segment, temp)`: the child to move to, if any. */
  /** An exception that splicing one record can raise. */
  predicate RecordFault(f: Fault) {
    f == KeyError || f == IndexError || f == TypeError || f == AttributeError
  }

  function WalkStep(cur: Node, segment: string): Result<Option<Node>>
  {
    match cur
    case Res(_) => Err(KeyError)
    case Tag(_, Null) => Err(AttributeError)
    case Tag(_, Entries(es)) => Ok(Get(es, segment))
  }

  /** The keys the descend-or-stay walk from `cur` over `segments` goes down by. */
  function Walk(cur: Node, segments: seq<string>): (r: Result<seq<string>>)
    ensures r.Ok? ==> Below(cur, r.value).Some?
    ensures r.Err? ==> r.fault == KeyError || r.fault == AttributeError
    decreases |segments|
  {
    if segments == [] then Ok([])
    else match WalkStep(cur, segments[0])
      case Err(f) => Err(f)
      case Ok(None) => Walk(cur, segments[1..])
      case Ok(Some(next)) =>
        match Walk(next, segments[1..])
        case Err(f) => Err(f)
        case Ok(w) =>
          assert ([segments[0]] + w)[0] == segments[0] && ([segments[0]] + w)[1..] == w;
          Ok([segments[0]] + w)
  }

  /** `w` is `segments` with some of its elements left out. */
  predicate Subsequence(w: seq<string>, segments: seq<string>)
    decreases |segments|
  {
    if w == [] then true
    else if segments == [] then false
    else if w[0] == segments[0] then Subsequence(w[1..], segments[1..])
    else Subsequence(w, segments[1..])
  }

  /** The walk only ever goes down by segments of the path, in their order. */
  lemma {:induction false} WalkSubsequence(cur: Node, segments: seq<string>)
    requires Walk(cur, segments).Ok?
    ensures Subsequence(Walk(cur, segments).value, segments)
    decreases |segments|
  {
    if segments != [] {
      match WalkStep(cur, segments[0])
      case Ok(None) =>
        WalkSubsequence(cur, segments[1..]);
        SubsequenceDrop(Walk(cur, segments[1..]).value, segments);
      case Ok(Some(next)) =>
        WalkSubsequence(next, segments[1..]);
        var w := Walk(next, segments[1..]).value;
        assert ([segments[0]] + w)[1..] == w;
    }
  }

  /** A subsequence of the tail is a subsequence of the whole. */
  lemma {:induction false} SubsequenceDrop(w: seq<string>, segments: seq<string>)
    requires segments != [] && Subsequence(w, segments[1..])
    ensures Subsequence(w, segments)
    decreases |segments|, 0
  {
    if w != [] && w[0] == segments[0] {
      SubsequenceTail(w, segments[1..]);
    }
  }

  /** Leaving out the first element of a subsequence keeps it a subsequence. */
  lemma {:induction false} SubsequenceTail(w: seq<string>, segments: seq<string>)
    requires w != [] && Subsequence(w, segments)
    ensures Subsequence(w[1..], segments)
    decreases |segments|, 1
  {
    if w[0] == segments[0] {
      SubsequenceDrop(w[1..], segments);
    } else {
      SubsequenceTail(w, segments[1..]);
      SubsequenceDrop(w[1..], segments);
    }
  }

  /** When every segment names a child in turn, the walk goes all the way down the path. */
  lemma {:induction false} WalkFull(cur: Node, segments: seq<string>)
    requires Below(cur, segments).Some?
    requires Below(cur, segments).value.Tag? ==> Below(cur, segments).value.children.Entries?
    ensures Walk(cur, segments) == Ok(segments)
    decreases |segments|
  {
    if segments != [] {
      var next := Lookup(cur.children, segments[0]).value;
      WalkFull(next, segments[1..]);
      assert [segments[0]] + segments[1..] == segments;
    }
  }

  /** When no segment names a child of the tag the walk starts from, it stays there. */
  lemma {:induction false} WalkStays(cur: Node, segments: seq<string>)
    requires cur.Tag? && cur.children.Entries?
    requires forall i :: 0 <= i < |segments| ==> segments[i] !in Keys(cur.children.entries)
    ensures Walk(cur, segments) == Ok([])
    decreases |segments|
  {
    if segments != [] {
      WalkStays(cur, segments[1..]);
    }
  }

  /** The `children` dict of a landing tag: `{}` replaces `None` (and an empty dict). */
  function KidsOf(c: Children): (es: seq<Pair<Node>>)
    ensures c.Entries? ==> es == c.entries
    ensures c.Null? ==> es == []
  {
    if c.Null? then [] else c.entries
  }

  /**
   * Walk from the top tag `top` over `segments` and store `rec` under its id
   * at the node where the walk ends (src/basic.py:504-514, src/gui.py:548-554).
   */
  function Insert(c: Children, top: string, segments: seq<string>, rec: Record): (r: Result<Children>)
    requires Lookup(c, top).Some?
    ensures r.Err? ==> r.fault == KeyError || r.fault == AttributeError
    ensures rec.id.None? ==> r.Err?
  {
    var t := Lookup(c, top).value;
    match Walk(t, segments)
    case Err(f) => Err(f)
    case Ok(w) =>
      NodeAtCons(c, top, w);
      var landing := Below(t, w).value;
      if landing.Res? || rec.id.None? then Err(KeyError)
      else Ok(Graft(c, [top] + w, Landed(landing, rec)))
  }

  /** The landing tag `n` with `rec` stored among its children under its id. */
  function Landed(n: Node, rec: Record): (r: Node)
    requires n.Tag? && rec.id.Some?
    ensures r.Tag? && r.tagName == n.tagName && r.children == Entries(Put(KidsOf(n.children), rec.id.value, Res(rec)))
  {
    Tag(n.tagName, Entries(Put(KidsOf(n.children), rec.id.value, Res(rec))))
  }

  /** A successful insertion replaces the tag where the walk ends by that tag with the record stored. */
  lemma InsertGraft(c: Children, top: string, segments: seq<string>, rec: Record)
    requires Lookup(c, top).Some? && Insert(c, top, segments, rec).Ok?
    ensures Walk(Lookup(c, top).value, segments).Ok? && rec.id.Some?
    ensures var p := [top] + Walk(Lookup(c, top).value, segments).value;
      && NodeAt(c, p).Some? && NodeAt(c, p).value.Tag?
      && Insert(c, top, segments, rec).value == Graft(c, p, Landed(NodeAt(c, p).value, rec))
  {
    NodeAtCons(c, top, Walk(Lookup(c, top).value, segments).value);
  }

  /**
   * A successful insertion lands on a tag at the walked path: that tag keeps
   * its name and its children gain the record under its id.
   */
  lemma InsertLands(c: Children, top: string, segments: seq<string>, rec: Record)
    requires Lookup(c, top).Some? && Insert(c, top, segments, rec).Ok?
    ensures Walk(Lookup(c, top).value, segments).Ok? && rec.id.Some?
    ensures var p := [top] + Walk(Lookup(c, top).value, segments).value;
      var c' := Insert(c, top, segments, rec).value;
      && NodeAt(c, p).Some? && NodeAt(c, p).value.Tag?
      && NodeAt(c', p) == Some(Landed(NodeAt(c, p).value, rec))
      && NodeAt(c', p + [rec.id.value]) == Some(Res(rec))
  {
    InsertGraft(c, top, segments, rec);
    var p := [top] + Walk(Lookup(c, top).value, segments).value;
    var m := Landed(NodeAt(c, p).value, rec);
    GraftAt(c, p, m);
    GraftInside(c, p, m, [rec.id.value]);
    assert Below(m, [rec.id.value]) == Some(Res(rec)) by {
      assert [rec.id.value][1..] == [];
    }
  }

  /**
   * A successful insertion changes no node except the landing tag and its
   * ancestors: nodes off the walked path, and every other child of the landing
   * tag with all below it, stay as they were.
   */
  lemma InsertElsewhere(c: Children, top: string, segments: seq<string>, rec: Record, q: seq<string>)
    requires Lookup(c, top).Some? && Insert(c, top, segments, rec).Ok?
    ensures Walk(Lookup(c, top).value, segments).Ok? && rec.id.Some?
    ensures var p := [top] + Walk(Lookup(c, top).value, segments).value;
      var c' := Insert(c, top, segments, rec).value;
      && (!(p <= q) && !(q <= p) ==> NodeAt(c', q) == NodeAt(c, q))
      && (p < q && q[|p|] != rec.id.value ==> NodeAt(c', q) == NodeAt(c, q))
  {
    InsertGraft(c, top, segments, rec);
    var p := [top] + Walk(Lookup(c, top).value, segments).value;
    var landing := NodeAt(c, p).value;
    var m := Landed(landing, rec);
    if !(p <= q) && !(q <= p) {
      GraftOther(c, p, m, q);
    }
    if p < q && q[|p|] != rec.id.value {
      var v := q[|p|..];
      assert q == p + v;
      GraftInside(c, p, m, v);
      NodeAtAppend(c, p, v);
      LandedBeside(landing, rec, v);
    }
  }

  /** Below the landing tag, every child but the stored record is as it was. */
  lemma LandedBeside(n: Node, rec: Record, v: seq<string>)
    requires n.Tag? && rec.id.Some? && v != [] && v[0] != rec.id.value
    ensures Below(Landed(n, rec), v) == Below(n, v)
  {
    GetPutOther(KidsOf(n.children), rec.id.value, Res(rec), v[0]);
  }

  /** A walk result with the keys `w` walked before it put in front. */
  function Prefixed(w: seq<string>, r: Result<seq<string>>): Result<seq<string>> {
    match r
    case Err(f) => Err(f)
    case Ok(v) => Ok(w + v)
  }

  /** Putting nothing in front changes nothing; putting `w` and then one more key is putting `w + [k]`. */
  lemma PrefixedJoin(w: seq<string>, k: string, r: Result<seq<string>>)
    ensures Prefixed([], r) == r
    ensures Prefixed(w, Prefixed([k], r)) == Prefixed(w + [k], r)
  {
    match r {
      case Err(_) =>
      case Ok(v) => assert [] + v == v && w + ([k] + v) == (w + [k]) + v;
    }
  }

  /** The walk over `segments[i..]` takes its first step at `segments[i]`. */
  lemma WalkUnfold(cur: Node, segments: seq<string>, i: nat)
    requires i < |segments|
    ensures Walk(cur, segments[i..]) == match WalkStep(cur, segments[i])
      case Err(f) => Err(f)
      case Ok(None) => Walk(cur, segments[i + 1..])
      case Ok(Some(next)) => Prefixed([segments[i]], Walk(next, segments[i + 1..]))
  {
    assert segments[i..][0] == segments[i] && segments[i..][1..] == segments[i + 1..];
  }

  /**
   * The walk-and-store of one record as the source runs it, moving a cursor
   * down the tree one segment at a time, then storing the record at the node
   * where the cursor stops (src/basic.py:503-514, src/gui.py:547-554).
   */
  method Land(c: Children, top: string, segments: seq<string>, rec: Record) returns (r: Result<Children>)
    requires Lookup(c, top).Some?
    ensures r == Insert(c, top, segments, rec)
  {
    var t := Lookup(c, top).value;
    var cur := t;
    var w: seq<string> := [];
    var i := 0;
    assert segments[0..] == segments;
    PrefixedJoin([], "", Walk(t, segments));
    while i < |segments|
      invariant 0 <= i <= |segments|
      invariant Below(t, w) == Some(cur)
      invariant Walk(t, segments) == Prefixed(w, Walk(cur, segments[i..]))
    {
      WalkUnfold(cur, segments, i);
      match cur {
        case Res(_) =>
          return Err(KeyError);
        case Tag(_, Null) =>
          return Err(AttributeError);
        case Tag(_, Entries(es)) =>
          match Get(es, segments[i]) {
            case None =>
            case Some(next) =>
              BelowSnoc(t, w, segments[i]);
              PrefixedJoin(w, segments[i], Walk(next, segments[i + 1..]));
              cur := next;
              w := w + [segments[i]];
          }
      }
      i := i + 1;
    }
    assert segments[i..] == [] && w + [] == w;
    NodeAtCons(c, top, w);
    match cur {
      case Res(_) =>
        r := Err(KeyError);
      case Tag(name, ch) =>
        if rec.id.None? {
          r := Err(KeyError);
        } else {
          var kids := if ch.Null? then [] else ch.entries;
          r := Ok(Graft(c, [top] + w, Tag(name, Entries(Put(kids, rec.id.value, Res(rec))))));
        }
    }
  }
}
