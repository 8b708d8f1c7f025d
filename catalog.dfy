/**
 * The catalog's data: the tag payload served by the taxonomy endpoint, the
 * resource records served by the shard endpoints, and the tree the window
 * builds from them (`tag_id -> {tag_name, children}`, with resource records
 * spliced in under their `id`). Python's exceptions become `Fault` values.
 */
module Catalog {
  import opened Wrappers
  import opened Dicts

  /** The Python exceptions the catalog code can raise; `RequestError` is any `requests.RequestException`. */
  datatype Fault = KeyError | IndexError | TypeError | AttributeError | ValueError | StopIteration | RequestError

  /** A value, or the exception that stopped its computation. */
  datatype Result<T> = Ok(value: T) | Err(fault: Fault)

  /** The outcome of one HTTP request and its `.json()` decoding. */
  datatype Fetch<T> = FetchFailed | Fetched(body: T)

  /** A record's `custom_properties`; `size` may be absent. */
  datatype Props = Props(size: Option<int>)

  /** A resource record of a shard, with the keys the catalog reads; `None` is a key that is absent. */
  datatype Record = Record(id: Option<string>, tagPaths: Option<seq<string>>, props: Option<Props>)

  /** One entry of the taxonomy payload: a tag and the hierarchies below it. */
  datatype TagDef = TagDef(tagId: string, tagName: string, hierarchies: seq<Hierarchy>)

  /** A hierarchy of the taxonomy payload: the tags of one level. */
  datatype Hierarchy = Hierarchy(children: seq<TagDef>)

  /** A `children` value of the tree: Python `None`, or an insertion-ordered dict. */
  datatype Children = Null | Entries(entries: seq<Pair<Node>>)

  /** A value of the tree: a tag node, or a resource record spliced in under its id. */
  datatype Node = Tag(tagName: string, children: Children) | Res(record: Record)

  /** `c[k]` for a dict, nothing for `None`. */
  function Lookup(c: Children, k: string): (r: Option<Node>)
    ensures c.Null? ==> r.None?
    ensures c.Entries? ==> r == Get(c.entries, k)
  {
    match c
    case Null => None
    case Entries(es) => Get(es, k)
  }

  /** The node reached from `n` by following the keys of `w` through tag children. */
  function Below(n: Node, w: seq<string>): Option<Node>
    decreases |w|
  {
    if w == [] then Some(n)
    else match n
      case Res(_) => None
      case Tag(_, c) =>
        match Lookup(c, w[0])
        case None => None
        case Some(m) => Below(m, w[1..])
  }

  /** The node at key path `p` of the tree `c`. */
  function NodeAt(c: Children, p: seq<string>): Option<Node>
  {
    if p == [] then None
    else match Lookup(c, p[0])
      case None => None
      case Some(n) => Below(n, p[1..])
  }

  /** `n` with the node at path `w` below it replaced by `m`. */
  function GraftBelow(n: Node, w: seq<string>, m: Node): (r: Node)
    requires Below(n, w).Some?
    decreases |w|
  {
    if w == [] then m
    else
      var es := n.children.entries;
      var child := Get(es, w[0]).value;
      Tag(n.tagName, Entries(Put(es, w[0], GraftBelow(child, w[1..], m))))
  }

  /** The tree `c` with the node at path `p` replaced by `m`. */
  function Graft(c: Children, p: seq<string>, m: Node): (r: Children)
    requires NodeAt(c, p).Some?
  {
    var es := c.entries;
    Entries(Put(es, p[0], GraftBelow(Get(es, p[0]).value, p[1..], m)))
  }

  /** After grafting, the new node is found at its path. */
  lemma {:induction false} GraftBelowAt(n: Node, w: seq<string>, m: Node)
    requires Below(n, w).Some?
    ensures Below(GraftBelow(n, w, m), w) == Some(m)
    decreases |w|
  {
    if w != [] {
      GraftBelowHead(n, w, m);
      GraftBelowAt(Get(n.children.entries, w[0]).value, w[1..], m);
    }
  }

  /** One level of grafting: the grafted tag keeps its name, and its entry under `w[0]` is the grafted child. */
  lemma GraftBelowHead(n: Node, w: seq<string>, m: Node)
    requires Below(n, w).Some? && w != []
    ensures n.Tag? && n.children.Entries?
    ensures var r := GraftBelow(n, w, m);
      && r.Tag? && r.tagName == n.tagName && r.children.Entries?
      && Lookup(r.children, w[0]) == Some(GraftBelow(Get(n.children.entries, w[0]).value, w[1..], m))
  {
  }

  /** One level of grafting leaves the entries under the other keys as they were. */
  lemma GraftBelowOtherKey(n: Node, w: seq<string>, m: Node, k: string)
    requires Below(n, w).Some? && w != [] && k != w[0]
    ensures Lookup(GraftBelow(n, w, m).children, k) == Lookup(n.children, k)
  {
    var es := n.children.entries;
    GetPutOther(es, w[0], GraftBelow(Get(es, w[0]).value, w[1..], m), k);
  }

  /** One level of grafting keeps the keys of the tag. */
  lemma GraftBelowKeys(n: Node, w: seq<string>, m: Node)
    requires Below(n, w).Some? && w != []
    ensures GraftBelow(n, w, m).children.Entries?
    ensures Keys(GraftBelow(n, w, m).children.entries) == Keys(n.children.entries)
  {
  }

  /** Two paths with the same first key are prefixes of each other exactly when their tails are. */
  lemma PrefixTail(w: seq<string>, v: seq<string>)
    requires w != [] && v != [] && w[0] == v[0]
    ensures w <= v <==> w[1..] <= v[1..]
    ensures w < v <==> w[1..] < v[1..]
  {
    assert w == [w[0]] + w[1..] && v == [v[0]] + v[1..];
  }

  /** Grafting leaves every node whose path neither contains nor extends the grafted path as it was. */
  lemma {:induction false} GraftBelowOther(n: Node, w: seq<string>, m: Node, v: seq<string>)
    requires Below(n, w).Some?
    requires !(w <= v) && !(v <= w)
    ensures Below(GraftBelow(n, w, m), v) == Below(n, v)
    decreases |w|
  {
    GraftBelowHead(n, w, m);
    if v[0] != w[0] {
      GraftBelowOtherKey(n, w, m, v[0]);
    } else {
      PrefixTail(w, v);
      GraftBelowOther(Get(n.children.entries, w[0]).value, w[1..], m, v[1..]);
    }
  }

  /** Grafting keeps every ancestor of the grafted node a tag with the same name and the same keys. */
  lemma {:induction false} GraftBelowAbove(n: Node, w: seq<string>, m: Node, v: seq<string>)
    requires Below(n, w).Some?
    requires v < w
    ensures Below(n, v).Some? && Below(n, v).value.Tag?
    ensures var a := Below(GraftBelow(n, w, m), v);
      && a.Some? && a.value.Tag? && a.value.tagName == Below(n, v).value.tagName
      && a.value.children.Entries? && Below(n, v).value.children.Entries?
      && Keys(a.value.children.entries) == Keys(Below(n, v).value.children.entries)
    decreases |w|
  {
    GraftBelowHead(n, w, m);
    if v == [] {
      GraftBelowKeys(n, w, m);
    } else {
      PrefixTail(w, v);
      GraftBelowAbove(Get(n.children.entries, w[0]).value, w[1..], m, v[1..]);
    }
  }

  /** After grafting into the tree, the new node is found at its path. */
  lemma GraftAt(c: Children, p: seq<string>, m: Node)
    requires NodeAt(c, p).Some?
    ensures NodeAt(Graft(c, p, m), p) == Some(m)
  {
    GraftHead(c, p, m);
    GraftBelowAt(Get(c.entries, p[0]).value, p[1..], m);
  }

  /** Grafting into the tree puts the grafted subtree under the first key of the path. */
  lemma GraftHead(c: Children, p: seq<string>, m: Node)
    requires NodeAt(c, p).Some?
    ensures c.Entries?
    ensures Lookup(Graft(c, p, m), p[0]) == Some(GraftBelow(Get(c.entries, p[0]).value, p[1..], m))
  {
  }

  /** Grafting into the tree leaves the entries under the other top-level keys as they were. */
  lemma GraftOtherKey(c: Children, p: seq<string>, m: Node, k: string)
    requires NodeAt(c, p).Some? && k != p[0]
    ensures Lookup(Graft(c, p, m), k) == Lookup(c, k)
  {
    var es := c.entries;
    GetPutOther(es, p[0], GraftBelow(Get(es, p[0]).value, p[1..], m), k);
  }

  /** Grafting into the tree changes no node off the grafted path. */
  lemma GraftOther(c: Children, p: seq<string>, m: Node, q: seq<string>)
    requires NodeAt(c, p).Some?
    requires !(p <= q) && !(q <= p)
    ensures NodeAt(Graft(c, p, m), q) == NodeAt(c, q)
  {
    if q[0] != p[0] {
      GraftOtherKey(c, p, m, q[0]);
    } else {
      GraftHead(c, p, m);
      PrefixTail(p, q);
      GraftBelowOther(Get(c.entries, p[0]).value, p[1..], m, q[1..]);
    }
  }

  /** Grafting into the tree keeps its top-level keys, and every ancestor's name and keys. */
  lemma GraftAbove(c: Children, p: seq<string>, m: Node, q: seq<string>)
    requires NodeAt(c, p).Some?
    requires 0 < |q| < |p| && q == p[..|q|]
    ensures Graft(c, p, m).Entries? && Keys(Graft(c, p, m).entries) == Keys(c.entries)
    ensures var a := NodeAt(Graft(c, p, m), q);
      && a.Some? && a.value.Tag? && NodeAt(c, q).Some? && NodeAt(c, q).value.Tag?
      && a.value.tagName == NodeAt(c, q).value.tagName
      && a.value.children.Entries? && NodeAt(c, q).value.children.Entries?
      && Keys(a.value.children.entries) == Keys(NodeAt(c, q).value.children.entries)
  {
    GraftHead(c, p, m);
    assert q[0] == p[0] && q < p;
    PrefixTail(q, p);
    GraftBelowAbove(Get(c.entries, p[0]).value, p[1..], m, q[1..]);
  }

  /** A path into the tree is a top-level key followed by a path below that node. */
  lemma NodeAtCons(c: Children, k: string, w: seq<string>)
    ensures NodeAt(c, [k] + w) == match Lookup(c, k)
      case None => None
      case Some(n) => Below(n, w)
  {
    assert ([k] + w)[0] == k && ([k] + w)[1..] == w;
  }

  /** One more key below a node looks it up among that node's children. */
  lemma {:induction false} BelowSnoc(n: Node, w: seq<string>, k: string)
    ensures Below(n, w + [k]) == match Below(n, w)
      case None => None
      case Some(m) => if m.Tag? then Lookup(m.children, k) else None
    decreases |w|
  {
    if w == [] {
      assert [] + [k] == [k];
    } else {
      assert (w + [k])[0] == w[0] && (w + [k])[1..] == w[1..] + [k];
      if n.Tag? && Lookup(n.children, w[0]).Some? {
        BelowSnoc(Lookup(n.children, w[0]).value, w[1..], k);
      }
    }
  }

  /** Following `a + b` is following `a`, then `b` from where `a` ends. */
  lemma {:induction false} BelowAppend(n: Node, a: seq<string>, b: seq<string>)
    ensures Below(n, a + b) == match Below(n, a)
      case None => None
      case Some(m) => Below(m, b)
    decreases |a|
  {
    if a == [] {
      assert a + b == b;
    } else {
      assert (a + b)[0] == a[0] && (a + b)[1..] == a[1..] + b;
      if n.Tag? && Lookup(n.children, a[0]).Some? {
        BelowAppend(Lookup(n.children, a[0]).value, a[1..], b);
      }
    }
  }

  /** After grafting, what lies below the grafted path is what lies below the new node. */
  lemma {:induction false} GraftBelowInside(n: Node, w: seq<string>, m: Node, v: seq<string>)
    requires Below(n, w).Some?
    ensures Below(GraftBelow(n, w, m), w + v) == Below(m, v)
    decreases |w|
  {
    if w == [] {
      assert w + v == v;
    } else {
      assert (w + v)[0] == w[0] && (w + v)[1..] == w[1..] + v;
      GraftBelowHead(n, w, m);
      GraftBelowInside(Get(n.children.entries, w[0]).value, w[1..], m, v);
    }
  }

  /** A path with a first key `p[0]`, followed by more keys. */
  lemma NodeAtSplit(c: Children, p: seq<string>, v: seq<string>)
    requires p != []
    ensures NodeAt(c, p + v) == match Lookup(c, p[0])
      case None => None
      case Some(n) => Below(n, p[1..] + v)
  {
    assert (p + v)[0] == p[0] && (p + v)[1..] == p[1..] + v;
  }

  /** After grafting into the tree, what lies below the grafted path is what lies below the new node. */
  lemma GraftInside(c: Children, p: seq<string>, m: Node, v: seq<string>)
    requires NodeAt(c, p).Some?
    ensures NodeAt(Graft(c, p, m), p + v) == Below(m, v)
  {
    GraftHead(c, p, m);
    NodeAtSplit(Graft(c, p, m), p, v);
    GraftBelowInside(Get(c.entries, p[0]).value, p[1..], m, v);
  }

  /** Looking past a path into the tree is looking below the node at that path. */
  lemma NodeAtAppend(c: Children, p: seq<string>, v: seq<string>)
    requires NodeAt(c, p).Some?
    ensures NodeAt(c, p + v) == Below(NodeAt(c, p).value, v)
  {
    assert (p + v)[0] == p[0] && (p + v)[1..] == p[1..] + v;
    BelowAppend(Lookup(c, p[0]).value, p[1..], v);
  }
}
