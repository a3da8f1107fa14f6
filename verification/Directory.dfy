/** The directory tree of variables. Nodes are known by number; node 0 is the root, which is
    its own parent. */
module Directory {
  import opened Common

  datatype Node = Node(parent: nat, name: string, children: map<string, nat>, hyper: bool)

  type Nodes = map<nat, Node>

  const ROOT: nat := 0

  // ---- Names and paths ----

  predicate LegalName(name: string) {
    name != [] && '/' !in name
  }

  function Digit(d: nat): char
    requires d < 10
  {
    "0123456789"[d]
  }

  function Decimal(n: nat): string {
    if n < 10 then [Digit(n)] else Decimal(n / 10) + [Digit(n % 10)]
  }

  lemma DecimalLegal(n: nat)
    ensures LegalName(Decimal(n))
  {
  }

  /** The number that a row of digits stands for. */
  function NumberOf(s: string): nat {
    if s == [] then 0
    else
      var c := s[|s| - 1];
      NumberOf(s[..|s| - 1]) * 10 + if '0' <= c <= '9' then (c - '0') as nat else 0
  }

  lemma DigitIs(d: nat)
    requires d < 10
    ensures '0' <= Digit(d) <= '9' && (Digit(d) - '0') as nat == d
  {
  }

  /** Numbers are written in digits, without leading zeros, and so as different names. */
  lemma {:induction false} DecimalIs(n: nat)
    ensures Decimal(n) != [] && NumberOf(Decimal(n)) == n
    ensures forall i :: 0 <= i < |Decimal(n)| ==> '0' <= Decimal(n)[i] <= '9'
    ensures n > 0 ==> Decimal(n)[0] != '0'
  {
    DigitIs(n % 10);
    if n < 10 {
      assert Decimal(n)[..0] == [];
    } else {
      DecimalIs(n / 10);
      assert Decimal(n)[..|Decimal(n)| - 1] == Decimal(n / 10);
    }
  }

  lemma DecimalsDiffer(m: nat, n: nat)
    requires m != n
    ensures Decimal(m) != Decimal(n)
  {
    DecimalIs(m);
    DecimalIs(n);
  }

  function IndexOf(s: string, c: char, from: nat): (i: nat)
    requires from <= |s|
    ensures from <= i <= |s| && (i < |s| ==> s[i] == c)
    ensures forall j :: from <= j < i ==> s[j] != c
    decreases |s| - from
  {
    if from == |s| || s[from] == c then from else IndexOf(s, c, from + 1)
  }

  function SkipSlashes(s: string, from: nat): (i: nat)
    requires from <= |s|
    ensures from <= i <= |s| && (i < |s| ==> s[i] != '/')
    ensures forall j :: from <= j < i ==> s[j] == '/'
    decreases |s| - from
  {
    if from == |s| || s[from] != '/' then from else SkipSlashes(s, from + 1)
  }

  /** The name from pos to the next separator, and where the next name starts; None stands for
      npos. */
  function Split(path: string, pos: nat): (r: (string, Option<nat>))
    requires pos <= |path|
    ensures r.1.Some? ==> pos < r.1.value <= |path|
    ensures '/' !in r.0
  {
    var slash := IndexOf(path, '/', pos);
    (path[pos..slash], if slash == |path| then None else Some(SkipSlashes(path, slash + 1)))
  }

  /** The names on a path; empty ones do not count. */
  function Components(path: string, pos: nat): (names: seq<string>)
    requires pos <= |path|
    ensures forall i :: 0 <= i < |names| ==> LegalName(names[i])
    decreases |path| - pos
  {
    var (name, next) := Split(path, pos);
    var rest := if next.Some? then Components(path, next.value) else [];
    if name == [] then rest else [name] + rest
  }

  /** The names from a position that may be npos. */
  ghost function Remaining(path: string, pos: Option<nat>): seq<string>
    requires pos.Some? ==> pos.value <= |path|
  {
    if pos.Some? then Components(path, pos.value) else []
  }

  lemma FirstAndRemaining(path: string, pos: nat)
    requires pos <= |path|
    ensures var (name, after) := Split(path, pos);
            Remaining(path, Some(pos)) == (if name == [] then [] else [name]) + Remaining(path, after)
  {
  }

  /** How many characters come before the first separator. */
  function Word(path: string): (n: nat)
    ensures n <= |path| && (n < |path| ==> path[n] == '/')
  {
    if path == [] || path[0] == '/' then 0 else 1 + Word(path[1..])
  }

  /** The words between separators, of which any number may stand in a row. */
  function Words(path: string): seq<string> {
    if path == [] then []
    else if path[0] == '/' then Words(path[1..])
    else [path[..Word(path)]] + Words(path[Word(path)..])
  }

  lemma {:induction false} SlashesSkipped(path: string, from: nat)
    requires from <= |path|
    ensures Words(path[from..]) == Words(path[SkipSlashes(path, from)..])
    decreases |path| - from
  {
    if from < |path| && path[from] == '/' {
      assert path[from..][1..] == path[from + 1..];
      SlashesSkipped(path, from + 1);
    }
  }

  lemma {:induction false} WordAt(path: string, from: nat)
    requires from <= |path|
    ensures from + Word(path[from..]) == IndexOf(path, '/', from)
    decreases |path| - from
  {
    if from < |path| && path[from] != '/' {
      assert path[from..][1..] == path[from + 1..];
      WordAt(path, from + 1);
    }
  }

  /** The first name is what stands before the next separator. */
  lemma SplitFirst(path: string, pos: nat)
    requires pos <= |path|
    ensures Split(path, pos).0 == path[pos..][..Word(path[pos..])]
  {
    WordAt(path, pos);
    Slices(path, pos, Word(path[pos..]));
  }

  lemma SplitAt(path: string, pos: nat, slash: nat)
    requires pos <= |path| && slash == IndexOf(path, '/', pos)
    ensures Split(path, pos).1 == if slash < |path| then Some(SkipSlashes(path, slash + 1)) else None
  {
  }

  /** The next name starts behind the separators that follow. */
  lemma SplitNext(path: string, pos: nat, n: nat)
    requires pos <= |path| && pos + n == IndexOf(path, '/', pos)
    ensures WordsFrom(path, Split(path, pos).1)
         == if n < |path[pos..]| then Words(path[pos..][n + 1..]) else []
  {
    SplitAt(path, pos, pos + n);
    if pos + n < |path| {
      WordsBehind(path, pos, n);
    }
  }

  /** The words behind it are those of the rest, if there is one. */
  lemma SplitWords(path: string, pos: nat)
    requires pos <= |path|
    ensures Words(path[pos..]) == Headed(Split(path, pos).0, WordsFrom(path, Split(path, pos).1))
  {
    SplitFirst(path, pos);
    WordAt(path, pos);
    FirstWord(path[pos..]);
    SplitNext(path, pos, Word(path[pos..]));
  }

  function Headed(name: string, rest: seq<string>): seq<string> {
    if name == [] then rest else [name] + rest
  }

  function WordsFrom(path: string, pos: Option<nat>): seq<string>
    requires pos.Some? ==> pos.value <= |path|
  {
    if pos.Some? then Words(path[pos.value..]) else []
  }

  lemma WordsBehind(path: string, pos: nat, n: nat)
    requires pos + n < |path|
    ensures Words(path[pos..][n + 1..]) == Words(path[SkipSlashes(path, pos + n + 1)..])
  {
    SlashesSkipped(path, pos + n + 1);
    SameWords(path[pos..][n + 1..], path[pos + n + 1..]);
  }

  lemma SameWords(s: string, t: string)
    requires s == t
    ensures Words(s) == Words(t)
  {
  }

  lemma Slices(path: string, pos: nat, n: nat)
    requires pos + n <= |path|
    ensures path[pos..pos + n] == path[pos..][..n]
  {
  }

  lemma FirstWord(path: string)
    ensures var n := Word(path);
            Words(path) == Headed(path[..n], if n < |path| then Words(path[n + 1..]) else [])
  {
    var n := Word(path);
    if n < |path| {
      assert path[n..][0] == '/';
      assert path[n..][1..] == path[n + 1..];
      assert n == 0 ==> path[n..] == path;
    } else {
      assert path[n..] == [];
    }
  }

  /** Splitting a path gives its words. */
  lemma {:induction false} ComponentsAreWords(path: string, pos: nat)
    requires pos <= |path|
    ensures Components(path, pos) == Words(path[pos..])
    decreases |path| - pos
  {
    SplitWords(path, pos);
    var next := Split(path, pos).1;
    if next.Some? {
      ComponentsAreWords(path, next.value);
    }
  }

  function Join(names: seq<string>): string {
    if names == [] then [] else "/" + (names[0] + Join(names[1..]))
  }

  // ---- The tree ----

  /** Child maps and parent pointers agree: a node's child has it as parent, under that name. */
  ghost predicate ChildrenOk(ns: Nodes, n: nat)
    requires n in ns
  {
    forall name :: name in ns[n].children ==>
      var c := ns[n].children[name];
      c in ns && c != ROOT && ns[c].parent == n && ns[c].name == name
  }

  ghost predicate ParentOk(ns: Nodes, rank: map<nat, nat>, n: nat)
    requires n in ns
  {
    var p := ns[n].parent;
    && p in ns && ns[n].name in ns[p].children && ns[p].children[ns[n].name] == n
    && LegalName(ns[n].name)
    && p in rank && n in rank && rank[p] < rank[n]
  }

  /** rank grows from parent to child, so that every node hangs below the root. */
  ghost predicate Tree(ns: Nodes, rank: map<nat, nat>) {
    && ROOT in ns && ns[ROOT].parent == ROOT
    && rank.Keys == ns.Keys
    && (forall n {:trigger ChildrenOk(ns, n)} :: n in ns ==> ChildrenOk(ns, n))
    && (forall n {:trigger ParentOk(ns, rank, n)} :: n in ns && n != ROOT ==> ParentOk(ns, rank, n))
  }

  /** The names on the way from the root to a node. */
  ghost function NamesTo(ns: Nodes, rank: map<nat, nat>, n: nat): (names: seq<string>)
    requires Tree(ns, rank) && n in ns
    decreases rank[n]
  {
    if n == ROOT then []
    else
      assert ParentOk(ns, rank, n);
      NamesTo(ns, rank, ns[n].parent) + [ns[n].name]
  }

  function Path(ns: Nodes, ghost rank: map<nat, nat>, n: nat): string
    requires Tree(ns, rank) && n in ns
    decreases rank[n]
  {
    if ns[n].parent == n then []
    else
      assert n != ROOT && ParentOk(ns, rank, n);
      Path(ns, rank, ns[n].parent) + "/" + ns[n].name
  }

  /** find: the node under a path, from pos on. */
  function Find(ns: Nodes, d: nat, path: string, pos: nat): Option<nat>
    requires pos <= |path|
    decreases |path| - pos
  {
    var (name, next) := Split(path, pos);
    if d !in ns || name !in ns[d].children then None
    else
      var c := ns[d].children[name];
      if next.Some? && next.value < |path| then Find(ns, c, path, next.value) else Some(c)
  }

  function Walk(ns: Nodes, d: nat, names: seq<string>): Option<nat>
    decreases |names|
  {
    if names == [] then Some(d)
    else if d !in ns || names[0] !in ns[d].children then None
    else Walk(ns, ns[d].children[names[0]], names[1..])
  }

  /** find goes down by the words of the path, whatever stands between them, and finds nothing if
      there is a separator or nothing at all where it starts. */
  lemma {:induction false} FindIs(ns: Nodes, rank: map<nat, nat>, d: nat, path: string, pos: nat)
    requires Tree(ns, rank) && d in ns && pos <= |path|
    ensures Find(ns, d, path, pos)
         == if pos == |path| || path[pos] == '/' then None else Walk(ns, d, Words(path[pos..]))
    decreases |path| - pos
  {
    SplitFirst(path, pos);
    WordAt(path, pos);
    SplitWords(path, pos);
    NamesLegal(ns, rank, d);
    var (name, next) := Split(path, pos);
    if pos < |path| && path[pos] != '/' && name in ns[d].children {
      assert ChildrenOk(ns, d);
      if next.Some? && next.value < |path| {
        FindIs(ns, rank, ns[d].children[name], path, next.value);
      } else if next.Some? {
        assert path[next.value..] == [];
      }
    }
  }

  lemma NamesLegal(ns: Nodes, rank: map<nat, nat>, d: nat)
    requires Tree(ns, rank) && d in ns
    ensures forall name :: name in ns[d].children ==> LegalName(name)
  {
    assert ChildrenOk(ns, d);
    forall name | name in ns[d].children
      ensures LegalName(name)
    {
      assert ParentOk(ns, rank, ns[d].children[name]);
    }
  }

  lemma {:induction false} WalkSnoc(ns: Nodes, d: nat, names: seq<string>, name: string)
    ensures Walk(ns, d, names + [name])
         == match Walk(ns, d, names)
            case None => None
            case Some(e) => if e in ns && name in ns[e].children then Some(ns[e].children[name]) else None
    decreases |names|
  {
    if names != [] {
      assert (names + [name])[1..] == names[1..] + [name];
      if d in ns && names[0] in ns[d].children {
        WalkSnoc(ns, ns[d].children[names[0]], names[1..], name);
      }
    }
  }

  lemma {:induction false} JoinSnoc(names: seq<string>, name: string)
    ensures Join(names + [name]) == Join(names) + "/" + name
    decreases |names|
  {
    if names == [] {
      assert (names + [name])[1..] == [];
    } else {
      assert (names + [name])[1..] == names[1..] + [name];
      JoinSnoc(names[1..], name);
    }
  }

  lemma {:induction false} PathIsJoin(ns: Nodes, rank: map<nat, nat>, n: nat)
    requires Tree(ns, rank) && n in ns
    ensures Path(ns, rank, n) == Join(NamesTo(ns, rank, n))
    ensures AllLegal(NamesTo(ns, rank, n))
    decreases rank[n]
  {
    if n != ROOT {
      assert ParentOk(ns, rank, n);
      PathIsJoin(ns, rank, ns[n].parent);
      JoinSnoc(NamesTo(ns, rank, ns[n].parent), ns[n].name);
    }
  }

  lemma {:induction false} WalkToNode(ns: Nodes, rank: map<nat, nat>, n: nat)
    requires Tree(ns, rank) && n in ns
    ensures Walk(ns, ROOT, NamesTo(ns, rank, n)) == Some(n)
    decreases rank[n]
  {
    if n != ROOT {
      assert ParentOk(ns, rank, n);
      WalkToNode(ns, rank, ns[n].parent);
      WalkSnoc(ns, ROOT, NamesTo(ns, rank, ns[n].parent), ns[n].name);
    }
  }

  /** The names joined by slashes, without the leading one. */
  function Rest(names: seq<string>): string
    requires names != []
  {
    names[0] + Join(names[1..])
  }

  ghost predicate AllLegal(names: seq<string>) {
    forall i :: 0 <= i < |names| ==> LegalName(names[i])
  }

  lemma FindStep(ns: Nodes, d: nat, path: string, pos: nat, name: string, next: Option<nat>)
    requires pos <= |path| && Split(path, pos) == (name, next) && d in ns && name in ns[d].children
    ensures next.None? ==> Find(ns, d, path, pos) == Some(ns[d].children[name])
    ensures next.Some? && next.value < |path| ==>
              Find(ns, d, path, pos) == Find(ns, ns[d].children[name], path, next.value)
  {
  }

  /** find sees the names joined by slashes just as they are. */
  lemma {:induction false} FindWalks(ns: Nodes, d: nat, path: string, pos: nat, names: seq<string>)
    requires pos <= |path| && names != [] && path[pos..] == Rest(names) && AllLegal(names)
    ensures Find(ns, d, path, pos) == Walk(ns, d, names)
    decreases |names|
  {
    SplitRest(path, pos, names);
    if d in ns && names[0] in ns[d].children {
      var c, next := ns[d].children[names[0]], pos + |names[0]| + 1;
      if |names| > 1 {
        FindStep(ns, d, path, pos, names[0], Some(next));
        FindWalks(ns, c, path, next, names[1..]);
      } else {
        FindStep(ns, d, path, pos, names[0], None);
        assert Walk(ns, c, names[1..]) == Some(c);
      }
    }
  }

  /** A name ends where the text does, or at a single slash. */
  lemma SplitName(path: string, pos: nat, name: string, rest: string)
    requires pos <= |path| && path[pos..] == name + rest && '/' !in name
    requires rest == [] || (|rest| > 1 && rest[0] == '/' && rest[1] != '/')
    ensures Split(path, pos) == (name, if rest == [] then None else Some(pos + |name| + 1))
    ensures path[pos + |name|..] == rest
  {
    var e := pos + |name|;
    assert path[e..] == path[pos..][|name|..] == rest;
    assert path[pos..e] == path[pos..][..|name|] == name;
    assert forall j :: pos <= j < e ==> path[j] == name[j - pos];
    if rest != [] {
      assert path[e] == rest[0] && path[e + 1] == rest[1];
    }
  }

  lemma SplitRest(path: string, pos: nat, names: seq<string>)
    requires pos <= |path| && names != [] && path[pos..] == Rest(names) && AllLegal(names)
    ensures var next := pos + |names[0]| + 1;
            if |names| == 1 then Split(path, pos) == (names[0], None)
            else Split(path, pos) == (names[0], Some(next)) && next < |path| && path[next..] == Rest(names[1..])
  {
    var rest := Join(names[1..]);
    if |names| > 1 {
      JoinStart(names[1..]);
    }
    SplitName(path, pos, names[0], rest);
    if |names| > 1 {
      DropSlash(path, pos + |names[0]|, Rest(names[1..]));
    }
  }

  lemma DropSlash(path: string, e: nat, w: string)
    requires e <= |path| && path[e..] == "/" + w
    ensures e < |path| && path[e + 1..] == w
  {
    assert path[e + 1..] == path[e..][1..];
  }

  lemma JoinStart(names: seq<string>)
    requires names != [] && LegalName(names[0])
    ensures var w := Join(names);
            |w| > 1 && w[0] == '/' && w[1] != '/'
  {
    assert Join(names)[1] == names[0][0];
  }

  /** Every node is found by its path. */
  lemma FindPath(ns: Nodes, rank: map<nat, nat>, n: nat)
    requires Tree(ns, rank) && n in ns && n != ROOT
    ensures Path(ns, rank, n) != [] && Find(ns, ROOT, Path(ns, rank, n), 1) == Some(n)
  {
    assert ParentOk(ns, rank, n);
    PathIsJoin(ns, rank, n);
    WalkToNode(ns, rank, n);
    var names, path := NamesTo(ns, rank, n), Path(ns, rank, n);
    assert path[0..] == path && path == "/" + Rest(names);
    DropSlash(path, 0, Rest(names));
    FindWalks(ns, ROOT, path, 1, names);
  }

  // ---- Insertion ----

  function NewNode(id: nat, hyper: bool): Node {
    Node(id, [], map[], hyper)
  }

  function Adopt(ns: Nodes, p: nat, c: nat, name: string): (ns': Nodes)
    requires p in ns && c in ns
    ensures ns'.Keys == ns.Keys
  {
    var ns1 := ns[p := ns[p].(children := ns[p].children[name := c])];
    ns1[c := ns1[c].(parent := p, name := name)]
  }

  /** The name under which a hyper node adopts its next child. */
  function NextNumber(ns: Nodes, d: nat): string
    requires d in ns
  {
    Decimal(|ns[d].children|)
  }

  /** A second node c wants the name of d. If d is not made for that, a hyper node, numbered h,
      takes its place and adopts both. */
  function InsertLeaf(ns: Nodes, d: nat, c: nat, h: nat): Nodes
    requires d in ns && c in ns && ns[d].parent in ns
  {
    if ns[d].hyper then Adopt(ns, d, c, NextNumber(ns, d))
    else
      var ns1 := Adopt(ns[h := NewNode(h, true)], ns[d].parent, h, ns[d].name);
      var ns2 := Adopt(ns1, h, d, NextNumber(ns1, h));
      Adopt(ns2, h, c, NextNumber(ns2, h))
  }

  function Insert(ns: Nodes, p: nat, c: nat, name: string, h: nat): Nodes
    requires p in ns && c in ns
    requires name in ns[p].children ==> ns[p].children[name] in ns && ns[ns[p].children[name]].parent in ns
  {
    if name in ns[p].children then InsertLeaf(ns, ns[p].children[name], c, h) else Adopt(ns, p, c, name)
  }

  // ---- Insertion keeps the tree ----

  /** The effect of adopting a new node. */
  ghost predicate Attached(ns: Nodes, ns': Nodes, p: nat, c: nat, name: string, hyper: bool)
    requires p in ns
  {
    && ns'.Keys == ns.Keys + {c} && ns'[c] == Node(p, name, map[], hyper)
    && ns'[p] == ns[p].(children := ns[p].children[name := c])
    && forall n :: n in ns && n != p ==> ns'[n] == ns[n]
  }

  lemma AdoptNew(ns: Nodes, p: nat, c: nat, name: string, hyper: bool)
    requires p in ns && c !in ns
    ensures Attached(ns, Adopt(ns[c := NewNode(c, hyper)], p, c, name), p, c, name, hyper)
  {
  }

  lemma AttachChildren(ns: Nodes, ns': Nodes, p: nat, c: nat, name: string, hyper: bool, n: nat)
    requires p in ns && c !in ns && n in ns && ROOT in ns
    requires Attached(ns, ns', p, c, name, hyper) && ChildrenOk(ns, n)
    ensures ChildrenOk(ns', n)
  {
  }

  lemma AttachParent(ns: Nodes, rank: map<nat, nat>, ns': Nodes, p: nat, c: nat, name: string, hyper: bool, n: nat)
    requires p in ns && c !in ns && n in ns && p in rank && c !in rank && name !in ns[p].children
    requires Attached(ns, ns', p, c, name, hyper) && ParentOk(ns, rank, n)
    ensures ParentOk(ns', rank[c := rank[p] + 1], n)
  {
  }

  lemma AttachKeeps(ns: Nodes, rank: map<nat, nat>, ns': Nodes, p: nat, c: nat, name: string, hyper: bool)
    requires Tree(ns, rank) && p in ns && c !in ns && LegalName(name) && name !in ns[p].children
    requires Attached(ns, ns', p, c, name, hyper)
    ensures Tree(ns', rank[c := rank[p] + 1])
  {
    forall n | n in ns'
      ensures ChildrenOk(ns', n)
    {
      if n != c {
        assert ChildrenOk(ns, n);
        AttachChildren(ns, ns', p, c, name, hyper, n);
      }
    }
    forall n | n in ns' && n != ROOT
      ensures ParentOk(ns', rank[c := rank[p] + 1], n)
    {
      if n != c {
        assert ParentOk(ns, rank, n);
        AttachParent(ns, rank, ns', p, c, name, hyper, n);
      }
    }
  }

  /** Ranks with room for one more below each. */
  function Doubled(rank: map<nat, nat>): map<nat, nat> {
    map n | n in rank :: 2 * rank[n]
  }

  /** A hyper node takes the place of d and adopts it. */
  function Interposed(ns: Nodes, d: nat, h: nat, k: string): Nodes
    requires d in ns && ns[d].parent in ns
  {
    var ns1 := Adopt(ns[h := NewNode(h, true)], ns[d].parent, h, ns[d].name);
    Adopt(ns1, h, d, k)
  }

  ghost predicate HasInterposed(ns: Nodes, ns': Nodes, d: nat, h: nat, k: string)
    requires d in ns && ns[d].parent in ns
  {
    var p := ns[d].parent;
    && ns'.Keys == ns.Keys + {h} && ns'[h] == Node(p, ns[d].name, map[k := d], true)
    && ns'[d] == ns[d].(parent := h, name := k)
    && ns'[p] == ns[p].(children := ns[p].children[ns[d].name := h])
    && forall n :: n in ns && n != p && n != d ==> ns'[n] == ns[n]
  }

  lemma InterposeEffect(ns: Nodes, d: nat, h: nat, k: string)
    requires d in ns && ns[d].parent in ns && ns[d].parent != d && h !in ns
    ensures HasInterposed(ns, Interposed(ns, d, h, k), d, h, k)
  {
    var p := ns[d].parent;
    var ns1 := Adopt(ns[h := NewNode(h, true)], p, h, ns[d].name);
    AdoptNew(ns, p, h, ns[d].name, true);
    assert ns1[h].children[k := d] == map[k := d];
  }

  lemma InterposeChildren(ns: Nodes, ns': Nodes, d: nat, h: nat, k: string, n: nat)
    requires d in ns && ns[d].parent in ns && h !in ns && n in ns && ROOT in ns && d != ROOT
    requires ns[d].parent != d && HasInterposed(ns, ns', d, h, k) && ChildrenOk(ns, n)
    ensures ChildrenOk(ns', n)
  {
  }

  lemma InterposeParent(ns: Nodes, rank: map<nat, nat>, ns': Nodes, d: nat, h: nat, k: string, n: nat)
    requires d in ns && ns[d].parent in ns && h !in ns && n in ns && h !in rank && LegalName(k)
    requires ParentOk(ns, rank, d) && HasInterposed(ns, ns', d, h, k) && ParentOk(ns, rank, n)
    ensures ParentOk(ns', Doubled(rank)[h := 2 * rank[d] - 1], n)
  {
  }

  lemma InterposeKeeps(ns: Nodes, rank: map<nat, nat>, ns': Nodes, d: nat, h: nat, k: string)
    requires Tree(ns, rank) && d in ns && d != ROOT && h !in ns && LegalName(k)
    requires ns[d].parent in ns && HasInterposed(ns, ns', d, h, k)
    ensures rank[d] > 0 && Tree(ns', Doubled(rank)[h := 2 * rank[d] - 1])
  {
    assert ParentOk(ns, rank, d);
    forall n | n in ns'
      ensures ChildrenOk(ns', n)
    {
      if n != h {
        assert ChildrenOk(ns, n);
        InterposeChildren(ns, ns', d, h, k, n);
      }
    }
    forall n | n in ns' && n != ROOT
      ensures ParentOk(ns', Doubled(rank)[h := 2 * rank[d] - 1], n)
    {
      if n != h {
        assert ParentOk(ns, rank, n);
        InterposeParent(ns, rank, ns', d, h, k, n);
      }
    }
  }

  // ---- One insertion ----

  /** c is allocated, not in the tree yet. */
  function Allocated(ns: Nodes, c: nat): Nodes {
    ns[c := NewNode(c, false)]
  }

  /** The number that a hyper node would give out is not in use. */
  predicate NumberFree(ns: Nodes, p: nat, name: string) {
    p in ns && name in ns[p].children && ns[p].children[name] in ns && ns[ns[p].children[name]].hyper ==>
      NextNumber(ns, ns[p].children[name]) !in ns[ns[p].children[name]].children
  }

  lemma InterposeApart(ns: Nodes, d: nat, h: nat, k: string, c: nat)
    requires d in ns && ns[d].parent in ns && c !in ns && c != h && h !in ns
    ensures Interposed(Allocated(ns, c), d, h, k) == Allocated(Interposed(ns, d, h, k), c)
  {
    var a, b := Interposed(Allocated(ns, c), d, h, k), Allocated(Interposed(ns, d, h, k), c);
    assert a.Keys == b.Keys;
    assert forall n :: n in a ==> a[n] == b[n];
  }

  /** What a collision comes to. */
  lemma CollisionEffect(ns: Nodes, d: nat, c: nat, h: nat)
    requires d in ns && ns[d].parent in ns && ns[d].parent != d && !ns[d].hyper && c !in ns && h !in ns && c != h
    ensures InsertLeaf(Allocated(ns, c), d, c, h)
         == Adopt(Allocated(Interposed(ns, d, h, Decimal(0)), c), h, c, Decimal(1))
  {
    var ns0 := Allocated(ns, c);
    InterposeApart(ns, d, h, Decimal(0), c);
    InterposeEffect(ns, d, h, Decimal(0));
    var ns1 := Adopt(ns0[h := NewNode(h, true)], ns0[d].parent, h, ns0[d].name);
    assert ns1[h].children == map[];
    var ns2 := Interposed(ns, d, h, Decimal(0));
    assert |map[Decimal(0) := d]| == 1;
  }

  ghost predicate Grown(ns: Nodes, ns': Nodes, c: nat, h: nat) {
    ns.Keys + {c} <= ns'.Keys <= ns.Keys + {c, h}
  }

  lemma NewChildKeeps(ns: Nodes, rank: map<nat, nat>, p: nat, c: nat, name: string, h: nat)
    requires Tree(ns, rank) && p in ns && c !in ns && LegalName(name) && name !in ns[p].children
    ensures var ns' := Adopt(Allocated(ns, c), p, c, name);
            Tree(ns', rank[c := rank[p] + 1]) && Grown(ns, ns', c, h)
  {
    AdoptNew(ns, p, c, name, false);
    AttachKeeps(ns, rank, Adopt(Allocated(ns, c), p, c, name), p, c, name, false);
  }

  lemma InterposeTree(ns: Nodes, rank: map<nat, nat>, d: nat, h: nat)
    requires Tree(ns, rank) && d in ns && d != ROOT && ns[d].parent in ns && h !in ns
    ensures rank[d] > 0 && ns[d].parent != d
    ensures var ns1 := Interposed(ns, d, h, Decimal(0));
            && Tree(ns1, Doubled(rank)[h := 2 * rank[d] - 1]) && ns1.Keys == ns.Keys + {h}
            && ns1[h].children == map[Decimal(0) := d]
  {
    assert ParentOk(ns, rank, d);
    DecimalLegal(0);
    InterposeEffect(ns, d, h, Decimal(0));
    InterposeKeeps(ns, rank, Interposed(ns, d, h, Decimal(0)), d, h, Decimal(0));
  }

  lemma ZeroAndOne()
    ensures Decimal(0) != Decimal(1) && LegalName(Decimal(1))
  {
  }

  lemma CollisionKeeps(ns: Nodes, rank: map<nat, nat>, d: nat, c: nat, h: nat) returns (rank': map<nat, nat>)
    requires Tree(ns, rank) && d in ns && d != ROOT && ns[d].parent in ns && c !in ns && h !in ns && c != h
    requires !ns[d].hyper
    ensures var ns' := InsertLeaf(Allocated(ns, c), d, c, h);
            Tree(ns', rank') && Grown(ns, ns', c, h)
  {
    InterposeTree(ns, rank, d, h);
    ZeroAndOne();
    CollisionEffect(ns, d, c, h);
    var ns1, rank1 := Interposed(ns, d, h, Decimal(0)), Doubled(rank)[h := 2 * rank[d] - 1];
    NewChildKeeps(ns1, rank1, h, c, Decimal(1), h);
    rank' := rank1[c := rank1[h] + 1];
  }

  lemma LeafKeeps(ns: Nodes, rank: map<nat, nat>, d: nat, c: nat, h: nat) returns (rank': map<nat, nat>)
    requires Tree(ns, rank) && d in ns && d != ROOT && ns[d].parent in ns && c !in ns && h !in ns && c != h
    requires ns[d].hyper ==> NextNumber(ns, d) !in ns[d].children
    ensures var ns' := InsertLeaf(Allocated(ns, c), d, c, h);
            Tree(ns', rank') && Grown(ns, ns', c, h)
  {
    if ns[d].hyper {
      DecimalLegal(|ns[d].children|);
      NewChildKeeps(ns, rank, d, c, NextNumber(ns, d), h);
      rank' := rank[c := rank[d] + 1];
    } else {
      rank' := CollisionKeeps(ns, rank, d, c, h);
    }
  }

  lemma InsertReady(ns: Nodes, rank: map<nat, nat>, p: nat, c: nat, name: string)
    requires Tree(ns, rank) && p in ns && c !in ns && name in ns[p].children
    ensures var d := ns[p].children[name];
            d in ns && d != ROOT && ns[d].parent == p && Allocated(ns, c)[d] == ns[d]
  {
    assert ChildrenOk(ns, p);
  }

  lemma InsertKeeps(ns: Nodes, rank: map<nat, nat>, p: nat, c: nat, name: string, h: nat) returns (rank': map<nat, nat>)
    requires Tree(ns, rank) && p in ns && c !in ns && h !in ns && c != h && LegalName(name)
    requires NumberFree(ns, p, name)
    ensures name in ns[p].children ==> ns[p].children[name] in ns && ns[ns[p].children[name]].parent == p
    ensures var ns' := Insert(Allocated(ns, c), p, c, name, h);
            Tree(ns', rank') && Grown(ns, ns', c, h)
  {
    if name in ns[p].children {
      InsertReady(ns, rank, p, c, name);
      rank' := LeafKeeps(ns, rank, ns[p].children[name], c, h);
    } else {
      NewChildKeeps(ns, rank, p, c, name, h);
      rank' := rank[c := rank[p] + 1];
    }
  }

  /** When the number is in use, the node that has it is lost: it can no longer be a tree,
      whatever the ranks. */
  lemma TakenNumberLoses(ns: Nodes, rank: map<nat, nat>, p: nat, c: nat, name: string, h: nat, rank': map<nat, nat>)
    requires Tree(ns, rank) && p in ns && c !in ns && h !in ns && c != h
    requires !NumberFree(ns, p, name)
    ensures name in ns[p].children ==> ns[p].children[name] in ns && ns[ns[p].children[name]].parent == p
    ensures !Tree(Insert(Allocated(ns, c), p, c, name, h), rank')
  {
    InsertReady(ns, rank, p, c, name);
    var d := ns[p].children[name];
    var k := NextNumber(ns, d);
    assert ChildrenOk(ns, d);
    var lost := ns[d].children[k];
    var ns' := Adopt(Allocated(ns, c), d, c, k);
    AdoptNew(ns, d, c, k, false);
    assert ns'[lost].name == k && ns'[lost].parent == d && ns'[d].children[k] == c;
    assert !ParentOk(ns', rank', lost);
  }

  // ---- Insertion along a path ----

  ghost predicate Below(ns: Nodes, next: nat) {
    forall n :: n in ns ==> n < next
  }

  /** Node c, not in ns yet, is inserted under the given names from p on, with directories made
      where they are missing. Nodes are numbered from next on; the next free number is
      returned with the nodes. */
  function InsertPath(ns: Nodes, p: nat, c: nat, names: seq<string>, next: nat): (Nodes, nat)
    requires p in ns && names != []
    decreases |names|
  {
    var name := names[0];
    var d := if name in ns[p].children then ns[p].children[name] else next;
    if |names| == 1 then
      if name in ns[p].children && !(d in ns && ns[d].parent in ns) then (ns, next)
      else (Insert(Allocated(ns, c), p, c, name, next), next + 1)
    else if name in ns[p].children then
      if d in ns then InsertPath(ns, d, c, names[1..], next) else (ns, next)
    else InsertPath(Adopt(Allocated(ns, next), p, next, name), next, c, names[1..], next + 1)
  }

  /** The condition under which an insertion loses nothing. */
  predicate PathFree(ns: Nodes, p: nat, names: seq<string>)
    decreases |names|
  {
    if names == [] || p !in ns then true
    else if |names| == 1 then NumberFree(ns, p, names[0])
    else names[0] in ns[p].children ==> PathFree(ns, ns[p].children[names[0]], names[1..])
  }

  /** A new directory has nothing to lose. */
  lemma {:induction false} EmptyIsFree(ns: Nodes, p: nat, names: seq<string>)
    requires p in ns && ns[p].children == map[] && names != []
    ensures PathFree(ns, p, names)
  {
  }

  ghost predicate Kept(before: Nodes, r: (Nodes, nat), c: nat, rank: map<nat, nat>) {
    Tree(r.0, rank) && before.Keys + {c} <= r.0.Keys && Below(r.0, r.1)
  }

  lemma LastKeeps(ns: Nodes, rank: map<nat, nat>, p: nat, c: nat, name: string, next: nat)
    returns (rank': map<nat, nat>)
    requires Tree(ns, rank) && p in ns && c !in ns && c < next && Below(ns, next) && LegalName(name)
    requires NumberFree(ns, p, name)
    ensures Kept(ns, InsertPath(ns, p, c, [name], next), c, rank')
  {
    rank' := InsertKeeps(ns, rank, p, c, name, next);
    assert InsertPath(ns, p, c, [name], next) == (Insert(Allocated(ns, c), p, c, name, next), next + 1);
  }

  /** The missing directory is made. */
  lemma MakeDirKeeps(ns: Nodes, rank: map<nat, nat>, p: nat, c: nat, name: string, next: nat)
    requires Tree(ns, rank) && p in ns && c !in ns && c < next && Below(ns, next) && LegalName(name)
    requires name !in ns[p].children
    ensures var ns1 := Adopt(Allocated(ns, next), p, next, name);
            && Tree(ns1, rank[next := rank[p] + 1]) && ns.Keys <= ns1.Keys && c !in ns1 && Below(ns1, next + 1)
            && ns1[next].children == map[]
  {
    NewChildKeeps(ns, rank, p, next, name, next);
    AdoptNew(ns, p, next, name, false);
  }

  lemma {:induction false} InsertPathKeeps(ns: Nodes, rank: map<nat, nat>, p: nat, c: nat, names: seq<string>,
                                           next: nat)
    returns (rank': map<nat, nat>)
    requires Tree(ns, rank) && p in ns && c !in ns && c < next && Below(ns, next) && names != [] && AllLegal(names)
    requires PathFree(ns, p, names)
    ensures Kept(ns, InsertPath(ns, p, c, names, next), c, rank')
    decreases |names|
  {
    var name := names[0];
    if |names| == 1 {
      rank' := LastKeeps(ns, rank, p, c, name, next);
      assert names == [name];
    } else if name in ns[p].children {
      InsertReady(ns, rank, p, c, name);
      rank' := InsertPathKeeps(ns, rank, ns[p].children[name], c, names[1..], next);
    } else {
      MakeDirKeeps(ns, rank, p, c, name, next);
      var ns1 := Adopt(Allocated(ns, next), p, next, name);
      EmptyIsFree(ns1, next, names[1..]);
      rank' := InsertPathKeeps(ns1, rank[next := rank[p] + 1], next, c, names[1..], next + 1);
      KeptMore(ns, ns1, InsertPath(ns1, next, c, names[1..], next + 1), c, rank');
    }
  }

  lemma KeptMore(ns: Nodes, ns1: Nodes, r: (Nodes, nat), c: nat, rank: map<nat, nat>)
    requires Kept(ns1, r, c, rank) && ns.Keys <= ns1.Keys
    ensures Kept(ns, r, c, rank)
  {
  }

  lemma {:induction false} InsertPathLoses(ns: Nodes, rank: map<nat, nat>, p: nat, c: nat, names: seq<string>,
                                           next: nat, rank': map<nat, nat>)
    requires Tree(ns, rank) && p in ns && c !in ns && c < next && Below(ns, next) && names != []
    requires !PathFree(ns, p, names)
    ensures !Tree(InsertPath(ns, p, c, names, next).0, rank')
    decreases |names|
  {
    InsertReady(ns, rank, p, c, names[0]);
    if |names| == 1 {
      TakenNumberLoses(ns, rank, p, c, names[0], next, rank');
    } else {
      InsertPathLoses(ns, rank, ns[p].children[names[0]], c, names[1..], next, rank');
    }
  }

  ghost predicate IsTree(ns: Nodes) {
    exists rank :: Tree(ns, rank)
  }

  /** An insertion keeps the tree exactly if the number it needs, if any, is free. */
  lemma InsertPathIff(ns: Nodes, p: nat, c: nat, names: seq<string>, next: nat)
    requires IsTree(ns) && p in ns && c !in ns && c < next && Below(ns, next) && names != [] && AllLegal(names)
    ensures IsTree(InsertPath(ns, p, c, names, next).0) <==> PathFree(ns, p, names)
  {
    var rank :| Tree(ns, rank);
    var ns' := InsertPath(ns, p, c, names, next).0;
    if PathFree(ns, p, names) {
      var rank' := InsertPathKeeps(ns, rank, p, c, names, next);
    } else if IsTree(ns') {
      var rank' :| Tree(ns', rank');
      InsertPathLoses(ns, rank, p, c, names, next, rank');
    }
  }

  // ---- Where the node ends up ----

  /** Nodes that rank below r are as they were. */
  ghost predicate Untouched(ns: Nodes, rank: map<nat, nat>, ns': Nodes, r: nat)
    requires rank.Keys == ns.Keys
  {
    forall n :: n in ns && rank[n] < r ==> n in ns' && ns'[n] == ns[n]
  }

  /** The names by which c is reached from p: those asked for, and a number if the last of
      them was in use already. */
  ghost predicate Placed(ns': Nodes, p: nat, c: nat, names: seq<string>, suffix: seq<string>) {
    |suffix| <= 1 && Walk(ns', p, names + suffix) == Some(c)
  }

  /** The name stands for a node already at the end of the path. */
  predicate Occupied(ns: Nodes, p: nat, names: seq<string>)
    decreases |names|
  {
    names == [] || (p in ns && names[0] in ns[p].children && Occupied(ns, ns[p].children[names[0]], names[1..]))
  }

  lemma WalkOne(ns: Nodes, p: nat, name: string)
    requires p in ns && name in ns[p].children
    ensures Walk(ns, p, [name]) == Some(ns[p].children[name])
  {
    assert [name][1..] == [];
    assert Walk(ns, ns[p].children[name], []) == Some(ns[p].children[name]);
  }

  lemma WalkTwo(ns: Nodes, p: nat, name: string, k: string)
    requires p in ns && name in ns[p].children
    requires var d := ns[p].children[name]; d in ns && k in ns[d].children
    ensures Walk(ns, p, [name] + [k]) == Some(ns[ns[p].children[name]].children[k])
  {
    WalkOne(ns, p, name);
    WalkSnoc(ns, p, [name], k);
  }

  lemma CollisionPlaces(ns: Nodes, rank: map<nat, nat>, d: nat, c: nat, h: nat)
    requires Tree(ns, rank) && d in ns && d != ROOT && c !in ns && h !in ns && c != h && !ns[d].hyper
    ensures var p := ns[d].parent;
            && p in ns && rank[p] < rank[d]
            && var ns' := InsertLeaf(Allocated(ns, c), d, c, h);
               Placed(ns', p, c, [ns[d].name], [Decimal(1)]) && Untouched(ns, rank, ns', rank[p])
  {
    assert ParentOk(ns, rank, d);
    var p := ns[d].parent;
    var ns1 := Interposed(ns, d, h, Decimal(0));
    InterposeEffect(ns, d, h, Decimal(0));
    CollisionEffect(ns, d, c, h);
    AdoptNew(ns1, h, c, Decimal(1), false);
    var ns' := InsertLeaf(Allocated(ns, c), d, c, h);
    assert ns'[p] == ns1[p] && ns'[h].children[Decimal(1)] == c;
    WalkTwo(ns', p, ns[d].name, Decimal(1));
  }

  lemma HyperPlaces(ns: Nodes, rank: map<nat, nat>, d: nat, c: nat, h: nat)
    requires Tree(ns, rank) && d in ns && d != ROOT && c !in ns && ns[d].hyper
    ensures var p := ns[d].parent;
            && p in ns && rank[p] < rank[d]
            && var ns' := InsertLeaf(Allocated(ns, c), d, c, h);
               Placed(ns', p, c, [ns[d].name], [NextNumber(ns, d)]) && Untouched(ns, rank, ns', rank[p])
  {
    assert ParentOk(ns, rank, d);
    var p := ns[d].parent;
    AdoptNew(ns, d, c, NextNumber(ns, d), false);
    WalkTwo(InsertLeaf(Allocated(ns, c), d, c, h), p, ns[d].name, NextNumber(ns, d));
  }

  lemma LastPlaces(ns: Nodes, rank: map<nat, nat>, p: nat, c: nat, name: string, next: nat)
    returns (suffix: seq<string>)
    requires Tree(ns, rank) && p in ns && c !in ns && c < next && Below(ns, next)
    ensures var ns' := InsertPath(ns, p, c, [name], next).0;
            Placed(ns', p, c, [name], suffix) && Untouched(ns, rank, ns', rank[p])
    ensures suffix == [] <==> name !in ns[p].children
  {
    if name in ns[p].children {
      InsertReady(ns, rank, p, c, name);
      assert ChildrenOk(ns, p);
      var d := ns[p].children[name];
      if ns[d].hyper {
        HyperPlaces(ns, rank, d, c, next);
        suffix := [NextNumber(ns, d)];
      } else {
        CollisionPlaces(ns, rank, d, c, next);
        suffix := [Decimal(1)];
      }
    } else {
      AdoptNew(ns, p, c, name, false);
      WalkOne(Adopt(Allocated(ns, c), p, c, name), p, name);
      suffix := [];
      assert [name] + suffix == [name];
    }
  }

  /** One step down the path. */
  lemma PlacedBelow(ns': Nodes, p: nat, d: nat, c: nat, names: seq<string>, suffix: seq<string>)
    requires names != [] && p in ns' && names[0] in ns'[p].children && ns'[p].children[names[0]] == d
    requires Placed(ns', d, c, names[1..], suffix)
    ensures Placed(ns', p, c, names, suffix)
  {
    assert (names + suffix)[1..] == names[1..] + suffix;
  }

  ghost predicate WellPlaced(ns: Nodes, rank: map<nat, nat>, ns': Nodes, p: nat, c: nat, names: seq<string>,
                             suffix: seq<string>)
    requires rank.Keys == ns.Keys
  {
    && p in ns && Placed(ns', p, c, names, suffix) && Untouched(ns, rank, ns', rank[p])
    && (suffix == [] <==> !Occupied(ns, p, names))
  }

  lemma PlacedInOldDir(ns: Nodes, rank: map<nat, nat>, ns': Nodes, p: nat, c: nat, names: seq<string>,
                       suffix: seq<string>)
    requires Tree(ns, rank) && p in ns && names != [] && names[0] in ns[p].children
    requires var d := ns[p].children[names[0]]; d in ns && d != ROOT && ns[d].parent == p
    requires WellPlaced(ns, rank, ns', ns[p].children[names[0]], c, names[1..], suffix)
    ensures WellPlaced(ns, rank, ns', p, c, names, suffix)
  {
    var d := ns[p].children[names[0]];
    assert ParentOk(ns, rank, d);
    assert rank[p] < rank[d] && ns'[p] == ns[p];
    PlacedBelow(ns', p, d, c, names, suffix);
  }

  lemma PlacedInNewDir(ns: Nodes, rank: map<nat, nat>, ns1: Nodes, ns': Nodes, p: nat, d: nat, c: nat,
                       names: seq<string>, suffix: seq<string>)
    requires rank.Keys == ns.Keys && p in ns && d !in ns && |names| > 1 && names[0] !in ns[p].children
    requires Attached(ns, ns1, p, d, names[0], false)
    requires WellPlaced(ns1, rank[d := rank[p] + 1], ns', d, c, names[1..], suffix)
    ensures WellPlaced(ns, rank, ns', p, c, names, suffix)
  {
    NewDirStays(ns, rank, ns1, ns', p, d, names[0]);
    PlacedBelow(ns', p, d, c, names, suffix);
    FreshUnoccupied(ns1, d, names[1..]);
  }

  /** The node is found under the names asked for, or, where these were taken, under a number
      below them. */
  lemma {:induction false} InsertPathPlaces(ns: Nodes, rank: map<nat, nat>, p: nat, c: nat, names: seq<string>,
                                            next: nat)
    returns (suffix: seq<string>)
    requires Tree(ns, rank) && p in ns && c !in ns && c < next && Below(ns, next) && names != [] && AllLegal(names)
    ensures WellPlaced(ns, rank, InsertPath(ns, p, c, names, next).0, p, c, names, suffix)
    decreases |names|
  {
    var name := names[0];
    if |names| == 1 {
      suffix := LastPlaces(ns, rank, p, c, name, next);
      assert names == [name] && names[1..] == [];
    } else if name in ns[p].children {
      InsertReady(ns, rank, p, c, name);
      var d := ns[p].children[name];
      suffix := InsertPathPlaces(ns, rank, d, c, names[1..], next);
      PlacedInOldDir(ns, rank, InsertPath(ns, d, c, names[1..], next).0, p, c, names, suffix);
    } else {
      MakeDirKeeps(ns, rank, p, c, name, next);
      AdoptNew(ns, p, next, name, false);
      var ns1 := Adopt(Allocated(ns, next), p, next, name);
      suffix := InsertPathPlaces(ns1, rank[next := rank[p] + 1], next, c, names[1..], next + 1);
      PlacedInNewDir(ns, rank, ns1, InsertPath(ns1, next, c, names[1..], next + 1).0, p, next, c, names, suffix);
    }
  }

  lemma NewDirStays(ns: Nodes, rank: map<nat, nat>, ns1: Nodes, ns': Nodes, p: nat, d: nat, name: string)
    requires rank.Keys == ns.Keys && p in ns && d !in ns && Attached(ns, ns1, p, d, name, false)
    requires Untouched(ns1, rank[d := rank[p] + 1], ns', rank[p] + 1)
    ensures p in ns' && name in ns'[p].children && ns'[p].children[name] == d
    ensures Untouched(ns, rank, ns', rank[p])
  {
  }

  lemma FreshUnoccupied(ns: Nodes, d: nat, names: seq<string>)
    requires d in ns && ns[d].children == map[] && names != []
    ensures !Occupied(ns, d, names)
  {
  }

  lemma ComponentsStep(path: string, pos: nat, name: string, next: Option<nat>)
    requires pos <= |path| && Split(path, pos) == (name, next) && name != []
    ensures Components(path, pos) == [name] + (if next.Some? then Components(path, next.value) else [])
  {
  }

  /** A path made of names has just these for components. */
  lemma {:induction false} ComponentsOfRest(path: string, pos: nat, names: seq<string>)
    requires pos <= |path| && names != [] && path[pos..] == Rest(names) && AllLegal(names)
    ensures Components(path, pos) == names
    decreases |names|
  {
    var next := pos + |names[0]| + 1;
    SplitRest(path, pos, names);
    if |names| == 1 {
      ComponentsStep(path, pos, names[0], None);
    } else {
      ComponentsStep(path, pos, names[0], Some(next));
      ComponentsOfRest(path, next, names[1..]);
    }
  }

  // ---- Runs ----

  /** A variable is inserted by its path, seen from some directory. */
  datatype Insertion = Insertion(base: nat, path: string)

  const NEW_TREE: Nodes := map[ROOT := NewNode(ROOT, false)]

  predicate Possible(ns: Nodes, i: Insertion) {
    && i.base in ns && Components(i.path, 0) != []
    && PathFree(ns, i.base, Components(i.path, 0))
  }

  /** The nodes after the given insertions, with the next free number; the variables are
      numbered as they come. */
  function Run(insertions: seq<Insertion>): Option<(Nodes, nat)> {
    if insertions == [] then Some((NEW_TREE, 1))
    else Extended(Run(insertions[..|insertions| - 1]), insertions[|insertions| - 1])
  }

  /** One more insertion. */
  function Extended(pre: Option<(Nodes, nat)>, i: Insertion): Option<(Nodes, nat)> {
    if pre.Some? && Possible(pre.value.0, i)
    then Some(InsertPath(pre.value.0, i.base, pre.value.1, Components(i.path, 0), pre.value.1 + 1))
    else None
  }

  lemma NewTree()
    ensures Tree(NEW_TREE, map[ROOT := 0])
  {
  }

  lemma {:induction false} RunKeeps(insertions: seq<Insertion>) returns (rank: map<nat, nat>)
    requires Run(insertions).Some?
    ensures Tree(Run(insertions).value.0, rank) && Below(Run(insertions).value.0, Run(insertions).value.1)
  {
    if insertions == [] {
      NewTree();
      rank := map[ROOT := 0];
    } else {
      var rank0 := RunKeeps(insertions[..|insertions| - 1]);
      var (ns, c) := Run(insertions[..|insertions| - 1]).value;
      var i := insertions[|insertions| - 1];
      rank := InsertPathKeeps(ns, rank0, i.base, c, Components(i.path, 0), c + 1);
    }
  }

  /** After any insertions, collisions included, every node but the root is found by its own
      path, as long as no number is handed out twice. */
  lemma AllFound(insertions: seq<Insertion>, n: nat) returns (rank: map<nat, nat>)
    requires Run(insertions).Some? && n in Run(insertions).value.0 && n != ROOT
    ensures var ns := Run(insertions).value.0;
            Tree(ns, rank) && Path(ns, rank, n) != [] && Find(ns, ROOT, Path(ns, rank, n), 1) == Some(n)
  {
    rank := RunKeeps(insertions);
    FindPath(Run(insertions).value.0, rank, n);
  }

  // ---- A number that is handed out twice ----

  lemma {:induction false} RunSnoc(insertions: seq<Insertion>, i: Insertion)
    ensures Run(insertions + [i]) == Extended(Run(insertions), i)
  {
    assert (insertions + [i])[..|insertions|] == insertions;
  }

  lemma PathNames()
    ensures Components("a", 0) == ["a"] && Components("a/3", 0) == ["a", "3"]
  {
    assert "a"[0..] == "a" && "a/3"[0..] == "a/3";
    assert ["a", "3"][1..] == ["3"];
    assert "a" + "/" + "3" == "a/3";
    ComponentsOfRest("a", 0, ["a"]);
    ComponentsOfRest("a/3", 0, ["a", "3"]);
  }

  /** One variable a. */
  const ONE_A: Nodes := map[0 := Node(0, [], map["a" := 1], false), 1 := Node(0, "a", map[], false)]

  /** Two variables a, below a hyper node. */
  const TWO_AS: Nodes := map[
    0 := Node(0, [], map["a" := 4], false), 4 := Node(0, "a", map["0" := 1, "1" := 3], true),
    1 := Node(4, "0", map[], false), 3 := Node(4, "1", map[], false)]

  /** And a variable that asks for the number 3. */
  const THREE_TAKEN: Nodes := map[
    0 := Node(0, [], map["a" := 4], false), 4 := Node(0, "a", map["0" := 1, "1" := 3, "3" := 5], true),
    1 := Node(4, "0", map[], false), 3 := Node(4, "1", map[], false), 5 := Node(4, "3", map[], false)]

  lemma FirstA()
    ensures InsertPath(NEW_TREE, 0, 1, ["a"], 2) == (ONE_A, 3)
  {
    var ns := Insert(Allocated(NEW_TREE, 1), 0, 1, "a", 2);
    assert ns[0].children == map["a" := 1];
    assert ns == ONE_A;
  }

  lemma SecondA()
    ensures PathFree(ONE_A, 0, ["a"]) && InsertPath(ONE_A, 0, 3, ["a"], 4) == (TWO_AS, 5)
  {
    assert Decimal(0) == "0" && Decimal(1) == "1";
    CollisionEffect(ONE_A, 1, 3, 4);
    HyperA();
    var ns := Adopt(Allocated(HYPER_A, 3), 4, 3, "1");
    assert ns[4].children == map["0" := 1, "1" := 3];
    assert ns == TWO_AS;
  }

  /** The hyper node in the place of the variable. */
  const HYPER_A: Nodes := map[
    0 := Node(0, [], map["a" := 4], false), 4 := Node(0, "a", map["0" := 1], true), 1 := Node(4, "0", map[], false)]

  lemma HyperA()
    ensures Interposed(ONE_A, 1, 4, "0") == HYPER_A
  {
    InterposeEffect(ONE_A, 1, 4, "0");
    var ns := Interposed(ONE_A, 1, 4, "0");
    assert ns[0].children == map["a" := 4];
    assert ns.Keys == HYPER_A.Keys;
  }

  lemma ThirdAsks()
    ensures PathFree(TWO_AS, 0, ["a", "3"]) && InsertPath(TWO_AS, 0, 5, ["a", "3"], 6) == (THREE_TAKEN, 7)
  {
    assert ["a", "3"][1..] == ["3"];
    var ns := Insert(Allocated(TWO_AS, 5), 4, 5, "3", 6);
    assert ns[4].children == map["0" := 1, "1" := 3, "3" := 5];
    assert ns == THREE_TAKEN;
  }

  /** The hyper node has three children, so that its next number is 3. */
  lemma ThreeIsNext()
    ensures !PathFree(THREE_TAKEN, 0, ["a"])
  {
    var children := THREE_TAKEN[4].children;
    assert children.Keys == {"0", "1", "3"};
    assert |children| == |children.Keys| == 3;
    assert Decimal(3) == "3";
  }

  /** After variables "a", "a" and "a/3", one more "a" takes the place of the last: the tree is
      lost, whatever the ranks. */
  lemma NumberTwice() returns (insertions: seq<Insertion>)
    ensures Run(insertions) == Some((THREE_TAKEN, 7)) && !Possible(THREE_TAKEN, Insertion(0, "a"))
    ensures IsTree(THREE_TAKEN) && !IsTree(InsertPath(THREE_TAKEN, 0, 7, ["a"], 8).0)
  {
    var a, b := Insertion(0, "a"), Insertion(0, "a/3");
    PathNames();
    FirstA();
    SecondA();
    ThirdAsks();
    ThreeIsNext();
    assert Run([]) == Some((NEW_TREE, 1));
    RunSnoc([], a);
    RunSnoc([] + [a], a);
    insertions := [] + [a] + [a];
    RunSnoc(insertions, b);
    insertions := insertions + [b];
    var rank := RunKeeps(insertions);
    assert LegalName("a") && AllLegal(["a"]);
    InsertPathIff(THREE_TAKEN, 0, 7, ["a"], 8);
  }

  // ---- The directory as an object ----

  class DirectoryTree {
    var nodes: Nodes
    var next: nat
    ghost var rank: map<nat, nat>

    ghost predicate Valid()
      reads this
    {
      Tree(nodes, rank) && Below(nodes, next)
    }

    constructor ()
      ensures Valid() && nodes == NEW_TREE && next == 1
    {
      nodes, next, rank := NEW_TREE, 1, map[ROOT := 0];
      NewTree();
    }

    /** The names on a path, piece by piece. */
    method SplitPath(path: string) returns (names: seq<string>)
      ensures names == Components(path, 0)
    {
      names := [];
      var pos: Option<nat> := Some(0);
      while pos.Some?
        invariant pos.Some? ==> pos.value <= |path|
        invariant names + Remaining(path, pos) == Components(path, 0)
        decreases if pos.Some? then |path| - pos.value + 1 else 0
      {
        var (name, after) := Split(path, pos.value);
        FirstAndRemaining(path, pos.value);
        if name != [] {
          Reassociate(names, [name], Remaining(path, after));
          names := names + [name];
        }
        pos := after;
      }
    }

    /** Makes the directory name in p unless there is one. */
    method Create(p: nat, name: string) returns (d: nat)
      requires p in nodes
      modifies this`nodes, this`next
      ensures if name in old(nodes)[p].children
              then nodes == old(nodes) && next == old(next) && d == old(nodes)[p].children[name]
              else nodes == Adopt(Allocated(old(nodes), old(next)), p, old(next), name)
                   && d == old(next) && next == old(next) + 1
    {
      if name in nodes[p].children {
        d := nodes[p].children[name];
      } else {
        d, next := next, next + 1;
        nodes := nodes[d := NewNode(d, false)];
        nodes := Adopt(nodes, p, d, name);
      }
    }

    /** Inserts a new variable, going down the path directory by directory. */
    method PathInsert(base: nat, path: string) returns (c: nat)
      requires Valid() && base in nodes && Components(path, 0) != []
      modifies this
      ensures c == old(next)
      ensures (nodes, next) == InsertPath(old(nodes), base, c, Components(path, 0), c + 1)
      ensures PathFree(old(nodes), base, Components(path, 0)) ==> Valid() && c in nodes
    {
      var names := SplitPath(path);
      c, next := next, next + 1;
      if PathFree(nodes, base, names) {
        rank := InsertPathKeeps(nodes, rank, base, c, names, next);
      }
      GoDown(base, c, names, old(rank));
    }

    ghost predicate Underway(r: map<nat, nat>, p: nat, c: nat, names: seq<string>)
      reads this
    {
      && Tree(nodes, r) && p in nodes && names != [] && AllLegal(names)
      && c !in nodes && c < next && Below(nodes, next)
    }

    /** One directory down. */
    method StepDown(p: nat, c: nat, names: seq<string>, ghost r: map<nat, nat>)
      returns (d: nat, ghost r': map<nat, nat>)
      requires Underway(r, p, c, names) && |names| > 1
      modifies this`nodes, this`next
      ensures Underway(r', d, c, names[1..])
      ensures InsertPath(old(nodes), p, c, names, old(next)) == InsertPath(nodes, d, c, names[1..], next)
    {
      r' := r;
      if names[0] in nodes[p].children {
        InsertReady(nodes, r, p, c, names[0]);
      } else {
        MakeDirKeeps(nodes, r, p, c, names[0], next);
        r' := r[next := r[p] + 1];
      }
      d := Create(p, names[0]);
    }

    method GoDown(base: nat, c: nat, path: seq<string>, ghost ranks: map<nat, nat>)
      requires Underway(ranks, base, c, path)
      modifies this`nodes, this`next
      ensures (nodes, next) == InsertPath(old(nodes), base, c, path, old(next))
    {
      ghost var result := InsertPath(nodes, base, c, path, next);
      ghost var r: map<nat, nat> := ranks;
      var p, names := base, path;
      while |names| > 1
        invariant Underway(r, p, c, names)
        invariant InsertPath(nodes, p, c, names, next) == result
        decreases |names|
      {
        p, r := StepDown(p, c, names, r);
        names := names[1..];
      }
      if names[0] in nodes[p].children {
        InsertReady(nodes, r, p, c, names[0]);
      }
      nodes := Insert(nodes[c := NewNode(c, false)], p, c, names[0], next);
      next := next + 1;
    }

    /** The node under a path. */
    method Lookup(path: string) returns (n: Option<nat>)
      requires |path| > 0
      ensures n == Find(nodes, ROOT, path, 1)
    {
      var d, pos := ROOT, 1;
      while true
        invariant pos <= |path| && Find(nodes, d, path, pos) == Find(nodes, ROOT, path, 1)
        decreases |path| - pos
      {
        var (name, after) := Split(path, pos);
        if d !in nodes || name !in nodes[d].children {
          return None;
        }
        d := nodes[d].children[name];
        if after.None? || after.value >= |path| {
          return Some(d);
        }
        pos := after.value;
      }
    }
  }
}
