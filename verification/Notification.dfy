/** Array parameters as a client sees them, one variable for the whole and one for each
    element, and who is told when some of their bytes change. */
module Notification {

  /** A variable covers memSize bytes of its parameter from offset on. */
  datatype Variable = Variable(offset: nat, memSize: nat)

  // ---- Creating the variables ----

  function Product(dims: seq<nat>): (n: nat)
    ensures (forall i :: 0 <= i < |dims| ==> dims[i] > 0) ==> n > 0
  {
    if dims == [] then 1 else dims[0] * Product(dims[1..])
  }

  ghost predicate Positive(dims: seq<nat>) {
    forall i :: 0 <= i < |dims| ==> dims[i] > 0
  }

  /** The elements of an array in row-major order, by what is left of its dimensions. Each
      dimension divides the bytes among its entries. */
  function Elements(dims: seq<nat>, bytes: nat, size: nat, offset: nat): (vs: seq<Variable>)
    requires Positive(dims)
    decreases |dims|, 1, 0
  {
    if dims == [] then [Variable(offset, size)]
    else Entries(dims, bytes / dims[0], size, offset, dims[0])
  }

  /** The first n entries of the outermost dimension, each of the given bytes. */
  function Entries(dims: seq<nat>, bytes: nat, size: nat, offset: nat, n: nat): (vs: seq<Variable>)
    requires Positive(dims) && dims != []
    decreases |dims|, 0, n
  {
    if n == 0 then []
    else Entries(dims, bytes, size, offset, n - 1) + Elements(dims[1..], bytes, size, offset + (n - 1) * bytes)
  }

  /** n variables of one size, side by side. */
  ghost predicate SideBySide(vs: seq<Variable>, n: nat, size: nat, offset: nat) {
    |vs| == n && forall i :: 0 <= i < n ==> vs[i] == Variable(offset + i * size, size)
  }

  lemma SideBySideJoin(a: seq<Variable>, b: seq<Variable>, m: nat, n: nat, size: nat, offset: nat)
    requires SideBySide(a, m, size, offset) && SideBySide(b, n, size, offset + m * size)
    ensures SideBySide(a + b, m + n, size, offset)
  {
    forall i | m <= i < m + n
      ensures (a + b)[i] == Variable(offset + i * size, size)
    {
      assert b[i - m] == Variable(offset + m * size + (i - m) * size, size);
      assert m * size + (i - m) * size == i * size;
    }
  }

  lemma {:induction false} EntriesSideBySide(dims: seq<nat>, bytes: nat, size: nat, offset: nat, n: nat)
    requires Positive(dims) && dims != [] && bytes == Product(dims[1..]) * size
    ensures SideBySide(Entries(dims, bytes, size, offset, n), n * Product(dims[1..]), size, offset)
    decreases |dims|, 0, n
  {
    if n > 0 {
      var inner := Product(dims[1..]);
      EntriesSideBySide(dims, bytes, size, offset, n - 1);
      ElementsSideBySide(dims[1..], size, offset + (n - 1) * bytes);
      assert (n - 1) * bytes == (n - 1) * inner * size;
      assert (n - 1) * inner + inner == n * inner;
      SideBySideJoin(Entries(dims, bytes, size, offset, n - 1),
                     Elements(dims[1..], bytes, size, offset + (n - 1) * bytes),
                     (n - 1) * inner, inner, size, offset);
    } else {
      assert n * Product(dims[1..]) == 0;
    }
  }

  /** The elements partition the bytes of the whole, in order. */
  lemma {:induction false} ElementsSideBySide(dims: seq<nat>, size: nat, offset: nat)
    requires Positive(dims)
    ensures SideBySide(Elements(dims, Product(dims) * size, size, offset), Product(dims), size, offset)
    decreases |dims|, 1, 0
  {
    if dims != [] {
      var inner := Product(dims[1..]);
      assert Product(dims) * size == dims[0] * (inner * size);
      DivideBack(inner * size, dims[0]);
      EntriesSideBySide(dims, inner * size, size, offset, dims[0]);
    }
  }

  lemma ScaleMono(i: nat, j: nat, size: nat)
    requires i <= j
    ensures i * size <= j * size
  {
  }

  /** The quotient is the one multiple that fits. */
  lemma QuotientIs(m: nat, d: nat, q: nat)
    requires d > 0 && q * d <= m < (q + 1) * d
    ensures m / d == q
  {
    var p := m / d;
    assert m == p * d + m % d && (p + 1) * d == p * d + d;
    if p < q {
      ScaleMono(p + 1, q, d);
    } else if p > q {
      ScaleMono(q + 1, p, d);
    }
  }

  lemma DivideBack(x: nat, d: nat)
    requires d > 0
    ensures (d * x) / d == x
  {
    assert (x + 1) * d == x * d + d;
    QuotientIs(d * x, d, x);
  }

  /** The variables made for a parameter: the whole, and its elements unless it is a scalar,
      the server does not itemize, or the whole is hidden. */
  function Children(dims: seq<nat>, size: nat, itemize: bool, hidden: bool): (vs: seq<Variable>)
    requires Positive(dims)
  {
    if !itemize || hidden || Product(dims) == 1 then [] else Elements(dims, Product(dims) * size, size, 0)
  }

  /** An array has one variable for each of its elements, in row-major order, exactly if it has
      more than one element and is itemized and not hidden. */
  lemma ChildrenAre(dims: seq<nat>, size: nat, itemize: bool, hidden: bool)
    requires Positive(dims)
    ensures SideBySide(Children(dims, size, itemize, hidden),
                       if itemize && !hidden && Product(dims) > 1 then Product(dims) else 0, size, 0)
  {
    ElementsSideBySide(dims, size, 0);
  }

  // ---- Telling about a change ----

  /** The range of changed bytes meets those of the variable. */
  predicate Overlaps(v: Variable, begin: nat, end: nat) {
    begin < v.offset + v.memSize && v.offset < end
  }

  /** Goes through the children in order, and breaks off at the first behind the change. */
  function Informed(children: seq<Variable>, begin: nat, end: nat, from: nat): (r: set<nat>)
    requires from <= |children|
    decreases |children| - from
  {
    if from == |children| then {}
    else
      var v := children[from];
      if begin >= v.offset + v.memSize then Informed(children, begin, end, from + 1)
      else if v.offset >= end then {}
      else {from} + Informed(children, begin, end, from + 1)
  }

  /** Which children are told of a change, given that they are in order: those that it meets,
      no more and no fewer. */
  lemma {:induction false} InformedIsOverlap(children: seq<Variable>, begin: nat, end: nat, from: nat)
    requires from <= |children|
    requires forall i, j :: 0 <= i < j < |children| ==> children[i].offset <= children[j].offset
    ensures forall i :: i in Informed(children, begin, end, from) <==>
              from <= i < |children| && Overlaps(children[i], begin, end)
    decreases |children| - from
  {
    if from < |children| {
      InformedIsOverlap(children, begin, end, from + 1);
    }
  }

  /** The change is told first for the whole and, if that is met, for the children. */
  method Inform(whole: Variable, children: seq<Variable>, begin: nat, end: nat)
    returns (told: bool, informed: set<nat>)
    ensures told <==> Overlaps(whole, begin, end)
    ensures informed == if told then Informed(children, begin, end, 0) else {}
  {
    informed := {};
    told := !(begin >= whole.offset + whole.memSize) && !(whole.offset >= end);
    if !told {
      return;
    }
    var i := 0;
    while i < |children|
      invariant i <= |children|
      invariant informed + Informed(children, begin, end, i) == Informed(children, begin, end, 0)
    {
      var v := children[i];
      if begin >= v.offset + v.memSize {
        i := i + 1;
      } else if v.offset >= end {
        assert Informed(children, begin, end, i) == {};
        return;
      } else {
        informed := informed + {i};
        i := i + 1;
      }
    }
  }

  /** For an array parameter, pruning loses nothing: an element is told of a change exactly if
      the change meets its bytes, and the whole whenever an element is. */
  lemma PruningIsExact(dims: seq<nat>, size: nat, itemize: bool, hidden: bool, begin: nat, end: nat, i: nat)
    requires Positive(dims)
    ensures var children, whole := Children(dims, size, itemize, hidden), Variable(0, Product(dims) * size);
            && (i in Informed(children, begin, end, 0) <==> i < |children| && Overlaps(children[i], begin, end))
            && (i < |children| && Overlaps(children[i], begin, end) ==> Overlaps(whole, begin, end))
  {
    var children, n := Children(dims, size, itemize, hidden), Product(dims);
    if children != [] {
      ElementsSideBySide(dims, size, 0);
      forall j, k | 0 <= j < k < |children|
        ensures children[j].offset <= children[k].offset
      {
        ScaleMono(j, k, size);
      }
      InformedIsOverlap(children, begin, end, 0);
      if i < |children| {
        ScaleMono(i + 1, n, size);
        assert (i + 1) * size == i * size + size;
      }
    }
  }

  /** Each byte of an itemized array belongs to exactly one element. */
  lemma OneElementPerByte(dims: seq<nat>, size: nat, b: nat, i: nat)
    requires Positive(dims) && size > 0 && Product(dims) > 1 && b < Product(dims) * size
    ensures var children := Children(dims, size, true, false);
            b / size < |children| && (i < |children| && Overlaps(children[i], b, b + 1) <==> i == b / size)
  {
    ElementsSideBySide(dims, size, 0);
    ByteIndex(b, size, Product(dims));
    if i < Product(dims) {
      if i * size <= b < i * size + size {
        assert (i + 1) * size == i * size + size;
        QuotientIs(b, size, i);
      }
    }
  }

  lemma ByteIndex(b: nat, size: nat, n: nat)
    requires size > 0 && b < n * size
    ensures var q := b / size;
            q < n && q * size <= b < q * size + size
  {
    var q := b / size;
    assert b == q * size + b % size;
    if q >= n {
      ScaleMono(n, q, size);
    }
  }
}
