/** What several modules share. */
module Common {

  datatype Option<+T> = None | Some(value: T)

  newtype Byte = x: int | 0 <= x < 256

  /** dataTypeIndex: the class of an alignment, the widest types first. */
  function WidthClass(align: nat): (w: nat)
    ensures w < 4 && (align in {8, 4, 2, 1} ==> Width(w) == align)
  {
    match align
    case 8 => 0
    case 4 => 1
    case 2 => 2
    case _ => 3
  }

  function Width(w: nat): nat
    requires w < 4
  {
    [8, 4, 2, 1][w]
  }

  lemma Reassociate<T>(a: seq<T>, b: seq<T>, c: seq<T>)
    ensures (a + b) + c == a + (b + c)
  {
  }
}
