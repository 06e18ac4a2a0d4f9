/** User comparators: any total order on keys. */
module Ordering {
  import opened Types

  type Le = (Key, Key) -> bool

  ghost predicate Total(le: Le) {
    && (forall a, b :: le(a, b) || le(b, a))
    && (forall a, b :: le(a, b) && le(b, a) ==> a == b)
    && (forall a, b, c :: le(a, b) && le(b, c) ==> le(a, c))
  }

  predicate Less(le: Le, a: Key, b: Key) {
    !le(b, a)
  }

  /** The default comparator: byte by byte, a proper prefix first. */
  predicate Bytewise(a: Key, b: Key) {
    a == [] || (b != [] && (a[0] < b[0] || (a[0] == b[0] && Bytewise(a[1..], b[1..]))))
  }

  lemma {:induction false} BytewisePair(a: Key, b: Key)
    ensures Bytewise(a, b) || Bytewise(b, a)
    ensures Bytewise(a, b) && Bytewise(b, a) ==> a == b
  {
    if a != [] && b != [] && a[0] == b[0] {
      BytewisePair(a[1..], b[1..]);
      assert a == [a[0]] + a[1..] && b == [b[0]] + b[1..];
    }
  }

  lemma {:induction false} BytewiseTrans(a: Key, b: Key, c: Key)
    requires Bytewise(a, b) && Bytewise(b, c)
    ensures Bytewise(a, c)
  {
    if a != [] && a[0] == b[0] && b[0] == c[0] {
      BytewiseTrans(a[1..], b[1..], c[1..]);
    }
  }

  lemma BytewiseIsTotal()
    ensures Total(Bytewise)
  {
    forall a, b ensures Bytewise(a, b) || Bytewise(b, a)
      ensures Bytewise(a, b) && Bytewise(b, a) ==> a == b
    {
      BytewisePair(a, b);
    }
    forall a, b, c | Bytewise(a, b) && Bytewise(b, c) ensures Bytewise(a, c) {
      BytewiseTrans(a, b, c);
    }
  }
}
