/**
 * Regrouping of sequence concatenations: Dafny's sequence equality is
 * extensional, so each shape the proofs meet is stated once here.
 */
module Sequences {
  lemma Associate<T>(a: seq<T>, b: seq<T>, c: seq<T>)
    ensures (a + b) + c == a + (b + c)
  {
  }

  lemma Regroup3<T>(d: seq<T>, a: seq<T>, b: seq<T>, c: seq<T>)
    ensures d + a + b + c == d + (a + b + c)
  {
  }

  lemma Regroup4<T>(d: seq<T>, a: seq<T>, b: seq<T>, c: seq<T>, e: seq<T>)
    ensures d + a + b + c + e == d + (a + b + c + e)
  {
  }

  lemma Regroup5<T>(d: seq<T>, a: seq<T>, b: seq<T>, c: seq<T>, e: seq<T>, f: seq<T>)
    ensures d + a + b + c + e + f == d + (a + b + c + e + f)
  {
  }

  lemma Nest3<T>(a: seq<T>, b: seq<T>, c: seq<T>, d: seq<T>)
    ensures a + (b + (c + d)) == a + b + c + d
  {
  }

  lemma Nest4<T>(a: seq<T>, b: seq<T>, c: seq<T>, d: seq<T>, e: seq<T>)
    ensures a + (b + (c + (d + e))) == a + b + c + d + e
  {
  }

  lemma Nest8<T>(a: seq<T>, b: seq<T>, c: seq<T>, d: seq<T>, e: seq<T>, f: seq<T>, g: seq<T>, h: seq<T>)
    ensures a + (b + (c + (d + (e + (f + (g + h)))))) == a + b + c + d + e + f + g + h
  {
  }

  /** Two pieces x and y with the separator c between them merged into one middle piece. */
  lemma Join<T>(a: seq<T>, x: seq<T>, b: seq<T>, c: seq<T>, d: seq<T>, y: seq<T>, e: seq<T>)
    ensures (a + x + b) + c + (d + y + e) == a + x + (b + c + d) + y + e
  {
  }

  lemma JoinLonger<T>(a: seq<T>, x: seq<T>, b: seq<T>, c: seq<T>, d: seq<T>, y: seq<T>, e: seq<T>, z: seq<T>, f: seq<T>)
    ensures (a + x + b) + c + (d + y + e + z + f) == a + x + (b + c + d) + y + e + z + f
  {
  }

  lemma Front<T>(h: seq<T>, a: seq<T>, x: seq<T>, b: seq<T>, y: seq<T>, c: seq<T>, z: seq<T>, d: seq<T>)
    ensures h + (a + x + b + y + c + z + d) == (h + a) + x + b + y + c + z + d
  {
  }
}
