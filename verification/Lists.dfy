/** Immutable lists for the children of syntax trees, and the usual Option. */
module Lists {

  datatype Option<+T> = None | Some(value: T)

  datatype List<+T> = Nil | Cons(head: T, tail: List<T>)

  function Length<T>(xs: List<T>): nat {
    match xs
    case Nil => 0
    case Cons(_, tail) => 1 + Length(tail)
  }

  function Append<T>(xs: List<T>, ys: List<T>): List<T> {
    match xs
    case Nil => ys
    case Cons(x, tail) => Cons(x, Append(tail, ys))
  }

  function ToSeq<T>(xs: List<T>): (s: seq<T>)
    ensures |s| == Length(xs)
  {
    match xs
    case Nil => []
    case Cons(x, tail) => [x] + ToSeq(tail)
  }

  function FromSeq<T>(s: seq<T>): (xs: List<T>)
    ensures ToSeq(xs) == s
  {
    if s == [] then Nil else Cons(s[0], FromSeq(s[1..]))
  }

  lemma {:induction false} FromToSeq<T>(xs: List<T>)
    ensures FromSeq(ToSeq(xs)) == xs
  {
    match xs
    case Nil =>
    case Cons(x, tail) =>
      FromToSeq(tail);
      assert ToSeq(xs)[1..] == ToSeq(tail);
  }
}
