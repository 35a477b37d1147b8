/** Types shared by the component models. */
module Common {
  type BotId = seq<bv8>  // a Go string: its bytes

  datatype Option<+T> = None | Some(value: T)

  datatype Result<+T, +E> = Ok(value: T) | Err(error: E)

  /** `xs` lists every element of `s` exactly once, in some order: what ranging over a Go map yields. */
  ghost predicate Enumerates<T(!new)>(xs: seq<T>, s: set<T>) {
    && (forall x :: x in xs <==> x in s)
    && NoDuplicates(xs)
  }

  lemma EnumerateNone<T(!new)>()
    ensures Enumerates<T>([], {})
  {
  }

  lemma EnumerateOneMore<T(!new)>(xs: seq<T>, s: set<T>, x: T)
    requires Enumerates(xs, s) && x !in s
    ensures Enumerates(xs + [x], s + {x})
  {
  }

  ghost predicate NoDuplicates<T>(xs: seq<T>) {
    forall i, j :: 0 <= i < j < |xs| ==> xs[i] != xs[j]
  }
}
