/** Small vocabulary shared by the component models. */
module Sequences {

  datatype Option<+T> = None | Some(value: T)

  type Byte = b: nat | b < 256

  /** The values `f` picks out of `s`, in order. */
  function Pick<A, B>(f: A -> Option<B>, s: seq<A>): seq<B> {
    if s == [] then []
    else
      var rest := Pick(f, s[..|s| - 1]);
      match f(s[|s| - 1])
      case None => rest
      case Some(b) => rest + [b]
  }

  lemma PickAppend<A, B>(f: A -> Option<B>, s: seq<A>, x: A)
    ensures Pick(f, s + [x]) == Pick(f, s) + (if f(x).Some? then [f(x).value] else [])
  {
    assert (s + [x])[..|s|] == s;
  }

  lemma {:induction false} PickedFrom<A, B>(f: A -> Option<B>, s: seq<A>, b: B)
    ensures b in Pick(f, s) <==> exists i | 0 <= i < |s| :: f(s[i]) == Some(b)
  {
    if s != [] {
      var last := |s| - 1;
      PickedFrom(f, s[..last], b);
      if i :| 0 <= i < |s| && f(s[i]) == Some(b) {
        assert i < last ==> s[..last][i] == s[i];
      }
    }
  }
}
