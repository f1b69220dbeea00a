/** Optional values and the order-preserving collection of the present ones. */
module Options {

  datatype Option<T> = None | Some(value: T)

  /** The values present in `s`, in the order they occur. */
  function Somes<T>(s: seq<Option<T>>): seq<T>
  {
    if |s| == 0 then []
    else Somes(s[..|s| - 1]) + (if s[|s| - 1].Some? then [s[|s| - 1].value] else [])
  }

  /** The positions of `s` that hold a value, in increasing order. */
  function SomeIndices<T>(s: seq<Option<T>>): seq<nat>
  {
    if |s| == 0 then []
    else SomeIndices(s[..|s| - 1]) + (if s[|s| - 1].Some? then [|s| - 1] else [])
  }

  /** The k-th present value sits at the k-th present position; the positions
      are strictly increasing, in range, and are exactly those holding a value. */
  lemma {:induction false} SomesAt<T>(s: seq<Option<T>>)
    ensures |Somes(s)| == |SomeIndices(s)| <= |s|
    ensures forall k :: 0 <= k < |SomeIndices(s)| ==>
      SomeIndices(s)[k] < |s| && s[SomeIndices(s)[k]] == Some(Somes(s)[k])
    ensures forall k, l :: 0 <= k < l < |SomeIndices(s)| ==> SomeIndices(s)[k] < SomeIndices(s)[l]
    ensures forall i :: 0 <= i < |s| ==> (i in SomeIndices(s) <==> s[i].Some?)
  {
    if |s| > 0 {
      var init, last := s[..|s| - 1], s[|s| - 1];
      SomesAt(init);
      var vals, idx := Somes(s), SomeIndices(s);
      var vals', idx' := Somes(init), SomeIndices(init);
      assert vals == vals' + (if last.Some? then [last.value] else []);
      assert idx == idx' + (if last.Some? then [|s| - 1] else []);
      forall k | 0 <= k < |idx|
        ensures idx[k] < |s| && s[idx[k]] == Some(vals[k])
      {
        if k < |idx'| {
          assert idx[k] == idx'[k] && vals[k] == vals'[k];
          assert s[idx'[k]] == init[idx'[k]];
        }
      }
      forall i | 0 <= i < |s|
        ensures i in idx <==> s[i].Some?
      {
        if i < |init| {
          assert s[i] == init[i];
          assert i in idx <==> i in idx';
        }
      }
    }
  }
}
