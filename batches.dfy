// The `chunk(arr, size)` helper of the inventory sync: consecutive slices of
// at most `size` elements, used for every batched write.
module Batches {
  import opened Seqs

  /** The pieces `chunk` produces, front first. */
  function Chunks<T>(s: seq<T>, size: nat): seq<seq<T>>
    requires size > 0
    decreases |s|
  {
    if |s| == 0 then [] else if |s| <= size then [s] else [s[..size]] + Chunks(s[size..], size)
  }

  /** The pieces concatenate back to the input; none is empty or longer than
   *  `size`, and every piece but the last holds exactly `size` elements. */
  lemma {:induction false} ChunksProperties<T>(s: seq<T>, size: nat)
    requires size > 0
    ensures Flatten(Chunks(s, size)) == s
    ensures forall i :: 0 <= i < |Chunks(s, size)| ==> 0 < |Chunks(s, size)[i]| <= size
    ensures forall i :: 0 <= i < |Chunks(s, size)| - 1 ==> |Chunks(s, size)[i]| == size
    decreases |s|
  {
    if |s| > size {
      var rest := Chunks(s[size..], size);
      ChunksProperties(s[size..], size);
      FlattenPrepend(s[..size], rest);
      assert s[..size] + s[size..] == s;
      assert forall i :: 1 <= i < |Chunks(s, size)| ==> Chunks(s, size)[i] == rest[i - 1];
    } else if |s| > 0 {
      FlattenPrepend(s, []);
    }
  }

  /** There are ceil(|s| / size) pieces. */
  lemma {:induction false} ChunkCount<T>(s: seq<T>, size: nat)
    requires size > 0
    ensures |Chunks(s, size)| * size >= |s| > (|Chunks(s, size)| - 1) * size
    decreases |s|
  {
    if |s| > size {
      ChunkCount(s[size..], size);
      var n := |Chunks(s[size..], size)|;
      assert |Chunks(s, size)| == n + 1;
      assert (n + 1) * size == n * size + size;
      assert n * size == (n - 1) * size + size;
    }
  }

  function Min(a: int, b: int): int
  {
    if a < b then a else b
  }

  /** `for (let i = 0; i < arr.length; i += size) out.push(arr.slice(i, i + size))`. */
  method Chunk<T>(arr: seq<T>, size: nat) returns (out: seq<seq<T>>)
    requires size > 0
    ensures out == Chunks(arr, size)
  {
    out := [];
    var i := 0;
    while i < |arr|
      invariant 0 <= i
      invariant out + Chunks(arr[Min(i, |arr|)..], size) == Chunks(arr, size)
      decreases |arr| - i
    {
      var end := Min(i + size, |arr|);
      var rest := arr[i..];
      if i + size < |arr| {
        assert rest[..size] == arr[i..end];
        assert rest[size..] == arr[i + size..];
        assert Chunks(rest, size) == [arr[i..end]] + Chunks(arr[i + size..], size);
      } else {
        assert rest == arr[i..end];
        assert arr[Min(i + size, |arr|)..] == [];
      }
      out := out + [arr[i..end]];
      i := i + size;
    }
    assert arr[Min(i, |arr|)..] == [];
  }
}
