/** Binary payloads: the recorder's chunks and the blob built from them
    (`new Blob(this.recordedChunks, ...)`, script.js:551). */
module Blob {

  newtype byte = b: int | 0 <= b < 256

  /** The bytes of a blob made of `parts`, in order. */
  function Join(parts: seq<seq<byte>>): (r: seq<byte>)
    ensures |r| == TotalSize(parts)
  {
    if parts == [] then [] else Join(parts[..|parts| - 1]) + parts[|parts| - 1]
  }

  /** The sum of the sizes of `parts`. */
  function TotalSize(parts: seq<seq<byte>>): nat
  {
    if parts == [] then 0 else TotalSize(parts[..|parts| - 1]) + |parts[|parts| - 1]|
  }

  /** Every part has a size greater than zero. */
  predicate AllNonEmpty(parts: seq<seq<byte>>)
  {
    forall i :: 0 <= i < |parts| ==> |parts[i]| > 0
  }

  /** Appending one more part appends its bytes at the end of the blob. */
  lemma JoinAppend(parts: seq<seq<byte>>, c: seq<byte>)
    ensures Join(parts + [c]) == Join(parts) + c
  {
    assert (parts + [c])[..|parts|] == parts;
  }

  /** The blob of two runs of parts is the blob of the first followed by the
      blob of the second: chunk order is arrival order. */
  lemma {:induction false} JoinConcat(a: seq<seq<byte>>, b: seq<seq<byte>>)
    ensures Join(a + b) == Join(a) + Join(b)
  {
    if b == [] {
      assert a + b == a;
    } else {
      var b' := b[..|b| - 1];
      assert a + b == (a + b') + [b[|b| - 1]];
      JoinConcat(a, b');
      JoinAppend(a + b', b[|b| - 1]);
      JoinAppend(b', b[|b| - 1]);
    }
  }

  /** Three parts make the blob of their bytes one after the other. */
  lemma JoinThree(c1: seq<byte>, c2: seq<byte>, c3: seq<byte>)
    ensures Join([c1, c2, c3]) == c1 + c2 + c3
  {
    JoinAppend([], c1);
    JoinAppend([c1], c2);
    assert [c1] + [c2] == [c1, c2];
    JoinAppend([c1, c2], c3);
    assert [c1, c2] + [c3] == [c1, c2, c3];
  }

  /** A blob of non-empty parts is at least one byte per part long. */
  lemma {:induction false} JoinNonEmptySize(parts: seq<seq<byte>>)
    requires AllNonEmpty(parts)
    ensures |Join(parts)| >= |parts|
  {
    if parts != [] {
      JoinNonEmptySize(parts[..|parts| - 1]);
    }
  }
}
