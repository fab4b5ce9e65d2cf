/** Bytes, and the search that `receive_until` does in its buffer. */
module ByteSearch {
  import opened Wrappers

  type Byte = x: int | 0 <= x < 256
  type Bytes = seq<Byte>

  /** `d` stands at index `i` of `s`. */
  predicate OccursAt(s: Bytes, d: Bytes, i: nat) {
    i + |d| <= |s| && s[i..i + |d|] == d
  }

  /** `s.find(d, start)`. */
  function Find(s: Bytes, d: Bytes, start: nat): (r: Option<nat>)
    ensures r.Some? ==> start <= r.value && OccursAt(s, d, r.value)
    ensures r.Some? ==> forall i :: start <= i < r.value ==> !OccursAt(s, d, i)
    ensures r.None? ==> forall i :: start <= i ==> !OccursAt(s, d, i)
    decreases |s| - start
  {
    if start + |d| > |s| then None
    else if s[start..start + |d|] == d then Some(start)
    else Find(s, d, start + 1)
  }

  lemma OccursInPrefix(s: Bytes, t: Bytes, d: Bytes, i: nat)
    requires i + |d| <= |s|
    ensures OccursAt(s + t, d, i) <==> OccursAt(s, d, i)
  {
    assert (s + t)[i..i + |d|] == s[i..i + |d|];
  }

  /** The offset from which the next search starts. */
  function NextOffset(searched: nat, size: nat): nat {
    if searched - size + 1 > 0 then searched - size + 1 else 0
  }

  /** After a failed search of `s`, searching `s + t` from the offset finds the same index as
      searching all of it. */
  lemma OffsetFindsTheSame(s: Bytes, t: Bytes, d: Bytes)
    requires Find(s, d, 0).None?
    ensures Find(s + t, d, NextOffset(|s|, |d|)) == Find(s + t, d, 0)
  {
    var offset := NextOffset(|s|, |d|);
    forall i | 0 <= i < offset
      ensures !OccursAt(s + t, d, i)
    {
      OccursInPrefix(s, t, d, i);
    }
    FirstIsUnique(s + t, d, offset);
  }

  lemma FirstIsUnique(s: Bytes, d: Bytes, offset: nat)
    requires forall i :: 0 <= i < offset ==> !OccursAt(s, d, i)
    ensures Find(s, d, offset) == Find(s, d, 0)
  {
    var a := Find(s, d, 0);
    var b := Find(s, d, offset);
    if a.Some? && b.Some? {
      assert OccursAt(s, d, a.value) && OccursAt(s, d, b.value);
    }
  }

  /** A hit in a part of the stream is the first hit in all of it. */
  lemma HitIsFirst(s: Bytes, t: Bytes, d: Bytes)
    requires Find(s, d, 0).Some?
    ensures Find(s + t, d, 0) == Find(s, d, 0)
  {
    var i := Find(s, d, 0).value;
    OccursInPrefix(s, t, d, i);
    forall j | 0 <= j < i
      ensures !OccursAt(s + t, d, j)
    {
      OccursInPrefix(s, t, d, j);
    }
    FirstIsUnique(s + t, d, i);
  }

  /** Without a hit in `s`, the first hit in `s + t` ends beyond `s`. */
  lemma LateHit(s: Bytes, t: Bytes, d: Bytes)
    requires Find(s, d, 0).None?
    ensures Find(s + t, d, 0).Some? ==> Find(s + t, d, 0).value + |d| > |s|
  {
    var r := Find(s + t, d, 0);
    if r.Some? && r.value + |d| <= |s| {
      OccursInPrefix(s, t, d, r.value);
    }
  }

  /** The bytes of a sequence of chunks. */
  function Flat(chunks: seq<Bytes>): Bytes {
    if chunks == [] then [] else chunks[0] + Flat(chunks[1..])
  }
}
