/** The arena's region of child slices (doc/doc.go): a bump allocator whose slices never overlap. */
module Arenas {
  import opened Doc

  /** A slice of a region, with room for cap elements of which len are in use. */
  datatype Slice = Slice(region: array<Doc>, from: nat, len: nat, cap: nat)

  predicate InRegion(s: Slice) {
    s.len <= s.cap && s.from + s.cap <= s.region.Length
  }

  /** No element has room in both. */
  predicate Disjoint(a: Slice, b: Slice) {
    a.region != b.region || a.from + a.cap <= b.from || b.from + b.cap <= a.from
  }

  ghost function Elements(s: Slice): (r: seq<Doc>)
    requires InRegion(s)
    reads s.region
    ensures |r| == s.len
  {
    s.region[s.from..s.from + s.len]
  }

  /** Go's append within the capacity: in place, and no other element changes. */
  method Append(s: Slice, d: Doc) returns (r: Slice)
    requires InRegion(s) && s.len < s.cap
    modifies s.region
    ensures r == s.(len := s.len + 1) && InRegion(r) && Elements(r) == old(Elements(s)) + [d]
    ensures forall k :: 0 <= k < s.region.Length && k != s.from + s.len ==> s.region[k] == old(s.region[k])
  {
    s.region[s.from + s.len] := d;
    r := s.(len := s.len + 1);
  }

  /** The parts with sep between each two. */
  function Joined(sep: Doc, parts: seq<Doc>): (r: seq<Doc>)
    ensures |r| == if parts == [] then 0 else 2 * |parts| - 1
  {
    if |parts| <= 1 then parts else Joined(sep, parts[..|parts| - 1]) + [sep, parts[|parts| - 1]]
  }

  /** Dropping the separators gives the parts back. */
  lemma {:induction false} JoinedAt(sep: Doc, parts: seq<Doc>, i: nat)
    requires i < |parts|
    ensures Joined(sep, parts)[2 * i] == parts[i]
            && (2 * i + 1 < |Joined(sep, parts)| ==> Joined(sep, parts)[2 * i + 1] == sep)
    decreases |parts|
  {
    if |parts| > 1 && i < |parts| - 1 {
      JoinedAt(sep, parts[..|parts| - 1], i);
    }
  }

  class Arena {
    var parts: array<Doc>
    var partsLen: nat
    ghost var handed: seq<Slice>

    /** The slices handed out since the last reset have room of their own, and none of it lies in what
        is still to be handed out. */
    ghost predicate Valid()
      reads this
    {
      && partsLen <= parts.Length
      && (forall i :: 0 <= i < |handed| ==> handed[i].from + handed[i].cap <= handed[i].region.Length)
      && (forall i :: 0 <= i < |handed| && handed[i].region == parts ==> handed[i].from + handed[i].cap <= partsLen)
      && forall i, j :: 0 <= i < j < |handed| ==> Disjoint(handed[i], handed[j])
    }

    constructor ()
      ensures Valid() && handed == [] && fresh(parts)
    {
      parts := new Doc[0];
      partsLen := 0;
      handed := [];
    }

    /** Reuses the regions: the slices handed out before must be dead. */
    method Reset()
      requires Valid()
      modifies this
      ensures Valid() && handed == [] && partsLen == 0 && parts == old(parts)
    {
      partsLen := 0;
      handed := [];
    }

    /** An empty slice with the given capacity that overlaps no other; nothing written so far changes. */
    method Parts(capacity: nat) returns (s: Slice)
      requires Valid()
      modifies this
      ensures Valid() && handed == old(handed) + [s] && InRegion(s) && s.len == 0 && s.cap == capacity
      ensures forall i :: 0 <= i < |old(handed)| ==> Disjoint(old(handed)[i], s)
      ensures parts == old(parts) || fresh(parts)
      ensures s.region == parts
      ensures old(partsLen) + capacity <= old(parts.Length) ==> parts == old(parts)
    {
      if partsLen + capacity > parts.Length {
        var n := if parts.Length * 2 > partsLen + capacity then parts.Length * 2 else partsLen + capacity;
        var grown := new Doc[n](_ => Nil);
        CopyInto(parts, grown, partsLen);
        assert forall i :: 0 <= i < |handed| ==> allocated(handed[i].region) && handed[i].region != grown;
        parts := grown;
      }
      s := Slice(parts, partsLen, 0, capacity);
      partsLen := partsLen + capacity;
      handed := handed + [s];
    }

    /** parts with sep between each two, in a slice of exactly the room needed. */
    method Join(sep: Doc, docs: seq<Doc>) returns (out: Slice)
      requires Valid()
      modifies this, parts
      ensures Valid() && InRegion(out) && Elements(out) == Joined(sep, docs) && (docs == [] || out.len == out.cap)
      ensures forall i :: 0 <= i < |old(handed)| ==> Disjoint(old(handed)[i], out)
      ensures forall i, k {:trigger old(handed)[i].region[k]} ::
                0 <= i < |old(handed)| && old(handed)[i].from <= k < old(handed)[i].from + old(handed)[i].cap ==>
                  old(handed)[i].region[k] == old(handed[i].region[k])
    {
      if |docs| == 0 {
        out := Parts(0);
        return;
      }
      out := Parts(|docs| * 2 - 1);
      out := Fill(out, sep, docs);
    }
  }

  /** Appends the docs with sep between each two; only the slice's own room is written. */
  method Fill(s: Slice, sep: Doc, docs: seq<Doc>) returns (out: Slice)
    requires InRegion(s) && s.len == 0 && docs != [] && s.cap == |docs| * 2 - 1
    modifies s.region
    ensures InRegion(out) && out == s.(len := s.cap) && Elements(out) == Joined(sep, docs)
    ensures forall k :: 0 <= k < s.region.Length && !(s.from <= k < s.from + s.cap) ==> s.region[k] == old(s.region[k])
  {
    hide Joined;
    out := s;
    JoinedNext(sep, docs, 0);
    for i := 0 to |docs|
      invariant out == s.(len := |Joined(sep, docs[..i])|) && InRegion(out) && Elements(out) == Joined(sep, docs[..i])
      invariant forall k :: 0 <= k < s.region.Length && !(s.from <= k < s.from + s.cap) ==>
                  s.region[k] == old(s.region[k])
    {
      JoinedNext(sep, docs, i);
      if i > 0 {
        out := Append(out, sep);
      }
      out := Append(out, docs[i]);
    }
    assert docs[..|docs|] == docs;
  }

  lemma JoinedNext(sep: Doc, docs: seq<Doc>, i: nat)
    requires i < |docs|
    ensures Joined(sep, docs[..i + 1]) == Joined(sep, docs[..i]) + (if i > 0 then [sep] else []) + [docs[i]]
    ensures i == 0 ==> Joined(sep, docs[..0]) == []
  {
    assert docs[..i + 1][..i] == docs[..i];
  }

  method CopyInto(from: array<Doc>, to: array<Doc>, n: nat)
    requires n <= from.Length && n <= to.Length && from != to
    modifies to
    ensures to[..n] == from[..n] && forall i :: n <= i < to.Length ==> to[i] == old(to[i])
  {
    for i := 0 to n
      invariant to[..i] == from[..i] && forall k :: i <= k < to.Length ==> to[k] == old(to[k])
    {
      to[i] := from[i];
    }
  }
}
