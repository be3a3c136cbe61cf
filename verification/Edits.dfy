/** Applying fixes to a source (sema/edit.go). */
module Edits {
  import opened Wrappers

  datatype Edit = Edit(start: int, end: int, text: string)

  datatype Fix = Fix(title: string, edits: seq<Edit>)

  datatype Outcome = Failed(title: string, edit: Edit) | Done(out: string, applied: seq<Fix>, skipped: seq<Fix>)

  predicate InRange(e: Edit, n: nat) {
    0 <= e.start <= e.end <= n
  }

  ghost predicate AllInRange(es: seq<Edit>, n: nat) {
    forall i :: 0 <= i < |es| ==> InRange(es[i], n)
  }

  // ----- stable sorting -----

  function Start(e: Edit): int {
    e.start
  }

  /** By start, insertions before replacements. */
  function Place(e: Edit): int {
    2 * e.start + if e.start == e.end then 0 else 1
  }

  function InsertBy(key: Edit -> int, e: Edit, s: seq<Edit>): seq<Edit> {
    if s == [] || key(e) <= key(s[0]) then [e] + s else [s[0]] + InsertBy(key, e, s[1..])
  }

  function SortBy(key: Edit -> int, s: seq<Edit>): seq<Edit> {
    if s == [] then [] else InsertBy(key, s[0], SortBy(key, s[1..]))
  }

  ghost predicate SortedBy(key: Edit -> int, s: seq<Edit>) {
    forall i, j :: 0 <= i < j < |s| ==> key(s[i]) <= key(s[j])
  }

  /** The elements of s with key k, in order. */
  function Class(key: Edit -> int, k: int, s: seq<Edit>): seq<Edit> {
    if s == [] then []
    else if key(s[0]) == k then [s[0]] + Class(key, k, s[1..])
    else Class(key, k, s[1..])
  }

  lemma Split(s: seq<Edit>)
    requires s != []
    ensures s == [s[0]] + s[1..]
  {
  }

  lemma {:induction false} InsertedElements(key: Edit -> int, e: Edit, s: seq<Edit>)
    ensures var r := InsertBy(key, e, s);
            multiset(r) == multiset(s) + multiset{e} && |r| == |s| + 1 && forall x :: x in r <==> x == e || x in s
    decreases |s|
  {
    if s != [] && key(e) > key(s[0]) {
      Split(s);
      InsertedElements(key, e, s[1..]);
    }
  }

  lemma {:induction false} Inserted(key: Edit -> int, e: Edit, s: seq<Edit>)
    requires SortedBy(key, s)
    ensures SortedBy(key, InsertBy(key, e, s))
    decreases |s|
  {
    if s != [] && key(e) > key(s[0]) {
      var r := InsertBy(key, e, s[1..]);
      Inserted(key, e, s[1..]);
      InsertedElements(key, e, s[1..]);
      FirstSorted(key, s);
      SortedFirst(key, s[0], r);
    } else {
      FirstSorted(key, s);
      SortedFirst(key, e, s);
    }
  }

  lemma FirstSorted(key: Edit -> int, s: seq<Edit>)
    requires SortedBy(key, s)
    ensures s != [] ==> SortedBy(key, s[1..]) && forall x :: x in s ==> key(s[0]) <= key(x)
  {
  }

  lemma SortedFirst(key: Edit -> int, e: Edit, s: seq<Edit>)
    requires SortedBy(key, s) && forall x :: x in s ==> key(e) <= key(x)
    ensures SortedBy(key, [e] + s)
  {
  }

  lemma {:induction false} InsertedClass(key: Edit -> int, e: Edit, s: seq<Edit>, k: int)
    ensures Class(key, k, InsertBy(key, e, s)) == Class(key, k, [e] + s)
    decreases |s|
  {
    assert ([e] + s)[1..] == s;
    if s != [] && key(e) > key(s[0]) {
      var r := InsertBy(key, e, s[1..]);
      assert ([s[0]] + r)[1..] == r && ([e] + s[1..])[1..] == s[1..];
      InsertedClass(key, e, s[1..], k);
    }
  }

  /** Sorting is a stable sort. */
  lemma {:induction false} Sorted(key: Edit -> int, s: seq<Edit>)
    ensures var r := SortBy(key, s);
            && SortedBy(key, r) && multiset(r) == multiset(s) && |r| == |s| && (forall x :: x in r <==> x in s)
            && forall k :: Class(key, k, r) == Class(key, k, s)
    decreases |s|
  {
    if s != [] {
      Split(s);
      Sorted(key, s[1..]);
      InsertedElements(key, s[0], SortBy(key, s[1..]));
      Inserted(key, s[0], SortBy(key, s[1..]));
      forall k ensures Class(key, k, SortBy(key, s)) == Class(key, k, s) {
        InsertedClass(key, s[0], SortBy(key, s[1..]), k);
        ClassFirst(key, s[0], SortBy(key, s[1..]), k);
        ClassFirst(key, s[0], s[1..], k);
      }
    }
  }

  lemma ClassFirst(key: Edit -> int, e: Edit, s: seq<Edit>, k: int)
    ensures Class(key, k, [e] + s) == (if key(e) == k then [e] else []) + Class(key, k, s)
  {
    assert ([e] + s)[1..] == s;
  }

  /** A stable sort is determined by its classes. */
  lemma {:induction false} SameClasses(key: Edit -> int, a: seq<Edit>, b: seq<Edit>)
    requires SortedBy(key, a) && SortedBy(key, b) && forall k :: Class(key, k, a) == Class(key, k, b)
    ensures a == b
    decreases |a|
  {
    if a == [] || b == [] {
      SomeClass(key, a);
      SomeClass(key, b);
    } else {
      FirstIsLeast(key, a, b);
      FirstIsLeast(key, b, a);
      var k0 := key(a[0]);
      assert Class(key, k0, a)[0] == a[0] && Class(key, k0, b)[0] == b[0];
      forall k ensures Class(key, k, a[1..]) == Class(key, k, b[1..]) {
        Split(a);
        Split(b);
        ClassFirst(key, a[0], a[1..], k);
        ClassFirst(key, b[0], b[1..], k);
        assert Class(key, k, a) == Class(key, k, b);
        assert Class(key, k, a[1..]) == if k == k0 then Class(key, k, a)[1..] else Class(key, k, a);
        assert Class(key, k, b[1..]) == if k == k0 then Class(key, k, b)[1..] else Class(key, k, b);
      }
      SameClasses(key, a[1..], b[1..]);
      Split(a);
      Split(b);
    }
  }

  lemma SomeClass(key: Edit -> int, a: seq<Edit>)
    ensures a != [] ==> exists k :: Class(key, k, a) != []
  {
    if a != [] {
      assert Class(key, key(a[0]), a) != [];
    }
  }

  lemma FirstIsLeast(key: Edit -> int, a: seq<Edit>, b: seq<Edit>)
    requires a != [] && SortedBy(key, b) && Class(key, key(a[0]), a) == Class(key, key(a[0]), b)
    ensures b != [] && key(b[0]) <= key(a[0])
  {
    InClass(key, b, key(a[0]));
  }

  lemma {:induction false} InClass(key: Edit -> int, s: seq<Edit>, k: int)
    requires SortedBy(key, s) && Class(key, k, s) != []
    ensures s != [] && key(s[0]) <= k
    decreases |s|
  {
    if key(s[0]) != k {
      InClass(key, s[1..], k);
    }
  }

  // ----- one fix -----

  /** p and q do not overlap; at the same start, p must be an insertion. */
  predicate Orderly(p: Edit, q: Edit) {
    if p.start <= q.start then p.end <= q.start else q.end <= p.start
  }

  ghost predicate Pairwise(s: seq<Edit>) {
    forall i, j :: 0 <= i < j < |s| ==> Orderly(s[i], s[j])
  }

  /** Some two of a fix's edits overlap. */
  ghost predicate OverlapsItself(fix: Fix) {
    !Pairwise(fix.edits)
  }

  /** Each edit ends before the next starts. */
  ghost predicate Chain(s: seq<Edit>) {
    forall j :: 0 < j < |s| ==> s[j - 1].end <= s[j].start
  }

  lemma PairwiseFirst(e: Edit, s: seq<Edit>)
    ensures Pairwise([e] + s) <==> Pairwise(s) && forall x :: x in s ==> Orderly(e, x)
  {
    var r := [e] + s;
    if Pairwise(r) {
      forall i, j | 0 <= i < j < |s| ensures Orderly(s[i], s[j]) {
        assert Orderly(r[i + 1], r[j + 1]);
      }
      forall x | x in s ensures Orderly(e, x) {
        var i :| 0 <= i < |s| && s[i] == x;
        assert Orderly(r[0], r[i + 1]);
      }
    }
  }

  lemma {:induction false} InsertedPairwise(e: Edit, s: seq<Edit>)
    requires SortedBy(Start, s)
    ensures Pairwise(InsertBy(Start, e, s)) <==> Pairwise([e] + s)
    decreases |s|
  {
    hide Pairwise;
    if s != [] && e.start > s[0].start {
      Split(s);
      var r := InsertBy(Start, e, s[1..]);
      InsertedElements(Start, e, s[1..]);
      FirstSorted(Start, s);
      InsertedPairwise(e, s[1..]);
      PairwiseFirst(s[0], r);
      PairwiseFirst(e, s[1..]);
      PairwiseFirst(e, s);
      PairwiseFirst(s[0], s[1..]);
      assert Orderly(e, s[0]) <==> Orderly(s[0], e);
      assert (forall x :: x in s ==> Orderly(e, x)) <==> Orderly(e, s[0]) && forall x :: x in s[1..] ==> Orderly(e, x);
      assert (forall x :: x in r ==> Orderly(s[0], x)) <==>
             Orderly(s[0], e) && forall x :: x in s[1..] ==> Orderly(s[0], x);
    }
  }

  lemma {:induction false} SortedPairwise(s: seq<Edit>)
    ensures Pairwise(SortBy(Start, s)) <==> Pairwise(s)
    decreases |s|
  {
    hide Pairwise;
    if s != [] {
      Split(s);
      var r := SortBy(Start, s[1..]);
      SortedPairwise(s[1..]);
      Sorted(Start, s[1..]);
      InsertedPairwise(s[0], r);
      PairwiseFirst(s[0], r);
      PairwiseFirst(s[0], s[1..]);
    }
  }

  lemma {:induction false} ChainEnds(s: seq<Edit>, n: nat, i: nat, j: nat)
    requires Chain(s) && AllInRange(s, n) && i < j < |s|
    ensures s[i].end <= s[j].start
    decreases j
  {
    assert s[j - 1].end <= s[j].start;
    if i < j - 1 {
      ChainEnds(s, n, i, j - 1);
      assert InRange(s[j - 1], n);
    }
  }

  /** The check of neighbours in start order finds every overlap of the fix. */
  lemma OverlapIsLocal(fix: Fix, n: nat)
    requires AllInRange(fix.edits, n)
    ensures Chain(SortBy(Start, fix.edits)) <==> !OverlapsItself(fix)
  {
    var s := SortBy(Start, fix.edits);
    Sorted(Start, fix.edits);
    SortedPairwise(fix.edits);
    SameRange(fix.edits, s, n);
    if Chain(s) {
      forall i, j | 0 <= i < j < |s| ensures Orderly(s[i], s[j]) {
        ChainEnds(s, n, i, j);
        assert InRange(s[i], n) && InRange(s[j], n);
      }
    } else {
      var j :| 0 < j < |s| && s[j - 1].end > s[j].start;
      assert !Orderly(s[j - 1], s[j]) by {
        assert Start(s[j - 1]) <= Start(s[j]);
      }
    }
  }

  lemma SameRange(a: seq<Edit>, b: seq<Edit>, n: nat)
    requires multiset(a) == multiset(b) && AllInRange(a, n)
    ensures AllInRange(b, n)
  {
    forall i | 0 <= i < |b| ensures InRange(b[i], n) {
      assert b[i] in multiset(b) && b[i] in multiset(a);
    }
  }

  // ----- acceptance -----

  predicate Touches(e: Edit, t: Edit) {
    e.start < t.end && t.start < e.end
  }

  predicate TouchesAny(es: seq<Edit>, ts: seq<Edit>) {
    exists i, j :: 0 <= i < |ts| && 0 <= j < |es| && Touches(es[j], ts[i])
  }

  ghost predicate Conflict(a: Fix, b: Fix) {
    TouchesAny(a.edits, b.edits)
  }

  /** The accepted fixes among the first n: a fix is in unless it overlaps itself or conflicts with
      one accepted before it. */
  ghost function Accepted(fixes: seq<Fix>, n: nat): (r: seq<nat>)
    requires n <= |fixes|
    ensures forall i :: 0 <= i < |r| ==> r[i] < n
  {
    if n == 0 then []
    else
      var r := Accepted(fixes, n - 1);
      if !OverlapsItself(fixes[n - 1]) && forall i :: 0 <= i < |r| ==> !Conflict(fixes[n - 1], fixes[r[i]])
      then r + [n - 1]
      else r
  }

  /** A fix is accepted exactly when it does not overlap itself and conflicts with no earlier
      accepted fix. */
  lemma {:induction false} AcceptedExactly(fixes: seq<Fix>, n: nat, i: nat)
    requires i < n <= |fixes|
    ensures i in Accepted(fixes, n) <==>
            !OverlapsItself(fixes[i])
            && forall j :: 0 <= j < i && j in Accepted(fixes, n) ==> !Conflict(fixes[i], fixes[j])
    decreases n
  {
    hide OverlapsItself, Conflict;
    var r := Accepted(fixes, n - 1);
    assert forall j :: j in r ==> j < n - 1;
    assert forall j :: j < n - 1 ==> (j in Accepted(fixes, n) <==> j in r);
    if i < n - 1 {
      AcceptedExactly(fixes, n - 1, i);
    }
  }

  /** The accepted fixes are in argument order. */
  lemma {:induction false} AcceptedAscending(fixes: seq<Fix>, n: nat)
    requires n <= |fixes|
    ensures forall i, j :: 0 <= i < j < |Accepted(fixes, n)| ==> Accepted(fixes, n)[i] < Accepted(fixes, n)[j]
    decreases n
  {
    hide OverlapsItself, Conflict;
    if n > 0 {
      AcceptedAscending(fixes, n - 1);
    }
  }

  // ----- substitution -----

  /** content from offset from on, with each edit's span replaced by its text, all at once. */
  function Substitute(content: string, from: int, es: seq<Edit>): string
    requires 0 <= from <= |content|
    decreases |es|
  {
    if es == [] then content[from..]
    else if from <= es[0].start <= es[0].end <= |content| then
      content[from..es[0].start] + es[0].text + Substitute(content, es[0].end, es[1..])
    else content[from..]
  }

  function Splice(out: string, e: Edit): string {
    if InRange(e, |out|) then out[..e.start] + e.text + out[e.end..] else out
  }

  /** The edits from k on, spliced in from the back. */
  function SplicedFrom(content: string, es: seq<Edit>, k: nat): string
    requires k <= |es|
    decreases |es| - k
  {
    if k == |es| then content else Splice(SplicedFrom(content, es, k + 1), es[k])
  }

  /** Splicing a chain of edits from the back is substituting them all at once. */
  lemma {:induction false} SplicesSubstitute(content: string, es: seq<Edit>, k: nat)
    requires k <= |es| && Chain(es) && AllInRange(es, |content|)
    ensures var from := if k == |es| then |content| else es[k].start;
            SplicedFrom(content, es, k) == content[..from] + Substitute(content, from, es[k..])
    ensures k == 0 ==> SplicedFrom(content, es, 0) == Substitute(content, 0, es)
    decreases |es| - k
  {
    if k == |es| {
      assert es[k..] == [];
    } else {
      SplicesSubstitute(content, es, k + 1);
      var e, next := es[k], if k + 1 == |es| then |content| else es[k + 1].start;
      assert InRange(e, |content|) && e.end <= next;
      var rest := SplicedFrom(content, es, k + 1);
      SubstituteEarlier(content, e.end, next, es[k + 1..]);
      assert es[k..][1..] == es[k + 1..];
      assert rest == content[..e.end] + Substitute(content, e.end, es[k + 1..]);
      assert rest[..e.start] == content[..e.start];
      assert rest[e.end..] == Substitute(content, e.end, es[k + 1..]);
      assert content[e.start..e.start] == "";
      SubstituteEarlier(content, 0, e.start, es[k..]);
      assert es[0..] == es;
    }
  }

  lemma SubstituteEarlier(content: string, from: int, to: int, es: seq<Edit>)
    requires 0 <= from <= to <= |content|
             && (if es == [] then to == |content| else to == es[0].start && es[0].start <= es[0].end <= |content|)
    ensures content[..to] + Substitute(content, to, es) == content[..from] + Substitute(content, from, es)
  {
    if es == [] {
      assert content[..to] + content[to..] == content == content[..from] + content[from..];
    } else {
      assert content[..to] == content[..from] + content[from..to];
      assert content[to..to] == "";
    }
  }

  // ----- the accepted edits together -----

  /** The edits of the fixes at the given indices, in argument order. */
  function EditsOf(fixes: seq<Fix>, at: seq<nat>): seq<Edit>
    requires forall i :: 0 <= i < |at| ==> at[i] < |fixes|
  {
    if at == [] then [] else EditsOf(fixes, at[..|at| - 1]) + fixes[at[|at| - 1]].edits
  }

  /** The same with the edits of each fix sorted. */
  function Gathered(fixes: seq<Fix>, at: seq<nat>): seq<Edit>
    requires forall i :: 0 <= i < |at| ==> at[i] < |fixes|
  {
    if at == [] then [] else Gathered(fixes, at[..|at| - 1]) + SortBy(Start, fixes[at[|at| - 1]].edits)
  }

  /** The accepted edits as they are spliced: by start, insertions first. */
  ghost function Landing(fixes: seq<Fix>): seq<Edit> {
    SortBy(Place, EditsOf(fixes, Accepted(fixes, |fixes|)))
  }

  lemma {:induction false} ClassConcat(key: Edit -> int, k: int, a: seq<Edit>, b: seq<Edit>)
    ensures Class(key, k, a + b) == Class(key, k, a) + Class(key, k, b)
    decreases |a|
  {
    if a == [] {
      assert a + b == b;
    } else {
      assert (a + b)[1..] == a[1..] + b;
      ClassConcat(key, k, a[1..], b);
    }
  }

  /** Edits at one place have one start. */
  lemma {:induction false} PlaceInStart(k: int, s: seq<Edit>)
    ensures Class(Place, k, Class(Start, k / 2, s)) == Class(Place, k, s)
    decreases |s|
  {
    if s != [] {
      PlaceInStart(k, s[1..]);
      if Start(s[0]) == k / 2 {
        ClassFirst(Place, s[0], Class(Start, k / 2, s[1..]), k);
        Split(s);
        ClassFirst(Place, s[0], s[1..], k);
      }
    }
  }

  lemma {:induction false} GatheredClass(fixes: seq<Fix>, at: seq<nat>, k: int)
    requires forall i :: 0 <= i < |at| ==> at[i] < |fixes|
    ensures Class(Place, k, Gathered(fixes, at)) == Class(Place, k, EditsOf(fixes, at))
    decreases |at|
  {
    if at != [] {
      var less, es := at[..|at| - 1], fixes[at[|at| - 1]].edits;
      GatheredClass(fixes, less, k);
      ClassConcat(Place, k, Gathered(fixes, less), SortBy(Start, es));
      ClassConcat(Place, k, EditsOf(fixes, less), es);
      Sorted(Start, es);
      PlaceInStart(k, es);
      PlaceInStart(k, SortBy(Start, es));
      assert Class(Start, k / 2, SortBy(Start, es)) == Class(Start, k / 2, es);
    }
  }

  /** Sorting each fix first makes no difference. */
  lemma GatheredSorts(fixes: seq<Fix>, at: seq<nat>)
    requires forall i :: 0 <= i < |at| ==> at[i] < |fixes|
    ensures SortBy(Place, Gathered(fixes, at)) == SortBy(Place, EditsOf(fixes, at))
  {
    var a, b := Gathered(fixes, at), EditsOf(fixes, at);
    Sorted(Place, a);
    Sorted(Place, b);
    forall k ensures Class(Place, k, SortBy(Place, a)) == Class(Place, k, SortBy(Place, b)) {
      GatheredClass(fixes, at, k);
      assert Class(Place, k, SortBy(Place, a)) == Class(Place, k, a);
      assert Class(Place, k, SortBy(Place, b)) == Class(Place, k, b);
    }
    SameClasses(Place, SortBy(Place, a), SortBy(Place, b));
  }

  /** p and q can be applied in one order or the other. */
  predicate Apart(p: Edit, q: Edit) {
    p.end <= q.start || q.end <= p.start
  }

  ghost predicate AllApart(s: seq<Edit>) {
    forall i, j :: 0 <= i < j < |s| ==> Apart(s[i], s[j])
  }

  lemma ApartFirst(e: Edit, s: seq<Edit>)
    ensures AllApart([e] + s) <==> AllApart(s) && forall x :: x in s ==> Apart(e, x)
  {
    var r := [e] + s;
    if AllApart(r) {
      forall i, j | 0 <= i < j < |s| ensures Apart(s[i], s[j]) {
        assert Apart(r[i + 1], r[j + 1]);
      }
      forall x | x in s ensures Apart(e, x) {
        var i :| 0 <= i < |s| && s[i] == x;
        assert Apart(r[0], r[i + 1]);
      }
    }
  }

  lemma {:induction false} InsertedApart(key: Edit -> int, e: Edit, s: seq<Edit>)
    requires AllApart([e] + s)
    ensures AllApart(InsertBy(key, e, s))
    decreases |s|
  {
    hide AllApart;
    if s != [] && key(e) > key(s[0]) {
      Split(s);
      ApartFirst(e, s);
      ApartFirst(s[0], s[1..]);
      ApartFirst(e, s[1..]);
      InsertedApart(key, e, s[1..]);
      InsertedElements(key, e, s[1..]);
      assert s[0] in s && Apart(e, s[0]);
      ApartFirst(s[0], InsertBy(key, e, s[1..]));
    }
  }

  lemma {:induction false} SortedApart(key: Edit -> int, s: seq<Edit>)
    requires AllApart(s)
    ensures AllApart(SortBy(key, s))
    decreases |s|
  {
    hide AllApart;
    if s != [] {
      Split(s);
      ApartFirst(s[0], s[1..]);
      SortedApart(key, s[1..]);
      Sorted(key, s[1..]);
      ApartFirst(s[0], SortBy(key, s[1..]));
      InsertedApart(key, s[0], SortBy(key, s[1..]));
    }
  }

  lemma ApartConcat(a: seq<Edit>, b: seq<Edit>)
    requires AllApart(a) && AllApart(b) && forall x, y :: x in a && y in b ==> Apart(x, y)
    ensures AllApart(a + b)
  {
  }

  lemma {:induction false} AmongEdits(fixes: seq<Fix>, at: seq<nat>, x: Edit)
    requires forall i :: 0 <= i < |at| ==> at[i] < |fixes|
    ensures x in EditsOf(fixes, at) <==> exists i :: 0 <= i < |at| && x in fixes[at[i]].edits
    ensures x in Gathered(fixes, at) <==> x in EditsOf(fixes, at)
    decreases |at|
  {
    if at != [] {
      var less, es := at[..|at| - 1], fixes[at[|at| - 1]].edits;
      AmongEdits(fixes, less, x);
      Sorted(Start, es);
      assert x in EditsOf(fixes, at) <==> x in EditsOf(fixes, less) || x in es;
      assert forall i :: 0 <= i < |less| ==> less[i] == at[i];
    }
  }

  lemma NoConflictApart(a: Fix, b: Fix)
    requires !Conflict(a, b)
    ensures forall x, y :: x in b.edits && y in a.edits ==> Apart(x, y)
  {
    forall x, y | x in b.edits && y in a.edits ensures Apart(x, y) {
      var i :| 0 <= i < |b.edits| && b.edits[i] == x;
      var j :| 0 <= j < |a.edits| && a.edits[j] == y;
      assert !Touches(a.edits[j], b.edits[i]);
    }
  }

  lemma OrderlyApart(fix: Fix)
    requires !OverlapsItself(fix)
    ensures AllApart(fix.edits)
  {
  }

  /** The accepted edits are pairwise apart. */
  lemma {:induction false} AcceptedApart(fixes: seq<Fix>, n: nat)
    requires n <= |fixes|
    ensures AllApart(EditsOf(fixes, Accepted(fixes, n)))
    decreases n
  {
    hide AllApart, OverlapsItself, Conflict, EditsOf;
    if n == 0 {
      NothingApart(fixes);
    } else {
      AcceptedApart(fixes, n - 1);
      var r := Accepted(fixes, n - 1);
      AddOne(fixes, r, n - 1);
      if Accepted(fixes, n) != r {
        NextApart(fixes, n - 1, r);
      }
    }
  }

  lemma NextApart(fixes: seq<Fix>, n: nat, r: seq<nat>)
    requires n < |fixes| && (forall i :: 0 <= i < |r| ==> r[i] < n) && AllApart(EditsOf(fixes, r))
    requires !OverlapsItself(fixes[n]) && forall i :: 0 <= i < |r| ==> !Conflict(fixes[n], fixes[r[i]])
    ensures AllApart(EditsOf(fixes, r) + fixes[n].edits)
  {
    hide AllApart, OverlapsItself, Conflict, Apart, EditsOf;
    var a, b := EditsOf(fixes, r), fixes[n].edits;
    OrderlyApart(fixes[n]);
    forall x, y | x in a && y in b ensures Apart(x, y) {
      AmongEdits(fixes, r, x);
      var i :| 0 <= i < |r| && x in fixes[r[i]].edits;
      NoConflictApart(fixes[n], fixes[r[i]]);
    }
    ApartConcat(a, b);
  }

  lemma NothingApart(fixes: seq<Fix>)
    ensures AllApart(EditsOf(fixes, []))
  {
  }

  /** Edits pairwise apart, by place, are a chain. */
  lemma ApartChain(s: seq<Edit>, n: nat)
    requires SortedBy(Place, s) && AllApart(s) && AllInRange(s, n)
    ensures Chain(s)
  {
    forall j | 0 < j < |s| ensures s[j - 1].end <= s[j].start {
      assert Apart(s[j - 1], s[j]) && Place(s[j - 1]) <= Place(s[j]) && InRange(s[j - 1], n) && InRange(s[j], n);
    }
  }

  /** What is substituted: the accepted edits, each ending before the next starts; those at one offset
      are first the insertions, in argument order, then at most one replacement. */
  lemma {:induction false} LandingOrder(content: string, fixes: seq<Fix>)
    requires forall i :: 0 <= i < |fixes| ==> AllInRange(fixes[i].edits, |content|)
    ensures var es := EditsOf(fixes, Accepted(fixes, |fixes|));
            var s := Landing(fixes);
            && multiset(s) == multiset(es) && Chain(s) && AllInRange(s, |content|) && SortedBy(Place, s)
            && forall k :: Class(Place, k, s) == Class(Place, k, es)
  {
    hide AllApart, Accepted, Chain, InRange;
    var at := Accepted(fixes, |fixes|);
    var es := EditsOf(fixes, at);
    Sorted(Place, es);
    AcceptedApart(fixes, |fixes|);
    SortedApart(Place, es);
    forall i | 0 <= i < |es| ensures InRange(es[i], |content|) {
      AmongEdits(fixes, at, es[i]);
    }
    SameRange(es, Landing(fixes), |content|);
    ApartChain(Landing(fixes), |content|);
  }

  // ----- what is skipped -----

  function Pick(fixes: seq<Fix>, at: seq<nat>): seq<Fix>
    requires forall i :: 0 <= i < |at| ==> at[i] < |fixes|
  {
    seq(|at|, i requires 0 <= i < |at| => fixes[at[i]])
  }

  ghost function Overlapping(fixes: seq<Fix>, n: nat): (r: seq<nat>)
    requires n <= |fixes|
    ensures forall i :: 0 <= i < |r| ==> r[i] < n
  {
    if n == 0 then []
    else Overlapping(fixes, n - 1) + if OverlapsItself(fixes[n - 1]) then [n - 1] else []
  }

  ghost function Conflicting(fixes: seq<Fix>, n: nat): (r: seq<nat>)
    requires n <= |fixes|
    ensures forall i :: 0 <= i < |r| ==> r[i] < n
  {
    if n == 0 then []
    else
      Conflicting(fixes, n - 1) +
      if !OverlapsItself(fixes[n - 1]) && (n - 1) !in Accepted(fixes, n) then [n - 1] else []
  }

  /** The skipped fixes: those that overlap themselves, then those that conflict. */
  ghost function Skipped(fixes: seq<Fix>): (r: seq<nat>)
    ensures forall i :: 0 <= i < |r| ==> r[i] < |fixes|
  {
    Overlapping(fixes, |fixes|) + Conflicting(fixes, |fixes|)
  }

  lemma PickConcat(fixes: seq<Fix>, a: seq<nat>, b: seq<nat>)
    requires forall i :: 0 <= i < |a| ==> a[i] < |fixes|
    requires forall i :: 0 <= i < |b| ==> b[i] < |fixes|
    ensures forall i :: 0 <= i < |a + b| ==> (a + b)[i] < |fixes|
    ensures Pick(fixes, a + b) == Pick(fixes, a) + Pick(fixes, b)
  {
  }

  lemma {:induction false} PartitionUpTo(fixes: seq<Fix>, n: nat)
    requires n <= |fixes|
    ensures multiset(Pick(fixes, Accepted(fixes, n))) + multiset(Pick(fixes, Overlapping(fixes, n)))
            + multiset(Pick(fixes, Conflicting(fixes, n))) == multiset(fixes[..n])
    decreases n
  {
    hide OverlapsItself, Conflict, Pick;
    NonePicked(fixes);
    if n > 0 {
      PartitionUpTo(fixes, n - 1);
      assert fixes[..n] == fixes[..n - 1] + [fixes[n - 1]];
      NextPicked(fixes, n);
    }
  }

  /** The next fix goes to exactly one of the three lists. */
  lemma NextPicked(fixes: seq<Fix>, n: nat)
    requires 0 < n <= |fixes|
    ensures var one := [fixes[n - 1]];
            var a, o, c := n - 1 in Accepted(fixes, n), n - 1 in Overlapping(fixes, n), n - 1 in Conflicting(fixes, n);
            && Pick(fixes, Accepted(fixes, n)) == Pick(fixes, Accepted(fixes, n - 1)) + (if a then one else [])
            && Pick(fixes, Overlapping(fixes, n)) == Pick(fixes, Overlapping(fixes, n - 1)) + (if o then one else [])
            && Pick(fixes, Conflicting(fixes, n)) == Pick(fixes, Conflicting(fixes, n - 1)) + (if c then one else [])
            && ((a && !o && !c) || (!a && o && !c) || (!a && !o && c))
  {
    hide OverlapsItself, Conflict, Pick;
    OnePicked(fixes, n - 1);
    PickConcat(fixes, Accepted(fixes, n - 1), [n - 1]);
    PickConcat(fixes, Overlapping(fixes, n - 1), [n - 1]);
    PickConcat(fixes, Conflicting(fixes, n - 1), [n - 1]);
    var nothing: seq<nat> := [];
    assert Overlapping(fixes, n - 1) + nothing == Overlapping(fixes, n - 1);
    assert Conflicting(fixes, n - 1) + nothing == Conflicting(fixes, n - 1);
  }

  lemma NonePicked(fixes: seq<Fix>)
    ensures Pick(fixes, []) == []
  {
  }

  lemma OnePicked(fixes: seq<Fix>, i: nat)
    requires i < |fixes|
    ensures Pick(fixes, [i]) == [fixes[i]]
  {
  }

  /** The applied and the skipped fixes are the fixes. */
  lemma AppliedAndSkipped(fixes: seq<Fix>)
    ensures multiset(Pick(fixes, Accepted(fixes, |fixes|))) + multiset(Pick(fixes, Skipped(fixes))) == multiset(fixes)
  {
    hide Pick, Accepted, Overlapping, Conflicting;
    PartitionUpTo(fixes, |fixes|);
    PickConcat(fixes, Overlapping(fixes, |fixes|), Conflicting(fixes, |fixes|));
    assert fixes[..|fixes|] == fixes;
  }

  ghost predicate InOrder(at: seq<nat>) {
    forall i, j :: 0 <= i < j < |at| ==> at[i] < at[j]
  }

  lemma {:induction false} EachInOrder(fixes: seq<Fix>, n: nat)
    requires n <= |fixes|
    ensures InOrder(Overlapping(fixes, n)) && InOrder(Conflicting(fixes, n))
    decreases n
  {
    hide OverlapsItself, Accepted;
    if n > 0 {
      EachInOrder(fixes, n - 1);
    }
  }

  lemma {:induction false} OverlappingExactly(fixes: seq<Fix>, n: nat, i: nat)
    requires n <= |fixes|
    ensures i in Overlapping(fixes, n) <==> i < n && OverlapsItself(fixes[i])
    decreases n
  {
    hide OverlapsItself;
    if n > 0 {
      OverlappingExactly(fixes, n - 1, i);
    }
  }

  lemma {:induction false} ConflictingExactly(fixes: seq<Fix>, n: nat, i: nat)
    requires n <= |fixes|
    ensures i in Conflicting(fixes, n) <==> i < n && !OverlapsItself(fixes[i]) && i !in Accepted(fixes, n)
    decreases n
  {
    hide OverlapsItself, Accepted;
    if n > 0 {
      ConflictingExactly(fixes, n - 1, i);
      AcceptedLater(fixes, n - 1, n);
    }
  }

  /** Fix j overlaps itself, and before it k conflicts with i, neither overlapping itself. */
  ghost predicate Disordering(fixes: seq<Fix>, i: nat, k: nat, j: nat) {
    && i < k < j < |fixes| && OverlapsItself(fixes[j]) && !OverlapsItself(fixes[i]) && !OverlapsItself(fixes[k])
    && Conflict(fixes[k], fixes[i])
  }

  /** Of two fixes that conflict one is skipped, before any later one that overlaps itself. */
  lemma Disordered(fixes: seq<Fix>, i: nat, k: nat, j: nat)
    requires Disordering(fixes, i, k, j)
    ensures !InOrder(Skipped(fixes))
  {
    hide OverlapsItself, Conflict, Overlapping, Conflicting, Accepted;
    var n := |fixes|;
    AcceptedExactly(fixes, n, k);
    var late := if i in Accepted(fixes, n) then k else i;
    OverlappingExactly(fixes, n, j);
    ConflictingExactly(fixes, n, late);
    var a :| 0 <= a < |Overlapping(fixes, n)| && Overlapping(fixes, n)[a] == j;
    var b :| 0 <= b < |Conflicting(fixes, n)| && Conflicting(fixes, n)[b] == late;
    var at := |Overlapping(fixes, n)| + b;
    assert Skipped(fixes)[a] == j && Skipped(fixes)[at] == late;
  }

  /** A fix skipped for a conflict conflicts with an accepted one before it. */
  lemma Ordered(fixes: seq<Fix>)
    requires forall i, k, j :: !Disordering(fixes, i, k, j)
    ensures InOrder(Skipped(fixes))
  {
    hide OverlapsItself, Conflict, Overlapping, Conflicting, Accepted;
    var n := |fixes|;
    EachInOrder(fixes, n);
    var o, c, s := Overlapping(fixes, n), Conflicting(fixes, n), Skipped(fixes);
    forall a, b | 0 <= a < |o| && 0 <= b < |c| ensures o[a] < c[b] {
      var j, k := o[a], c[b];
      OverlappingExactly(fixes, n, j);
      ConflictingExactly(fixes, n, k);
      AcceptedExactly(fixes, n, k);
      var i :| 0 <= i < k && i in Accepted(fixes, n) && Conflict(fixes[k], fixes[i]);
      AcceptedExactly(fixes, n, i);
      assert !Disordering(fixes, i, k, j);
    }
    forall a, b | 0 <= a < b < |s| ensures s[a] < s[b] {
      if a < |o| <= b {
        assert o[a] < c[b - |o|];
      }
    }
  }

  /** The skipped fixes are in argument order if and only if no fix that overlaps itself comes after
      two that do not but conflict with each other. */
  lemma SkippedOrder(fixes: seq<Fix>)
    ensures InOrder(Skipped(fixes)) <==>
            forall i, k, j :: 0 <= i < k < j < |fixes| && OverlapsItself(fixes[j])
                              && !OverlapsItself(fixes[i]) && !OverlapsItself(fixes[k])
                              ==> !Conflict(fixes[k], fixes[i])
  {
    hide OverlapsItself, Conflict, Skipped;
    if i, k, j :| Disordering(fixes, i, k, j) {
      Disordered(fixes, i, k, j);
    } else {
      Ordered(fixes);
      forall i, k, j | 0 <= i < k < j < |fixes| && OverlapsItself(fixes[j])
                       && !OverlapsItself(fixes[i]) && !OverlapsItself(fixes[k])
        ensures !Conflict(fixes[k], fixes[i])
      {
        assert !Disordering(fixes, i, k, j);
      }
    }
  }

  const FIRST := Fix("A", [Edit(0, 2, "")])
  const SECOND := Fix("B", [Edit(1, 3, "")])
  const THIRD := Fix("C", [Edit(0, 2, ""), Edit(1, 3, "")])

  /** Three fixes, the second in conflict with the first and the third with itself: the third is
      listed before the second. */
  lemma SkippedOutOfOrder()
    ensures Pick([FIRST, SECOND, THIRD], Skipped([FIRST, SECOND, THIRD])) == [THIRD, SECOND]
  {
    hide OverlapsItself, Conflict, Accepted, Overlapping, Conflicting, Pick;
    var fixes := [FIRST, SECOND, THIRD];
    ExampleOverlaps();
    NoneOfEach(fixes);
    NextOfEach(fixes, 0);
    NextOfEach(fixes, 1);
    NextOfEach(fixes, 2);
    assert Accepted(fixes, 1) == [0] && Accepted(fixes, 2) == [0];
    assert Overlapping(fixes, 3) == [2] && Conflicting(fixes, 3) == [1];
    PickConcat(fixes, [2], [1]);
    OnePicked(fixes, 2);
    OnePicked(fixes, 1);
  }

  lemma NoneOfEach(fixes: seq<Fix>)
    ensures Accepted(fixes, 0) == Overlapping(fixes, 0) == Conflicting(fixes, 0) == []
  {
  }

  /** Where fix n goes when at most one fix is accepted before it. */
  lemma NextOfEach(fixes: seq<Fix>, n: nat)
    requires n < |fixes| && |Accepted(fixes, n)| <= 1
    ensures var out := OverlapsItself(fixes[n]);
            var clash := |Accepted(fixes, n)| == 1 && Conflict(fixes[n], fixes[Accepted(fixes, n)[0]]);
            && Accepted(fixes, n + 1) == Accepted(fixes, n) + (if out || clash then [] else [n])
            && Overlapping(fixes, n + 1) == Overlapping(fixes, n) + (if out then [n] else [])
            && Conflicting(fixes, n + 1) == Conflicting(fixes, n) + (if !out && clash then [n] else [])
  {
    hide OverlapsItself, Conflict;
  }

  lemma ExampleOverlaps()
    ensures !OverlapsItself(FIRST) && !OverlapsItself(SECOND) && OverlapsItself(THIRD) && Conflict(SECOND, FIRST)
  {
    assert !Orderly(THIRD.edits[0], THIRD.edits[1]);
    assert Touches(SECOND.edits[0], FIRST.edits[0]);
  }

  // ----- Apply -----

  /** The first edit, in argument order, that lies outside n bytes of content. */
  ghost predicate FirstOutside(fixes: seq<Fix>, n: nat, i: int, j: int) {
    && 0 <= i < |fixes| && 0 <= j < |fixes[i].edits| && !InRange(fixes[i].edits[j], n)
    && (forall k :: 0 <= k < i ==> AllInRange(fixes[k].edits, n)) && AllInRange(fixes[i].edits[..j], n)
  }

  /** The candidates after the first n fixes: the sorted edits of those that do not overlap themselves. */
  ghost predicate Candidates(fixes: seq<Fix>, edits: seq<Option<seq<Edit>>>, n: nat) {
    && n <= |fixes| == |edits|
    && forall i :: 0 <= i < n ==>
                     edits[i] == if OverlapsItself(fixes[i]) then None else Some(SortBy(Start, fixes[i].edits))
  }

  lemma TakenConflicts(fixes: seq<Fix>, i: nat)
    requires i < |fixes|
    ensures TouchesAny(SortBy(Start, fixes[i].edits), Gathered(fixes, Accepted(fixes, i)))
            <==> exists j :: 0 <= j < |Accepted(fixes, i)| && Conflict(fixes[i], fixes[Accepted(fixes, i)[j]])
  {
    hide Accepted, Touches, TouchesAny;
    var es, at := fixes[i].edits, Accepted(fixes, i);
    Sorted(Start, es);
    var ss, g := SortBy(Start, es), Gathered(fixes, at);
    TouchSets(ss, g);
    if TouchesAny(ss, g) {
      var e, t :| e in ss && t in g && Touches(e, t);
      AmongEdits(fixes, at, t);
      var j :| 0 <= j < |at| && t in fixes[at[j]].edits;
      TouchSets(es, fixes[at[j]].edits);
    }
    if j :| 0 <= j < |at| && Conflict(fixes[i], fixes[at[j]]) {
      TouchSets(es, fixes[at[j]].edits);
      var e, t :| e in es && t in fixes[at[j]].edits && Touches(e, t);
      AmongEdits(fixes, at, t);
    }
  }

  lemma TouchSets(es: seq<Edit>, ts: seq<Edit>)
    ensures TouchesAny(es, ts) <==> exists e, t :: e in es && t in ts && Touches(e, t)
  {
    hide Touches;
    if e, t :| e in es && t in ts && Touches(e, t) {
      var j :| 0 <= j < |es| && es[j] == e;
      var i :| 0 <= i < |ts| && ts[i] == t;
    }
  }

  lemma PairOverlaps(fix: Fix, n: nat, es: seq<Edit>, j: nat)
    requires AllInRange(fix.edits, n) && es == SortBy(Start, fix.edits) && 0 < j < |es| && es[j - 1].end > es[j].start
    ensures OverlapsItself(fix)
  {
    hide OverlapsItself, SortBy;
    OverlapIsLocal(fix, n);
  }

  lemma NoPairOverlaps(fix: Fix, n: nat, es: seq<Edit>)
    requires AllInRange(fix.edits, n) && es == SortBy(Start, fix.edits)
             && forall j :: 0 < j < |es| ==> es[j - 1].end <= es[j].start
    ensures !OverlapsItself(fix)
  {
    hide OverlapsItself, SortBy;
    OverlapIsLocal(fix, n);
  }

  lemma NextOverlapping(fixes: seq<Fix>, i: nat)
    requires i < |fixes|
    ensures Pick(fixes, Overlapping(fixes, i + 1))
         == Pick(fixes, Overlapping(fixes, i)) + if OverlapsItself(fixes[i]) then [fixes[i]] else []
  {
    hide OverlapsItself, Pick;
    OnePicked(fixes, i);
    PickConcat(fixes, Overlapping(fixes, i), [i]);
    var nothing: seq<nat> := [];
    assert Overlapping(fixes, i) + nothing == Overlapping(fixes, i);
  }

  /** What accepting or not the next fix does to the lists. */
  lemma NextAccepted(fixes: seq<Fix>, i: nat, taken: seq<Edit>)
    requires i < |fixes| && taken == Gathered(fixes, Accepted(fixes, i))
    ensures var clash := TouchesAny(SortBy(Start, fixes[i].edits), taken);
            if OverlapsItself(fixes[i]) then
              Accepted(fixes, i + 1) == Accepted(fixes, i) && Conflicting(fixes, i + 1) == Conflicting(fixes, i)
            else if clash then
              Accepted(fixes, i + 1) == Accepted(fixes, i) && Conflicting(fixes, i + 1) == Conflicting(fixes, i) + [i]
            else
              Accepted(fixes, i + 1) == Accepted(fixes, i) + [i] && Conflicting(fixes, i + 1) == Conflicting(fixes, i)
  {
    hide OverlapsItself, Conflict, Pick, SortBy, TouchesAny, Gathered;
    TakenConflicts(fixes, i);
    var nothing: seq<nat> := [];
    assert Conflicting(fixes, i) + nothing == Conflicting(fixes, i);
  }

  lemma AddOne(fixes: seq<Fix>, at: seq<nat>, i: nat)
    requires i < |fixes| && forall k :: 0 <= k < |at| ==> at[k] < |fixes|
    ensures forall k :: 0 <= k < |at + [i]| ==> (at + [i])[k] < |fixes|
    ensures Gathered(fixes, at + [i]) == Gathered(fixes, at) + SortBy(Start, fixes[i].edits)
    ensures EditsOf(fixes, at + [i]) == EditsOf(fixes, at) + fixes[i].edits
    ensures Pick(fixes, at + [i]) == Pick(fixes, at) + [fixes[i]]
  {
    assert (at + [i])[..|at|] == at;
  }

  /** The fixes marked among the first n are the accepted ones. */
  ghost predicate Marked(fixes: seq<Fix>, marks: seq<bool>, n: nat) {
    n <= |fixes| == |marks| && forall i :: 0 <= i < |marks| ==> marks[i] == (i in Accepted(fixes, n))
  }

  lemma {:induction false} AcceptedLater(fixes: seq<Fix>, n: nat, m: nat)
    requires n <= m <= |fixes|
    ensures forall i :: 0 <= i < n ==> (i in Accepted(fixes, n) <==> i in Accepted(fixes, m))
    decreases m
  {
    hide OverlapsItself, Conflict;
    if n < m {
      AcceptedLater(fixes, n, m - 1);
    }
  }

  lemma MarkedGather(fixes: seq<Fix>, marks: seq<bool>, i: nat)
    requires i < |fixes| && Marked(fixes, marks, |fixes|)
    ensures if marks[i] then
              && Accepted(fixes, i + 1) == Accepted(fixes, i) + [i]
              && Gathered(fixes, Accepted(fixes, i + 1)) ==
                 Gathered(fixes, Accepted(fixes, i)) + SortBy(Start, fixes[i].edits)
              && Pick(fixes, Accepted(fixes, i + 1)) == Pick(fixes, Accepted(fixes, i)) + [fixes[i]]
              && !OverlapsItself(fixes[i])
            else Accepted(fixes, i + 1) == Accepted(fixes, i)
  {
    hide OverlapsItself, Conflict, Pick, SortBy;
    AcceptedLater(fixes, i + 1, |fixes|);
    OnePicked(fixes, i);
    PickConcat(fixes, Accepted(fixes, i), [i]);
    assert (Accepted(fixes, i) + [i])[..|Accepted(fixes, i)|] == Accepted(fixes, i);
  }

  lemma MarkNext(fixes: seq<Fix>, marks: seq<bool>, i: nat)
    requires i < |fixes| && Marked(fixes, marks, i)
    ensures Marked(fixes, if i in Accepted(fixes, i + 1) then marks[i := true] else marks, i + 1)
  {
    hide OverlapsItself, Conflict;
    AcceptedLater(fixes, i, i + 1);
  }

  /** content with the fixes applied. */
  method Apply(content: string, fixes: seq<Fix>) returns (r: Outcome)
    ensures r.Failed? <==> exists i :: 0 <= i < |fixes| && !AllInRange(fixes[i].edits, |content|)
    ensures r.Failed? ==>
            exists i, j :: FirstOutside(fixes, |content|, i, j) && r == Failed(fixes[i].title, fixes[i].edits[j])
    ensures r.Done? ==>
            r == Done(Substitute(content, 0, Landing(fixes)), Pick(fixes, Accepted(fixes, |fixes|)),
                      Pick(fixes, Skipped(fixes)))
  {
    hide Accepted, Overlapping, Conflicting, OverlapsItself, Pick, SortBy, Gathered, EditsOf, Substitute, TouchesAny,
         Chain, Landing, Marked, Conflict, Pairwise, SortedBy;
    var n := |fixes|;
    var edits := new Option<seq<Edit>>[n](_ => None);
    var accepted := new bool[n](_ => false);
    var skipped: seq<Fix> := [];
    NonePicked(fixes);
    assert Pick(fixes, Overlapping(fixes, 0)) == [] by {
      NoneYet(fixes);
    }
    for i := 0 to n
      invariant Candidates(fixes, edits[..], i) && skipped == Pick(fixes, Overlapping(fixes, i))
      invariant forall k :: 0 <= k < i ==> AllInRange(fixes[k].edits, |content|)
      invariant forall k :: i <= k < n ==> edits[k] == None
      invariant forall k :: 0 <= k < n ==> !accepted[k]
    {
      var fx := fixes[i];
      var es: seq<Edit> := [];
      var ok := true;
      ghost var before := edits[..];
      for k := 0 to |fx.edits|
        invariant es == fx.edits[..k] && AllInRange(es, |content|)
        invariant edits[..] == before && forall k :: 0 <= k < n ==> !accepted[k]
      {
        var e := fx.edits[k];
        if e.start < 0 || e.start > e.end || e.end > |content| {
          assert FirstOutside(fixes, |content|, i, k);
          return Failed(fx.title, e);
        }
        es := es + [e];
      }
      assert es == fx.edits;
      es := SortBy(Start, es);
      var j := 1;
      while j < |es| && ok
        invariant 1 <= j && (ok ==> forall k :: 0 < k < j && k < |es| ==> es[k - 1].end <= es[k].start)
        invariant !ok ==> OverlapsItself(fx)
        invariant edits[..] == before && forall k :: 0 <= k < n ==> !accepted[k]
        invariant skipped == Pick(fixes, Overlapping(fixes, i)) + if ok then [] else [fx]
      {
        if es[j - 1].end > es[j].start {
          PairOverlaps(fx, |content|, es, j);
          skipped := skipped + [fx];
          ok := false;
        }
        j := j + 1;
      }
      NextOverlapping(fixes, i);
      if ok {
        NoPairOverlaps(fx, |content|, es);
        edits[i] := Some(es);
      }
    }
    var taken: seq<Edit> := [];
    NoneAccepted(fixes, accepted[..]);
    for i := 0 to n
      invariant Candidates(fixes, edits[..], n) && Marked(fixes, accepted[..], i)
      invariant taken == Gathered(fixes, Accepted(fixes, i))
      invariant skipped == Pick(fixes, Overlapping(fixes, n)) + Pick(fixes, Conflicting(fixes, i))
    {
      NextAccepted(fixes, i, taken);
      AddOne(fixes, Accepted(fixes, i), i);
      AddOne(fixes, Conflicting(fixes, i), i);
      MarkNext(fixes, accepted[..], i);
      if edits[i].Some? {
        var es := edits[i].value;
        if TouchesAny(es, taken) {
          skipped := skipped + [fixes[i]];
        } else {
          accepted[i] := true;
          taken := taken + es;
        }
      }
    }
    PickConcat(fixes, Overlapping(fixes, n), Conflicting(fixes, n));
    var flat: seq<Edit> := [];
    var applied: seq<Fix> := [];
    for i := 0 to n
      invariant Candidates(fixes, edits[..], n) && Marked(fixes, accepted[..], n)
      invariant flat == Gathered(fixes, Accepted(fixes, i)) && applied == Pick(fixes, Accepted(fixes, i))
    {
      MarkedGather(fixes, accepted[..], i);
      if accepted[i] {
        flat := flat + edits[i].value;
        applied := applied + [fixes[i]];
      }
    }
    GatheredSorts(fixes, Accepted(fixes, n));
    flat := SortBy(Place, flat);
    Lands(content, fixes, flat);
    var out := content;
    var i := |flat|;
    while i > 0
      invariant 0 <= i <= |flat| && out == SplicedFrom(content, flat, i)
    {
      i := i - 1;
      var e := flat[i];
      SpliceInRange(content, flat, i);
      out := out[..e.start] + e.text + out[e.end..];
    }
    return Done(out, applied, skipped);
  }

  lemma NoneYet(fixes: seq<Fix>)
    ensures Overlapping(fixes, 0) == []
  {
  }

  lemma NoneAccepted(fixes: seq<Fix>, marks: seq<bool>)
    requires |marks| == |fixes| && forall k :: 0 <= k < |fixes| ==> !marks[k]
    ensures Marked(fixes, marks, 0) && Gathered(fixes, Accepted(fixes, 0)) == []
    ensures Pick(fixes, Accepted(fixes, 0)) == Pick(fixes, Conflicting(fixes, 0)) == []
  {
  }

  lemma Lands(content: string, fixes: seq<Fix>, flat: seq<Edit>)
    requires forall i :: 0 <= i < |fixes| ==> AllInRange(fixes[i].edits, |content|)
    requires flat == SortBy(Place, EditsOf(fixes, Accepted(fixes, |fixes|)))
    ensures flat == Landing(fixes) && Chain(flat) && AllInRange(flat, |content|)
    ensures SplicedFrom(content, flat, 0) == Substitute(content, 0, flat)
  {
    hide Accepted, SortBy, Chain, AllInRange, Substitute;
    LandingOrder(content, fixes);
    SplicesSubstitute(content, flat, 0);
  }

  /** What is spliced next lies in what has not been changed yet. */
  lemma SpliceInRange(content: string, es: seq<Edit>, i: nat)
    requires i < |es| && Chain(es) && AllInRange(es, |content|)
    ensures InRange(es[i], |SplicedFrom(content, es, i + 1)|)
  {
    hide Substitute;
    SplicesSubstitute(content, es, i + 1);
    assert InRange(es[i], |content|);
    assert i + 1 < |es| ==> es[i].end <= es[i + 1].start && InRange(es[i + 1], |content|);
  }
}
