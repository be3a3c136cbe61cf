/** Every interleaving of content writes, Update, Evict and concurrent Parse calls on a view
    (store/view.go); the code between lock and unlock is one step. */
module ViewRuns {
  import opened ViewStore
  import opened Wrappers

  /** A Parse call past its cache lookup: it has loaded the generation, or read the content too. */
  datatype Flight =
    | Started(file: Uri, guard: Option<nat>, gen: nat)
    | Loaded(file: Uri, guard: Option<nat>, gen: nat, content: string)

  /** fs holds the current contents. pending holds the files written since the last Update that
      named them; evicted, for each file, the files evicted since its parse was committed. */
  datatype State = State(
    fs: map<Uri, string>,
    store: Store,
    flights: map<nat, Flight>,
    pending: set<Uri>,
    evicted: map<Uri, set<Uri>>)

  datatype Event =
    | Write(file: Uri, content: Option<string>)
    | Update(files: seq<Uri>)
    | Evict(files: seq<Uri>)
    | ParseStarts(id: nat, file: Uri, guard: Option<nat>)
    | ParseReads(id: nat)
    | ParseCommits(id: nat)

  function Start(fs: map<Uri, string>): State {
    State(fs, Empty(), map[], {}, map[])
  }

  function EvictedSince(st: State, u: Uri): set<Uri> {
    if u in st.evicted then st.evicted[u] else {}
  }

  function Elements(files: seq<Uri>): set<Uri> {
    set f | f in files
  }

  /** An event that is not enabled changes nothing. */
  function Step(world: World, st: State, e: Event): State {
    match e
    case Write(u, content) =>
      st.(fs := if content.Some? then st.fs[u := content.value] else st.fs - {u}, pending := st.pending + {u})
    case Update(files) =>
      st.(store := Updated(st.store, SortCompact(files)), pending := st.pending - Elements(files))
    case Evict(files) =>
      st.(store := Evicted(st.store, SortCompact(files)),
          evicted := map u | u in st.store.entries :: EvictedSince(st, u) + Elements(files))
    case ParseStarts(id, u, guard) =>
      st.(flights := st.flights[id := Started(u, guard, st.store.gen)])
    case ParseReads(id) =>
      if id in st.flights && st.flights[id].Started? then
        var p := st.flights[id];
        if p.file in st.fs then st.(flights := st.flights[id := Loaded(p.file, p.guard, p.gen, st.fs[p.file])])
        else st.(flights := st.flights - {id})
      else st
    case ParseCommits(id) =>
      if id in st.flights && st.flights[id].Loaded? then
        var p := st.flights[id];
        var pf := ParseOf(world, p.content);
        st.(flights := st.flights - {id},
            store := CommitIfCurrent(st.store, p.file, p.guard, p.gen, pf, IncludesOf(world, p.file, pf)),
            evicted := if (p.guard.None? || p.guard.value == p.gen) && st.store.gen == p.gen
                       then st.evicted[p.file := {}] else st.evicted)
      else st
  }

  function Run(world: World, fs: map<Uri, string>, events: seq<Event>): State
    decreases |events|
  {
    if events == [] then Start(fs)
    else Step(world, Run(world, fs, events[..|events| - 1]), events[|events| - 1])
  }

  // ----- what every run keeps -----

  /** The cached parse of u is the parse of its current content, unless an Update of u is pending. */
  ghost predicate FreshAt(world: World, st: State, u: Uri) {
    Cached(st.store, u) && u !in st.pending ==> u in st.fs && st.store.entries[u] == Some(ParseOf(world, st.fs[u]))
  }

  ghost predicate Fresh(world: World, st: State) {
    forall u :: FreshAt(world, st, u)
  }

  /** A call that may still commit read the current content, unless an Update of its file is pending. */
  ghost predicate FlightOK(st: State, p: Flight) {
    && p.gen <= st.store.gen
    && (p.Loaded? && p.gen == st.store.gen && p.file !in st.pending ==> p.file in st.fs && st.fs[p.file] == p.content)
  }

  ghost predicate Flying(st: State) {
    forall id :: id in st.flights ==> FlightOK(st, st.flights[id])
  }

  /** The edges of u are the includes of its cached parse but for the files evicted since. */
  ghost predicate EdgesAt(world: World, st: State, u: Uri) {
    if Cached(st.store, u) then
      forall x :: Edge(st.store, u, x) <==>
                    Includes(world, u, st.store.entries[u].value, x) && x !in EvictedSince(st, u)
    else At(st.store.includes, u) == []
  }

  ghost predicate Edged(world: World, st: State) {
    forall u :: EdgesAt(world, st, u)
  }

  lemma WriteKeeps(world: World, st: State, u: Uri, content: Option<string>)
    requires Wired(st.store) && Fresh(world, st) && Flying(st) && Edged(world, st)
    ensures var r := Step(world, st, Write(u, content));
            Wired(r.store) && Fresh(world, r) && Flying(r) && Edged(world, r)
  {
    hide Wired;
    var r := Step(world, st, Write(u, content));
    forall v ensures FreshAt(world, r, v) {
      assert FreshAt(world, st, v);
    }
    forall v ensures EdgesAt(world, r, v) {
      assert EdgesAt(world, st, v);
    }
  }

  lemma EdgesSame(world: World, a: State, b: State, u: Uri)
    requires EdgesAt(world, a, u) && At(b.store.includes, u) == At(a.store.includes, u)
    requires Cached(b.store, u) == Cached(a.store, u) && EvictedSince(b, u) == EvictedSince(a, u)
    requires Cached(a.store, u) ==> b.store.entries[u] == a.store.entries[u]
    ensures EdgesAt(world, b, u)
  {
    assert forall x :: Edge(b.store, u, x) <==> Edge(a.store, u, x);
  }

  lemma UpdateKept(world: World, st: State, files: seq<Uri>)
    requires Wired(st.store) && Fresh(world, st) && Flying(st) && Edged(world, st)
    ensures var r := Step(world, st, Update(files)); Wired(r.store) && Fresh(world, r) && Flying(r) && Edged(world, r)
  {
    hide Wired, Updated, SortCompact;
    var r := Step(world, st, Update(files));
    var us := SortCompact(files);
    UpdateKeeps(st.store, us);
    forall v ensures FreshAt(world, r, v) {
      assert FreshAt(world, st, v);
    }
    forall v ensures EdgesAt(world, r, v) {
      assert EdgesAt(world, st, v);
      if v !in us {
        assert v in r.store.entries.Keys <==> v in st.store.entries.Keys;
        EdgesSame(world, st, r, v);
      }
    }
  }

  lemma EvictKept(world: World, st: State, files: seq<Uri>)
    requires Wired(st.store) && Fresh(world, st) && Flying(st) && Edged(world, st)
    ensures var r := Step(world, st, Evict(files)); Wired(r.store) && Fresh(world, r) && Flying(r) && Edged(world, r)
  {
    hide Wired, Evicted, SortCompact, WithoutAll;
    var r := Step(world, st, Evict(files));
    var us := SortCompact(files);
    EvictKeeps(st.store, us);
    assert us[..|us|] == us;
    forall v ensures FreshAt(world, r, v) {
      assert FreshAt(world, st, v);
    }
    forall v ensures EdgesAt(world, r, v) {
      assert EdgesAt(world, st, v);
      SomeElement(At(r.store.includes, v));
      assert forall x :: x in us <==> x in files;
    }
  }

  lemma ParseKept(world: World, st: State, e: Event)
    requires Wired(st.store) && Fresh(world, st) && Flying(st) && Edged(world, st)
    requires e.ParseStarts? || e.ParseReads?
    ensures var r := Step(world, st, e); Wired(r.store) && Fresh(world, r) && Flying(r) && Edged(world, r)
  {
    hide Wired;
    var r := Step(world, st, e);
    forall v ensures FreshAt(world, r, v) {
      assert FreshAt(world, st, v);
    }
    forall v ensures EdgesAt(world, r, v) {
      assert EdgesAt(world, st, v);
    }
  }

  lemma CommitKept(world: World, st: State, id: nat)
    requires Wired(st.store) && Fresh(world, st) && Flying(st) && Edged(world, st)
    ensures var r := Step(world, st, ParseCommits(id));
            Wired(r.store) && Fresh(world, r) && Flying(r) && Edged(world, r)
  {
    hide Wired, Commit, IncludesOf, ParseOf;
    var r := Step(world, st, ParseCommits(id));
    if id in st.flights && st.flights[id].Loaded? {
      var p := st.flights[id];
      var pf := ParseOf(world, p.content);
      Committed(st.store, p.file, pf, IncludesOf(world, p.file, pf));
      assert FlightOK(st, p);
      forall v ensures FreshAt(world, r, v) {
        assert FreshAt(world, st, v);
      }
      forall v ensures EdgesAt(world, r, v) {
        assert EdgesAt(world, st, v);
      }
    }
  }

  /** In every run: the two edge maps are duplicate-free inverses, the cached parse of a file is the
      parse of its current content whenever no Update of it is pending, and its edges are that
      parse's includes but for the files evicted since. */
  lemma {:induction false} CachedIsCurrent(world: World, fs: map<Uri, string>, events: seq<Event>)
    ensures var st := Run(world, fs, events); Wired(st.store) && Fresh(world, st) && Flying(st) && Edged(world, st)
    decreases |events|
  {
    hide Wired, Step, Fresh, Flying, Edged;
    if events == [] {
      EmptyIsWired();
      StartIsFresh(world, fs);
    } else {
      var before, e := events[..|events| - 1], events[|events| - 1];
      CachedIsCurrent(world, fs, before);
      var st := Run(world, fs, before);
      match e {
        case Write(u, content) => WriteKeeps(world, st, u, content);
        case Update(files) => UpdateKept(world, st, files);
        case Evict(files) => EvictKept(world, st, files);
        case ParseCommits(id) => CommitKept(world, st, id);
        case _ => ParseKept(world, st, e);
      }
    }
  }

  lemma StartIsFresh(world: World, fs: map<Uri, string>)
    ensures Fresh(world, Start(fs)) && Flying(Start(fs)) && Edged(world, Start(fs))
  {
  }

  /** Analysis work for a generation the view has left, or a parse that began before the last change,
      changes neither the cache nor the edges. */
  lemma StaleWorkIsDropped(world: World, st: State, id: nat)
    requires id in st.flights && st.flights[id].Loaded?
    requires st.flights[id].gen != st.store.gen
             || (st.flights[id].guard.Some? && st.flights[id].guard.value != st.store.gen)
    ensures Step(world, st, ParseCommits(id)) == st.(flights := st.flights - {id})
  {
    hide Commit, IncludesOf, ParseOf;
  }

  // ----- when edges and parses agree -----

  lemma RunNext(world: World, fs: map<Uri, string>, events: seq<Event>, e: Event)
    ensures Run(world, fs, events + [e]) == Step(world, Run(world, fs, events), e)
    ensures Run(world, fs, []) == Start(fs)
  {
    assert (events + [e])[..|events|] == events;
  }

  /** Evicting a file drops the edges of includers whose parse stays cached: from a tracked, parsed
      file with one include, evicting the include leaves a cached parse without its edge. */
  lemma EvictDropsEdges(world: World, a: Uri, b: Uri, content: string)
    requires a != b && forall x :: Includes(world, a, ParseOf(world, content), x) <==> x == b
    ensures var st := Run(world, map[a := content],
                          [ParseStarts(0, a, None), ParseReads(0), ParseCommits(0), Evict([b])]);
            Cached(st.store, a) && Includes(world, a, st.store.entries[a].value, b) && !Edge(st.store, a, b)
  {
    hide Wired, Commit, IncludesOf, ParseOf, Evicted, SortCompact, WithoutAll;
    var fs := map[a := content];
    var e := [ParseStarts(0, a, None), ParseReads(0), ParseCommits(0), Evict([b])];
    var pf := ParseOf(world, content);
    EmptyIsWired();
    Committed(Empty(), a, pf, IncludesOf(world, a, pf));
    RunNext(world, fs, [], e[0]);
    RunNext(world, fs, [e[0]], e[1]);
    RunNext(world, fs, [e[0], e[1]], e[2]);
    RunNext(world, fs, [e[0], e[1], e[2]], e[3]);
    assert [] + [e[0]] == [e[0]] && [e[0]] + [e[1]] == [e[0], e[1]] && [e[0], e[1]] + [e[2]] == [e[0], e[1], e[2]]
           && [e[0], e[1], e[2]] + [e[3]] == e;
    var s3 := Run(world, fs, [e[0], e[1], e[2]]);
    assert s3.store == Commit(Empty(), a, pf, IncludesOf(world, a, pf));
    var us := SortCompact([b]);
    EvictKeeps(s3.store, us);
    assert us[..|us|] == us;
  }
}
