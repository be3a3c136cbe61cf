/** What a finished load changes: its projects are taken in, and their targets are routed
    (lsp/workspace.go). */
module WorkspaceLoads {
  import opened WorkspaceModel
  import opened WorkspaceRuns
  import opened Wrappers

  // ----- the valid projects of a snapshot -----

  /** r holds exactly the valid projects of ps, in order, each as often as ps does: indexes gives the places. */
  ghost predicate PickedAt(world: World, ps: seq<Project>, r: seq<Project>, indexes: seq<nat>) {
    && |indexes| == |r| && (forall k, l :: 0 <= k < l < |indexes| ==> indexes[k] < indexes[l])
    && (forall k :: 0 <= k < |r| ==> indexes[k] < |ps| && r[k] == ps[indexes[k]])
    && forall i :: 0 <= i < |ps| ==> (i in indexes <==> ValidProject(world, ps[i]))
  }

  ghost predicate ValidOnes(world: World, ps: seq<Project>, r: seq<Project>) {
    exists indexes :: PickedAt(world, ps, r, indexes)
  }

  lemma {:induction false} ValidatedIs(world: World, ps: seq<Project>)
    ensures ValidOnes(world, ps, Validated(world, ps))
    decreases |ps|
  {
    hide ValidProject;
    if ps == [] {
      assert PickedAt(world, ps, [], []);
    } else {
      var n := |ps| - 1;
      ValidatedIs(world, ps[..n]);
      var rest := Validated(world, ps[..n]);
      var indexes :| PickedAt(world, ps[..n], rest, indexes);
      OneMore(world, ps, rest, indexes);
    }
  }

  lemma OneMore(world: World, ps: seq<Project>, rest: seq<Project>, indexes: seq<nat>)
    requires ps != [] && PickedAt(world, ps[..|ps| - 1], rest, indexes)
    ensures var p := ps[|ps| - 1]; ValidOnes(world, ps, if ValidProject(world, p) then rest + [p] else rest)
  {
    hide ValidProject;
    var n := |ps| - 1;
    forall k | 0 <= k < |indexes| ensures indexes[k] < n {
      assert rest[k] == ps[..n][indexes[k]];
    }
    forall i | 0 <= i < n ensures i in indexes <==> ValidProject(world, ps[i]) {
      assert ps[..n][i] == ps[i];
    }
    if ValidProject(world, ps[n]) {
      var more := indexes + [n];
      forall i | 0 <= i < |ps| ensures i in more <==> ValidProject(world, ps[i]) {
        assert i in more <==> i in indexes || i == n;
      }
      assert PickedAt(world, ps, rest + [ps[n]], more);
    } else {
      assert n !in indexes;
      assert PickedAt(world, ps, rest, indexes);
    }
  }

  // ----- one batch -----

  /** Of the jobs for this registration that loaded something, i is the last. */
  ghost predicate LoadedLast(jobs: seq<Job>, outcomes: seq<Option<seq<Project>>>, j: Job, i: int)
    requires |jobs| == |outcomes|
  {
    && 0 <= i < |jobs| && jobs[i] == j && outcomes[i].Some?
    && forall k :: i < k < |jobs| && jobs[k] == j ==> outcomes[k].None?
  }

  /** What a batch with k jobs done has made of a folder, its job being j. */
  ghost predicate TakenIn(world: World, before: Folder, after: Folder, jobs: seq<Job>,
                          outcomes: seq<Option<seq<Project>>>, j: Job)
    requires |jobs| == |outcomes|
  {
    && after.id == before.id
    && (j in jobs ==> !after.loading) && (j !in jobs ==> after == before)
    && (forall i :: LoadedLast(jobs, outcomes, j, i) ==>
          ValidOnes(world, outcomes[i].value, after.snapshot) && after.loadedBy == Some(j.id))
    && ((forall i :: 0 <= i < |jobs| && jobs[i] == j ==> outcomes[i].None?) ==>
          after.snapshot == before.snapshot && after.loadedBy == before.loadedBy)
  }

  lemma {:induction false} EachTakenIn(world: World, folders: map<Uri, Folder>, jobs: seq<Job>,
                                       outcomes: seq<Option<seq<Project>>>, k: nat, f: Uri)
    requires k <= |jobs| == |outcomes| && f in folders
    ensures var r := SettleEach(world, folders, jobs, outcomes, k);
            f in r && TakenIn(world, folders[f], r[f], jobs[..k], outcomes[..k], Job(f, folders[f].id))
    decreases k
  {
    hide Validated, ValidOnes, SettleEach, TakenIn;
    if k == 0 {
      NothingTakenIn(world, folders, jobs, outcomes, f);
    } else {
      EachTakenIn(world, folders, jobs, outcomes, k - 1, f);
      var m := SettleEach(world, folders, jobs, outcomes, k - 1);
      SettleStep(world, folders, jobs, outcomes, k);
      SettleTakesIn(world, folders[f], m, jobs[..k - 1], outcomes[..k - 1], jobs[k - 1], outcomes[k - 1], f);
      assert jobs[..k] == jobs[..k - 1] + [jobs[k - 1]] && outcomes[..k] == outcomes[..k - 1] + [outcomes[k - 1]];
    }
  }

  lemma SettleStep(world: World, folders: map<Uri, Folder>, jobs: seq<Job>, outcomes: seq<Option<seq<Project>>>, k: nat)
    requires 0 < k <= |jobs| == |outcomes|
    ensures SettleEach(world, folders, jobs, outcomes, k) ==
            Settle(world, SettleEach(world, folders, jobs, outcomes, k - 1), jobs[k - 1], outcomes[k - 1])
  {
    hide Settle;
  }

  lemma NothingTakenIn(world: World, folders: map<Uri, Folder>, jobs: seq<Job>, outcomes: seq<Option<seq<Project>>>,
                       f: Uri)
    requires |jobs| == |outcomes| && f in folders
    ensures SettleEach(world, folders, jobs, outcomes, 0) == folders
    ensures TakenIn(world, folders[f], folders[f], jobs[..0], outcomes[..0], Job(f, folders[f].id))
  {
    hide ValidOnes;
  }

  lemma SettleTakesIn(world: World, before: Folder, m: map<Uri, Folder>, jobs: seq<Job>,
                      outcomes: seq<Option<seq<Project>>>, last: Job, outcome: Option<seq<Project>>, f: Uri)
    requires |jobs| == |outcomes| && f in m && TakenIn(world, before, m[f], jobs, outcomes, Job(f, before.id))
    ensures var r := Settle(world, m, last, outcome);
            f in r && TakenIn(world, before, r[f], jobs + [last], outcomes + [outcome], Job(f, before.id))
  {
    hide Validated, ValidOnes;
    var j, js, os := Job(f, before.id), jobs + [last], outcomes + [outcome];
    assert j in js <==> j in jobs || j == last;
    if outcome.Some? {
      ValidatedIs(world, outcome.value);
    }
    forall i | LoadedLast(js, os, j, i) && i < |jobs| ensures LoadedLast(jobs, outcomes, j, i)
      && (j != last || outcome.None?) {
      assert js[i] == jobs[i] && os[i] == outcomes[i];
      assert js[|jobs|] == last && os[|jobs|] == outcome;
      forall k | i < k < |jobs| && jobs[k] == j ensures outcomes[k].None? {
        assert js[k] == jobs[k] && os[k] == outcomes[k];
      }
    }
    if forall i :: 0 <= i < |js| && js[i] == j ==> os[i].None? {
      forall i | 0 <= i < |jobs| && jobs[i] == j ensures outcomes[i].None? {
        assert js[i] == jobs[i] && os[i] == outcomes[i];
      }
      assert js[|jobs|] == last && os[|jobs|] == outcome;
    }
  }

  /** A finished batch takes every result in whose registration is still its folder's: the folder then has the
      valid projects of the last load that succeeded, or what it had before, and is not loading. */
  lemma FinishTakesIn(world: World, st: State, batch: nat, outcomes: seq<Option<seq<Project>>>, f: Uri)
    requires st.loads && batch in st.jobs && |st.jobs[batch]| == |outcomes| && f in st.folders
    ensures var r := Step(world, st, Finish(batch, outcomes));
            && f in r.folders
            && TakenIn(world, st.folders[f], r.folders[f], st.jobs[batch], outcomes, Job(f, st.folders[f].id))
  {
    hide TakenIn, Settle, Reconciled;
    var jobs := st.jobs[batch];
    EachTakenIn(world, st.folders, jobs, outcomes, |jobs|, f);
    assert jobs[..|jobs|] == jobs && outcomes[..|jobs|] == outcomes;
    ReconciledFolders(world,
                      st.(folders := SettleEach(world, st.folders, jobs, outcomes, |jobs|), jobs := st.jobs - {batch}));
  }

  lemma ReconciledFolders(world: World, st: State)
    ensures Reconciled(world, st).folders == st.folders
  {
    hide ModelOf, ViewFor;
  }

  // ----- the targets of what is loaded -----

  lemma {:induction false} InProjects(snapshots: map<Uri, seq<Project>>, folders: seq<Uri>, f: Uri, p: Project)
    requires f in folders && f in snapshots && p in snapshots[f]
    ensures p in AllProjects(snapshots, folders)
    decreases |folders|
  {
    if folders[|folders| - 1] != f {
      InProjects(snapshots, folders[..|folders| - 1], f, p);
    }
  }

  lemma {:induction false} AgreeingHolds(b: Build, ps: seq<Project>, p: Project)
    requires p in ps && p.root in b.roots && b.roots[p.root].includes == p.includes
    ensures p in Agreeing(b, ps)
    decreases |ps|
  {
    if ps[|ps| - 1] != p {
      AgreeingHolds(b, ps[..|ps| - 1], p);
    }
  }

  /** In a workspace that is in order, the root of every project of a folder is a root, and if the project has the
      include paths of its root, each of its targets is routed to a view, under a root that contains it if
      any does. */
  lemma ProjectRouted(world: World, st: State, f: Uri, p: Project)
    requires Good(world, st) && f in st.folders && p in st.folders[f].snapshot
    ensures p.root in st.model.roots && p.root in st.views
    ensures st.model.roots[p.root].includes == p.includes ==>
              forall t :: t in p.targets ==> ViewOf(world, st, t).Some? && t in ViewOf(world, st, t).value.known
  {
    hide ModelOf, BuildOf, AllProjects, Sorted, ValidProject, FolderOK, ViewOf, Agreeing, OwnerOf, BestOr;
    var snapshots := Snapshots(st.folders);
    SnapshotsValid(world, st);
    ModelIs(world, snapshots);
    var ps := AllProjects(snapshots, Sorted(snapshots.Keys));
    var b := BuildOf(ps);
    InProjects(snapshots, Sorted(snapshots.Keys), f, p);
    BuildIs(ps);
    assert p.root in b.roots;
    if st.model.roots[p.root].includes == p.includes {
      AgreeingHolds(b, ps, p);
      forall t | t in p.targets ensures ViewOf(world, st, t).Some? && t in ViewOf(world, st, t).value.known {
        TargetIn(world, st.model, b.projects, p, t);
        RoutesToItsView(world, st, t);
        TargetOwned(world, st.model, st.documents, t);
      }
    }
  }

  lemma TargetIn(world: World, m: Model, ps: seq<Project>, p: Project, t: Uri)
    requires TargetsRouted(world, m, ps, |ps|) && p in ps && t in p.targets
    ensures t in m.targets
  {
    hide BestOr;
    var i :| 0 <= i < |ps| && ps[i] == p;
    var j :| 0 <= j < |p.targets| && p.targets[j] == t;
    assert ps[i].targets[j] in m.targets;
  }

  lemma TargetOwned(world: World, m: Model, documents: set<Uri>, t: Uri)
    requires t in m.targets
    ensures OwnerOf(world, m, documents, t) == Some(m.targets[t])
  {
  }

  /** When a load finishes for a registration that is still its folder's, every valid project it brought has its
      root in the workspace, and if the project is accepted there its targets are routed to views. */
  lemma LoadedIsRouted(world: World, st: State, batch: nat, outcomes: seq<Option<seq<Project>>>, f: Uri, i: nat,
                       p: Project)
    requires Good(world, st) && st.loads && batch in st.jobs && |st.jobs[batch]| == |outcomes| && f in st.folders
    requires LoadedLast(st.jobs[batch], outcomes, Job(f, st.folders[f].id), i)
    requires p in outcomes[i].value && ValidProject(world, p)
    ensures var r := Step(world, st, Finish(batch, outcomes));
            && p.root in r.model.roots && p.root in r.views
            && (r.model.roots[p.root].includes == p.includes ==>
                  forall t :: t in p.targets ==> ViewOf(world, r, t).Some? && t in ViewOf(world, r, t).value.known)
  {
    hide Good, Step, ValidProject, ValidOnes, ViewOf;
    StepKeeps(world, st, Finish(batch, outcomes));
    FinishTakesIn(world, st, batch, outcomes, f);
    var r := Step(world, st, Finish(batch, outcomes));
    ValidHeld(world, outcomes[i].value, r.folders[f].snapshot, p);
    ProjectRouted(world, r, f, p);
  }

  lemma ValidHeld(world: World, ps: seq<Project>, r: seq<Project>, p: Project)
    requires ValidOnes(world, ps, r) && p in ps && ValidProject(world, p)
    ensures p in r
  {
    hide ValidProject;
    var indexes :| PickedAt(world, ps, r, indexes);
    var i :| 0 <= i < |ps| && ps[i] == p;
    assert i in indexes;
    var k :| 0 <= k < |indexes| && indexes[k] == i;
    assert r[k] == p;
  }

  // ----- loads that start -----

  /** A load for f's registration is under way since this step. */
  ghost predicate Loading(before: State, after: State, f: Uri) {
    && before.nextBatch in after.jobs && after.nextBatch == before.nextBatch + 1
    && f in after.folders && Job(f, after.folders[f].id) in after.jobs[before.nextBatch]
  }

  lemma LoadStarts(st: State, fs: seq<Uri>, f: Uri)
    requires st.loads && f in fs && f in st.folders && !st.folders[f].loading
    ensures Loading(st, Load(st, fs), f) && Load(st, fs).folders[f].loading
  {
    hide Claim;
    var c := Claim(st.folders, fs);
    ClaimsOnce(st.folders, fs);
    ClaimMarks(st.folders, fs);
    assert HasJob(c.jobs, f);
    var i :| 0 <= i < |c.jobs| && c.jobs[i].folder == f;
    assert c.jobs[i] == Job(f, st.folders[f].id);
  }

  /** Starting loads every registered folder that is not loading. */
  lemma StartLoadsAll(world: World, st: State, f: Uri)
    requires st.loads && f in st.folders && !st.folders[f].loading
    ensures Loading(st, Step(world, st, Start), f)
  {
    LoadStarts(st, Sorted(st.folders.Keys), f);
  }

  lemma {:induction false} RegisteredAll(st: State, fs: seq<Uri>, f: Uri)
    ensures var r := RegisterEach(st, fs);
            && r.loads == st.loads && r.nextBatch == st.nextBatch && r.jobs == st.jobs
            && (f in r.folders <==> f in st.folders || f in fs)
            && (f in st.folders ==> r.folders[f] == st.folders[f])
            && (f in fs && f !in st.folders ==> !r.folders[f].loading && r.folders[f].snapshot == [])
    decreases |fs|
  {
    if fs != [] {
      RegisteredAll(st, fs[..|fs| - 1], f);
    }
  }

  lemma {:induction false} UnregisteredHolds(st: State, fs: seq<Uri>, f: Uri)
    ensures f in Unregistered(st, fs) <==> f in fs && f !in st.folders
    decreases |fs|
  {
    if fs != [] {
      UnregisteredHolds(st, fs[..|fs| - 1], f);
    }
  }

  /** A folder that is added, or removed and added, gets a new registration and a load for it; a folder that is
      removed only is gone. */
  lemma AddedIsLoaded(world: World, st: State, added: seq<Uri>, removed: seq<Uri>, f: Uri)
    requires st.loads
    ensures var r := Step(world, st, ChangeFolders(added, removed));
            && (f in r.folders <==> f in added || (f in st.folders && f !in removed))
            && (f in added && (f !in st.folders || f in removed) ==>
                  Loading(st, r, f) && r.folders[f].loading && r.folders[f].snapshot == [])
  {
    hide Load, RegisterEach, Unregistered, Reconciled;
    var kept := Removed(world, st, removed);
    var all := RegisterEach(kept, added);
    ReconciledFolders(world, st.(folders := st.folders - Elements(removed)));
    ReconciledAside(world, st.(folders := st.folders - Elements(removed)));
    RegisteredAll(kept, added, f);
    UnregisteredHolds(kept, added, f);
    LoadKeepsFolders(all, Unregistered(kept, added), f);
    if f in added && f !in kept.folders {
      LoadStarts(all, Unregistered(kept, added), f);
    }
  }

  lemma ReconciledAside(world: World, st: State)
    ensures var r := Reconciled(world, st); r.loads == st.loads && r.nextBatch == st.nextBatch && r.jobs == st.jobs
  {
    hide ModelOf, ViewFor;
  }

  lemma LoadKeepsFolders(st: State, fs: seq<Uri>, f: Uri)
    ensures var r := Load(st, fs);
            (f in r.folders <==> f in st.folders)
            && (f in r.folders ==> r.folders[f].snapshot == st.folders[f].snapshot)
  {
    hide Claim;
    ClaimMarks(st.folders, fs);
  }

  lemma {:induction false} JobsForAll(folders: map<Uri, Folder>, fs: seq<Uri>, f: Uri)
    requires f in fs && f in folders
    ensures Job(f, folders[f].id) in JobsFor(folders, fs)
    decreases |fs|
  {
    if fs[|fs| - 1] != f {
      JobsForAll(folders, fs[..|fs| - 1], f);
    }
  }

  /** A synchronous load registers its folders and loads each of them. */
  lemma SyncLoads(world: World, st: State, fs: seq<Uri>, f: Uri)
    requires st.loads && f in fs
    ensures Loading(st, Step(world, st, LoadSync(fs)), f)
  {
    hide RegisterEach, JobsFor;
    RegisteredAll(st, fs, f);
    JobsForAll(RegisterEach(st, fs).folders, fs, f);
  }

  // ----- a first load -----

  lemma OnlySorted(f: Uri)
    ensures Sorted({f}) == [f]
  {
    hide Sorted;
    SameAscending(Sorted({f}), [f]);
  }

  /** A new workspace with one folder whose load has started. */
  lemma Begun(world: World, f: Uri) returns (st: State)
    ensures st == Run(world, NewWorkspace(), [Initialize([f]), Start])
    ensures st.loads && st.folders == map[f := Folder(0, true, [], None)] && st.jobs == map[0 := [Job(f, 0)]]
  {
    hide Sorted;
    var events := [Initialize([f]), Start];
    assert events[..1] == [Initialize([f])] && events[..1][..0] == [] && [f][..0] == [];
    assert Run(world, NewWorkspace(), []) == NewWorkspace();
    assert RegisterEach(NewWorkspace(), []) == NewWorkspace();
    var r := Run(world, NewWorkspace(), events[..1]);
    assert r == RegisterEach(NewWorkspace(), [f]) == Register(NewWorkspace(), f);
    st := Step(world, r, Start);
    assert r.folders.Keys == {f};
    OnlySorted(f);
    assert [f][..0] == [] && Claim(r.folders, []) == Claims(r.folders, []);
    assert r.folders == map[f := Folder(0, false, [], None)] && r.loads && r.jobs == map[] && r.nextBatch == 0;
    assert Claim(r.folders, [f]) == Claims(r.folders[f := Folder(0, true, [], None)], [] + [Job(f, 0)]);
    assert st == Load(r, [f]);
    assert st.jobs == map[0 := [] + [Job(f, 0)]];
    assert [] + [Job(f, 0)] == [Job(f, 0)];
    assert st.folders == map[f := Folder(0, true, [], None)];
    assert Run(world, NewWorkspace(), events) == Step(world, r, events[1]);
  }

  lemma {:induction false} Few(indexes: seq<nat>, n: nat)
    requires forall k, l :: 0 <= k < l < |indexes| ==> indexes[k] < indexes[l]
    requires forall k :: 0 <= k < |indexes| ==> indexes[k] < n
    ensures |indexes| <= n
    decreases |indexes|
  {
    if indexes != [] {
      Few(indexes[..|indexes| - 1], indexes[|indexes| - 1]);
    }
  }

  lemma OnlyOne(world: World, p: Project, r: seq<Project>)
    requires ValidOnes(world, [p], r) && ValidProject(world, p)
    ensures r == [p]
  {
    hide ValidProject;
    var indexes :| PickedAt(world, [p], r, indexes);
    assert [p][0] == p && 0 in indexes;
    assert forall k :: 0 <= k < |r| ==> indexes[k] < |[p]|;
    Few(indexes, 1);
  }

  lemma FinishFolders(world: World, st: State, batch: nat, outcomes: seq<Option<seq<Project>>>)
    requires st.loads && batch in st.jobs && |st.jobs[batch]| == |outcomes|
    ensures Step(world, st, Finish(batch, outcomes)).folders.Keys == st.folders.Keys
  {
    hide SettleEach, Reconciled;
    var jobs := st.jobs[batch];
    SettleOnlyCurrent(world, st.folders, jobs, outcomes, |jobs|);
    ReconciledFolders(world,
                      st.(folders := SettleEach(world, st.folders, jobs, outcomes, |jobs|), jobs := st.jobs - {batch}));
  }

  lemma OneRoot(world: World, st: State, f: Uri, p: Project)
    requires Good(world, st) && st.folders.Keys == {f} && st.folders[f].snapshot == [p]
    ensures st.model.roots == map[p.root := p]
  {
    hide Sorted, AddAllTargets, ValidProject, FolderOK;
    var snapshots := Snapshots(st.folders);
    SnapshotsValid(world, st);
    ModelIs(world, snapshots);
    assert snapshots.Keys == {f};
    OnlySorted(f);
    assert [f][..0] == [] && AllProjects(snapshots, []) == [];
    assert AllProjects(snapshots, [f]) == [] + [p];
    assert [p][..0] == [] && BuildOf([]) == Build(map[], []);
    assert BuildOf([p]) == AddProject(Build(map[], []), p);
  }

  lemma OwnerThere(world: World, st: State, t: Uri, root: Uri)
    requires Good(world, st) && st.model.roots.Keys == {root} && ViewOf(world, st, t).Some?
    ensures OwnerOf(world, st.model, st.documents, t) == Some(root) && root in st.views
    ensures ViewOf(world, st, t) == Some(st.views[root])
  {
    hide OwnerOf, Good;
    GoodModel(world, st);
    OwnerIsRoot(world, st.model, st.documents, t);
  }

  /** One folder, loaded with one valid project: the project's root is the only root, with a view for its include
      paths, and all of its targets are routed to that view. */
  lemma FirstLoad(world: World, f: Uri, p: Project)
    requires ValidProject(world, p)
    ensures var st := Run(world, NewWorkspace(), [Initialize([f]), Start, Finish(0, [Some([p])])]);
            && st.model.roots == map[p.root := p] && st.views.Keys == {p.root}
            && forall t :: t in p.targets ==>
                 && OwnerOf(world, st.model, st.documents, t) == Some(p.root)
                 && ViewOf(world, st, t) == Some(st.views[p.root])
                 && st.views[p.root].includes == p.includes && t in st.views[p.root].known
  {
    hide ValidProject, Good, ViewOf, OwnerOf, Step, ValidOnes;
    var events := [Initialize([f]), Start, Finish(0, [Some([p])])];
    var begun := Begun(world, f);
    assert events[..2] == [Initialize([f]), Start];
    RunIsGood(world, events);
    var st := Run(world, NewWorkspace(), events);
    assert st == Step(world, begun, Finish(0, [Some([p])]));
    FinishTakesIn(world, begun, 0, [Some([p])], f);
    assert LoadedLast([Job(f, 0)], [Some([p])], Job(f, 0), 0);
    OnlyOne(world, p, st.folders[f].snapshot);
    FinishFolders(world, begun, 0, [Some([p])]);
    OneRoot(world, st, f, p);
    ProjectRouted(world, st, f, p);
    ViewKeys(world, st);
    forall t | t in p.targets
      ensures OwnerOf(world, st.model, st.documents, t) == Some(p.root)
              && ViewOf(world, st, t) == Some(st.views[p.root])
      ensures st.views[p.root].includes == p.includes && t in st.views[p.root].known
    {
      OwnerThere(world, st, t, p.root);
    }
  }

  lemma ViewKeys(world: World, st: State)
    requires Good(world, st)
    ensures st.views.Keys == st.model.roots.Keys
    ensures forall root :: root in st.views ==> st.views[root].includes == st.model.roots[root].includes
  {
    hide Registered, Modelled, OwnedIsTracked;
  }
}
