/** The workspace's methods, each from lock to unlock (lsp/workspace.go). */
module Workspaces {
  import opened WorkspaceModel
  import opened WorkspaceRuns
  import opened Wrappers

  // ----- the model -----

  lemma BuildNext(ps: seq<Project>, p: Project)
    ensures BuildOf(ps + [p]) == AddProject(BuildOf(ps), p)
  {
    assert (ps + [p])[..|ps|] == ps;
  }

  lemma ProjectsNext(snapshots: map<Uri, seq<Project>>, folders: seq<Uri>, k: nat)
    requires k < |folders| && folders[k] in snapshots
    ensures AllProjects(snapshots, folders[..k + 1]) == AllProjects(snapshots, folders[..k]) + snapshots[folders[k]]
  {
    assert folders[..k + 1][..k] == folders[..k];
  }

  /** The root with the longest path that contains file, else the root it is a target of. */
  method RootForFile(world: World, m: Model, file: Uri) returns (r: Option<Uri>)
    ensures r == RootFor(world, m, file)
  {
    hide Contains, Sorted;
    var roots := Sorted(m.roots.Keys);
    var best := Uri(0);
    for i := 0 to |roots|
      invariant best == Best(world, roots[..i], file)
    {
      assert roots[..i + 1][..i] == roots[..i];
      if Contains(world, roots[i], file) {
        if best == Uri(0) || |world.path(roots[i])| > |world.path(best)| {
          best := roots[i];
        }
      }
    }
    assert roots[..|roots|] == roots;
    if best != Uri(0) {
      return Some(best);
    }
    return if file in m.targets then Some(m.targets[file]) else None;
  }

  /** Roots, then targets, of the accepted folder snapshots. */
  method WorkspaceModelOf(world: World, snapshots: map<Uri, seq<Project>>) returns (m: Model)
    ensures m == ModelOf(world, snapshots)
  {
    hide BuildOf, AllProjects, Sorted, RootFor;
    var folders := Sorted(snapshots.Keys);
    var roots: map<Uri, Project> := map[];
    var projects: seq<Project> := [];
    NoneBuilt(snapshots);
    for k := 0 to |folders|
      invariant Build(roots, projects) == BuildOf(AllProjects(snapshots, folders[..k]))
    {
      assert folders[k] in folders;
      var ps := snapshots[folders[k]];
      ghost var before := AllProjects(snapshots, folders[..k]);
      assert before + ps[..0] == before;
      for j := 0 to |ps|
        invariant Build(roots, projects) == BuildOf(before + ps[..j])
      {
        var project := ps[j];
        BuildNext(before + ps[..j], project);
        assert before + ps[..j] + [project] == before + ps[..j + 1];
        if project.root in roots && roots[project.root].includes != project.includes {
          continue;
        }
        if project.root !in roots {
          roots := roots[project.root := project];
        }
        projects := projects + [project];
      }
      assert ps[..|ps|] == ps;
      ProjectsNext(snapshots, folders, k);
    }
    assert folders[..|folders|] == folders;
    m := Model(roots, map[]);
    ghost var start := m;
    for k := 0 to |projects|
      invariant m == AddAllTargets(world, start, projects, k)
    {
      ghost var before := m;
      for j := 0 to |projects[k].targets|
        invariant m == AddTargets(world, before, projects[k], j)
      {
        var target := projects[k].targets[j];
        if target in m.targets {
          continue;
        }
        var root := RootForFile(world, m, target);
        m := m.(targets := m.targets[target := if root.Some? then root.value else projects[k].root]);
      }
    }
  }

  lemma NoneBuilt(snapshots: map<Uri, seq<Project>>)
    ensures BuildOf(AllProjects(snapshots, [])) == Build(map[], [])
  {
  }

  // ----- the workspace -----

  class Workspace {
    const world: World
    var loads: bool
    var folders: map<Uri, Folder>
    var nextId: nat
    var model: Model
    var views: map<Uri, View>
    var documents: set<Uri>
    var jobs: map<nat, seq<Job>>
    var nextBatch: nat

    ghost function Now(): State
      reads this
    {
      State(loads, folders, nextId, model, views, documents, jobs, nextBatch)
    }

    constructor (world: World)
      ensures this.world == world && Now() == NewWorkspace() && Good(world, Now())
    {
      this.world := world;
      loads, folders, nextId, model := true, map[], 0, Model(map[], map[]);
      views, documents, jobs, nextBatch := map[], {}, map[], 0;
      new;
      NewIsGood(world);
    }

    method RegisterFolder(f: Uri)
      modifies this`folders, this`nextId
      ensures Now() == Register(old(Now()), f)
    {
      if f !in folders {
        folders, nextId := folders[f := Folder(nextId, false, [], None)], nextId + 1;
      }
    }

    method RegisterFolders(fs: seq<Uri>)
      modifies this`folders, this`nextId
      ensures Now() == RegisterEach(old(Now()), fs)
    {
      hide Register;
      ghost var before := Now();
      for i := 0 to |fs|
        invariant Now() == RegisterEach(before, fs[..i])
      {
        assert fs[..i + 1][..i] == fs[..i];
        RegisterFolder(fs[i]);
      }
      assert fs[..|fs|] == fs;
    }

    method Initialize(fs: seq<Uri>)
      requires Good(world, Now())
      modifies this
      ensures Now() == Step(world, old(Now()), Event.Initialize(fs)) && Good(world, Now())
    {
      hide Good, RegisterEach;
      StepKeeps(world, Now(), Event.Initialize(fs));
      RegisterFolders(fs);
    }

    method StartLoads()
      requires Good(world, Now())
      modifies this
      ensures Now() == Step(world, old(Now()), Start) && Good(world, Now())
    {
      hide Good, Load;
      StepKeeps(world, Now(), Start);
      LoadLocked(Sorted(folders.Keys));
    }

    method ShutDown()
      requires Good(world, Now())
      modifies this
      ensures Now() == Step(world, old(Now()), Shutdown) && Good(world, Now())
    {
      hide Good;
      StepKeeps(world, Now(), Shutdown);
      loads := false;
      CancelLoads();
    }

    method CancelLoads()
      modifies this`folders
      ensures folders == map f | f in old(folders) :: old(folders)[f].(loading := false)
    {
      ghost var before := folders;
      var rest := folders.Keys;
      while rest != {}
        invariant rest <= before.Keys && folders.Keys == before.Keys
        invariant forall f :: f in before ==>
                    folders[f] == if f in rest then before[f] else before[f].(loading := false)
        decreases |rest|
      {
        var f :| f in rest;
        rest := rest - {f};
        if folders[f].loading {
          folders := folders[f := folders[f].(loading := false)];
        }
      }
    }

    /** Starts one asynchronous batch. */
    method LoadLocked(fs: seq<Uri>)
      modifies this`folders, this`jobs, this`nextBatch
      ensures Now() == Load(old(Now()), fs)
    {
      ghost var before := Now();
      if !loads || |fs| == 0 {
        return;
      }
      var results: seq<Job> := [];
      for i := 0 to |fs|
        invariant Claims(folders, results) == Claim(before.folders, fs[..i])
        invariant Now() == before.(folders := folders)
      {
        assert fs[..i + 1][..i] == fs[..i];
        var f := fs[i];
        if f !in folders || folders[f].loading {
          continue;
        }
        results := results + [Job(f, folders[f].id)];
        folders := folders[f := folders[f].(loading := true)];
      }
      assert fs[..|fs|] == fs;
      if |results| == 0 {
        NoneClaimed(before.folders, fs);
        return;
      }
      jobs, nextBatch := jobs[nextBatch := results], nextBatch + 1;
    }

    method ViewOfFile(file: Uri) returns (r: Option<View>)
      requires Good(world, Now())
      ensures r == ViewOf(world, Now(), file)
      ensures r.Some? <==> OwnerOf(world, model, documents, file).Some?
      ensures r.Some? ==> var root := OwnerOf(world, model, documents, file).value;
                          root in model.roots && r.value.includes == model.roots[root].includes && file in r.value.known
    {
      hide Good, OwnerOf;
      RoutesToItsView(world, Now(), file);
      var root := OwnerOf(world, model, documents, file);
      if root.None? || root.value !in views {
        return None;
      }
      return Some(views[root.value]);
    }

    /** Adds to each view the files to update. */
    method UpdateViewsLocked(changes: map<Uri, set<Uri>>)
      modifies this`views
      ensures views == Tracking(old(views), changes)
    {
      hide Ascending;
      ghost var before := views;
      var roots := Sorted(changes.Keys);
      for i := 0 to |roots|
        invariant views.Keys == before.Keys
        invariant forall r :: r in before ==>
                                views[r] == if r in roots[..i]
                                            then before[r].(known := before[r].known
                                                            + FilesAt(changes, r)) else before[r]
      {
        PrefixNext(roots, i);
        var root := roots[i];
        assert root in roots;
        if root !in views {
          continue;
        }
        views := views[root := views[root].(known := views[root].known + changes[root])];
      }
      assert roots[..|roots|] == roots;
      TracksAll(before, views, changes);
    }

    /** The files to update under the next model: every file, at its owner. */
    method ChangesFor(next: Model) returns (changes: map<Uri, set<Uri>>)
      ensures forall root :: FilesAt(changes, root) == OwnedBy(world, next, documents, root)
    {
      hide OwnedBy, OwnerOf, TargetsOf, DocumentsOf, FilesAt;
      var targets := TargetChanges(next);
      NoDocuments(world, next, documents);
      changes := targets;
      var rest := documents;
      NothingMore(world, next, documents, targets);
      while rest != {}
        invariant rest <= documents
        invariant forall root :: FilesAt(changes, root) ==
                                   FilesAt(targets, root) + DocumentsOf(world, next, documents, documents - rest, root)
        decreases |rest|
      {
        var document :| document in rest;
        var owner := OwnerOf(world, next, documents, document);
        TakeDocument(world, next, documents, rest, document);
        rest := rest - {document};
        if owner.Some? {
          AddFile(changes, owner.value, document);
          changes := changes[owner.value := FilesAt(changes, owner.value) + {document}];
        }
      }
      AllOwned(world, next, documents);
    }

    method TargetChanges(next: Model) returns (changes: map<Uri, set<Uri>>)
      ensures forall root :: FilesAt(changes, root) == TargetsOf(next, next.targets.Keys, root)
    {
      hide TargetsOf, FilesAt;
      changes := map[];
      var rest := next.targets.Keys;
      NoTargets(next);
      while rest != {}
        invariant rest <= next.targets.Keys
        invariant forall root :: FilesAt(changes, root) == TargetsOf(next, next.targets.Keys - rest, root)
        decreases |rest|
      {
        var target :| target in rest;
        var root := next.targets[target];
        TakeTarget(next, rest, target);
        rest := rest - {target};
        AddFile(changes, root, target);
        changes := changes[root := FilesAt(changes, root) + {target}];
      }
      assert next.targets.Keys - rest == next.targets.Keys;
    }

    /** Evicts what the views lose, and drops those that are to be built anew. */
    method DropViews(next: Model)
      modifies this`views
      ensures views.Keys <= old(views.Keys)
      ensures forall root :: root in old(views) ==> Handled(world, old(Now()), next, root) == ViewAt(views, root)
    {
      hide OwnedBy;
      ghost var st := Now();
      var rest := views.Keys;
      while rest != {}
        invariant rest <= st.views.Keys && rest <= views.Keys <= st.views.Keys
        invariant forall root :: root in rest ==> views[root] == st.views[root]
        invariant forall root :: root in st.views.Keys - rest ==> Handled(world, st, next, root) == ViewAt(views, root)
        decreases |rest|
      {
        var root :| root in rest;
        rest := rest - {root};
        if root in next.roots && IncludesAt(model, root) == next.roots[root].includes {
          var lost := OwnedBy(world, model, documents, root) - OwnedBy(world, next, documents, root);
          views := views[root := views[root].(known := views[root].known - lost)];
        } else {
          views := views - {root};
        }
      }
    }

    /** Builds a view for each root that has none. */
    method AddViews(next: Model)
      modifies this`views
      ensures forall root :: root in old(views) || root !in next.roots ==>
                ViewAt(views, root) == ViewAt(old(views), root)
      ensures forall root :: root in next.roots && root !in old(views) ==>
                               root in views && views[root] == View(next.roots[root].includes, {})
    {
      ghost var before := views;
      var roots := Sorted(next.roots.Keys);
      for i := 0 to |roots|
        invariant forall root :: root in before || root !in roots[..i] ==> ViewAt(views, root) == ViewAt(before, root)
        invariant forall root :: root in roots[..i] && root !in before ==>
                                   root in next.roots && root in views
                                   && views[root] == View(next.roots[root].includes, {})
      {
        PrefixNext(roots, i);
        var root := roots[i];
        assert root in roots;
        if root !in views {
          views := views[root := View(next.roots[root].includes, {})];
        }
      }
      assert roots[..|roots|] == roots;
    }

    method ReconcileLocked()
      requires Matching(Now())
      modifies this`model, this`views
      ensures Now() == Reconciled(world, old(Now()))
    {
      hide ModelOf, OwnedBy, Snapshots, FilesAt, Handled, ViewAt, Tracking, ViewFor;
      ghost var st := Now();
      var next := WorkspaceModelOf(world, Snapshots(folders));
      DropViews(next);
      ghost var handled := views;
      AddViews(next);
      model := next;
      var changes := ChangesFor(next);
      BuiltViews(world, st, next, handled, views, changes);
      UpdateViewsLocked(changes);
    }

    /** The valid projects of a snapshot. */
    method ValidateSnapshot(snapshot: seq<Project>) returns (projects: seq<Project>)
      ensures projects == Validated(world, snapshot)
    {
      hide ValidProject;
      projects := [];
      for i := 0 to |snapshot|
        invariant projects == Validated(world, snapshot[..i])
      {
        assert snapshot[..i + 1][..i] == snapshot[..i];
        if !ValidProject(world, snapshot[i]) {
          continue;
        }
        projects := projects + [snapshot[i]];
      }
      assert snapshot[..|snapshot|] == snapshot;
    }

    /** Takes in the results of a batch, dropping those whose registration has been removed. */
    method CommitResults(results: seq<Job>, outcomes: seq<Option<seq<Project>>>)
      requires |results| == |outcomes| && Matching(Now())
      modifies this`folders, this`model, this`views
      ensures Now() == Commit(world, old(Now()), results, outcomes)
    {
      hide Reconciled, Validated, Matching;
      ghost var st := Now();
      if !loads {
        return;
      }
      var accepted := false;
      for i := 0 to |results|
        invariant Now() == st.(folders := SettleEach(world, st.folders, results, outcomes, i))
        invariant accepted <==> exists k :: 0 <= k < i && Current(st.folders, results[k])
      {
        SettledIds(world, st.folders, results, outcomes, i);
        var result := results[i];
        if result.folder !in folders || folders[result.folder].id != result.id {
          continue;
        }
        folders := folders[result.folder := folders[result.folder].(loading := false)];
        accepted := true;
        if outcomes[i].Some? {
          var projects := ValidateSnapshot(outcomes[i].value);
          folders := folders[result.folder := folders[result.folder].(snapshot := projects,
                                                                      loadedBy := Some(result.id))];
        }
      }
      if accepted {
        MatchingAside(st, Now());
        ReconcileLocked();
      }
    }

    /** The loads of a batch have returned. */
    method FinishBatch(batch: nat, outcomes: seq<Option<seq<Project>>>)
      requires Good(world, Now()) && batch in jobs && |jobs[batch]| == |outcomes|
      modifies this
      ensures Now() == Step(world, old(Now()), Finish(batch, outcomes)) && Good(world, Now())
    {
      hide Good, Commit, Matching;
      StepKeeps(world, Now(), Finish(batch, outcomes));
      GoodMatches(world, Now());
      ghost var before := Now();
      var results := jobs[batch];
      jobs := jobs - {batch};
      MatchingAside(before, Now());
      CommitResults(results, outcomes);
    }

    method ChangeFoldersTo(added: seq<Uri>, removed: seq<Uri>)
      requires Good(world, Now())
      modifies this
      ensures Now() == Step(world, old(Now()), ChangeFolders(added, removed)) && Good(world, Now())
    {
      hide Good, Register, Reconciled, Load, Matching, RegisterEach, Unregistered, Elements;
      ghost var st := Now();
      StepKeeps(world, st, ChangeFolders(added, removed));
      GoodMatches(world, st);
      var removedAny := RemoveFolders(removed);
      if removedAny {
        MatchingAside(st, Now());
        ReconcileLocked();
      }
      ghost var kept := Now();
      assert kept == Removed(world, st, removed);
      var toLoad := AddFolders(added);
      LoadLocked(toLoad);
    }

    method RemoveFolders(removed: seq<Uri>) returns (removedAny: bool)
      modifies this`folders
      ensures folders == old(folders) - Elements(removed)
      ensures removedAny <==> exists i :: 0 <= i < |removed| && removed[i] in old(folders)
    {
      ghost var before := folders;
      removedAny := false;
      for i := 0 to |removed|
        invariant folders == before - Elements(removed[..i])
        invariant removedAny <==> exists k :: 0 <= k < i && removed[k] in before
      {
        MoreElements(removed, i);
        if removed[i] !in folders {
          continue;
        }
        folders := folders - {removed[i]};
        removedAny := true;
      }
      assert removed[..|removed|] == removed;
    }

    method AddFolders(added: seq<Uri>) returns (toLoad: seq<Uri>)
      modifies this`folders, this`nextId
      ensures Now() == RegisterEach(old(Now()), added) && toLoad == Unregistered(old(Now()), added)
    {
      ghost var kept := Now();
      toLoad := [];
      for i := 0 to |added|
        invariant Now() == RegisterEach(kept, added[..i]) && toLoad == Unregistered(kept, added[..i])
        invariant forall f :: f in folders <==> f in kept.folders || f in toLoad
      {
        assert added[..i + 1][..i] == added[..i];
        if added[i] in folders {
          continue;
        }
        RegisterFolder(added[i]);
        toLoad := toLoad + [added[i]];
      }
      assert added[..|added|] == added;
    }

    /** The first half of loadSync: registers the folders and notes their registrations. */
    method LoadSyncStarts(fs: seq<Uri>)
      requires Good(world, Now())
      modifies this
      ensures Now() == Step(world, old(Now()), LoadSync(fs)) && Good(world, Now())
    {
      hide Good, RegisterEach;
      ghost var st := Now();
      StepKeeps(world, st, LoadSync(fs));
      RegisterFolders(fs);
      RegisterAll(st, fs);
      if !loads {
        return;
      }
      var results: seq<Job> := [];
      for i := 0 to |fs|
        invariant results == JobsFor(folders, fs[..i])
      {
        assert fs[..i + 1][..i] == fs[..i];
        assert fs[i] in fs;
        results := results + [Job(fs[i], folders[fs[i]].id)];
      }
      assert fs[..|fs|] == fs;
      jobs, nextBatch := jobs[nextBatch := results], nextBatch + 1;
    }

    method ApplyChangesTo(changes: seq<Change>, overlay: bool)
      requires Good(world, Now())
      modifies this
      ensures Now() == Step(world, old(Now()), ApplyChanges(changes, overlay)) && Good(world, Now())
    {
      hide Good, OwnerOf, FilesAt;
      ghost var st := Now();
      StepKeeps(world, st, ApplyChanges(changes, overlay));
      var byRoot: map<Uri, set<Uri>> := map[];
      ghost var start := Intake(documents, views, map[]);
      for i := 0 to |changes|
        invariant Intake(documents, views, byRoot) == TakeEach(world, st.model, start, changes[..i], overlay)
        invariant Now() == st.(documents := documents, views := views)
      {
        assert changes[..i + 1][..i] == changes[..i];
        var change := changes[i];
        var previous := OwnerOf(world, model, documents, change.file);
        if overlay {
          if change.closes {
            documents := documents - {change.file};
          } else {
            documents := documents + {change.file};
          }
        }
        var owner := OwnerOf(world, model, documents, change.file);
        if owner.Some? {
          byRoot := byRoot[owner.value := FilesAt(byRoot, owner.value) + {change.file}];
          continue;
        }
        if change.closes && previous.Some? && previous.value in views {
          var view := views[previous.value];
          views := views[previous.value := view.(known := view.known - {change.file})];
        }
      }
      assert changes[..|changes|] == changes;
      UpdateViewsLocked(byRoot);
    }
  }

  lemma MatchingAside(a: State, b: State)
    requires Matching(a) && b.views == a.views && b.model == a.model
    ensures Matching(b)
  {
  }

  lemma SettledIds(world: World, folders: map<Uri, Folder>, jobs: seq<Job>, outcomes: seq<Option<seq<Project>>>, k: nat)
    requires k < |jobs| == |outcomes|
    ensures Current(SettleEach(world, folders, jobs, outcomes, k), jobs[k]) == Current(folders, jobs[k])
  {
    hide SettleEach;
    SettleOnlyCurrent(world, folders, jobs, outcomes, k);
  }

  lemma MoreElements(fs: seq<Uri>, i: nat)
    requires i < |fs|
    ensures Elements(fs[..i + 1]) == Elements(fs[..i]) + {fs[i]}
  {
    assert fs[..i + 1] == fs[..i] + [fs[i]];
  }

  lemma {:induction false} RegisterAll(st: State, fs: seq<Uri>)
    ensures forall f :: f in fs || f in st.folders ==> f in RegisterEach(st, fs).folders
    decreases |fs|
  {
    if fs != [] {
      RegisterAll(st, fs[..|fs| - 1]);
      assert forall f :: f in fs <==> f in fs[..|fs| - 1] || f == fs[|fs| - 1];
    }
  }

  lemma AddFile(changes: map<Uri, set<Uri>>, root: Uri, file: Uri)
    ensures forall r :: FilesAt(changes[root := FilesAt(changes, root) + {file}], r)
                     == FilesAt(changes, r) + if r == root then {file} else {}
  {
    forall r ensures FilesAt(changes, r) + {} == FilesAt(changes, r) {
    }
  }

  lemma NoTargets(m: Model)
    ensures forall root :: TargetsOf(m, m.targets.Keys - m.targets.Keys, root) == FilesAt(map[], root)
  {
  }

  lemma NothingMore(world: World, m: Model, documents: set<Uri>, targets: map<Uri, set<Uri>>)
    ensures forall root :: FilesAt(targets, root) + DocumentsOf(world, m, documents, documents - documents, root) ==
              FilesAt(targets, root)
    ensures documents - {} == documents
  {
    NoDocuments(world, m, documents);
  }

  function TargetsOf(m: Model, targets: set<Uri>, root: Uri): set<Uri>
    requires targets <= m.targets.Keys
  {
    set t | t in targets && m.targets[t] == root
  }

  function DocumentsOf(world: World, m: Model, documents: set<Uri>, some: set<Uri>, root: Uri): set<Uri> {
    set d | d in some && OwnerOf(world, m, documents, d) == Some(root)
  }

  lemma TakeTarget(m: Model, rest: set<Uri>, t: Uri)
    requires rest <= m.targets.Keys && t in rest
    ensures forall root :: TargetsOf(m, m.targets.Keys - (rest - {t}), root)
                        == TargetsOf(m, m.targets.Keys - rest, root) + if m.targets[t] == root then {t} else {}
  {
  }

  lemma NoDocuments(world: World, m: Model, documents: set<Uri>)
    ensures forall root :: DocumentsOf(world, m, documents, documents - documents, root) == {}
  {
  }

  lemma TakeDocument(world: World, m: Model, documents: set<Uri>, rest: set<Uri>, d: Uri)
    requires rest <= documents && d in rest
    ensures forall root :: DocumentsOf(world, m, documents, documents - (rest - {d}), root)
                        == DocumentsOf(world, m, documents, documents - rest, root)
                           + if OwnerOf(world, m, documents, d) == Some(root) then {d} else {}
  {
    hide OwnerOf;
  }

  lemma AllOwned(world: World, m: Model, documents: set<Uri>)
    ensures forall root :: TargetsOf(m, m.targets.Keys, root) + DocumentsOf(world, m, documents, documents, root)
                        == OwnedBy(world, m, documents, root)
  {
    hide RootFor;
  }

  function ViewAt(views: map<Uri, View>, root: Uri): Option<View> {
    if root in views then Some(views[root]) else None
  }

  /** What is left of the view of root under the next model. */
  function Handled(world: World, st: State, next: Model, root: Uri): Option<View>
    requires root in st.views
  {
    if root in next.roots && IncludesAt(st.model, root) == next.roots[root].includes then
      var lost := OwnedBy(world, st.model, st.documents, root) - OwnedBy(world, next, st.documents, root);
      Some(st.views[root].(known := st.views[root].known - lost))
    else None
  }

  lemma BuiltViews(world: World, st: State, next: Model, handled: map<Uri, View>, views: map<Uri, View>,
                   changes: map<Uri, set<Uri>>)
    requires forall root :: root in handled ==> root in st.views
    requires forall root :: root in st.views ==> Handled(world, st, next, root) == ViewAt(handled, root)
    requires forall root :: root in handled || root !in next.roots ==> ViewAt(views, root) == ViewAt(handled, root)
    requires forall root :: root in next.roots && root !in handled ==>
                              root in views && views[root] == View(next.roots[root].includes, {})
    requires forall root :: FilesAt(changes, root) == OwnedBy(world, next, st.documents, root)
    ensures Tracking(views, changes) == map root | root in next.roots :: ViewFor(world, st, next, root)
  {
    hide OwnedBy, FilesAt;
    forall root ensures root in views <==> root in next.roots {
      assert root in st.views ==> Handled(world, st, next, root) == ViewAt(handled, root);
    }
    forall root | root in next.roots
      ensures views[root].(known := views[root].known + FilesAt(changes, root)) == ViewFor(world, st, next, root)
    {
      var owned := OwnedBy(world, next, st.documents, root);
      assert {} + owned == owned;
      if root in st.views {
        assert Handled(world, st, next, root) == ViewAt(handled, root);
      }
    }
  }

  lemma TracksAll(before: map<Uri, View>, after: map<Uri, View>, changes: map<Uri, set<Uri>>)
    requires after.Keys == before.Keys
    requires forall r :: r in before ==>
                           after[r] == if r in changes then before[r].(known := before[r].known + FilesAt(changes, r))
                                       else before[r]
    ensures after == Tracking(before, changes)
  {
    forall r | r in before ensures after[r] == before[r].(known := before[r].known + FilesAt(changes, r)) {
      assert before[r].known + {} == before[r].known;
    }
  }

  lemma NoneClaimed(folders: map<Uri, Folder>, fs: seq<Uri>)
    requires Claim(folders, fs).jobs == []
    ensures Claim(folders, fs).folders == folders
  {
    if fs != [] {
      NoneClaimed(folders, fs[..|fs| - 1]);
    }
  }

  lemma PrefixNext(s: seq<Uri>, i: nat)
    requires i < |s| && Ascending(s)
    ensures s[i] !in s[..i] && s[..i + 1] == s[..i] + [s[i]]
  {
  }
}
