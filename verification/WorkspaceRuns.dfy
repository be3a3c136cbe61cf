/** Every run of the workspace: folders come and go, loads start and finish, documents open and
    close, until shutdown (lsp/workspace.go). Each locked section is one step. */
module WorkspaceRuns {
  import opened WorkspaceModel
  import opened Wrappers

  /** A view: the include paths it was built for and the files it tracks. */
  datatype View = View(includes: seq<string>, known: set<Uri>)

  /** A folder's registration. The id is the registration's identity; loadedBy tells for which
      registration the snapshot was loaded. */
  datatype Folder = Folder(id: nat, loading: bool, snapshot: seq<Project>, loadedBy: Option<nat>)

  /** One load of a batch: for which folder and which registration. */
  datatype Job = Job(folder: Uri, id: nat)

  /** loads is off after shutdown. jobs holds the batches whose loads are under way. */
  datatype State = State(
    loads: bool,
    folders: map<Uri, Folder>,
    nextId: nat,
    model: Model,
    views: map<Uri, View>,
    documents: set<Uri>,
    jobs: map<nat, seq<Job>>,
    nextBatch: nat)

  datatype Change = Change(file: Uri, closes: bool)

  datatype Event =
    | Initialize(folders: seq<Uri>)
    | Start
    | ChangeFolders(added: seq<Uri>, removed: seq<Uri>)
    | LoadSync(folders: seq<Uri>)
    | Finish(batch: nat, outcomes: seq<Option<seq<Project>>>)
    | ApplyChanges(changes: seq<Change>, overlay: bool)
    | Shutdown

  function NewWorkspace(): State {
    State(true, map[], 0, Model(map[], map[]), map[], {}, map[], 0)
  }

  function Snapshots(folders: map<Uri, Folder>): map<Uri, seq<Project>> {
    map f | f in folders :: folders[f].snapshot
  }

  // ----- reconcile -----

  function IncludesAt(m: Model, root: Uri): seq<string> {
    if root in m.roots then m.roots[root].includes else []
  }

  function OwnedBy(world: World, m: Model, documents: set<Uri>, root: Uri): set<Uri> {
    set f | f in m.targets.Keys + documents && OwnerOf(world, m, documents, f) == Some(root)
  }

  /** The view of root under the next model: kept without the files it loses, if its include paths
      are unchanged, and built anew if not; it then tracks every file root owns. */
  function ViewFor(world: World, st: State, next: Model, root: Uri): View
    requires root in next.roots
  {
    var includes := next.roots[root].includes;
    var owned := OwnedBy(world, next, st.documents, root);
    if root in st.views && IncludesAt(st.model, root) == includes then
      View(st.views[root].includes,
           st.views[root].known - (OwnedBy(world, st.model, st.documents, root) - owned) + owned)
    else View(includes, owned)
  }

  function Reconciled(world: World, st: State): State {
    var next := ModelOf(world, Snapshots(st.folders));
    st.(model := next, views := map root | root in next.roots :: ViewFor(world, st, next, root))
  }

  // ----- folders and loads -----

  function Register(st: State, f: Uri): State {
    if f in st.folders then st
    else st.(folders := st.folders[f := Folder(st.nextId, false, [], None)], nextId := st.nextId + 1)
  }

  function RegisterEach(st: State, fs: seq<Uri>): State {
    if fs == [] then st else Register(RegisterEach(st, fs[..|fs| - 1]), fs[|fs| - 1])
  }

  /** Those of fs that are not registered, each once. */
  function Unregistered(st: State, fs: seq<Uri>): seq<Uri> {
    if fs == [] then []
    else
      var less := Unregistered(st, fs[..|fs| - 1]);
      if fs[|fs| - 1] in st.folders || fs[|fs| - 1] in less then less else less + [fs[|fs| - 1]]
  }

  datatype Claims = Claims(folders: map<Uri, Folder>, jobs: seq<Job>)

  /** Starts a load for each registered folder of fs that is not loading. */
  function Claim(folders: map<Uri, Folder>, fs: seq<Uri>): Claims {
    if fs == [] then Claims(folders, [])
    else
      var c, f := Claim(folders, fs[..|fs| - 1]), fs[|fs| - 1];
      if f in c.folders && !c.folders[f].loading then
        Claims(c.folders[f := c.folders[f].(loading := true)], c.jobs + [Job(f, c.folders[f].id)])
      else c
  }

  function Batch(st: State, jobs: seq<Job>): State {
    st.(jobs := st.jobs[st.nextBatch := jobs], nextBatch := st.nextBatch + 1)
  }

  function Load(st: State, fs: seq<Uri>): State {
    if !st.loads then st
    else
      var c := Claim(st.folders, fs);
      if c.jobs == [] then st else Batch(st.(folders := c.folders), c.jobs)
  }

  predicate Current(folders: map<Uri, Folder>, j: Job) {
    j.folder in folders && folders[j.folder].id == j.id
  }

  /** One result: dropped unless its registration is still the folder's. */
  function Settle(world: World, folders: map<Uri, Folder>, j: Job, outcome: Option<seq<Project>>): map<Uri, Folder> {
    if !Current(folders, j) then folders
    else
      var f := folders[j.folder].(loading := false);
      folders[j.folder := if outcome.None? then f
                          else f.(snapshot := Validated(world, outcome.value), loadedBy := Some(j.id))]
  }

  function SettleEach(world: World, folders: map<Uri, Folder>, jobs: seq<Job>, outcomes: seq<Option<seq<Project>>>,
                      k: nat): map<Uri, Folder>
    requires k <= |jobs| == |outcomes|
  {
    if k == 0 then folders
    else Settle(world, SettleEach(world, folders, jobs, outcomes, k - 1), jobs[k - 1], outcomes[k - 1])
  }

  function Commit(world: World, st: State, jobs: seq<Job>, outcomes: seq<Option<seq<Project>>>): State
    requires |jobs| == |outcomes|
  {
    if !st.loads then st
    else
      var r := st.(folders := SettleEach(world, st.folders, jobs, outcomes, |jobs|));
      if exists i :: 0 <= i < |jobs| && Current(st.folders, jobs[i]) then Reconciled(world, r) else r
  }

  // ----- documents -----

  /** Documents, views and the files to update, while changes are taken in. */
  datatype Intake = Intake(documents: set<Uri>, views: map<Uri, View>, updates: map<Uri, set<Uri>>)

  function FilesAt(m: map<Uri, set<Uri>>, root: Uri): set<Uri> {
    if root in m then m[root] else {}
  }

  function Take(world: World, m: Model, s: Intake, c: Change, overlay: bool): Intake {
    var before := OwnerOf(world, m, s.documents, c.file);
    var documents := if !overlay then s.documents
                     else if c.closes then s.documents - {c.file} else s.documents + {c.file};
    var owner := OwnerOf(world, m, documents, c.file);
    if owner.Some? then Intake(documents, s.views, s.updates[owner.value := FilesAt(s.updates, owner.value) + {c.file}])
    else if c.closes && before.Some? && before.value in s.views then
      var v := s.views[before.value];
      Intake(documents, s.views[before.value := v.(known := v.known - {c.file})], s.updates)
    else Intake(documents, s.views, s.updates)
  }

  function TakeEach(world: World, m: Model, s: Intake, cs: seq<Change>, overlay: bool): Intake {
    if cs == [] then s else Take(world, m, TakeEach(world, m, s, cs[..|cs| - 1], overlay), cs[|cs| - 1], overlay)
  }

  /** Each view tracks its updated files. */
  function Tracking(views: map<Uri, View>, updates: map<Uri, set<Uri>>): map<Uri, View> {
    map root | root in views :: views[root].(known := views[root].known + FilesAt(updates, root))
  }

  function Applied(world: World, st: State, cs: seq<Change>, overlay: bool): State {
    var s := TakeEach(world, st.model, Intake(st.documents, st.views, map[]), cs, overlay);
    st.(documents := s.documents, views := Tracking(s.views, s.updates))
  }

  /** The view a file is routed to. */
  function ViewOf(world: World, st: State, file: Uri): Option<View> {
    var root := OwnerOf(world, st.model, st.documents, file);
    if root.Some? && root.value in st.views then Some(st.views[root.value]) else None
  }

  // ----- runs -----

  function Elements(fs: seq<Uri>): set<Uri> {
    set f | f in fs
  }

  function Removed(world: World, st: State, removed: seq<Uri>): State {
    var r := st.(folders := st.folders - Elements(removed));
    if exists i :: 0 <= i < |removed| && removed[i] in st.folders then Reconciled(world, r) else r
  }

  /** An event that is not enabled changes nothing. */
  function Step(world: World, st: State, e: Event): State {
    match e
    case Initialize(fs) => RegisterEach(st, fs)
    case Start => Load(st, Sorted(st.folders.Keys))
    case ChangeFolders(added, removed) =>
      var r := Removed(world, st, removed);
      Load(RegisterEach(r, added), Unregistered(r, added))
    case LoadSync(fs) =>
      var r := RegisterEach(st, fs);
      if st.loads then Batch(r, JobsFor(r.folders, fs)) else r
    case Finish(batch, outcomes) =>
      if batch in st.jobs && |st.jobs[batch]| == |outcomes| then
        Commit(world, st.(jobs := st.jobs - {batch}), st.jobs[batch], outcomes)
      else st
    case ApplyChanges(changes, overlay) => Applied(world, st, changes, overlay)
    case Shutdown => st.(loads := false, folders := map f | f in st.folders :: st.folders[f].(loading := false))
  }

  function JobsFor(folders: map<Uri, Folder>, fs: seq<Uri>): seq<Job> {
    if fs == [] then []
    else
      var less, f := JobsFor(folders, fs[..|fs| - 1]), fs[|fs| - 1];
      if f in folders then less + [Job(f, folders[f].id)] else less
  }

  function Run(world: World, st: State, events: seq<Event>): State {
    if events == [] then st else Step(world, Run(world, st, events[..|events| - 1]), events[|events| - 1])
  }

  // ----- what every run keeps -----

  /** The registrations: ids are fresh and used once, and a snapshot comes from a load for the
      registration that holds it. */
  ghost predicate Registered(world: World, st: State) {
    && (forall f :: f in st.folders ==> FolderOK(world, st, st.folders[f]))
    && (forall f, g :: f in st.folders && g in st.folders && st.folders[f].id == st.folders[g].id ==> f == g)
    && (forall b :: b in st.jobs ==> b < st.nextBatch)
  }

  ghost predicate FolderOK(world: World, st: State, f: Folder) {
    && f.id < st.nextId && EachValid(world, f.snapshot)
    && (f.loadedBy.Some? ==> f.loadedBy.value == f.id) && (f.loadedBy.None? ==> f.snapshot == [])
  }

  /** The views are those of the model's roots, built for their include paths, and track every file
      their root owns. */
  ghost predicate Viewed(world: World, st: State) {
    && st.views.Keys == st.model.roots.Keys
    && (forall root :: root in st.views ==> st.views[root].includes == st.model.roots[root].includes)
    && forall f :: OwnedIsTracked(world, st, f)
  }

  ghost predicate OwnedIsTracked(world: World, st: State, f: Uri) {
    var owner := OwnerOf(world, st.model, st.documents, f);
    owner.Some? ==> owner.value in st.views && f in st.views[owner.value].known
  }

  /** The model is that of the registered folders' snapshots. */
  ghost predicate Modelled(world: World, st: State) {
    st.model == ModelOf(world, Snapshots(st.folders))
  }

  ghost predicate Good(world: World, st: State) {
    Registered(world, st) && Modelled(world, st) && Viewed(world, st)
  }

  lemma SnapshotsValid(world: World, st: State)
    requires Registered(world, st)
    ensures AllValid(world, Snapshots(st.folders))
  {
    forall f | f in Snapshots(st.folders) ensures EachValid(world, Snapshots(st.folders)[f]) {
      assert FolderOK(world, st, st.folders[f]);
    }
  }

  lemma RegisteredAside(world: World, a: State, b: State)
    requires Registered(world, a) && b.folders == a.folders && b.nextId == a.nextId && b.nextBatch >= a.nextBatch
    requires forall n :: n in b.jobs ==> n < b.nextBatch
    ensures Registered(world, b)
  {
    hide EachValid;
    forall f | f in b.folders ensures FolderOK(world, b, b.folders[f]) {
      assert FolderOK(world, a, a.folders[f]);
    }
  }

  /** The views match the model of the last reconcile. */
  ghost predicate Matching(st: State) {
    && st.views.Keys == st.model.roots.Keys
    && forall root :: root in st.views ==> st.views[root].includes == st.model.roots[root].includes
  }

  lemma ReconciledMatches(world: World, st: State)
    requires Matching(st)
    ensures Matching(Reconciled(world, st))
  {
    hide ModelOf, OwnedBy;
    var r := Reconciled(world, st);
    forall root | root in r.views ensures r.views[root].includes == r.model.roots[root].includes {
      assert root in r.model.roots;
    }
    assert forall root :: root in r.views <==> root in r.model.roots;
  }

  lemma ReconciledTracks(world: World, st: State, f: Uri)
    requires Routed(ModelOf(world, Snapshots(st.folders))) && Rooted(ModelOf(world, Snapshots(st.folders)))
    ensures OwnedIsTracked(world, Reconciled(world, st), f)
  {
    hide ModelOf, Snapshots, Routed, Rooted, OwnerOf;
    var next := ModelOf(world, Snapshots(st.folders));
    OwnerIsRoot(world, next, st.documents, f);
    var owner := OwnerOf(world, next, st.documents, f);
    if owner.Some? {
      OwnedFile(world, next, st.documents, f);
      TracksOwned(world, st, next, owner.value);
    }
  }

  lemma TracksOwned(world: World, st: State, next: Model, root: Uri)
    requires root in next.roots
    ensures OwnedBy(world, next, st.documents, root) <= ViewFor(world, st, next, root).known
  {
    hide OwnedBy;
  }

  /** Reconciling gives the views of the model's roots. */
  lemma ReconciledIsGood(world: World, st: State)
    requires Registered(world, st) && Matching(st)
    ensures Good(world, Reconciled(world, st))
  {
    hide Registered, ModelOf, Snapshots, Routed, Rooted, OwnedIsTracked, ViewFor, AllValid;
    SnapshotsValid(world, st);
    ModelIs(world, Snapshots(st.folders));
    JobsKnown(world, st);
    RegisteredAside(world, st, Reconciled(world, st));
    ReconciledMatches(world, st);
    forall f ensures OwnedIsTracked(world, Reconciled(world, st), f) {
      ReconciledTracks(world, st, f);
    }
  }

  lemma JobsKnown(world: World, st: State)
    requires Registered(world, st)
    ensures forall n :: n in st.jobs ==> n < st.nextBatch
  {
  }

  lemma GoodMatches(world: World, st: State)
    requires Good(world, st)
    ensures Matching(st)
  {
    hide Registered, Modelled, OwnedIsTracked;
  }

  lemma OwnedFile(world: World, m: Model, documents: set<Uri>, f: Uri)
    requires OwnerOf(world, m, documents, f).Some?
    ensures f in m.targets.Keys + documents
  {
  }

  /** A file that a kept root loses is no longer tracked by its view. */
  lemma LostIsForgotten(world: World, st: State, root: Uri, f: Uri)
    requires root in Reconciled(world, st).views
    requires OwnerOf(world, st.model, st.documents, f) == Some(root)
    requires OwnerOf(world, Reconciled(world, st).model, st.documents, f) != Some(root)
    ensures f !in Reconciled(world, st).views[root].known
  {
    hide ModelOf, OwnerOf, Snapshots;
    OwnedFile(world, st.model, st.documents, f);
  }

  /** Taking in the close of a document that is no target leaves it unowned, and its owner's view
      forgets it. */
  lemma CloseForgets(world: World, m: Model, s: Intake, f: Uri, root: Uri)
    requires f !in m.targets && OwnerOf(world, m, s.documents, f) == Some(root) && root in s.views
    ensures var r := Take(world, m, s, Change(f, true), true);
            && OwnerOf(world, m, r.documents, f) == None && root in r.views && f !in r.views[root].known
            && r.updates == s.updates
            && forall other :: other in s.views && other != root ==> r.views[other] == s.views[other]
  {
    hide RootFor;
  }

  /** A change of the batch opens or changes f. */
  predicate Opened(cs: seq<Change>, f: Uri) {
    Change(f, false) in cs
  }

  predicate Closed(cs: seq<Change>, f: Uri) {
    Change(f, true) in cs
  }

  /** The last change of the batch that names f closes it. */
  predicate EndsClosed(cs: seq<Change>, f: Uri) {
    cs != [] && if cs[|cs| - 1].file == f then cs[|cs| - 1].closes else EndsClosed(cs[..|cs| - 1], f)
  }

  /** What a batch has done to a file f that is no target and lies under root: it is among the updates
      of root if the batch opened it; if not, a close of the document has made root's view forget it. */
  ghost predicate Followed(st: State, s: Intake, cs: seq<Change>, f: Uri, root: Uri)
    requires root in st.views
  {
    && s.views.Keys == st.views.Keys
    && (f in FilesAt(s.updates, root) <==> Opened(cs, f))
    && (!Opened(cs, f) ==> (f in s.documents <==> f in st.documents && !Closed(cs, f)))
    && (!Opened(cs, f) ==>
          (f in s.views[root].known <==> f in st.views[root].known && !(Closed(cs, f) && f in st.documents)))
    && forall other :: other in st.views && other != root ==>
         f !in FilesAt(s.updates, other) && (f in s.views[other].known <==> f in st.views[other].known)
  }

  lemma {:induction false} EndsInClose(cs: seq<Change>, f: Uri)
    requires EndsClosed(cs, f)
    ensures Closed(cs, f)
  {
    if cs[|cs| - 1].file == f {
      assert cs[|cs| - 1] == Change(f, true);
    } else {
      EndsInClose(cs[..|cs| - 1], f);
    }
  }

  lemma TakeFollows(world: World, st: State, s: Intake, less: seq<Change>, c: Change, f: Uri, root: Uri)
    requires f !in st.model.targets && RootFor(world, st.model, f) == Some(root) && root in st.views
    requires Followed(st, s, less, f, root)
    ensures Followed(st, Take(world, st.model, s, c, true), less + [c], f, root)
  {
    hide RootFor;
  }

  lemma {:induction false} BatchFollowed(world: World, st: State, cs: seq<Change>, f: Uri, root: Uri)
    requires f !in st.model.targets && RootFor(world, st.model, f) == Some(root) && root in st.views
    ensures var s := TakeEach(world, st.model, Intake(st.documents, st.views, map[]), cs, true);
            Followed(st, s, cs, f, root) && (EndsClosed(cs, f) ==> f !in s.documents)
    decreases |cs|
  {
    hide RootFor, Followed, Take;
    if cs == [] {
      NothingFollowed(st, f, root);
    } else {
      var less, c := cs[..|cs| - 1], cs[|cs| - 1];
      BatchFollowed(world, st, less, f, root);
      var s := TakeEach(world, st.model, Intake(st.documents, st.views, map[]), less, true);
      TakeFollows(world, st, s, less, c, f, root);
      assert less + [c] == cs;
      TakeDocuments(world, st.model, s, c);
    }
  }

  lemma NothingFollowed(st: State, f: Uri, root: Uri)
    requires root in st.views
    ensures Followed(st, Intake(st.documents, st.views, map[]), [], f, root)
  {
  }

  lemma TakeDocuments(world: World, m: Model, s: Intake, c: Change)
    ensures Take(world, m, s, c, true).documents == if c.closes then s.documents - {c.file} else s.documents + {c.file}
  {
    hide OwnerOf;
  }

  /** A batch of changes leaves a file that is no target, and that it closes last, unowned. The view of
      its root tracks the file afterwards if and only if an earlier change of the batch put it among
      the view's updates, or it was tracked before without being a document; other views are as they
      were with it. So a document closed by a batch is forgotten exactly if the batch did not open or
      change it before. */
  lemma ClosedIsForgotten(world: World, st: State, cs: seq<Change>, f: Uri, root: Uri)
    requires f !in st.model.targets && RootFor(world, st.model, f) == Some(root) && root in st.views
    requires EndsClosed(cs, f)
    ensures var r := Applied(world, st, cs, true);
            && OwnerOf(world, st.model, r.documents, f) == None && r.views.Keys == st.views.Keys
            && (f in r.views[root].known <==>
                Opened(cs, f) || (f !in st.documents && f in st.views[root].known))
            && (OwnerOf(world, st.model, st.documents, f) == Some(root) ==>
                  (f !in r.views[root].known <==> !Opened(cs, f)))
            && forall other :: other in st.views && other != root ==>
                 (f in r.views[other].known <==> f in st.views[other].known)
  {
    hide RootFor, TakeEach, Opened;
    BatchFollowed(world, st, cs, f, root);
    EndsInClose(cs, f);
  }

  /** A document that is opened and closed in one batch ends up without an owner, and its root's view
      still tracks it. */
  lemma OpenedAndClosed(world: World, st: State, f: Uri, root: Uri)
    requires f !in st.model.targets && RootFor(world, st.model, f) == Some(root) && root in st.views
    ensures var r := Applied(world, st, [Change(f, false), Change(f, true)], true);
            OwnerOf(world, st.model, r.documents, f) == None && root in r.views && f in r.views[root].known
  {
    hide RootFor, Applied;
    var cs := [Change(f, false), Change(f, true)];
    assert cs[0] == Change(f, false) && cs[1] == Change(f, true);
    ClosedIsForgotten(world, st, cs, f, root);
  }

  // ----- each step -----

  lemma SameSnapshots(a: map<Uri, Folder>, b: map<Uri, Folder>)
    requires a.Keys == b.Keys && forall f :: f in a ==> a[f].snapshot == b[f].snapshot
    ensures Snapshots(a) == Snapshots(b)
  {
  }

  lemma RegisterKeeps(world: World, st: State, f: Uri)
    requires Good(world, st)
    ensures Good(world, Register(st, f))
  {
    hide ModelOf, EachValid, OwnerOf;
    var r := Register(st, f);
    if f !in st.folders {
      forall g | g in r.folders ensures FolderOK(world, r, r.folders[g]) {
        if g == f {
          NoneValid(world);
        } else {
          assert FolderOK(world, st, st.folders[g]);
        }
      }
      assert Snapshots(r.folders) == Snapshots(st.folders)[f := []];
      EmptyFolder(world, Snapshots(st.folders), f);
      ViewedAside(world, st, r);
    }
  }

  lemma NoneValid(world: World)
    ensures EachValid(world, [])
  {
  }

  lemma ViewedAside(world: World, a: State, b: State)
    requires Viewed(world, a) && b.views == a.views && b.model == a.model && b.documents == a.documents
    ensures Viewed(world, b)
  {
    hide OwnerOf;
    forall f ensures OwnedIsTracked(world, b, f) {
      assert OwnedIsTracked(world, a, f);
    }
  }

  lemma {:induction false} RegisterEachKeeps(world: World, st: State, fs: seq<Uri>)
    requires Good(world, st)
    ensures Good(world, RegisterEach(st, fs))
    decreases |fs|
  {
    hide Good, Register;
    if fs != [] {
      RegisterEachKeeps(world, st, fs[..|fs| - 1]);
      RegisterKeeps(world, RegisterEach(st, fs[..|fs| - 1]), fs[|fs| - 1]);
    }
  }

  /** Folders that differ only in whether they are loading. */
  ghost predicate SameButLoading(a: map<Uri, Folder>, b: map<Uri, Folder>) {
    a.Keys == b.Keys && forall f :: f in a ==> b[f] == a[f].(loading := b[f].loading)
  }

  lemma {:induction false} ClaimMarks(folders: map<Uri, Folder>, fs: seq<Uri>)
    ensures SameButLoading(folders, Claim(folders, fs).folders)
    decreases |fs|
  {
    if fs != [] {
      ClaimMarks(folders, fs[..|fs| - 1]);
    }
  }

  /** A batch has exactly one job for each registered folder asked for that is not loading, for its
      current registration; these folders are loading from then on. */
  ghost predicate ClaimedOnce(folders: map<Uri, Folder>, fs: seq<Uri>, c: Claims) {
    && (forall i, k :: 0 <= i < k < |c.jobs| ==> c.jobs[i].folder != c.jobs[k].folder)
    && (forall f :: (f in folders && !folders[f].loading && f in fs) <==> HasJob(c.jobs, f))
    && (forall i :: 0 <= i < |c.jobs| ==> c.jobs[i].folder in folders && c.jobs[i].id == folders[c.jobs[i].folder].id)
    && (forall f :: f in c.folders <==> f in folders)
    && forall f :: f in folders ==> (c.folders[f].loading <==> folders[f].loading || HasJob(c.jobs, f))
  }

  ghost predicate HasJob(jobs: seq<Job>, f: Uri) {
    exists i :: 0 <= i < |jobs| && jobs[i].folder == f
  }

  lemma {:induction false} ClaimsOnce(folders: map<Uri, Folder>, fs: seq<Uri>)
    ensures ClaimedOnce(folders, fs, Claim(folders, fs))
    decreases |fs|
  {
    if fs != [] {
      var less, f := fs[..|fs| - 1], fs[|fs| - 1];
      ClaimsOnce(folders, less);
      ClaimMarks(folders, less);
      var c := Claim(folders, less);
      assert forall g :: g in fs <==> g in less || g == f;
      if f in c.folders && !c.folders[f].loading {
        JobAdded(c.jobs, Job(f, c.folders[f].id));
      }
    }
  }

  lemma JobAdded(jobs: seq<Job>, j: Job)
    ensures forall f :: HasJob(jobs + [j], f) <==> HasJob(jobs, f) || f == j.folder
  {
    forall f ensures HasJob(jobs + [j], f) <==> HasJob(jobs, f) || f == j.folder {
      assert (jobs + [j])[|jobs|] == j;
      if i :| 0 <= i < |jobs| && jobs[i].folder == f {
        assert (jobs + [j])[i].folder == f;
      }
    }
  }

  lemma LoadingAside(world: World, a: State, b: State)
    requires Good(world, a) && SameButLoading(a.folders, b.folders)
    requires b.nextId == a.nextId && b.model == a.model && b.views == a.views && b.documents == a.documents
    requires forall n :: n in b.jobs ==> n < b.nextBatch
    ensures Good(world, b)
  {
    hide ModelOf, EachValid, OwnerOf, Viewed, Snapshots;
    forall f | f in b.folders ensures FolderOK(world, b, b.folders[f]) {
      assert FolderOK(world, a, a.folders[f]);
    }
    SameSnapshots(a.folders, b.folders);
    ViewedAside(world, a, b);
  }

  lemma LoadKeeps(world: World, st: State, fs: seq<Uri>)
    requires Good(world, st)
    ensures Good(world, Load(st, fs))
  {
    hide Modelled, Viewed, FolderOK, Claim;
    ClaimMarks(st.folders, fs);
    LoadingAside(world, st, Load(st, fs));
  }

  lemma BatchKeeps(world: World, st: State, jobs: seq<Job>)
    requires Good(world, st)
    ensures Good(world, Batch(st, jobs))
  {
    hide Modelled, Viewed, FolderOK;
    LoadingAside(world, st, Batch(st, jobs));
  }

  lemma SettleKeeps(world: World, st: State, j: Job, outcome: Option<seq<Project>>)
    requires Registered(world, st)
    ensures Registered(world, st.(folders := Settle(world, st.folders, j, outcome)))
  {
    hide ValidProject;
    var r := st.(folders := Settle(world, st.folders, j, outcome));
    forall f | f in r.folders ensures FolderOK(world, r, r.folders[f]) {
      assert FolderOK(world, st, st.folders[f]);
    }
  }

  lemma {:induction false} SettleEachKeeps(world: World, st: State, jobs: seq<Job>, outcomes: seq<Option<seq<Project>>>,
                                           k: nat)
    requires k <= |jobs| == |outcomes| && Registered(world, st)
    ensures Registered(world, st.(folders := SettleEach(world, st.folders, jobs, outcomes, k)))
    decreases k
  {
    hide Registered, Settle;
    if k > 0 {
      SettleEachKeeps(world, st, jobs, outcomes, k - 1);
      SettleKeeps(world, st.(folders := SettleEach(world, st.folders, jobs, outcomes, k - 1)), jobs[k - 1],
                  outcomes[k - 1]);
    }
  }

  /** Settling changes no registration, and only those with a current job. */
  lemma {:induction false} SettleOnlyCurrent(world: World, folders: map<Uri, Folder>, jobs: seq<Job>,
                                             outcomes: seq<Option<seq<Project>>>, k: nat)
    requires k <= |jobs| == |outcomes|
    ensures var r := SettleEach(world, folders, jobs, outcomes, k);
            && r.Keys == folders.Keys && (forall f :: f in folders ==> r[f].id == folders[f].id)
            && forall f :: f in folders && (forall i :: 0 <= i < k ==> jobs[i] != Job(f, folders[f].id)) ==>
                 r[f] == folders[f]
    decreases k
  {
    hide Validated;
    if k > 0 {
      SettleOnlyCurrent(world, folders, jobs, outcomes, k - 1);
    }
  }

  lemma CommitKeeps(world: World, st: State, jobs: seq<Job>, outcomes: seq<Option<seq<Project>>>)
    requires Good(world, st) && |jobs| == |outcomes|
    ensures Good(world, Commit(world, st, jobs, outcomes))
  {
    hide Registered, Modelled, OwnedIsTracked, Reconciled, SettleEach;
    if st.loads {
      SettleEachKeeps(world, st, jobs, outcomes, |jobs|);
      var r := st.(folders := SettleEach(world, st.folders, jobs, outcomes, |jobs|));
      if exists i :: 0 <= i < |jobs| && Current(st.folders, jobs[i]) {
        ReconciledIsGood(world, r);
      } else {
        NoneSettles(world, st, jobs, outcomes);
      }
    }
  }

  lemma NoneSettles(world: World, st: State, jobs: seq<Job>, outcomes: seq<Option<seq<Project>>>)
    requires |jobs| == |outcomes| && forall i :: 0 <= i < |jobs| ==> !Current(st.folders, jobs[i])
    ensures SettleEach(world, st.folders, jobs, outcomes, |jobs|) == st.folders
  {
    SettleOnlyCurrent(world, st.folders, jobs, outcomes, |jobs|);
  }

  lemma RemovedKeeps(world: World, st: State, removed: seq<Uri>)
    requires Good(world, st)
    ensures Good(world, Removed(world, st, removed))
  {
    hide Modelled, OwnedIsTracked, Reconciled, EachValid;
    var r := st.(folders := st.folders - Elements(removed));
    forall f | f in r.folders ensures FolderOK(world, r, r.folders[f]) {
      assert FolderOK(world, st, st.folders[f]);
    }
    if exists i :: 0 <= i < |removed| && removed[i] in st.folders {
      ReconciledIsGood(world, r);
    } else {
      assert r.folders == st.folders by {
        forall f | f in st.folders ensures f !in removed {
        }
      }
    }
  }

  // ----- documents -----

  /** While changes are taken in: every owned file is tracked, or about to be updated. */
  ghost predicate Taken(world: World, m: Model, s: Intake, f: Uri) {
    var owner := OwnerOf(world, m, s.documents, f);
    owner.Some? ==> owner.value in s.views && (f in s.views[owner.value].known || f in FilesAt(s.updates, owner.value))
  }

  lemma TakeKeeps(world: World, m: Model, s: Intake, c: Change, overlay: bool, f: Uri)
    requires Taken(world, m, s, f) && Routed(m) && Rooted(m) && s.views.Keys == m.roots.Keys
    ensures Taken(world, m, Take(world, m, s, c, overlay), f)
  {
    hide RootFor, Routed, Rooted;
    var r := Take(world, m, s, c, overlay);
    OwnerIsRoot(world, m, r.documents, f);
    OwnerElsewhere(world, m, s.documents, r.documents, f);
  }

  /** Whether other documents are open does not matter to a file. */
  lemma OwnerElsewhere(world: World, m: Model, a: set<Uri>, b: set<Uri>, f: Uri)
    ensures (f in a) == (f in b) ==> OwnerOf(world, m, a, f) == OwnerOf(world, m, b, f)
  {
    hide RootFor;
  }

  lemma {:induction false} TakeEachKeeps(world: World, m: Model, s: Intake, cs: seq<Change>, overlay: bool, f: Uri)
    requires Taken(world, m, s, f) && Routed(m) && Rooted(m) && s.views.Keys == m.roots.Keys
    ensures var r := TakeEach(world, m, s, cs, overlay); Taken(world, m, r, f) && r.views.Keys == m.roots.Keys
    decreases |cs|
  {
    hide Taken, Routed, Rooted, OwnerOf;
    if cs != [] {
      TakeEachKeeps(world, m, s, cs[..|cs| - 1], overlay, f);
      TakeKeeps(world, m, TakeEach(world, m, s, cs[..|cs| - 1], overlay), cs[|cs| - 1], overlay, f);
    }
  }

  lemma {:induction false} TakeEachIncludes(world: World, m: Model, s: Intake, cs: seq<Change>, overlay: bool)
    ensures var r := TakeEach(world, m, s, cs, overlay);
            r.views.Keys == s.views.Keys
            && forall root :: root in s.views ==> r.views[root].includes == s.views[root].includes
    decreases |cs|
  {
    hide OwnerOf;
    if cs != [] {
      TakeEachIncludes(world, m, s, cs[..|cs| - 1], overlay);
    }
  }

  lemma AppliedKeeps(world: World, st: State, cs: seq<Change>, overlay: bool)
    requires Good(world, st)
    ensures Good(world, Applied(world, st, cs, overlay))
  {
    hide Registered, Modelled, ModelOf, OwnerOf, Routed, Rooted, TakeEach;
    var r := Applied(world, st, cs, overlay);
    var s0 := Intake(st.documents, st.views, map[]);
    TakeEachIncludes(world, st.model, s0, cs, overlay);
    GoodModel(world, st);
    forall f ensures OwnedIsTracked(world, r, f) {
      assert OwnedIsTracked(world, st, f);
      TakeEachKeeps(world, st.model, s0, cs, overlay, f);
    }
    JobsKnown(world, st);
    RegisteredAside(world, st, r);
    ModelledAside(world, st, r);
  }

  lemma GoodModel(world: World, st: State)
    requires Good(world, st)
    ensures Routed(st.model) && Rooted(st.model)
  {
    hide Registered, Viewed, ModelOf, AllValid;
    SnapshotsValid(world, st);
    ModelIs(world, Snapshots(st.folders));
  }

  lemma ModelledAside(world: World, a: State, b: State)
    requires Modelled(world, a) && b.model == a.model && b.folders == a.folders
    ensures Modelled(world, b)
  {
  }

  // ----- every run -----

  lemma ShutdownKeeps(world: World, st: State)
    requires Good(world, st)
    ensures Good(world, Step(world, st, Shutdown))
  {
    hide Modelled, Viewed, FolderOK;
    LoadingAside(world, st, Step(world, st, Shutdown));
  }

  lemma FinishKeeps(world: World, st: State, batch: nat, outcomes: seq<Option<seq<Project>>>)
    requires Good(world, st)
    ensures Good(world, Step(world, st, Finish(batch, outcomes)))
  {
    hide Modelled, Viewed, FolderOK, Commit;
    if batch in st.jobs && |st.jobs[batch]| == |outcomes| {
      LoadingAside(world, st, st.(jobs := st.jobs - {batch}));
      CommitKeeps(world, st.(jobs := st.jobs - {batch}), st.jobs[batch], outcomes);
    }
  }

  lemma StepKeeps(world: World, st: State, e: Event)
    requires Good(world, st)
    ensures Good(world, Step(world, st, e))
  {
    hide Good, RegisterEach, Load, Removed, Applied, Batch, Unregistered, JobsFor, Sorted;
    match e {
      case Initialize(fs) => RegisterEachKeeps(world, st, fs);
      case Start => LoadKeeps(world, st, Sorted(st.folders.Keys));
      case ChangeFolders(added, removed) =>
        RemovedKeeps(world, st, removed);
        var r := Removed(world, st, removed);
        RegisterEachKeeps(world, r, added);
        LoadKeeps(world, RegisterEach(r, added), Unregistered(r, added));
      case LoadSync(fs) =>
        RegisterEachKeeps(world, st, fs);
        var r := RegisterEach(st, fs);
        BatchKeeps(world, r, JobsFor(r.folders, fs));
      case Finish(batch, outcomes) => FinishKeeps(world, st, batch, outcomes);
      case ApplyChanges(changes, overlay) => AppliedKeeps(world, st, changes, overlay);
      case Shutdown => ShutdownKeeps(world, st);
    }
  }

  lemma NewIsGood(world: World)
    ensures Good(world, NewWorkspace())
  {
    hide BuildOf, AddAllTargets;
    var st := NewWorkspace();
    assert Snapshots(st.folders) == map[];
    SnapshotsValid(world, st);
    ModelIs(world, map[]);
    EmptyModel(world);
  }

  lemma EmptyModel(world: World)
    ensures ModelOf(world, map[]) == Model(map[], map[])
  {
    var none: map<Uri, seq<Project>> := map[];
    assert none.Keys == {};
    assert Sorted(none.Keys) == [];
    assert AllProjects(none, []) == [];
  }

  /** In every run, after every step: the model is that of the registered folders' snapshots, each
      snapshot was loaded for the registration that holds it, the views are those of the model's
      roots, and every owned file is tracked by the view of its root. */
  lemma {:induction false} RunIsGood(world: World, events: seq<Event>)
    ensures Good(world, Run(world, NewWorkspace(), events))
    decreases |events|
  {
    hide Good, Step;
    if events == [] {
      NewIsGood(world);
    } else {
      RunIsGood(world, events[..|events| - 1]);
      StepKeeps(world, Run(world, NewWorkspace(), events[..|events| - 1]), events[|events| - 1]);
    }
  }

  /** Every owned file is routed to a view built for its root's include paths. */
  lemma RoutesToItsView(world: World, st: State, file: Uri)
    requires Good(world, st)
    ensures var owner, view := OwnerOf(world, st.model, st.documents, file), ViewOf(world, st, file);
            (view.Some? <==> owner.Some?)
            && (owner.Some? ==> owner.value in st.model.roots && view.value == st.views[owner.value]
                                && view.value.includes == st.model.roots[owner.value].includes
                                && file in view.value.known)
  {
    hide OwnerOf, Registered, Modelled;
    assert OwnedIsTracked(world, st, file);
  }

  // ----- loads and registrations -----

  /** No folder has registration id. */
  ghost predicate Gone(st: State, id: nat) {
    id < st.nextId && forall f :: f in st.folders ==> st.folders[f].id != id
  }

  /** Every registration of b is one of a, or new. */
  ghost predicate OnlyNew(a: State, b: State) {
    a.nextId <= b.nextId
    && forall f :: f in b.folders ==>
         b.folders[f].id >= a.nextId || (f in a.folders && a.folders[f].id == b.folders[f].id)
  }

  lemma {:induction false} RegisterOnlyNew(st: State, fs: seq<Uri>)
    ensures OnlyNew(st, RegisterEach(st, fs))
    decreases |fs|
  {
    if fs != [] {
      RegisterOnlyNew(st, fs[..|fs| - 1]);
    }
  }

  lemma LoadOnlyNew(st: State, fs: seq<Uri>)
    ensures OnlyNew(st, Load(st, fs))
  {
    hide Claim;
    ClaimMarks(st.folders, fs);
  }

  lemma StepOnlyNew(world: World, st: State, e: Event)
    ensures OnlyNew(st, Step(world, st, e))
  {
    hide RegisterEach, Load, ModelOf, SettleEach, TakeEach, Unregistered, JobsFor, Sorted, ViewFor;
    match e {
      case Initialize(fs) => RegisterOnlyNew(st, fs);
      case Start => LoadOnlyNew(st, Sorted(st.folders.Keys));
      case ChangeFolders(added, removed) =>
        var r := Removed(world, st, removed);
        RegisterOnlyNew(r, added);
        LoadOnlyNew(RegisterEach(r, added), Unregistered(r, added));
      case LoadSync(fs) => RegisterOnlyNew(st, fs);
      case Finish(batch, outcomes) =>
        if batch in st.jobs && |st.jobs[batch]| == |outcomes| {
          SettleOnlyCurrent(world, st.folders, st.jobs[batch], outcomes, |outcomes|);
        }
      case ApplyChanges(changes, overlay) =>
      case Shutdown =>
    }
  }

  /** Once a registration is removed no later load for it reaches the workspace, even if its folder is
      registered again: it never comes back, and no snapshot was loaded for it. */
  lemma {:induction false} RemovedNeverLoads(world: World, st: State, id: nat, events: seq<Event>)
    requires Good(world, st) && Gone(st, id)
    ensures var r := Run(world, st, events);
            Good(world, r) && Gone(r, id) && forall f :: f in r.folders ==> r.folders[f].loadedBy != Some(id)
    decreases |events|
  {
    hide Step, Modelled, Viewed, EachValid;
    if events != [] {
      var before := Run(world, st, events[..|events| - 1]);
      RemovedNeverLoads(world, st, id, events[..|events| - 1]);
      StepOnlyNew(world, before, events[|events| - 1]);
      StepKeeps(world, before, events[|events| - 1]);
    }
    var r := Run(world, st, events);
    forall f | f in r.folders ensures r.folders[f].loadedBy != Some(id) {
      assert FolderOK(world, r, r.folders[f]);
    }
  }

  /** Nothing has been loaded from a on: every project in b's folders was there in a. */
  ghost predicate NothingLoaded(a: State, b: State) {
    !b.loads && forall f :: f in b.folders ==>
                  b.folders[f].snapshot == [] || (f in a.folders && b.folders[f].snapshot == a.folders[f].snapshot)
  }

  lemma {:induction false} RegisterNothingLoaded(a: State, st: State, fs: seq<Uri>)
    requires NothingLoaded(a, st)
    ensures NothingLoaded(a, RegisterEach(st, fs))
    decreases |fs|
  {
    if fs != [] {
      RegisterNothingLoaded(a, st, fs[..|fs| - 1]);
    }
  }

  lemma StepNothingLoaded(world: World, a: State, st: State, e: Event)
    requires NothingLoaded(a, st)
    ensures NothingLoaded(a, Step(world, st, e))
  {
    hide RegisterEach, ModelOf, TakeEach, Unregistered, JobsFor, Sorted, ViewFor, Claim;
    match e {
      case Initialize(fs) => RegisterNothingLoaded(a, st, fs);
      case ChangeFolders(added, removed) => RegisterNothingLoaded(a, Removed(world, st, removed), added);
      case LoadSync(fs) => RegisterNothingLoaded(a, st, fs);
      case _ =>
    }
  }

  /** After shutdown no load reaches the workspace: the folders' projects are those there were, or
      none. */
  lemma {:induction false} ShutdownStopsLoads(world: World, st: State, events: seq<Event>)
    requires !st.loads
    ensures NothingLoaded(st, Run(world, st, events))
    decreases |events|
  {
    hide Step;
    if events != [] {
      ShutdownStopsLoads(world, st, events[..|events| - 1]);
      StepNothingLoaded(world, st, Run(world, st, events[..|events| - 1]), events[|events| - 1]);
    }
  }
}
