/** The workspace: folders, the loads of their projects, the model derived from them, and the views
    built for it (lsp/workspace.go). */
module WorkspaceModel {
  import opened Wrappers

  /** A URI; its rank is its place in string order, and rank 0 is the empty URI. */
  datatype Uri = Uri(rank: int)

  /** The path of a URI, and whether it parses as a file URI with a path. */
  datatype World = World(path: Uri -> string, wellFormed: Uri -> bool)

  datatype Project = Project(config: Uri, root: Uri, targets: seq<Uri>, includes: seq<string>)

  datatype Model = Model(roots: map<Uri, Project>, targets: map<Uri, Uri>)

  // ----- sorted keys -----

  ghost predicate Ascending(s: seq<Uri>) {
    forall i, j :: 0 <= i < j < |s| ==> s[i].rank < s[j].rank
  }

  lemma {:induction false} LeastExists(s: set<Uri>)
    requires s != {}
    ensures exists m :: m in s && forall x :: x in s ==> m.rank <= x.rank
    decreases s
  {
    var x :| x in s;
    var rest := s - {x};
    if rest == {} {
      assert forall z :: z in s ==> z == x || z in rest;
    } else {
      LeastExists(rest);
      var y :| y in rest && forall z :: z in rest ==> y.rank <= z.rank;
      LeastOfTwo(s, x, y);
    }
  }

  lemma LeastOfTwo(s: set<Uri>, x: Uri, y: Uri)
    requires x in s && y in s && forall z :: z in s - {x} ==> y.rank <= z.rank
    ensures exists m :: m in s && forall z :: z in s ==> m.rank <= z.rank
  {
    var m := if x.rank <= y.rank then x else y;
    forall z | z in s ensures m.rank <= z.rank {
      assert z == x || z in s - {x};
    }
  }

  function Least(s: set<Uri>): (m: Uri)
    requires s != {}
    ensures m in s && forall x :: x in s ==> m.rank <= x.rank
  {
    LeastExists(s);
    var m :| m in s && forall x :: x in s ==> m.rank <= x.rank;
    m
  }

  function Sorted(s: set<Uri>): (r: seq<Uri>)
    ensures Ascending(r) && forall x :: x in r <==> x in s
    decreases s
  {
    if s == {} then []
    else
      var m := Least(s);
      var rest := Sorted(s - {m});
      assert forall i :: 0 <= i < |rest| ==> rest[i] in rest;
      [m] + rest
  }

  lemma Rest(s: seq<Uri>)
    requires s != [] && Ascending(s)
    ensures s == [s[0]] + s[1..] && Ascending(s[1..]) && s[0] !in s[1..]
    ensures forall x :: x in s <==> x == s[0] || x in s[1..]
    ensures forall x :: x in s ==> s[0].rank <= x.rank
  {
  }

  lemma {:induction false} SameAscending(a: seq<Uri>, b: seq<Uri>)
    requires Ascending(a) && Ascending(b) && forall x :: x in a <==> x in b
    ensures a == b
    decreases |a|
  {
    if a == [] {
      SomeElement(b);
    } else if b == [] {
      SomeElement(a);
    } else {
      Rest(a);
      Rest(b);
      assert a[0] in b && b[0] in a;
      assert a[0] == b[0];
      SameAscending(a[1..], b[1..]);
    }
  }

  // ----- accepted projects -----

  predicate ValidUri(world: World, u: Uri) {
    u != Uri(0) && world.wellFormed(u)
  }

  predicate ValidProject(world: World, p: Project) {
    ValidUri(world, p.root) && ValidUri(world, p.config)
    && forall i :: 0 <= i < |p.targets| ==> ValidUri(world, p.targets[i])
  }

  function Validated(world: World, ps: seq<Project>): (r: seq<Project>)
    ensures forall p :: p in r <==> p in ps && ValidProject(world, p)
  {
    if ps == [] then []
    else
      var rest := Validated(world, ps[..|ps| - 1]);
      if ValidProject(world, ps[|ps| - 1]) then rest + [ps[|ps| - 1]] else rest
  }

  /** The projects of the folders in order. */
  function AllProjects(snapshots: map<Uri, seq<Project>>, folders: seq<Uri>): seq<Project> {
    if folders == [] then []
    else
      var last := folders[|folders| - 1];
      AllProjects(snapshots, folders[..|folders| - 1]) + if last in snapshots then snapshots[last] else []
  }

  datatype Build = Build(roots: map<Uri, Project>, projects: seq<Project>)

  /** A project whose root is taken with other include paths is turned away. */
  function AddProject(b: Build, p: Project): Build {
    if p.root in b.roots && b.roots[p.root].includes != p.includes then b
    else Build(if p.root in b.roots then b.roots else b.roots[p.root := p], b.projects + [p])
  }

  function BuildOf(ps: seq<Project>): (b: Build)
    ensures forall i :: 0 <= i < |b.projects| ==> b.projects[i].root in b.roots
    ensures forall r :: r in b.roots ==> b.roots[r].root == r && b.roots[r] in ps
  {
    if ps == [] then Build(map[], []) else AddProject(BuildOf(ps[..|ps| - 1]), ps[|ps| - 1])
  }

  // ----- routing -----

  function TrimSlash(s: string): string {
    if s != "" && s[|s| - 1] == '/' then s[..|s| - 1] else s
  }

  predicate HasPrefix(s: string, prefix: string) {
    |prefix| <= |s| && s[..|prefix|] == prefix
  }

  predicate Contains(world: World, root: Uri, file: Uri) {
    HasPrefix(world.path(file), TrimSlash(world.path(root)) + "/")
  }

  /** The root with the longest path among those that contain file, the first of equals; the empty
      URI if none does. */
  function Best(world: World, roots: seq<Uri>, file: Uri): Uri {
    if roots == [] then Uri(0)
    else
      var best, root := Best(world, roots[..|roots| - 1], file), roots[|roots| - 1];
      if !Contains(world, root, file) then best
      else if best == Uri(0) || |world.path(root)| > |world.path(best)| then root
      else best
  }

  function RootFor(world: World, m: Model, file: Uri): Option<Uri> {
    var best := Best(world, Sorted(m.roots.Keys), file);
    if best != Uri(0) then Some(best)
    else if file in m.targets then Some(m.targets[file])
    else None
  }

  function OwnerOf(world: World, m: Model, documents: set<Uri>, file: Uri): Option<Uri> {
    if file in m.targets then Some(m.targets[file])
    else if file in documents then RootFor(world, m, file)
    else None
  }

  /** The first k targets of a project, each with the best root, or the project's own. */
  function AddTargets(world: World, m: Model, p: Project, k: nat): Model
    requires k <= |p.targets|
  {
    if k == 0 then m
    else
      var r, t := AddTargets(world, m, p, k - 1), p.targets[k - 1];
      if t in r.targets then r
      else
        var root := RootFor(world, r, t);
        r.(targets := r.targets[t := if root.Some? then root.value else p.root])
  }

  function AddAllTargets(world: World, m: Model, ps: seq<Project>, k: nat): Model
    requires k <= |ps|
  {
    if k == 0 then m else AddTargets(world, AddAllTargets(world, m, ps, k - 1), ps[k - 1], |ps[k - 1].targets|)
  }

  /** The model of the folders' accepted projects. */
  function ModelOf(world: World, snapshots: map<Uri, seq<Project>>): Model {
    var b := BuildOf(AllProjects(snapshots, Sorted(snapshots.Keys)));
    AddAllTargets(world, Model(b.roots, map[]), b.projects, |b.projects|)
  }

  // ----- what models are -----

  /** Every target is owned by a root. */
  ghost predicate Routed(m: Model) {
    forall t :: t in m.targets ==> m.targets[t] in m.roots
  }

  lemma {:induction false} BestIs(world: World, roots: seq<Uri>, file: Uri)
    requires Uri(0) !in roots
    ensures var best := Best(world, roots, file);
            if best == Uri(0) then forall r :: r in roots ==> !Contains(world, r, file)
            else
              && best in roots && Contains(world, best, file)
              && forall r :: r in roots && Contains(world, r, file) ==> |world.path(r)| <= |world.path(best)|
    decreases |roots|
  {
    hide Contains;
    if roots != [] {
      var less, last := roots[..|roots| - 1], roots[|roots| - 1];
      assert forall r :: r in roots <==> r in less || r == last;
      BestIs(world, less, file);
    }
  }

  /** Roots that contain a file and have paths of one length have one path. */
  lemma SameLengthSamePath(world: World, a: Uri, b: Uri, file: Uri)
    requires Contains(world, a, file) && Contains(world, b, file) && |world.path(a)| == |world.path(b)|
    ensures world.path(a) == world.path(b)
  {
    PathIsPrefix(world.path(a), world.path(file));
    PathIsPrefix(world.path(b), world.path(file));
  }

  lemma PathIsPrefix(root: string, file: string)
    requires HasPrefix(file, TrimSlash(root) + "/")
    ensures |root| <= |file| && file[..|root|] == root
  {
    var p := TrimSlash(root);
    assert file[..|p| + 1][..|p|] == p;
    assert file[..|p| + 1] == p + "/";
  }

  /** No root is the empty URI. */
  ghost predicate Rooted(m: Model) {
    Uri(0) !in m.roots
  }

  lemma RootForIsRoot(world: World, m: Model, file: Uri)
    requires Routed(m) && Rooted(m)
    ensures RootFor(world, m, file).Some? ==> RootFor(world, m, file).value in m.roots
  {
    hide Best, Sorted;
    BestIs(world, Sorted(m.roots.Keys), file);
  }

  /** What every owned file is owned by. */
  lemma OwnerIsRoot(world: World, m: Model, documents: set<Uri>, file: Uri)
    requires Routed(m) && Rooted(m)
    ensures OwnerOf(world, m, documents, file).Some? ==> OwnerOf(world, m, documents, file).value in m.roots
  {
    hide RootFor;
    RootForIsRoot(world, m, file);
  }

  /** r is m with targets of p, each routed to the best root or to p's. */
  ghost predicate Adds(world: World, m: Model, p: Project, r: Model) {
    && r.roots == m.roots && (forall t :: t in m.targets ==> t in r.targets && r.targets[t] == m.targets[t])
    && forall t :: t in r.targets && t !in m.targets ==>
         t in p.targets && r.targets[t] == BestOr(world, m.roots, t, p.root)
  }

  lemma {:induction false} TargetsAdded(world: World, m: Model, p: Project, k: nat)
    requires k <= |p.targets| && Routed(m) && Rooted(m) && p.root in m.roots
    ensures var r := AddTargets(world, m, p, k);
            Routed(r) && Adds(world, m, p, r) && forall i :: 0 <= i < k ==> p.targets[i] in r.targets
    decreases k
  {
    hide RootFor, BestOr, Routed, Adds;
    if k > 0 {
      TargetsAdded(world, m, p, k - 1);
      var r, t := AddTargets(world, m, p, k - 1), p.targets[k - 1];
      SameRoots(world, m, p, r);
      NewTarget(world, r, t, p.root);
      if t !in r.targets {
        AddsOne(world, m, p, r, t);
      }
    } else {
      AddsNone(world, m, p);
    }
  }

  lemma SameRoots(world: World, m: Model, p: Project, r: Model)
    requires Adds(world, m, p, r)
    ensures r.roots == m.roots
  {
  }

  lemma AddsNone(world: World, m: Model, p: Project)
    ensures Adds(world, m, p, m)
  {
  }

  lemma AddsOne(world: World, m: Model, p: Project, r: Model, t: Uri)
    requires Routed(r) && Adds(world, m, p, r) && t in p.targets && t !in r.targets
    requires BestOr(world, m.roots, t, p.root) in m.roots
    ensures var s := r.(targets := r.targets[t := BestOr(world, m.roots, t, p.root)]); Routed(s) && Adds(world, m, p, s)
  {
    hide BestOr;
  }

  /** A new target goes to the best root or to its project's. */
  lemma NewTarget(world: World, m: Model, t: Uri, root: Uri)
    requires Routed(m) && Rooted(m) && root in m.roots
    ensures var r := RootFor(world, m, t);
            t !in m.targets ==>
              (if r.Some? then r.value else root) == BestOr(world, m.roots, t, root)
              && BestOr(world, m.roots, t, root) in m.roots
  {
    hide Best, Sorted;
    RootForIsRoot(world, m, t);
  }

  /** The best root for file, or else the given one. */
  function BestOr(world: World, roots: map<Uri, Project>, file: Uri, root: Uri): Uri {
    var best := Best(world, Sorted(roots.Keys), file);
    if best != Uri(0) then best else root
  }

  /** Every target of an accepted project is routed to the best root that contains it; one that no
      root contains goes to a project that lists it. */
  ghost predicate TargetsRouted(world: World, m: Model, ps: seq<Project>, k: nat)
    requires k <= |ps|
  {
    && (forall i, j :: 0 <= i < k && 0 <= j < |ps[i].targets| ==> ps[i].targets[j] in m.targets)
    && forall t :: t in m.targets ==>
                     exists i :: 0 <= i < k && t in ps[i].targets
                       && m.targets[t] == BestOr(world, m.roots, t, ps[i].root)
  }

  lemma {:induction false} AllTargetsAdded(world: World, m: Model, ps: seq<Project>, k: nat)
    requires k <= |ps| && m.targets == map[] && Rooted(m) && forall i :: 0 <= i < |ps| ==> ps[i].root in m.roots
    ensures var r := AddAllTargets(world, m, ps, k);
            Routed(r) && r.roots == m.roots && TargetsRouted(world, r, ps, k)
    decreases k
  {
    hide BestOr, AddTargets;
    if k > 0 {
      AllTargetsAdded(world, m, ps, k - 1);
      var before, p := AddAllTargets(world, m, ps, k - 1), ps[k - 1];
      TargetsAdded(world, before, p, |p.targets|);
      var r := AddTargets(world, before, p, |p.targets|);
      forall t | t in r.targets
        ensures exists i :: 0 <= i < k && t in ps[i].targets && r.targets[t] == BestOr(world, r.roots, t, ps[i].root)
      {
        if t in before.targets {
          var i :| 0 <= i < k - 1 && t in ps[i].targets
              && before.targets[t] == BestOr(world, before.roots, t, ps[i].root);
        } else {
          assert t in ps[k - 1].targets;
        }
      }
    }
  }

  ghost predicate EachValid(world: World, ps: seq<Project>) {
    forall p :: p in ps ==> ValidProject(world, p)
  }

  ghost predicate AllValid(world: World, snapshots: map<Uri, seq<Project>>) {
    forall f :: f in snapshots ==> EachValid(world, snapshots[f])
  }

  lemma {:induction false} ProjectsValid(world: World, snapshots: map<Uri, seq<Project>>, folders: seq<Uri>)
    requires AllValid(world, snapshots)
    ensures EachValid(world, AllProjects(snapshots, folders))
    decreases |folders|
  {
    hide ValidProject;
    if folders != [] {
      ProjectsValid(world, snapshots, folders[..|folders| - 1]);
    }
  }

  lemma NoEmptyRoot(world: World, ps: seq<Project>)
    requires EachValid(world, ps)
    ensures Uri(0) !in BuildOf(ps).roots
  {
    hide BuildOf;
    var b := BuildOf(ps);
    forall r | r in b.roots ensures ValidUri(world, r) {
      assert b.roots[r] in ps && b.roots[r].root == r;
    }
  }

  /** What the model of valid snapshots is: its roots are those of accepted projects, and every target
      of one is routed to a root, the longest that contains it if any does. */
  lemma ModelIs(world: World, snapshots: map<Uri, seq<Project>>)
    requires AllValid(world, snapshots)
    ensures var m := ModelOf(world, snapshots);
            var b := BuildOf(AllProjects(snapshots, Sorted(snapshots.Keys)));
            m.roots == b.roots && Routed(m) && Rooted(m) && TargetsRouted(world, m, b.projects, |b.projects|)
  {
    hide AddAllTargets, TargetsRouted, BuildOf, AllProjects, Sorted, ValidProject;
    var ps := AllProjects(snapshots, Sorted(snapshots.Keys));
    var b := BuildOf(ps);
    ProjectsValid(world, snapshots, Sorted(snapshots.Keys));
    NoEmptyRoot(world, ps);
    AllTargetsAdded(world, Model(b.roots, map[]), b.projects, |b.projects|);
  }

  /** The first project of a root gives it its include paths; of the others exactly those with the same
      include paths are accepted, in order. */
  ghost predicate FirstWins(b: Build, ps: seq<Project>) {
    && (forall i :: 0 <= i < |ps| ==> ps[i].root in b.roots)
    && (forall r :: r in b.roots ==> HasFirst(ps, r, b.roots[r])) && b.projects == Agreeing(b, ps)
  }

  ghost predicate HasFirst(ps: seq<Project>, r: Uri, p: Project) {
    exists i :: IsFirst(ps, i, r) && ps[i] == p
  }

  ghost predicate IsFirst(ps: seq<Project>, i: int, r: Uri) {
    0 <= i < |ps| && ps[i].root == r && forall k :: 0 <= k < i ==> ps[k].root != r
  }

  /** The projects of ps whose include paths are those of their root. */
  function Agreeing(b: Build, ps: seq<Project>): seq<Project> {
    if ps == [] then []
    else
      var less, p := Agreeing(b, ps[..|ps| - 1]), ps[|ps| - 1];
      if p.root in b.roots && b.roots[p.root].includes == p.includes then less + [p] else less
  }

  /** A later root does not matter to earlier projects. */
  lemma {:induction false} AgreeingAside(b: Build, c: Build, ps: seq<Project>)
    requires forall i :: 0 <= i < |ps| ==>
               ps[i].root in b.roots && ps[i].root in c.roots && c.roots[ps[i].root] == b.roots[ps[i].root]
    ensures Agreeing(c, ps) == Agreeing(b, ps)
    decreases |ps|
  {
    if ps != [] {
      AgreeingAside(b, c, ps[..|ps| - 1]);
    }
  }

  lemma {:induction false} BuildIs(ps: seq<Project>)
    ensures FirstWins(BuildOf(ps), ps)
    decreases |ps|
  {
    hide Agreeing, BuildOf, FirstWins;
    if ps == [] {
      NoneWin();
    } else {
      var less, p := ps[..|ps| - 1], ps[|ps| - 1];
      BuildIs(less);
      BuildStep(ps);
      NextWins(BuildOf(less), less, p);
      assert ps == less + [p];
    }
  }

  lemma NoneWin()
    ensures FirstWins(BuildOf([]), [])
  {
  }

  lemma BuildStep(ps: seq<Project>)
    requires ps != []
    ensures BuildOf(ps) == AddProject(BuildOf(ps[..|ps| - 1]), ps[|ps| - 1])
  {
  }

  lemma NextWins(b: Build, less: seq<Project>, p: Project)
    requires FirstWins(b, less)
    ensures FirstWins(AddProject(b, p), less + [p])
  {
    hide Agreeing, HasFirst;
    var c, ps := AddProject(b, p), less + [p];
    AgreeingAside(b, c, less);
    assert ps[..|ps| - 1] == less;
    AgreeingStep(c, ps);
    forall r | r in c.roots ensures HasFirst(ps, r, c.roots[r]) {
      if r in b.roots {
        FirstStays(less, p, r, b.roots[r]);
      } else {
        FirstIsNew(less, p);
      }
    }
  }

  lemma FirstStays(less: seq<Project>, p: Project, r: Uri, q: Project)
    requires HasFirst(less, r, q)
    ensures HasFirst(less + [p], r, q)
  {
    var i :| IsFirst(less, i, r) && less[i] == q;
    assert IsFirst(less + [p], i, r);
  }

  lemma FirstIsNew(less: seq<Project>, p: Project)
    requires forall i :: 0 <= i < |less| ==> less[i].root != p.root
    ensures HasFirst(less + [p], p.root, p)
  {
    assert IsFirst(less + [p], |less|, p.root);
  }

  lemma AgreeingStep(b: Build, ps: seq<Project>)
    requires ps != []
    ensures var less, p := Agreeing(b, ps[..|ps| - 1]), ps[|ps| - 1];
            Agreeing(b, ps) == if p.root in b.roots && b.roots[p.root].includes == p.includes then less + [p] else less
  {
  }

  // ----- folders without projects -----

  function Dropping(s: seq<Uri>, f: Uri): (r: seq<Uri>)
    ensures forall x :: x in r <==> x in s && x != f
  {
    if s == [] then []
    else
      var r := Dropping(s[..|s| - 1], f);
      if s[|s| - 1] == f then r else r + [s[|s| - 1]]
  }

  lemma {:induction false} DroppingAscends(s: seq<Uri>, f: Uri)
    requires Ascending(s)
    ensures Ascending(Dropping(s, f))
    decreases |s|
  {
    if s != [] {
      DroppingAscends(s[..|s| - 1], f);
      var r := Dropping(s[..|s| - 1], f);
      assert forall i :: 0 <= i < |r| ==> r[i] in r;
    }
  }

  lemma {:induction false} NoProjects(a: map<Uri, seq<Project>>, b: map<Uri, seq<Project>>, folders: seq<Uri>, f: Uri)
    requires f in a ==> a[f] == []
    requires forall g :: g != f ==> (g in a <==> g in b) && (g in a ==> a[g] == b[g])
    ensures AllProjects(a, folders) == AllProjects(b, Dropping(folders, f))
    decreases |folders|
  {
    if folders != [] {
      var less, last := folders[..|folders| - 1], folders[|folders| - 1];
      NoProjects(a, b, less, f);
      var d := Dropping(less, f);
      assert (d + [last])[..|d|] == d;
      assert AllProjects(a, less) + [] == AllProjects(a, less);
    }
  }

  /** A folder without projects adds nothing to the model. */
  lemma EmptyFolder(world: World, snapshots: map<Uri, seq<Project>>, f: Uri)
    requires f !in snapshots
    ensures ModelOf(world, snapshots[f := []]) == ModelOf(world, snapshots)
  {
    hide AddAllTargets, BuildOf, AllProjects, Sorted;
    var more := snapshots[f := []];
    var s, r := Sorted(more.Keys), Sorted(snapshots.Keys);
    DroppingAscends(s, f);
    forall x ensures x in Dropping(s, f) <==> x in r {
      assert x in more.Keys <==> x in snapshots.Keys || x == f;
    }
    SameAscending(Dropping(s, f), r);
    NoProjects(more, snapshots, s, f);
  }
}
