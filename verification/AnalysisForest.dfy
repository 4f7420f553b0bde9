/**
 The Analyses of a Workspace: Tab-owned forests that grow by submission, and shrink by removal and
 by the supersession that a success brings about.
 */
module AnalysisForest {
  import opened Common

  datatype AnalysisState = Queued | Running | Succeeded | Failed | Cancelled

  datatype Analysis = Analysis(
    tab: nat, parent: Option<nat>, supersedes: seq<nat>, state: AnalysisState, supporting: bool)

  type Records = map<nat, Analysis>

  /** Fresh identities are numbered in order of creation; a Tab lists the Analyses it owns. */
  datatype Forest = Forest(analyses: Records, tabs: map<nat, seq<nat>>, next: nat)

  /**
   annotation says whether the Tab's kind has one linear lifecycle, members how many children a
   group run starts with, and creation whether Data Blocks are created from the parent's results.
   kindFits, parentKindFits and inputsExist answer for the contents of the request.
   */
  datatype Submission = Submission(
    tab: nat, annotation: bool, supporting: bool, parent: Option<nat>, supersedes: seq<nat>, members: nat,
    creation: bool, kindFits: bool, parentKindFits: bool, inputsExist: bool)

  datatype SubmitError = TabNotFound | KindMismatch | ParentInvalid | AnalysisNotFound | TabBusy | InputMissing

  datatype AddError = DuplicateAnalysis | ForeignParent | TabMissing

  datatype Step =
    | CreateTab(tab: nat)
    | Submit(submission: Submission)
    | Advance(id: nat, state: AnalysisState)
    | Succeed(id: nat)
    | Remove(id: nat)
    | Unlink(tab: nat)

  predicate Active(state: AnalysisState) {
    state.Queued? || state.Running?
  }

  // ---------------------------------------------------------------- lineages and removal

  /** An Analysis and its ancestors, as far as they exist. */
  function Lineage(m: Records, id: nat): set<nat> {
    if id !in m then {}
    else match m[id].parent
      case Some(p) => if p < id then {id} + Lineage(m, p) else {id}
      case None => {id}
  }

  /** Removing an Analysis takes all its descendants along. */
  function Without(m: Records, id: nat): Records {
    map a | a in m && id !in Lineage(m, a) :: m[a]
  }

  function WithoutAll(m: Records, ids: seq<nat>): Records {
    if ids == [] then m else Without(WithoutAll(m, ids[..|ids| - 1]), ids[|ids| - 1])
  }

  function IsIn(m: Records): nat -> bool {
    (a: nat) => a in m
  }

  /** Tabs drop what no longer exists. */
  function Relinked(tabs: map<nat, seq<nat>>, m: Records): map<nat, seq<nat>> {
    map t | t in tabs :: Filter(tabs[t], IsIn(m))
  }

  function Removed(f: Forest, m: Records): Forest {
    f.(analyses := m, tabs := Relinked(f.tabs, m))
  }

  // ---------------------------------------------------------------- submission

  predicate Live(f: Forest, id: nat) {
    id in f.analyses && exists t | t in f.tabs :: id in f.tabs[t]
  }

  predicate BusyTab(f: Forest, tab: nat) {
    exists a | a in f.analyses :: f.analyses[a].tab == tab && !f.analyses[a].supporting && Active(f.analyses[a].state)
  }

  predicate ParentOk(f: Forest, x: Submission) {
    x.parent.Some? ==> Live(f, x.parent.value) && f.analyses[x.parent.value].tab == x.tab
  }

  function ParentLineage(f: Forest, x: Submission): set<nat> {
    if x.parent.Some? then Lineage(f.analyses, x.parent.value) else {}
  }

  /** A superseded Analysis is a finished member of the same Tab outside the new one's lineage. */
  predicate MaySupersede(f: Forest, x: Submission, id: nat) {
    && Live(f, id) && f.analyses[id].tab == x.tab && !Active(f.analyses[id].state)
    && id !in ParentLineage(f, x)
  }

  /** Data Blocks are created from a successful parent of the right kind. */
  predicate CreationOk(f: Forest, x: Submission) {
    x.creation ==>
      && x.supporting && x.parent.Some? && x.parent.value in f.analyses
      && f.analyses[x.parent.value].state.Succeeded? && x.parentKindFits
  }

  predicate Submittable(f: Forest, x: Submission) {
    && x.tab in f.tabs && x.kindFits
    && (x.annotation ==> !x.supporting && x.parent.None? && x.supersedes == [])
    && (!x.supporting ==> !BusyTab(f, x.tab))
    && ParentOk(f, x)
    && CreationOk(f, x)
    && (forall id | id in x.supersedes :: MaySupersede(f, x, id))
    && x.inputsExist
  }

  /** What the first inadmissible of several supersessions is refused for. */
  function SupersessionRefusal(f: Forest, x: Submission, ids: seq<nat>): Option<SubmitError> {
    if ids == [] then None
    else
      var earlier, id := SupersessionRefusal(f, x, ids[..|ids| - 1]), ids[|ids| - 1];
      if earlier.Some? || MaySupersede(f, x, id) then earlier
      else Some(if Live(f, id) then ParentInvalid else AnalysisNotFound)
  }

  /** The first check that fails decides what a submission is refused for. */
  function Refusal(f: Forest, x: Submission): Option<SubmitError> {
    if x.tab !in f.tabs then Some(TabNotFound)
    else if !x.kindFits then Some(KindMismatch)
    else if x.annotation && (x.supporting || x.parent.Some? || x.supersedes != []) then Some(ParentInvalid)
    else if !x.supporting && BusyTab(f, x.tab) then Some(TabBusy)
    else if x.parent.Some? && !Live(f, x.parent.value) then Some(AnalysisNotFound)
    else if !ParentOk(f, x) || !CreationOk(f, x) then Some(ParentInvalid)
    else
      var refusal := SupersessionRefusal(f, x, x.supersedes);
      if refusal.Some? || x.inputsExist then refusal else Some(InputMissing)
  }

  lemma {:induction false} SupersessionsRefusedIff(f: Forest, x: Submission, ids: seq<nat>)
    ensures SupersessionRefusal(f, x, ids).None? <==> forall id | id in ids :: MaySupersede(f, x, id)
  {
    hide MaySupersede, Live;
    if ids != [] {
      var front, last := ids[..|ids| - 1], ids[|ids| - 1];
      SupersessionsRefusedIff(f, x, front);
      assert ids == front + [last];
      assert forall id :: id in ids <==> id in front || id == last;
    }
  }

  /** What is refused for a prefix is refused for the same reason as a whole. */
  lemma {:induction false} RefusalStays(f: Forest, x: Submission, ids: seq<nat>, k: nat)
    requires k <= |ids| && SupersessionRefusal(f, x, ids[..k]).Some?
    ensures SupersessionRefusal(f, x, ids) == SupersessionRefusal(f, x, ids[..k])
    decreases |ids|
  {
    if k == |ids| {
      assert ids[..k] == ids;
    } else {
      assert ids[..|ids| - 1][..k] == ids[..k];
      RefusalStays(f, x, ids[..|ids| - 1], k);
    }
  }

  lemma RefusedIffNotSubmittable(f: Forest, x: Submission)
    ensures Refusal(f, x).None? <==> Submittable(f, x)
  {
    SupersessionsRefusedIff(f, x, x.supersedes);
    hide MaySupersede, Live, BusyTab, SupersessionRefusal;
  }

  function Add(f: Forest, a: Analysis): Forest {
    f.(analyses := f.analyses[f.next := a],
       tabs := if a.tab in f.tabs then f.tabs[a.tab := f.tabs[a.tab] + [f.next]] else f.tabs,
       next := f.next + 1)
  }

  function AddMembers(f: Forest, tab: nat, parent: nat, members: nat): Forest {
    if members == 0 then f
    else Add(AddMembers(f, tab, parent, members - 1), Analysis(tab, Some(parent), [], Queued, true))
  }

  /** What a submission clears away first. */
  function Base(f: Forest, x: Submission): Forest
    requires x.tab in f.tabs
  {
    if x.annotation then Removed(f, WithoutAll(f.analyses, f.tabs[x.tab])) else f
  }

  function Head(x: Submission): Analysis {
    Analysis(x.tab, x.parent, x.supersedes, if x.members > 0 then Running else Queued, x.supporting)
  }

  /** An annotation Tab starts over; a group run is running at once and brings its members. */
  function Submitted(f: Forest, x: Submission): Forest
    requires x.tab in f.tabs
  {
    AddMembers(Add(Base(f, x), Head(x)), x.tab, Base(f, x).next, x.members)
  }

  // ---------------------------------------------------------------- the steps

  predicate Enabled(f: Forest, step: Step) {
    match step
    case CreateTab(tab) => tab !in f.tabs
    case Submit(_) => true
    case Advance(id, state) => id in f.analyses && Active(f.analyses[id].state) && !state.Succeeded? && !state.Queued?
    case Succeed(id) => id in f.analyses && f.analyses[id].state.Running?
    case Remove(id) => id in f.analyses
    case Unlink(tab) => tab in f.tabs
  }

  function WithState(f: Forest, id: nat, state: AnalysisState): Forest
    requires id in f.analyses
  {
    f.(analyses := f.analyses[id := f.analyses[id].(state := state)])
  }

  /** A success removes what it supersedes, each with its descendants. */
  function Superseding(f: Forest, id: nat): Forest
    requires id in f.analyses
  {
    var done := WithState(f, id, Succeeded);
    Removed(done, WithoutAll(done.analyses, f.analyses[id].supersedes))
  }

  function Next(f: Forest, step: Step): Forest
    requires Enabled(f, step)
  {
    match step
    case CreateTab(tab) => f.(tabs := f.tabs[tab := []])
    case Submit(x) => if Submittable(f, x) then Submitted(f, x) else f
    case Advance(id, state) => WithState(f, id, state)
    case Succeed(id) => Superseding(f, id)
    case Remove(id) => Removed(f, Without(f.analyses, id))
    case Unlink(tab) => f.(tabs := f.tabs[tab := []])
  }

  const EMPTY: Forest := Forest(map[], map[], 0)

  function Run(steps: seq<Step>): Forest {
    if steps == [] then EMPTY
    else
      var f, step := Run(steps[..|steps| - 1]), steps[|steps| - 1];
      if Enabled(f, step) then Next(f, step) else f
  }

  // ---------------------------------------------------------------- invariants

  /** Parents exist, are older, and belong to the same Tab. */
  predicate Rooted(m: Records) {
    forall a | a in m :: m[a].parent.Some? ==>
                           && m[a].parent.value < a
                           && m[a].parent.value in m
                           && m[m[a].parent.value].tab == m[a].tab
  }

  /** Nothing supersedes itself or an ancestor. */
  predicate SparesLineage(m: Records) {
    forall a | a in m :: forall s | s in m[a].supersedes :: s < a && s !in Lineage(m, a)
  }

  predicate Linked(f: Forest) {
    forall t | t in f.tabs :: forall id | id in f.tabs[t] :: id in f.analyses && f.analyses[id].tab == t
  }

  predicate Inv(f: Forest) {
    && (forall a | a in f.analyses :: a < f.next)
    && Rooted(f.analyses)
    && SparesLineage(f.analyses)
    && Linked(f)
  }

  lemma {:induction false} LineageWithin(m: Records, id: nat)
    ensures forall a :: a in Lineage(m, id) ==> a <= id && a in m
    ensures id in m ==> id in Lineage(m, id)
    decreases id
  {
    if id in m && m[id].parent.Some? && m[id].parent.value < id {
      LineageWithin(m, m[id].parent.value);
    }
  }

  /** Ancestors of an ancestor are ancestors. */
  lemma {:induction false} LineageNests(m: Records, a: nat, b: nat)
    requires b in Lineage(m, a)
    ensures Lineage(m, b) <= Lineage(m, a)
    decreases a
  {
    if b != a {
      LineageNests(m, m[a].parent.value, b);
    }
  }

  /** All of one lineage belongs to one Tab. */
  lemma {:induction false} LineageInTab(m: Records, id: nat, a: nat)
    requires Rooted(m) && a in Lineage(m, id)
    ensures id in m && a in m && m[a].tab == m[id].tab
    decreases id
  {
    if a != id {
      LineageInTab(m, m[id].parent.value, a);
    }
  }

  /** Records with the same parents have the same lineages. */
  lemma {:induction false} LineageAgrees(m: Records, n: Records, id: nat)
    requires Rooted(m) && id in m
    requires forall a | a in Lineage(m, id) :: a in m && a in n && n[a].parent == m[a].parent
    ensures Lineage(n, id) == Lineage(m, id)
    decreases id
  {
    LineageWithin(m, id);
    if m[id].parent.Some? {
      LineageWithin(m, m[id].parent.value);
      LineageAgrees(m, n, m[id].parent.value);
    }
  }

  // ---------------------------------------------------------------- what removal spares

  /** Removal leaves every other lineage whole. */
  lemma WithoutKeeps(m: Records, id: nat)
    requires Rooted(m)
    ensures Rooted(Without(m, id))
    ensures forall a :: a in Without(m, id) ==> Lineage(Without(m, id), a) == Lineage(m, a)
  {
    var n := Without(m, id);
    forall a | a in n ensures Lineage(n, a) == Lineage(m, a) && forall b | b in Lineage(m, a) :: b in n {
      LineageWithin(m, a);
      forall b | b in Lineage(m, a) ensures b in n {
        LineageNests(m, a, b);
      }
      LineageAgrees(m, n, a);
    }
    forall a | a in n && n[a].parent.Some? ensures n[a].parent.value in n {
      LineageWithin(m, n[a].parent.value);
      assert n[a].parent.value in Lineage(m, a);
    }
  }

  /** Several removals take exactly the records that have one of the removed among their lineage. */
  lemma {:induction false} WithoutAllIs(m: Records, ids: seq<nat>)
    requires Rooted(m)
    ensures var n := WithoutAll(m, ids);
            && Rooted(n)
            && (forall a :: a in n ==> a in m && n[a] == m[a] && Lineage(n, a) == Lineage(m, a))
            && forall a :: a in n <==> a in m && forall id | id in ids :: id !in Lineage(m, a)
  {
    if ids != [] {
      var front, last := ids[..|ids| - 1], ids[|ids| - 1];
      WithoutAllIs(m, front);
      WithoutKeeps(WithoutAll(m, front), last);
      assert ids == front + [last];
      assert forall id: nat :: id in ids <==> id in front || id == last;
    }
  }

  lemma WithoutAllSpares(m: Records, ids: seq<nat>)
    requires Rooted(m) && SparesLineage(m)
    ensures SparesLineage(WithoutAll(m, ids))
  {
    WithoutAllIs(m, ids);
  }

  lemma RemovedKeeps(f: Forest, ids: seq<nat>)
    requires Inv(f)
    ensures Inv(Removed(f, WithoutAll(f.analyses, ids)))
  {
    WithoutAllIs(f.analyses, ids);
    WithoutAllSpares(f.analyses, ids);
  }

  lemma OneRemoval(m: Records, id: nat)
    ensures WithoutAll(m, [id]) == Without(m, id)
  {
    assert [id][..0] == [];
  }

  // ---------------------------------------------------------------- every run

  /** A new record does not disturb the lineages of older ones. */
  lemma AddLineages(f: Forest, a: Analysis)
    requires Inv(f) && (a.parent.Some? ==> a.parent.value in f.analyses)
    ensures forall x :: x in f.analyses ==> Lineage(Add(f, a).analyses, x) == Lineage(f.analyses, x)
    ensures Lineage(Add(f, a).analyses, f.next)
            == {f.next} + if a.parent.Some? then Lineage(f.analyses, a.parent.value) else {}
  {
    var n := Add(f, a).analyses;
    forall x | x in f.analyses ensures Lineage(n, x) == Lineage(f.analyses, x) {
      LineageWithin(f.analyses, x);
      LineageAgrees(f.analyses, n, x);
    }
  }

  /** A parent exists and belongs to the same Tab. */
  predicate ParentFits(m: Records, a: Analysis) {
    a.parent.Some? ==> a.parent.value in m && m[a.parent.value].tab == a.tab
  }

  /** Where a new record may go: into a Tab, below a member of it, superseding only outsiders of its lineage. */
  ghost predicate Addable(f: Forest, a: Analysis) {
    && a.tab in f.tabs && ParentFits(f.analyses, a)
    && forall s | s in a.supersedes ::
         s < f.next && (a.parent.Some? ==> s !in Lineage(f.analyses, a.parent.value))
  }

  lemma AddKeepsRecords(f: Forest, a: Analysis)
    requires Inv(f) && Addable(f, a)
    ensures var r := Add(f, a); (forall x | x in r.analyses :: x < r.next) && Rooted(r.analyses)
  {
    hide Lineage, SparesLineage, Linked;
  }

  lemma AddSpares(f: Forest, a: Analysis)
    requires Inv(f) && Addable(f, a)
    ensures SparesLineage(Add(f, a).analyses)
  {
    AddLineages(f, a);
    hide Lineage, Linked, Rooted;
  }

  lemma AddKeeps(f: Forest, a: Analysis)
    requires Inv(f) && Addable(f, a)
    ensures Inv(Add(f, a)) && f.next in Add(f, a).analyses && Add(f, a).analyses[f.next] == a
  {
    AddKeepsRecords(f, a);
    AddSpares(f, a);
    hide Lineage, SparesLineage, Rooted;
  }

  lemma {:induction false} MembersKeep(f: Forest, tab: nat, parent: nat, members: nat)
    requires Inv(f) && tab in f.tabs && parent in f.analyses && f.analyses[parent].tab == tab
    ensures var r := AddMembers(f, tab, parent, members);
            Inv(r) && tab in r.tabs && parent in r.analyses && r.analyses[parent] == f.analyses[parent]
  {
    if members > 0 {
      MembersKeep(f, tab, parent, members - 1);
      AddKeeps(AddMembers(f, tab, parent, members - 1), Analysis(tab, Some(parent), [], Queued, true));
      hide Inv, Lineage;
    }
  }

  lemma SubmittedIsAddable(f: Forest, x: Submission)
    requires Inv(f) && Submittable(f, x)
    ensures Inv(Base(f, x)) && Addable(Base(f, x), Head(x))
  {
    RemovedKeeps(f, f.tabs[x.tab]);
    assert forall s | s in x.supersedes :: MaySupersede(f, x, s);
    hide Lineage, WithoutAll;
  }

  lemma FreshIsUnlinked(f: Forest)
    requires Inv(f)
    ensures f.next !in f.analyses && forall t | t in f.tabs :: f.next !in f.tabs[t]
  {
  }

  lemma SubmitKeeps(f: Forest, x: Submission)
    requires Inv(f) && Submittable(f, x)
    ensures Inv(Submitted(f, x))
  {
    SubmittedIsAddable(f, x);
    hide Lineage, WithoutAll;
    AddKeeps(Base(f, x), Head(x));
    MembersKeep(Add(Base(f, x), Head(x)), x.tab, Base(f, x).next, x.members);
  }

  /** A change of state moves no lineage. */
  lemma StateLineages(f: Forest, id: nat, state: AnalysisState)
    requires Rooted(f.analyses) && id in f.analyses
    ensures forall a :: a in f.analyses ==> Lineage(WithState(f, id, state).analyses, a) == Lineage(f.analyses, a)
  {
    var n := WithState(f, id, state).analyses;
    forall a | a in f.analyses ensures Lineage(n, a) == Lineage(f.analyses, a) {
      LineageWithin(f.analyses, a);
      LineageAgrees(f.analyses, n, a);
    }
  }

  lemma StateKeeps(f: Forest, id: nat, state: AnalysisState)
    requires Inv(f) && id in f.analyses
    ensures Inv(WithState(f, id, state))
    ensures forall a :: a in f.analyses ==> Lineage(WithState(f, id, state).analyses, a) == Lineage(f.analyses, a)
  {
    StateLineages(f, id, state);
    hide Lineage;
  }

  lemma StepKeepsInv(f: Forest, step: Step)
    requires Enabled(f, step) && Inv(f)
    ensures Inv(Next(f, step))
  {
    match step
    case Submit(x) => if Submittable(f, x) { SubmitKeeps(f, x); }
    case Advance(id, state) => StateKeeps(f, id, state);
    case Succeed(id) =>
      StateKeeps(f, id, Succeeded);
      RemovedKeeps(WithState(f, id, Succeeded), f.analyses[id].supersedes);
    case Remove(id) =>
      RemovedKeeps(f, [id]);
      OneRemoval(f.analyses, id);
    case _ => hide Lineage;
  }

  lemma {:induction false} RunKeepsInv(steps: seq<Step>)
    ensures Inv(Run(steps))
  {
    if steps != [] {
      var f, step := Run(steps[..|steps| - 1]), steps[|steps| - 1];
      RunKeepsInv(steps[..|steps| - 1]);
      if Enabled(f, step) {
        StepKeepsInv(f, step);
      }
    }
  }

  lemma {:induction false} LineageEnds(m: Records, id: nat)
    requires Rooted(m) && id in m
    ensures exists root :: root in Lineage(m, id) && root in m && m[root].parent.None?
    decreases id
  {
    LineageWithin(m, id);
    if m[id].parent.Some? {
      LineageEnds(m, m[id].parent.value);
      var root :| root in Lineage(m, m[id].parent.value) && root in m && m[root].parent.None?;
      assert root in Lineage(m, id);
    }
  }

  /** A chain of parent links, from a child up to one of its ancestors. */
  predicate ParentPath(m: Records, path: seq<nat>) {
    && path != []
    && (forall i :: 0 <= i < |path| ==> path[i] in m)
    && forall i :: 0 <= i < |path| - 1 ==> m[path[i]].parent == Some(path[i + 1])
  }

  predicate Connects(m: Records, path: seq<nat>, id: nat, a: nat) {
    ParentPath(m, path) && path[0] == id && path[|path| - 1] == a
  }

  /** Every link leads to an older record, and its end lies in the lineage of its start. */
  lemma {:induction false} PathAscends(m: Records, path: seq<nat>)
    requires Rooted(m) && ParentPath(m, path)
    ensures path[|path| - 1] in Lineage(m, path[0])
    ensures |path| > 1 ==> path[|path| - 1] < path[0]
    decreases |path|
  {
    if |path| > 1 {
      assert ParentPath(m, path[1..]) by {
        forall i | 0 <= i < |path[1..]| - 1 ensures m[path[1..][i]].parent == Some(path[1..][i + 1]) {
          assert path[1..][i] == path[i + 1] && path[1..][i + 1] == path[i + 2];
        }
      }
      PathAscends(m, path[1..]);
      assert m[path[0]].parent == Some(path[1]);
    }
  }

  lemma {:induction false} LineageHasPath(m: Records, id: nat, a: nat)
    requires a in Lineage(m, id)
    ensures exists path :: Connects(m, path, id, a)
    decreases id
  {
    if a == id {
      assert Connects(m, [id], id, a);
    } else {
      var p := m[id].parent.value;
      LineageHasPath(m, p, a);
      var path :| Connects(m, path, p, a);
      assert Connects(m, [id] + path, id, a);
    }
  }

  /**
   In every run the parent links form a forest: no link dangles or leaves its Tab, and a chain of
   links never comes back to where it started.
   */
  lemma ForestStaysAcyclic(steps: seq<Step>, path: seq<nat>)
    requires ParentPath(Run(steps).analyses, path)
    ensures var m := Run(steps).analyses;
            && Rooted(m)
            && m[path[|path| - 1]].tab == m[path[0]].tab
            && (|path| > 1 ==> path[|path| - 1] != path[0])
  {
    RunKeepsInv(steps);
    hide Run;
    PathAscends(Run(steps).analyses, path);
    LineageInTab(Run(steps).analyses, path[0], path[|path| - 1]);
  }

  /**
   In every run a lineage is what the parent links lead to, neither more nor less, and one of these
   links ends at a root.
   */
  lemma LineageIsAncestry(steps: seq<Step>, id: nat, a: nat)
    requires id in Run(steps).analyses
    ensures var m := Run(steps).analyses;
            && (a in Lineage(m, id) <==> exists path :: Connects(m, path, id, a))
            && exists root, path :: Connects(m, path, id, root) && m[root].parent.None?
  {
    var m := Run(steps).analyses;
    RunKeepsInv(steps);
    hide Run;
    if a in Lineage(m, id) {
      LineageHasPath(m, id, a);
    }
    forall path | Connects(m, path, id, a) ensures a in Lineage(m, id) {
      PathAscends(m, path);
    }
    LineageEnds(m, id);
    var root :| root in Lineage(m, id) && root in m && m[root].parent.None?;
    LineageHasPath(m, id, root);
  }

  /**
   In every run a success removes exactly the Analyses that have a superseded one in their lineage,
   and so never itself nor any of its ancestors, all of which stay as they were.
   */
  lemma SupersessionSparesLineage(steps: seq<Step>, id: nat, a: nat)
    requires Enabled(Run(steps), Succeed(id))
    ensures var m, n := Run(steps).analyses, Next(Run(steps), Succeed(id)).analyses;
            && (a in n <==> a in m && forall s | s in m[id].supersedes :: s !in Lineage(m, a))
            && (a in n && a != id ==> n[a] == m[a])
            && (a in Lineage(m, id) ==> a in n)
            && id in n && n[id].state.Succeeded? && Lineage(n, id) == Lineage(m, id)
  {
    var f := Run(steps);
    RunKeepsInv(steps);
    hide Run;
    var done := WithState(f, id, Succeeded);
    StateKeeps(f, id, Succeeded);
    WithoutAllIs(done.analyses, f.analyses[id].supersedes);
    LineageWithin(f.analyses, id);
    LineageWithin(f.analyses, a);
    if a in Lineage(f.analyses, id) {
      LineageNests(f.analyses, id, a);
    }
    hide Lineage, WithoutAll;
  }

  // ---------------------------------------------------------------- one run at a time

  /** At most one Analysis of a Tab that is not supporting is QUEUED or RUNNING. */
  ghost predicate OneAtATime(m: Records) {
    forall a, b :: a in m && b in m && m[a].tab == m[b].tab && !m[a].supporting && !m[b].supporting
                   && (m[a].state.Queued? || m[a].state.Running?) && (m[b].state.Queued? || m[b].state.Running?)
                   ==> a == b
  }

  /** Records that come from others, unchanged or at rest. */
  lemma FewerAtATime(m: Records, n: Records)
    requires OneAtATime(m)
    requires forall a | a in n :: a in m && n[a].tab == m[a].tab && n[a].supporting == m[a].supporting
                                  && (n[a].state.Queued? || n[a].state.Running? ==>
                                        m[a].state.Queued? || m[a].state.Running?)
    ensures OneAtATime(n)
  {
  }

  lemma {:induction false} MembersAtATime(f: Forest, tab: nat, parent: nat, members: nat)
    requires OneAtATime(f.analyses) && forall a | a in f.analyses :: a < f.next
    ensures var r := AddMembers(f, tab, parent, members);
            OneAtATime(r.analyses) && forall a | a in r.analyses :: a < r.next
  {
    if members > 0 {
      MembersAtATime(f, tab, parent, members - 1);
    }
  }

  lemma AddAtATime(f: Forest, x: Analysis)
    requires OneAtATime(f.analyses) && (forall a | a in f.analyses :: a < f.next)
    requires x.supporting || forall a | a in f.analyses ::
               f.analyses[a].tab != x.tab || f.analyses[a].supporting
               || !(f.analyses[a].state.Queued? || f.analyses[a].state.Running?)
    ensures OneAtATime(Add(f, x).analyses) && forall a | a in Add(f, x).analyses :: a < Add(f, x).next
  {
  }

  lemma SubmitAtATime(f: Forest, x: Submission)
    requires Inv(f) && OneAtATime(f.analyses) && Submittable(f, x)
    ensures OneAtATime(Submitted(f, x).analyses)
  {
    var base, head := Base(f, x), Head(x);
    WithoutAllIs(f.analyses, f.tabs[x.tab]);
    assert forall a | a in base.analyses :: a in f.analyses && base.analyses[a] == f.analyses[a] && a < base.next;
    assert x.supporting || !BusyTab(f, x.tab);
    hide Inv, Submittable, Lineage, WithoutAll;
    FewerAtATime(f.analyses, base.analyses);
    hide OneAtATime;
    AddAtATime(base, head);
    MembersAtATime(Add(base, head), x.tab, base.next, x.members);
  }

  lemma StepAtATime(f: Forest, step: Step)
    requires Enabled(f, step) && Inv(f) && OneAtATime(f.analyses)
    ensures OneAtATime(Next(f, step).analyses)
  {
    match step
    case Submit(x) =>
      if Submittable(f, x) {
        SubmitAtATime(f, x);
      }
      hide OneAtATime, Submitted;
    case Succeed(id) =>
      StateKeeps(f, id, Succeeded);
      WithoutAllIs(WithState(f, id, Succeeded).analyses, f.analyses[id].supersedes);
      hide Inv, Lineage, WithoutAll;
      FewerAtATime(f.analyses, Next(f, step).analyses);
    case Remove(id) =>
      hide Inv, Lineage;
      FewerAtATime(f.analyses, Next(f, step).analyses);
    case Advance(_, _) =>
      hide Inv;
      FewerAtATime(f.analyses, Next(f, step).analyses);
    case _ =>
  }

  lemma {:induction false} RunAtATime(steps: seq<Step>)
    ensures OneAtATime(Run(steps).analyses)
  {
    if steps != [] {
      var f, step := Run(steps[..|steps| - 1]), steps[|steps| - 1];
      RunAtATime(steps[..|steps| - 1]);
      RunKeepsInv(steps[..|steps| - 1]);
      if Enabled(f, step) {
        StepAtATime(f, step);
      }
    }
  }

  /** In every run two Analyses of one Tab that are not supporting and are QUEUED or RUNNING are the same. */
  lemma OneRunPerTab(steps: seq<Step>, a: nat, b: nat)
    requires var m := Run(steps).analyses;
             && a in m && b in m && m[a].tab == m[b].tab && !m[a].supporting && !m[b].supporting
             && (m[a].state.Queued? || m[a].state.Running?) && (m[b].state.Queued? || m[b].state.Running?)
    ensures a == b
  {
    RunAtATime(steps);
  }

  /**
   What it takes to be accepted, in full. In every run a submission is refused exactly for one of
   these: a missing Tab, a kind that does not fit, an annotation with more than one head, a Tab
   whose run goes on, a parent that is missing, unlinked or elsewhere, a creation without a
   successful parent, a superseded Analysis that is missing, unlinked, elsewhere, unfinished or an
   ancestor, or missing inputs.
   */
  lemma AcceptedExactly(steps: seq<Step>, x: Submission)
    ensures var f := Run(steps);
            Submittable(f, x) <==>
              && x.tab in f.tabs && x.kindFits && x.inputsExist
              && !(x.annotation && (x.supporting || x.parent.Some? || x.supersedes != []))
              && (x.supporting
                  || forall a | a in f.analyses :: f.analyses[a].tab != x.tab || f.analyses[a].supporting
                                                   || f.analyses[a].state in {Succeeded, Failed, Cancelled})
              && (x.parent.Some? ==>
                    && x.parent.value in f.analyses && f.analyses[x.parent.value].tab == x.tab
                    && x.parent.value in f.tabs[x.tab])
              && (x.creation ==>
                    && x.supporting && x.parent.Some? && f.analyses[x.parent.value].state == Succeeded
                    && x.parentKindFits)
              && (forall id | id in x.supersedes ::
                    && id in f.analyses && f.analyses[id].tab == x.tab && id in f.tabs[x.tab]
                    && f.analyses[id].state in {Succeeded, Failed, Cancelled}
                    && (x.parent.Some? ==> !exists path :: Connects(f.analyses, path, x.parent.value, id)))
  {
    var f := Run(steps);
    RunKeepsInv(steps);
    LivesInItsTab(f);
    hide Run, Inv;
    if x.parent.Some? && x.parent.value in f.analyses {
      forall id ensures id in Lineage(f.analyses, x.parent.value)
                        <==> exists path :: Connects(f.analyses, path, x.parent.value, id)
      {
        LineageIsAncestry(steps, x.parent.value, id);
      }
    }
    assert forall id :: Live(f, id) ==> id in f.analyses;
    hide Lineage, Connects, Live;
    if x.parent.None? || x.parent.value in f.analyses {
      SupersessionsSpelled(f, x);
    }
    IdleTab(f, x.tab);
    hide MaySupersede, BusyTab;
  }

  lemma IdleTab(f: Forest, tab: nat)
    ensures !BusyTab(f, tab) <==>
              forall a | a in f.analyses :: f.analyses[a].tab != tab || f.analyses[a].supporting
                                            || f.analyses[a].state in {Succeeded, Failed, Cancelled}
  {
  }

  lemma SupersessionsSpelled(f: Forest, x: Submission)
    requires forall id :: id in f.analyses ==>
               (Live(f, id) <==> f.analyses[id].tab in f.tabs && id in f.tabs[f.analyses[id].tab])
    requires x.tab in f.tabs && x.parent.Some? && x.parent.value in f.analyses ==>
               forall id :: id in Lineage(f.analyses, x.parent.value)
                            <==> exists path :: Connects(f.analyses, path, x.parent.value, id)
    requires x.parent.Some? ==> x.parent.value in f.analyses
    ensures x.tab in f.tabs ==>
              forall id :: MaySupersede(f, x, id) <==>
                && id in f.analyses && f.analyses[id].tab == x.tab && id in f.tabs[x.tab]
                && f.analyses[id].state in {Succeeded, Failed, Cancelled}
                && (x.parent.Some? ==> !exists path :: Connects(f.analyses, path, x.parent.value, id))
  {
    hide Lineage, Connects;
    assert forall id :: Live(f, id) ==> id in f.analyses;
    hide Live;
  }

  /** An Analysis is linked, if at all, by the Tab it belongs to. */
  lemma LivesInItsTab(f: Forest)
    requires Linked(f)
    ensures forall id :: id in f.analyses ==>
              (Live(f, id) <==> f.analyses[id].tab in f.tabs && id in f.tabs[f.analyses[id].tab])
  {
  }

  /**
   What an accepted submission leaves behind, under the next free identities: its record, then the
   members of its group, all linked to the Tab. An annotation Tab has lost everything that descends
   from what it owned; every other record is as it was.
   */
  lemma AcceptedIsRecorded(steps: seq<Step>, x: Submission)
    requires Submittable(Run(steps), x)
    ensures var f, t := Run(steps), Next(Run(steps), Submit(x));
            && t.next == f.next + 1 + x.members && f.next in t.analyses
            && t.analyses[f.next]
               == Analysis(x.tab, x.parent, x.supersedes, if x.members > 0 then Running else Queued, x.supporting)
            && (forall a | f.next < a < t.next ::
                  a in t.analyses && t.analyses[a] == Analysis(x.tab, Some(f.next), [], Queued, true))
            && x.tab in t.tabs && (forall a | f.next <= a < t.next :: a in t.tabs[x.tab])
            && (forall a | a in f.analyses ::
                  a in t.analyses <==> !(x.annotation && exists id :: id in f.tabs[x.tab] && id in Lineage(f.analyses, a)))
            && (forall a | a in t.analyses && a < f.next :: a in f.analyses && t.analyses[a] == f.analyses[a])
  {
    var f := Run(steps);
    RunKeepsInv(steps);
    hide Run;
    SubmittedIsAddable(f, x);
    WithoutAllIs(f.analyses, f.tabs[x.tab]);
    hide Lineage, WithoutAll;
    var base := Base(f, x);
    AddKeeps(base, Head(x));
    MembersAdded(Add(base, Head(x)), x.tab, base.next, x.members);
    hide Inv, Submittable, Addable, AddMembers;
  }

  lemma {:induction false} MembersAdded(f: Forest, tab: nat, parent: nat, members: nat)
    requires tab in f.tabs
    ensures var r := AddMembers(f, tab, parent, members);
            && r.next == f.next + members && tab in r.tabs
            && (forall a | a in f.analyses && a < f.next :: a in r.analyses && r.analyses[a] == f.analyses[a])
            && (forall a | a in r.analyses && a < f.next :: a in f.analyses)
            && (forall a | f.next <= a < r.next ::
                  a in r.analyses && r.analyses[a] == Analysis(tab, Some(parent), [], Queued, true) && a in r.tabs[tab])
            && forall a | a in f.tabs[tab] :: a in r.tabs[tab]
  {
    if members > 0 {
      MembersAdded(f, tab, parent, members - 1);
    }
  }

  // ---------------------------------------------------------------- the walks

  predicate Descends(m: Records, id: nat, a: nat) {
    a in m && a != id && id in Lineage(m, a)
  }

  predicate ChildOf(m: Records, id: nat, c: nat) {
    c in m && m[c].parent == Some(id)
  }

  lemma ChildLineage(m: Records, id: nat, c: nat)
    requires Rooted(m) && ChildOf(m, id, c)
    ensures id < c && Lineage(m, c) == {c} + Lineage(m, id) && id in Lineage(m, c)
    ensures forall a :: a in Lineage(m, id) ==> a < c
  {
    LineageWithin(m, id);
  }

  /** On the way from a descendant up to an ancestor there is a child of the ancestor. */
  lemma {:induction false} NextBelow(m: Records, a: nat, id: nat) returns (c: nat)
    requires Rooted(m) && Descends(m, id, a)
    ensures ChildOf(m, id, c) && c in Lineage(m, a)
    decreases a
  {
    LineageWithin(m, a);
    var p := m[a].parent.value;
    LineageWithin(m, p);
    if p == id {
      c := a;
    } else {
      c := NextBelow(m, p, id);
    }
  }

  /** visited and pending are descendants of id, and no pending one is above another or above a visited one. */
  ghost predicate Apart(m: Records, id: nat, visited: seq<nat>, pending: seq<nat>) {
    && NoDup(visited) && NoDup(pending)
    && (forall a :: a in visited || a in pending ==> a in m && Descends(m, id, a))
    && (forall p: nat, a: nat :: p in pending && a in visited ==> p !in Lineage(m, a))
    && (forall p: nat, q: nat :: p in pending && q in pending && p != q ==> p !in Lineage(m, q))
  }

  /** Whatever is not yet visited lies below something pending. */
  ghost predicate Covered(m: Records, id: nat, visited: seq<nat>, pending: seq<nat>) {
    forall a: nat :: Descends(m, id, a) && a !in visited ==> exists p: nat :: p in pending && p in Lineage(m, a)
  }

  ghost predicate ChildrenOf(m: Records, id: nat, children: seq<nat>) {
    NoDup(children) && forall c: nat :: c in children <==> ChildOf(m, id, c)
  }

  lemma StartApart(m: Records, id: nat, children: seq<nat>)
    requires Rooted(m) && id in m && ChildrenOf(m, id, children)
    ensures Apart(m, id, [], children) && Covered(m, id, [], children)
  {
    LineageWithin(m, id);
    forall c: nat | c in children ensures Descends(m, id, c) {
      ChildLineage(m, id, c);
    }
    forall p: nat, q: nat | p in children && q in children && p != q ensures p !in Lineage(m, q) {
      ChildLineage(m, id, p);
      ChildLineage(m, id, q);
    }
    forall a: nat | Descends(m, id, a) ensures exists p: nat :: p in children && p in Lineage(m, a) {
      var c := NextBelow(m, a, id);
    }
  }

  lemma NoDupConcat(a: seq<nat>, b: seq<nat>)
    requires NoDup(a) && NoDup(b) && forall x: nat :: x in a ==> x !in b
    ensures NoDup(a + b)
  {
    forall i, j | 0 <= i < j < |a + b| ensures (a + b)[i] != (a + b)[j] {
      if i < |a| <= j {
        assert (a + b)[i] in a && (a + b)[j] in b;
      }
    }
  }

  lemma VisitKeepsDescent(m: Records, id: nat, visited: seq<nat>, pending: seq<nat>, children: seq<nat>)
    requires Rooted(m) && pending != [] && Apart(m, id, visited, pending) && ChildrenOf(m, pending[0], children)
    ensures NoDup(visited + [pending[0]]) && NoDup(children + pending[1..])
    ensures forall a :: a in visited + [pending[0]] || a in children + pending[1..] ==> a in m && Descends(m, id, a)
  {
    var p := pending[0];
    LineageWithin(m, p);
    assert p in pending && p in Lineage(m, p);
    forall c: nat | c in children ensures c in m && Descends(m, id, c) && c !in pending {
      ChildLineage(m, p, c);
    }
    NoDupConcat(children, pending[1..]);
    NoDupConcat(visited, [p]);
  }

  lemma VisitKeepsApart(m: Records, id: nat, visited: seq<nat>, pending: seq<nat>, children: seq<nat>)
    requires Rooted(m) && pending != [] && Apart(m, id, visited, pending) && ChildrenOf(m, pending[0], children)
    ensures Apart(m, id, visited + [pending[0]], children + pending[1..])
  {
    VisitKeepsDescent(m, id, visited, pending, children);
    var p, rest := pending[0], pending[1..];
    assert p in pending && (forall q: nat :: q in rest ==> q in pending && q != p);
    forall x: nat, a: nat | x in children + rest && a in visited + [p] ensures x !in Lineage(m, a) {
      if x in children {
        ChildBelow(m, p, x, a);
      }
    }
    forall x: nat, y: nat | x in children + rest && y in children + rest && x != y ensures x !in Lineage(m, y) {
      if y in children {
        ChildLineage(m, p, y);
      }
      if x in children {
        ChildBelow(m, p, x, y);
        ChildLineage(m, p, x);
      }
    }
  }

  /** Whoever has a child in its lineage has the parent there too; the parent itself does not. */
  lemma ChildBelow(m: Records, p: nat, c: nat, a: nat)
    requires Rooted(m) && ChildOf(m, p, c)
    ensures c in Lineage(m, a) ==> p in Lineage(m, a)
    ensures c !in Lineage(m, p)
  {
    ChildLineage(m, p, c);
    LineageWithin(m, p);
    if c in Lineage(m, a) {
      LineageNests(m, a, c);
    }
  }

  lemma VisitKeepsCovered(m: Records, id: nat, visited: seq<nat>, pending: seq<nat>, children: seq<nat>)
    requires Rooted(m) && pending != [] && Covered(m, id, visited, pending) && ChildrenOf(m, pending[0], children)
    requires pending[0] in m
    ensures Covered(m, id, visited + [pending[0]], children + pending[1..])
  {
    var p, rest := pending[0], pending[1..];
    forall a: nat | Descends(m, id, a) && a !in visited + [p]
      ensures exists q: nat :: q in children + rest && q in Lineage(m, a)
    {
      assert a !in visited;
      var q: nat :| q in pending && q in Lineage(m, a);
      if q == p {
        var c := NextBelow(m, a, p);
        assert c in children + rest;
      } else {
        assert q in children + rest;
      }
    }
  }

  lemma VisitedAll(m: Records, id: nat, visited: seq<nat>)
    requires Apart(m, id, visited, []) && Covered(m, id, visited, [])
    ensures forall a: nat :: a in visited <==> Descends(m, id, a)
  {
  }

  ghost function AllBelow(m: Records, id: nat): set<nat> {
    set a | a in m && Descends(m, id, a)
  }

  function Elements(s: seq<nat>): set<nat> {
    set a | a in s
  }

  lemma OneMore(m: Records, ids: seq<nat>, k: nat)
    requires k < |ids|
    ensures m - Elements(ids[k + 1..]) - {ids[k]} == m - Elements(ids[k..])
  {
    assert ids[k..] == [ids[k]] + ids[k + 1..];
  }

  lemma UnlinkIn(ids: seq<nat>, m: Records, id: nat)
    ensures Filter(Filter(ids, IsIn(m)), Differs(id)) == Filter(ids, IsIn(m - {id}))
  {
    FilterTwice(ids, IsIn(m), Differs(id), IsIn(m - {id}));
  }

  /** One unlinked Analysis more. */
  lemma UnlinkOne(tabs: map<nat, seq<nat>>, m: Records, id: nat)
    ensures Unlinked(Relinked(tabs, m), id) == Relinked(tabs, m - {id})
  {
    hide Filter;
    forall t | t in tabs ensures Filter(Filter(tabs[t], IsIn(m)), Differs(id)) == Filter(tabs[t], IsIn(m - {id})) {
      UnlinkIn(tabs[t], m, id);
    }
  }

  function Differs(id: nat): nat -> bool {
    (a: nat) => a != id
  }

  function Unlinked(tabs: map<nat, seq<nat>>, id: nat): map<nat, seq<nat>> {
    map t | t in tabs :: Filter(tabs[t], Differs(id))
  }

  lemma NothingToRelink(f: Forest)
    requires Linked(f)
    ensures Relinked(f.tabs, f.analyses) == f.tabs
  {
    forall t | t in f.tabs ensures Filter(f.tabs[t], IsIn(f.analyses)) == f.tabs[t] {
      FilterAll(f.tabs[t], IsIn(f.analyses));
    }
  }

  lemma {:induction false} NotFoundIsMissing(f: Forest, x: Submission, ids: seq<nat>)
    ensures SupersessionRefusal(f, x, ids) in {None, Some(ParentInvalid), Some(AnalysisNotFound)}
    ensures SupersessionRefusal(f, x, ids) == Some(AnalysisNotFound) ==> exists id :: id in ids && !Live(f, id)
    ensures SupersessionRefusal(f, x.(inputsExist := true), ids) == SupersessionRefusal(f, x, ids)
  {
    hide Live;
    if ids != [] {
      NotFoundIsMissing(f, x, ids[..|ids| - 1]);
      assert MaySupersede(f, x.(inputsExist := true), ids[|ids| - 1]) == MaySupersede(f, x, ids[|ids| - 1]);
    }
  }

  /** What each refusal says. */
  lemma RefusalIs(f: Forest, x: Submission)
    ensures Refusal(f, x) == Some(TabNotFound) <==> x.tab !in f.tabs
    ensures Refusal(f, x) == Some(KindMismatch) <==> x.tab in f.tabs && !x.kindFits
    ensures Refusal(f, x) == Some(TabBusy) <==>
              && x.tab in f.tabs && x.kindFits
              && !(x.annotation && (x.supporting || x.parent.Some? || x.supersedes != [])) && !x.supporting
              && exists a :: a in f.analyses && f.analyses[a].tab == x.tab && !f.analyses[a].supporting
                             && (f.analyses[a].state.Queued? || f.analyses[a].state.Running?)
    ensures Refusal(f, x) == Some(InputMissing) <==> !x.inputsExist && Submittable(f, x.(inputsExist := true))
    ensures Refusal(f, x) == Some(AnalysisNotFound) ==>
              (x.parent.Some? && !Live(f, x.parent.value)) || exists id :: id in x.supersedes && !Live(f, id)
    ensures x.tab in f.tabs && x.kindFits && !x.annotation && x.supporting && x.parent.Some? && !Live(f, x.parent.value)
            ==> Refusal(f, x) == Some(AnalysisNotFound)
  {
    NotFoundIsMissing(f, x, x.supersedes);
    RefusedIffNotSubmittable(f, x.(inputsExist := true));
    hide Submittable, SupersessionRefusal, Live;
  }

  class Workspace {
    var analyses: Records
    var tabs: map<nat, seq<nat>>
    var next: nat

    function View(): Forest
      reads this
    {
      Forest(analyses, tabs, next)
    }

    predicate Valid()
      reads this
    {
      Inv(View())
    }

    constructor ()
      ensures Valid() && View() == EMPTY
    {
      analyses, tabs, next := map[], map[], 0;
    }

    /** The children of an Analysis, oldest first. */
    method Children(id: nat) returns (children: seq<nat>)
      requires Valid()
      ensures ChildrenOf(analyses, id, children)
    {
      hide Lineage, Rooted, SparesLineage, Linked;
      children := [];
      var a := 0;
      while a < next
        invariant 0 <= a <= next
        invariant NoDup(children) && forall c: nat :: c in children <==> c < a && ChildOf(analyses, id, c)
      {
        if a in analyses && analyses[a].parent == Some(id) {
          assert a !in children;
          NoDupConcat(children, [a]);
          children := children + [a];
        }
        a := a + 1;
      }
    }

    /** The descendants of an Analysis, each after its parent. */
    method Descendants(id: nat) returns (descendants: seq<nat>)
      requires Valid() && id in analyses
      ensures NoDup(descendants) && forall a: nat :: a in descendants <==> Descends(analyses, id, a)
      ensures forall i :: 0 <= i < |descendants| ==>
                var a := descendants[i];
                a in analyses && analyses[a].parent.Some?
                && (analyses[a].parent.value == id || analyses[a].parent.value in descendants[..i])
    {
      hide Lineage, SparesLineage, Linked, Apart, Covered;
      descendants := [];
      var pending := Children(id);
      StartApart(analyses, id, pending);
      while pending != []
        invariant Apart(analyses, id, descendants, pending) && Covered(analyses, id, descendants, pending)
        invariant Parented(analyses, id, descendants, pending)
        decreases |AllBelow(analyses, id) - Elements(descendants)|
      {
        var child := pending[0];
        Fresh(analyses, id, descendants, pending);
        var more := Children(child);
        VisitKeepsApart(analyses, id, descendants, pending, more);
        VisitKeepsCovered(analyses, id, descendants, pending, more);
        VisitKeepsParents(analyses, id, descendants, pending, more);
        Progresses(AllBelow(analyses, id), descendants, child);
        descendants, pending := descendants + [child], more + pending[1..];
      }
      VisitedAll(analyses, id, descendants);
      ApartNoDup(analyses, id, descendants, pending);
    }

    /** Takes out one record and its link. */
    method Pop(id: nat)
      modifies this`analyses, this`tabs
      ensures analyses == old(analyses) - {id} && tabs == Unlinked(old(tabs), id)
    {
      analyses := analyses - {id};
      tabs := map t | t in tabs :: Filter(tabs[t], Differs(id));
    }

    /** Removes an Analysis after its descendants, the deepest first; a missing one is ignored. */
    method RemoveAnalysis(id: nat)
      requires Valid()
      modifies this`analyses, this`tabs
      ensures Valid()
      ensures View() == Removed(old(View()), Without(old(analyses), id))
    {
      hide Lineage, SparesLineage, Relinked, Unlinked, Filter;
      ghost var before := View();
      OneRemoval(analyses, id);
      RemovedKeeps(before, [id]);
      NothingToRelink(before);
      if id !in analyses {
        NothingRemoved(analyses, id);
        return;
      }
      var descendants := Descendants(id);
      var k := |descendants|;
      hide Descends, NoDup, Inv, Without, Rooted, Linked;
      assert analyses == before.analyses - Elements(descendants[k..]);
      while k > 0
        invariant 0 <= k <= |descendants|
        invariant analyses == before.analyses - Elements(descendants[k..])
        invariant tabs == Relinked(before.tabs, analyses)
      {
        k := k - 1;
        OneMore(before.analyses, descendants, k);
        UnlinkOne(before.tabs, analyses, descendants[k]);
        Pop(descendants[k]);
      }
      assert descendants[k..] == descendants;
      UnlinkOne(before.tabs, analyses, id);
      Pop(id);
      WithoutIs(before.analyses, id, descendants);
    }

    /** The lineage of a parent, collected by walking up; incomplete is never reported in a sound forest. */
    method CollectLineage(parent: nat) returns (lineage: Option<set<nat>>)
      requires Valid() && parent in analyses
      ensures lineage == Some(Lineage(analyses, parent))
    {
      var seen: set<nat> := {};
      var ancestor := parent;
      while true
        invariant ancestor in analyses
        invariant seen + Lineage(analyses, ancestor) == Lineage(analyses, parent)
        decreases ancestor
      {
        seen := seen + {ancestor};
        if analyses[ancestor].parent.None? {
          return Some(seen);
        }
        if analyses[ancestor].parent.value !in analyses {
          return None;
        }
        ancestor := analyses[ancestor].parent.value;
      }
    }

    /**
     Records an Analysis under its identity and links it to its Tab if asked to. That the Tab is
     missing is noticed only after the record has been added.
     */
    method AddAnalysis(id: nat, a: Analysis, link: bool) returns (error: Option<AddError>)
      requires id in analyses || id >= next
      modifies this
      ensures error == Some(DuplicateAnalysis) <==> id in old(analyses)
      ensures error == Some(ForeignParent) <==> id !in old(analyses) && !ParentFits(old(analyses), a)
      ensures error.Some? && error != Some(TabMissing) ==> View() == old(View())
      ensures error == Some(TabMissing) <==>
                id !in old(analyses) && ParentFits(old(analyses), a) && link && a.tab !in old(tabs)
      ensures error.None? <==> id !in old(analyses) && ParentFits(old(analyses), a) && (link ==> a.tab in old(tabs))
      ensures error.None? || error == Some(TabMissing) ==> analyses == old(analyses)[id := a] && next == id + 1
      ensures error == Some(TabMissing) || (error.None? && !link) ==> tabs == old(tabs)
      ensures error.None? && link ==>
                && a.tab in old(tabs)
                && tabs == if id in old(tabs)[a.tab] then old(tabs)
                           else old(tabs)[a.tab := old(tabs)[a.tab] + [id]]
    {
      if id in analyses {
        return Some(DuplicateAnalysis);
      }
      if !ParentFits(analyses, a) {
        return Some(ForeignParent);
      }
      analyses := analyses[id := a];
      next := id + 1;
      if link && a.tab !in tabs {
        return Some(TabMissing);
      }
      if link && id !in tabs[a.tab] {
        tabs := tabs[a.tab := tabs[a.tab] + [id]];
      }
      return None;
    }

    /** The requested supersessions are checked one by one against the parent's lineage. */
    method CheckSupersessions(x: Submission, lineage: set<nat>) returns (error: Option<SubmitError>)
      requires Valid() && ParentOk(View(), x) && lineage == ParentLineage(View(), x)
      ensures error == SupersessionRefusal(View(), x, x.supersedes)
      ensures error.None? <==> forall id | id in x.supersedes :: MaySupersede(View(), x, id)
    {
      hide Lineage, Inv;
      SupersessionsRefusedIff(View(), x, x.supersedes);
      var k := 0;
      while k < |x.supersedes|
        invariant 0 <= k <= |x.supersedes|
        invariant SupersessionRefusal(View(), x, x.supersedes[..k]).None?
      {
        var id := x.supersedes[k];
        assert x.supersedes[..k + 1] == x.supersedes[..k] + [id];
        assert !MaySupersede(View(), x, id) ==>
            SupersessionRefusal(View(), x, x.supersedes[..k + 1])
            == Some(if Live(View(), id) then ParentInvalid else AnalysisNotFound);
        if !MaySupersede(View(), x, id) {
          RefusalStays(View(), x, x.supersedes, k + 1);
        }
        if !Live(View(), id) {
          return Some(AnalysisNotFound);
        }
        var candidate := analyses[id];
        if candidate.tab != x.tab || Active(candidate.state) || id in lineage {
          return Some(ParentInvalid);
        }
        k := k + 1;
      }
      assert x.supersedes[..k] == x.supersedes;
      return None;
    }

    /** Everything a submission is refused for, in the order in which it is checked. */
    method CheckSubmission(x: Submission) returns (error: Option<SubmitError>)
      requires Valid()
      ensures error == Refusal(View(), x)
      ensures error.None? <==> Submittable(View(), x)
      ensures error == Some(TabNotFound) <==> x.tab !in tabs
      ensures error == Some(KindMismatch) <==> x.tab in tabs && !x.kindFits
      ensures error == Some(TabBusy) <==>
                && x.tab in tabs && x.kindFits
                && !(x.annotation && (x.supporting || x.parent.Some? || x.supersedes != [])) && !x.supporting
                && exists a :: a in analyses && analyses[a].tab == x.tab && !analyses[a].supporting
                               && (analyses[a].state.Queued? || analyses[a].state.Running?)
      ensures error == Some(InputMissing) <==>
                !x.inputsExist && Submittable(View(), x.(inputsExist := true))
      ensures error == Some(AnalysisNotFound) ==>
                || (x.parent.Some? && !Live(View(), x.parent.value))
                || exists id :: id in x.supersedes && !Live(View(), id)
      ensures (x.tab in tabs && x.kindFits && !x.annotation && x.supporting && x.parent.Some?
               && !Live(View(), x.parent.value))
              ==> error == Some(AnalysisNotFound)
    {
      hide Inv, Lineage;
      RefusedIffNotSubmittable(View(), x);
      RefusalIs(View(), x);
      hide Submittable, BusyTab;
      if x.tab !in tabs {
        return Some(TabNotFound);
      }
      if !x.kindFits {
        return Some(KindMismatch);
      }
      if x.annotation && (x.supporting || x.parent.Some? || x.supersedes != []) {
        return Some(ParentInvalid);
      }
      if !x.supporting && BusyTab(View(), x.tab) {
        return Some(TabBusy);
      }
      var lineage: set<nat> := {};
      if x.parent.Some? {
        if !Live(View(), x.parent.value) {
          return Some(AnalysisNotFound);
        }
        if analyses[x.parent.value].tab != x.tab {
          return Some(ParentInvalid);
        }
        var walked := CollectLineage(x.parent.value);
        if walked.None? {
          return Some(ParentInvalid);
        }
        lineage := walked.value;
      }
      if x.creation
         && (!x.supporting || x.parent.None? || !analyses[x.parent.value].state.Succeeded? || !x.parentKindFits)
      {
        return Some(ParentInvalid);
      }
      error := CheckSupersessions(x, lineage);
      if error.None? && !x.inputsExist {
        return Some(InputMissing);
      }
    }

    method Submit(x: Submission) returns (r: Result<nat, SubmitError>)
      requires Valid()
      modifies this
      ensures Valid()
      ensures r.Ok? <==> Submittable(old(View()), x)
      ensures r.Err? ==> Refusal(old(View()), x) == Some(r.error)
      ensures View() == if r.Ok? then Submitted(old(View()), x) else old(View())
      ensures r.Ok? ==> r.value == old(next)
    {
      hide Inv, Lineage, WithoutAll, Relinked, Submittable;
      ghost var before := View();
      var error := CheckSubmission(x);
      if error.Some? {
        return Err(error.value);
      }
      SubmitKeeps(before, x);
      assert x.tab in tabs by {
        SubmittableTab(before, x);
      }
      if x.annotation {
        StartOver(x.tab);
      }
      var state := if x.members > 0 then Running else Queued;
      var id := next;
      var a := Analysis(x.tab, x.parent, x.supersedes, state, x.supporting);
      SubmittedIsAddable(before, x);
      FreshIsUnlinked(View());
      AddKeeps(View(), a);
      var added := AddAnalysis(id, a, true);
      AddGroup(x.tab, id, x.members);
      return Ok(id);
    }

    /** Adds the members of a group run. */
    method AddGroup(tab: nat, parent: nat, members: nat)
      requires Valid() && tab in tabs && parent in analyses && analyses[parent].tab == tab
      modifies this
      ensures View() == AddMembers(old(View()), tab, parent, members)
    {
      hide Inv, Lineage;
      ghost var before := View();
      var k := 0;
      while k < members
        invariant 0 <= k <= members
        invariant View() == AddMembers(before, tab, parent, k)
      {
        MembersKeep(before, tab, parent, k);
        FreshIsUnlinked(View());
        var added := AddAnalysis(next, Analysis(tab, Some(parent), [], Queued, true), true);
        k := k + 1;
      }
    }

    /** A linear Tab removes everything it owns before it starts again. */
    method StartOver(tab: nat)
      requires Valid() && tab in tabs
      modifies this`analyses, this`tabs
      ensures Valid() && tab in tabs
      ensures View() == Removed(old(View()), WithoutAll(old(analyses), old(tabs)[tab]))
    {
      hide Inv, Lineage, WithoutAll, Relinked, Without;
      ghost var before := View();
      var owned := tabs[tab];
      RemoveNone(before);
      var k := 0;
      assert owned[..0] == [];
      while k < |owned|
        invariant 0 <= k <= |owned|
        invariant Valid()
        invariant View() == Removed(before, WithoutAll(before.analyses, owned[..k]))
      {
        RemovalsCompose(before, owned, k);
        RemoveAnalysis(owned[k]);
        k := k + 1;
      }
      assert owned[..k] == owned;
      RelinkedTabs(before.tabs, analyses);
    }

    /** Completes a running Analysis: it succeeds, and what it supersedes goes. */
    method CompleteWithSuccess(id: nat)
      requires Valid() && id in analyses && analyses[id].state.Running?
      modifies this`analyses, this`tabs
      ensures Valid()
      ensures View() == Superseding(old(View()), id)
      ensures id in analyses && Lineage(analyses, id) == old(Lineage(analyses, id))
    {
      hide Lineage, SparesLineage, Relinked, Filter, Without;
      ghost var before := View();
      var supersedes := analyses[id].supersedes;
      StateKeeps(before, id, Succeeded);
      SuccessSpares(before, id);
      analyses := analyses[id := analyses[id].(state := Succeeded)];
      ghost var done := View();
      NothingToRelink(done);
      var k := 0;
      assert supersedes[..0] == [];
      while k < |supersedes|
        invariant 0 <= k <= |supersedes|
        invariant Valid()
        invariant View() == Removed(done, WithoutAll(done.analyses, supersedes[..k]))
      {
        RemovalsCompose(done, supersedes, k);
        RemoveAnalysis(supersedes[k]);
        k := k + 1;
      }
      assert supersedes[..k] == supersedes;
    }
  }

  lemma RemoveNone(f: Forest)
    requires Inv(f)
    ensures Removed(f, WithoutAll(f.analyses, [])) == f
  {
    NothingToRelink(f);
  }

  lemma RelinkedTabs(tabs: map<nat, seq<nat>>, m: Records)
    ensures Relinked(tabs, m).Keys == tabs.Keys
  {
  }

  lemma SubmittableTab(f: Forest, x: Submission)
    requires Submittable(f, x)
    ensures x.tab in f.tabs
  {
  }

  lemma NothingRemoved(m: Records, id: nat)
    requires id !in m
    ensures Without(m, id) == m
  {
    forall a | a in m ensures id !in Lineage(m, a) {
      LineageWithin(m, a);
    }
  }

  lemma WithoutIs(m: Records, id: nat, descendants: seq<nat>)
    requires id in m && forall a: nat :: a in descendants <==> Descends(m, id, a)
    ensures Without(m, id) == m - Elements(descendants) - {id}
  {
    LineageWithin(m, id);
  }

  lemma {:induction false} RelinkTwice(tabs: map<nat, seq<nat>>, m: Records, n: Records)
    requires n.Keys <= m.Keys
    ensures Relinked(Relinked(tabs, m), n) == Relinked(tabs, n)
  {
    hide Filter;
    forall t | t in tabs ensures Filter(Filter(tabs[t], IsIn(m)), IsIn(n)) == Filter(tabs[t], IsIn(n)) {
      FilterTwice(tabs[t], IsIn(m), IsIn(n), IsIn(n));
    }
  }

  lemma RemovalsCompose(f: Forest, ids: seq<nat>, k: nat)
    requires k < |ids|
    ensures Removed(Removed(f, WithoutAll(f.analyses, ids[..k])), Without(WithoutAll(f.analyses, ids[..k]), ids[k]))
            == Removed(f, WithoutAll(f.analyses, ids[..k + 1]))
  {
    assert ids[..k + 1][..k] == ids[..k];
    var m := WithoutAll(f.analyses, ids[..k]);
    RelinkTwice(f.tabs, m, Without(m, ids[k]));
  }

  lemma SuccessSpares(f: Forest, id: nat)
    requires Inv(f) && id in f.analyses
    ensures var n := Superseding(f, id).analyses; id in n && Lineage(n, id) == Lineage(f.analyses, id)
  {
    var done := WithState(f, id, Succeeded);
    StateKeeps(f, id, Succeeded);
    WithoutAllIs(done.analyses, f.analyses[id].supersedes);
    hide Lineage, WithoutAll;
  }

  /** Every descendant comes after its parent, and the parents of pending ones have been visited. */
  ghost predicate Parented(m: Records, id: nat, visited: seq<nat>, pending: seq<nat>) {
    && (forall i :: 0 <= i < |visited| ==>
          visited[i] in m && m[visited[i]].parent.Some?
          && (m[visited[i]].parent.value == id || m[visited[i]].parent.value in visited[..i]))
    && forall p: nat :: p in pending ==>
         p in m && m[p].parent.Some? && (m[p].parent.value == id || m[p].parent.value in visited)
  }

  lemma VisitKeepsParents(m: Records, id: nat, visited: seq<nat>, pending: seq<nat>, children: seq<nat>)
    requires pending != [] && Parented(m, id, visited, pending) && ChildrenOf(m, pending[0], children)
    ensures Parented(m, id, visited + [pending[0]], children + pending[1..])
  {
    var more := visited + [pending[0]];
    forall i | 0 <= i < |more| ensures more[i] in m && m[more[i]].parent.Some?
        && (m[more[i]].parent.value == id || m[more[i]].parent.value in more[..i])
    {
      if i < |visited| {
        assert more[..i] == visited[..i];
      } else {
        assert more[..i] == visited;
        assert pending[0] in pending;
      }
    }
  }

  lemma Fresh(m: Records, id: nat, visited: seq<nat>, pending: seq<nat>)
    requires Apart(m, id, visited, pending) && pending != []
    ensures pending[0] in m && pending[0] in AllBelow(m, id) && pending[0] !in visited
  {
    var p := pending[0];
    assert p in pending;
    LineageWithin(m, p);
  }

  lemma ApartNoDup(m: Records, id: nat, visited: seq<nat>, pending: seq<nat>)
    requires Apart(m, id, visited, pending)
    ensures NoDup(visited)
  {
  }

  lemma Progresses(all: set<nat>, visited: seq<nat>, x: nat)
    requires x in all && x !in visited
    ensures |all - Elements(visited + [x])| < |all - Elements(visited)|
  {
    assert all - Elements(visited + [x]) == all - Elements(visited) - {x};
  }
}
