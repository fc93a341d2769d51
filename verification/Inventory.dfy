/** The machine store's assignments: which machine plays which node of which cluster. */
module Inventory {
  import opened Basics

  type Id = string

  datatype Binding = Binding(cluster: string, hostname: string, osDisk: string)

  /** A machine's file: unreadable, or a record with the old single binding and the list that replaced it. */
  datatype File = Corrupt | Record(legacy: Option<Binding>, list: seq<Binding>)

  type Files = map<Id, File>

  /** What an operation takes bindings away from: one node, or a whole cluster. */
  datatype Target = OneNode(cluster: string, hostname: string) | WholeCluster(cluster: string)

  predicate Hits(t: Target, b: Binding) {
    b.cluster == t.cluster && (t.OneNode? ==> b.hostname == t.hostname)
  }

  /** What a reader sees of a record: the list, or the old binding while the list is empty. */
  function Visible(f: File): seq<Binding> {
    match f
    case Corrupt => []
    case Record(legacy, list) => if list == [] && legacy.Some? then [legacy.value] else list
  }

  function Kept(list: seq<Binding>, t: Target): (r: seq<Binding>)
    ensures forall b :: b in r <==> b in list && !Hits(t, b)
    decreases |list|
  {
    if list == [] then []
    else
      var last := list[|list| - 1];
      var r := Kept(list[..|list| - 1], t);
      assert list == list[..|list| - 1] + [last];
      assert forall b :: b in list <==> b in list[..|list| - 1] || b == last;
      if Hits(t, last) then r else r + [last]
  }

  predicate AnyHit(list: seq<Binding>, t: Target) { exists b :: b in list && Hits(t, b) }

  lemma AnyHitNext(list: seq<Binding>, i: nat, t: Target)
    requires i < |list|
    ensures AnyHit(list[..i + 1], t) <==> AnyHit(list[..i], t) || Hits(t, list[i])
    ensures Kept(list[..i + 1], t) == Kept(list[..i], t) + if Hits(t, list[i]) then [] else [list[i]]
  {
    assert list[..i + 1][..i] == list[..i] && list[..i + 1][i] == list[i];
    assert forall b :: b in list[..i + 1] <==> b in list[..i] || b == list[i];
  }

  lemma NothingKept(t: Target)
    ensures Kept([], t) == [] && !AnyHit([], t)
  {
  }

  lemma {:induction false} UntouchedKept(list: seq<Binding>, t: Target)
    requires !AnyHit(list, t)
    ensures Kept(list, t) == list
    decreases |list|
  {
    if list != [] {
      AnyHitNext(list, |list| - 1, t);
      assert list[..|list|] == list;
      UntouchedKept(list[..|list| - 1], t);
    }
  }

  predicate Touched(f: File, t: Target) { AnyHit(Visible(f), t) }

  /** A file rewritten only if it loses something. */
  function Stripped(f: File, t: Target): (g: File)
    ensures Visible(g) == Kept(Visible(f), t)
  {
    if Touched(f, t) then Record(None, Kept(Visible(f), t))
    else
      UntouchedKept(Visible(f), t);
      f
  }

  function FirstAt(list: seq<Binding>, c: string, h: string): (k: nat)
    ensures k <= |list|
    ensures forall i :: 0 <= i < k ==> !Hits(OneNode(c, h), list[i])
    ensures k < |list| ==> Hits(OneNode(c, h), list[k])
  {
    if list == [] || Hits(OneNode(c, h), list[0]) then 0 else 1 + FirstAt(list[1..], c, h)
  }

  function Bound(list: seq<Binding>, b: Binding): seq<Binding> {
    var k := FirstAt(list, b.cluster, b.hostname);
    if k < |list| then list[k := b] else list + [b]
  }

  function Assigned(fs: Files, id: Id, b: Binding): Files
    requires id in fs
  {
    map k | k in fs ::
      if k == id then Record(None, Bound(Visible(fs[id]), b)) else Stripped(fs[k], OneNode(b.cluster, b.hostname))
  }

  function ClusterGone(fs: Files, c: string): Files {
    map k | k in fs :: Stripped(fs[k], WholeCluster(c))
  }

  /** Some files stripped, the others as they were: what a failed write leaves behind. */
  predicate PartlyStripped(fs: Files, gs: Files, t: Target) {
    gs.Keys == fs.Keys && forall k :: k in fs ==> gs[k] == fs[k] || gs[k] == Stripped(fs[k], t)
  }

  predicate PartlyAssigned(fs: Files, gs: Files, id: Id, b: Binding) {
    PartlyStripped(fs, gs, OneNode(b.cluster, b.hostname)) && (id in fs ==> gs[id] == fs[id])
  }

  // ------------------------------------------------------------------- the store

  /** `spare` writes succeed before one fails; None for a disk that never fails. */
  class Store {
    var files: Files
    var spare: Option<nat>

    constructor (files: Files, spare: Option<nat>)
      ensures this.files == files && this.spare == spare
    {
      this.files, this.spare := files, spare;
    }

    method Write(id: Id, f: File) returns (ok: bool)
      modifies this
      ensures ok <==> old(spare) != Some(0)
      ensures files == if ok then old(files)[id := f] else old(files)
      ensures old(spare).None? <==> spare.None?
    {
      if spare == Some(0) { return false; }
      if spare.Some? { spare := Some(spare.value - 1); }
      files := files[id := f];
      return true;
    }

    /** The bindings of a record that stay, and whether any went; the record moves to the list form. */
    method RemoveAssignments(f: File, t: Target) returns (g: File, changed: bool)
      requires f.Record?
      ensures changed <==> Touched(f, t)
      ensures g == Record(None, Kept(Visible(f), t))
    {
      var list := if f.list == [] && f.legacy.Some? then [f.legacy.value] else f.list;
      var kept: seq<Binding> := [];
      changed := false;
      NothingKept(t);
      hide Kept;
      hide AnyHit;
      for i := 0 to |list|
        invariant kept == Kept(list[..i], t)
        invariant changed <==> AnyHit(list[..i], t)
      {
        AnyHitNext(list, i, t);
        if Hits(t, list[i]) { changed := true; } else { kept := kept + [list[i]]; }
      }
      assert list[..|list|] == list;
      g := Record(None, kept);
    }

    /** Strips every readable record but `skip`'s, one file at a time; a failed write stops it there. */
    method StripOthers(t: Target, skip: Option<Id>) returns (ok: bool)
      modifies this
      ensures files.Keys == old(files).Keys
      ensures ok ==> forall k :: k in files ==>
                files[k] == if skip == Some(k) then old(files)[k] else Stripped(old(files)[k], t)
      ensures !ok ==> PartlyStripped(old(files), files, t)
      ensures forall k :: k in files && skip == Some(k) ==> files[k] == old(files)[k]
      ensures old(spare).None? ==> ok && spare.None?
    {
      var todo := files.Keys;
      while todo != {}
        invariant todo <= files.Keys == old(files).Keys
        invariant forall k :: k in files ==>
                    files[k] == if k in todo || skip == Some(k) then old(files)[k] else Stripped(old(files)[k], t)
        invariant old(spare).None? ==> spare.None?
        decreases |todo|
      {
        var k :| k in todo;
        todo := todo - {k};
        if skip != Some(k) && files[k].Record? {
          var g, changed := RemoveAssignments(files[k], t);
          if changed {
            ok := Write(k, g);
            if !ok { return; }
          }
        }
      }
      return true;
    }

    /** The target's list with the binding updated where it stands, or appended. */
    method BindInList(target: File, b: Binding) returns (list: seq<Binding>)
      requires target.Record?
      ensures list == Bound(Visible(target), b)
    {
      list := if target.list == [] && target.legacy.Some? then [target.legacy.value] else target.list;
      for i := 0 to |list|
        invariant forall j :: 0 <= j < i ==> !Hits(OneNode(b.cluster, b.hostname), list[j])
      {
        if list[i].cluster == b.cluster && list[i].hostname == b.hostname {
          assert FirstAt(list, b.cluster, b.hostname) == i;
          return list[i := b];
        }
      }
      list := list + [b];
    }

    method Assign(id: Id, b: Binding) returns (ok: bool)
      modifies this
      ensures ok ==> id in old(files) && old(files)[id].Record? && files == Assigned(old(files), id, b)
      ensures !ok ==> PartlyAssigned(old(files), files, id, b)
      ensures old(spare).None? ==> (ok <==> id in old(files) && old(files)[id].Record?)
      ensures Does(old(files), Assigns(id, b), files)
    {
      if id !in files || files[id].Corrupt? { return false; }
      ok := StripOthers(OneNode(b.cluster, b.hostname), Some(id));
      if !ok { return; }
      hide Stripped;
      hide Bound;
      var list := BindInList(files[id], b);
      ok := Write(id, Record(None, list));
    }

    method Unassign(id: Id) returns (ok: bool)
      modifies this
      ensures ok ==> id in old(files) && files == old(files)[id := Record(None, [])]
      ensures !ok ==> files == old(files)
      ensures old(spare).None? ==> (ok <==> id in old(files) && old(files)[id].Record?)
      ensures Does(old(files), Unassigns(id), files)
    {
      if id !in files || files[id].Corrupt? { return false; }
      ok := Write(id, Record(None, []));
    }

    method UnassignCluster(c: string) returns (ok: bool)
      modifies this
      ensures ok ==> files == ClusterGone(old(files), c)
      ensures !ok ==> PartlyStripped(old(files), files, WholeCluster(c))
      ensures old(spare).None? ==> ok
      ensures Does(old(files), DropsCluster(c), files)
    {
      ok := StripOthers(WholeCluster(c), None);
      assert ok ==> files == ClusterGone(old(files), c);
    }
  }

  // ---------------------------------------------------------- one machine per node

  predicate SameNode(a: Binding, b: Binding) { a.cluster == b.cluster && a.hostname == b.hostname }

  /** No node twice in one list. */
  ghost predicate Single(list: seq<Binding>) {
    forall i, j :: 0 <= i < j < |list| ==> !SameNode(list[i], list[j])
  }

  /** At most one machine, and one entry of its list, for each node of each cluster. */
  ghost predicate OneToOne(fs: Files) {
    && (forall k :: k in fs ==> Single(Visible(fs[k])))
    && (forall k, l :: k in fs && l in fs && k != l ==> Apart(Visible(fs[k]), Visible(fs[l])))
  }

  ghost predicate Apart(a: seq<Binding>, b: seq<Binding>) {
    forall x, y :: x in a && y in b ==> !SameNode(x, y)
  }

  lemma {:induction false} KeptSingle(list: seq<Binding>, t: Target)
    requires Single(list)
    ensures Single(Kept(list, t))
    decreases |list|
  {
    if list != [] {
      var last := |list| - 1;
      KeptSingle(list[..last], t);
      var r := Kept(list[..last], t);
      forall i | 0 <= i < |r| ensures !SameNode(r[i], list[last]) {
        assert r[i] in list[..last];
      }
    }
  }

  lemma StrippedShows(fs: Files, gs: Files, t: Target, k: Id)
    requires OneToOne(fs) && PartlyStripped(fs, gs, t) && k in fs
    ensures k in gs && Single(Visible(gs[k])) && forall b :: b in Visible(gs[k]) ==> b in Visible(fs[k])
  {
    KeptSingle(Visible(fs[k]), t);
  }

  /** Taking bindings away, in every file or only in some, cannot make two machines play one node. */
  lemma StrippingKeeps(fs: Files, gs: Files, t: Target)
    requires OneToOne(fs) && PartlyStripped(fs, gs, t)
    ensures OneToOne(gs)
  {
    forall k | k in gs ensures Single(Visible(gs[k])) {
      StrippedShows(fs, gs, t, k);
    }
    forall k, l | k in gs && l in gs && k != l ensures Apart(Visible(gs[k]), Visible(gs[l])) {
      StrippedShows(fs, gs, t, k);
      StrippedShows(fs, gs, t, l);
      assert Apart(Visible(fs[k]), Visible(fs[l]));
    }
  }

  lemma BoundSingle(list: seq<Binding>, b: Binding)
    requires Single(list)
    ensures Single(Bound(list, b)) && b in Bound(list, b)
    ensures forall x :: x in Bound(list, b) <==> x == b || (x in list && !SameNode(x, b))
  {
    var k := FirstAt(list, b.cluster, b.hostname);
    var r := Bound(list, b);
    assert r[k] == b;
    forall x ensures x in r <==> x == b || (x in list && !SameNode(x, b)) {
      if x in list && !SameNode(x, b) {
        var i :| 0 <= i < |list| && list[i] == x;
        assert r[i] == x;
      }
      if x in r && x != b {
        var i :| 0 <= i < |r| && r[i] == x;
        assert list[i] == x && i != k;
        assert SameNode(x, b) ==> k < |list| && SameNode(list[i], list[k]);
      }
    }
  }

  /** What the store shows of a machine after an assignment. */
  lemma AssignedShows(fs: Files, id: Id, b: Binding, k: Id)
    requires id in fs && k in fs && Single(Visible(fs[k]))
    ensures var g := Visible(Assigned(fs, id, b)[k]);
            && Single(g)
            && forall x :: x in g <==> (x == b && k == id) || (x in Visible(fs[k]) && !SameNode(x, b))
  {
    BoundSingle(Visible(fs[k]), b);
    KeptSingle(Visible(fs[k]), OneNode(b.cluster, b.hostname));
  }

  /**
   Assigning keeps the rule, and afterwards the target is the one machine that plays the node,
   with the given disk; every other binding of every machine is as it was.
   */
  lemma AssignBindsExactlyOne(fs: Files, id: Id, b: Binding)
    requires OneToOne(fs) && id in fs
    ensures var gs := Assigned(fs, id, b);
            && OneToOne(gs) && gs.Keys == fs.Keys && b in Visible(gs[id])
            && (forall k, x :: k in gs && x in Visible(gs[k]) && SameNode(x, b) ==> k == id && x == b)
            && (forall k, x :: k in gs && !SameNode(x, b) ==> (x in Visible(gs[k]) <==> x in Visible(fs[k])))
  {
    var gs := Assigned(fs, id, b);
    forall k | k in fs
      ensures Single(Visible(gs[k]))
      ensures forall x :: x in Visible(gs[k]) <==> (x == b && k == id) || (x in Visible(fs[k]) && !SameNode(x, b))
    {
      AssignedShows(fs, id, b, k);
    }
    assert gs.Keys == fs.Keys;
    hide Assigned;
    hide Single;
    forall k, l | k in gs && l in gs && k != l ensures Apart(Visible(gs[k]), Visible(gs[l])) {
      assert Apart(Visible(fs[k]), Visible(fs[l]));
    }
  }

  datatype Op = Assigns(id: Id, b: Binding) | Unassigns(id: Id) | DropsCluster(cluster: string)

  /**
   The store after an operation on a disk that does not fail; an operation on a missing or unreadable
   record does nothing.
   */
  function Apply(fs: Files, op: Op): Files {
    match op
    case Assigns(id, b) => if id in fs && fs[id].Record? then Assigned(fs, id, b) else fs
    case Unassigns(id) => if id in fs && fs[id].Record? then fs[id := Record(None, [])] else fs
    case DropsCluster(c) => ClusterGone(fs, c)
  }

  lemma UnassignKeeps(fs: Files, id: Id)
    requires OneToOne(fs) && id in fs
    ensures OneToOne(fs[id := Record(None, [])])
  {
    var gs := fs[id := Record(None, [])];
    assert forall k :: k in gs ==> gs[k] == fs[k] || Visible(gs[k]) == [];
  }

  /** What an operation can leave behind, on a disk that may fail at any of its writes. */
  predicate Does(fs: Files, op: Op, gs: Files) {
    match op
    case Assigns(id, b) => (id in fs && fs[id].Record? && gs == Assigned(fs, id, b)) || PartlyAssigned(fs, gs, id, b)
    case Unassigns(id) => gs == fs || (id in fs && gs == fs[id := Record(None, [])])
    case DropsCluster(c) => PartlyStripped(fs, gs, WholeCluster(c))
  }

  /** A disk that does not fail is one of those. */
  lemma UnfailingDoes(fs: Files, op: Op)
    ensures Does(fs, op, Apply(fs, op))
  {
  }

  /** A disk that fails half-way through an assignment leaves the rule standing. */
  lemma FailedAssignKeeps(fs: Files, gs: Files, id: Id, b: Binding)
    requires OneToOne(fs) && PartlyAssigned(fs, gs, id, b)
    ensures OneToOne(gs)
  {
    StrippingKeeps(fs, gs, OneNode(b.cluster, b.hostname));
  }

  lemma OpKeeps(fs: Files, op: Op, gs: Files)
    requires OneToOne(fs) && Does(fs, op, gs)
    ensures OneToOne(gs)
  {
    hide OneToOne;
    match op
    case Assigns(id, b) =>
      if PartlyAssigned(fs, gs, id, b) { FailedAssignKeeps(fs, gs, id, b); } else { AssignBindsExactlyOne(fs, id, b); }
    case Unassigns(id) => if gs != fs { UnassignKeeps(fs, id); }
    case DropsCluster(c) => StrippingKeeps(fs, gs, WholeCluster(c));
  }

  /** The stores a sequence of operations passes through. */
  ghost predicate Passes(stores: seq<Files>, ops: seq<Op>) {
    |stores| == |ops| + 1 && forall i :: 0 <= i < |ops| ==> Does(stores[i], ops[i], stores[i + 1])
  }

  /** One machine per node, through any sequence of assignments and unassignments, each of which may fail part-way. */
  lemma {:induction false} OneMachinePerNode(stores: seq<Files>, ops: seq<Op>)
    requires Passes(stores, ops) && OneToOne(stores[0])
    ensures OneToOne(stores[|ops|])
    decreases |ops|
  {
    hide OneToOne;
    hide Does;
    if ops != [] {
      var n := |ops| - 1;
      OneMachinePerNode(stores[..n + 1], ops[..n]);
      OpKeeps(stores[n], ops[n], stores[n + 1]);
    }
  }

  predicate Takes(op: Op, k: Id, x: Binding) {
    match op
    case Assigns(id, b) => SameNode(x, b)
    case Unassigns(id) => id == k
    case DropsCluster(c) => x.cluster == c
  }

  lemma ClusterGoneShows(fs: Files, c: string, k: Id, x: Binding)
    requires k in fs
    ensures x in Visible(ClusterGone(fs, c)[k]) <==> x in Visible(fs[k]) && x.cluster != c
  {
  }

  /** An operation on one machine needs a readable record of it; a cluster is dropped whatever is stored. */
  predicate Possible(fs: Files, op: Op) { op.DropsCluster? || (op.id in fs && fs[op.id].Record?) }

  /**
   An operation takes away exactly what it is asked to, and only an assignment adds anything. This
   holds of records in either form: one that still has the old single binding keeps showing it
   until something removes it.
   */
  lemma OnlyWhatIsAsked(fs: Files, op: Op, k: Id, x: Binding)
    requires k in fs && OneToOne(fs)
    ensures k in Apply(fs, op)
    ensures x in Visible(Apply(fs, op)[k]) <==>
              || (x in Visible(fs[k]) && !(Possible(fs, op) && Takes(op, k, x)))
              || (Possible(fs, op) && op.Assigns? && k == op.id && x == op.b)
  {
    match op
    case Assigns(id, b) =>
      if id in fs { AssignedShows(fs, id, b, k); }
      hide Assigned;
    case Unassigns(id) =>
    case DropsCluster(c) =>
      ClusterGoneShows(fs, c, k, x);
      hide ClusterGone;
  }
}
