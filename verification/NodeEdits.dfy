/** A whole editing session in the node wizard. */
module NodeEdits {
  import opened Basics
  import opened Decimal
  import opened VlanLabel
  import opened NodeDraft

  datatype Edit =
    | Remove(ids: set<Id>)
    | BondUp(slaves: seq<Id>, bondId: Id)
    | Grow(bondId: Id, slave: Id)
    | AddVlanOn(parent: IF, id: Id, tag: int)
    | SetTag(id: Id, vid: int)
    | Change(target: IF, patch: Patch)
    | AddInit(newIds: seq<Id>)
    | Bind(id: Id, port: nat)

  function Apply(d: Draft, e: Edit): Draft {
    match e
    case Remove(ids) => Removed(d, ids)
    case BondUp(slaves, bondId) => CreateBond(d, slaves, bondId)
    case Grow(bondId, slave) => AddToBond(d, bondId, slave)
    case AddVlanOn(parent, id, tag) => AddVlan(d, parent, id, tag)
    case SetTag(id, vid) => SetVlanId(d, id, vid)
    case Change(target, patch) => ChangeIF(d, target, patch)
    case AddInit(newIds) => Grown(d, newIds)
    case Bind(id, port) => BindPort(d, id, port)
  }

  /** What the wizard lets the operator do: new ids are new, parents and slaves are on offer,
      and a VLAN renamed outright keeps a label that carries its tag. */
  ghost predicate Allowed(d: Draft, e: Edit) {
    match e
    case BondUp(slaves, bondId) => Bondable(d, slaves, bondId)
    case AddVlanOn(parent, id, tag) => Offered(d, parent) && FreshId(d, id) && IsTag(tag)
    case SetTag(_, vid) => IsTag(vid)
    case Change(target, patch) =>
      (patch.vlanId.To? ==> IsTag(patch.vlanId.value)) && LabelFits(d, target, patch)
    case AddInit(ids) => NoDup(ids) && forall x :: x in ids ==> FreshId(d, x)
    case _ => true
  }

  function ApplyAll(d: Draft, es: seq<Edit>): Draft
    decreases |es|
  {
    if es == [] then d else Apply(ApplyAll(d, es[..|es| - 1]), es[|es| - 1])
  }

  ghost predicate Session(d: Draft, es: seq<Edit>) {
    forall i :: 0 <= i < |es| ==> Allowed(ApplyAll(d, es[..i]), es[i])
  }

  /** Well formed, and every VLAN that carries a tag is labelled with that tag. */
  ghost predicate Sound(d: Draft) { WellFormed(d) && Labelled(d) && Tagged(d) }

  lemma EditKeepsForm(d: Draft, e: Edit)
    requires WellFormed(d) && Allowed(d, e)
    ensures WellFormed(Apply(d, e))
  {
    hide WellFormed;
    match e
    case Remove(ids) => RemovalKeeps(d, ids);
    case BondUp(slaves, bondId) => BondKeeps(d, slaves, bondId);
    case Grow(bondId, slave) => AddKeeps(d, bondId, slave);
    case AddVlanOn(parent, id, tag) => VlanKeeps(d, parent, id, tag);
    case SetTag(id, vid) => RetagKeeps(d, id, vid);
    case Change(target, patch) => ChangeKeeps(d, target, patch);
    case AddInit(ids) => GrowthKeeps(d, ids);
    case Bind(id, port) => BindKeeps(d, id, port);
  }

  lemma FewerVlans(d: Draft, r: Draft)
    requires Labelled(d) && Tagged(d) && forall v :: v in r.vlan ==> v in d.vlan
    ensures Labelled(r) && Tagged(r)
  {
  }

  lemma TagsStayTags(d: Draft, e: Edit)
    requires WellFormed(d) && Tagged(d) && Allowed(d, e)
    ensures Tagged(Apply(d, e))
  {
    match e
    case AddVlanOn(parent, id, tag) => AppendShows(d.vlan, NewVlan(parent, id, tag));
    case SetTag(id, vid) => MapShows(d.vlan, Retag(d, id, vid));
    case Change(target, patch) => ChangedTags(d, target, patch);
    case AddInit(ids) => GrowthKeeps(d, ids);
    case Bind(id, port) =>
      BindKeeps(d, id, port);
      assert forall v :: v in BindPort(d, id, port).vlan ==> exists i ::
          0 <= i < |d.vlan| && BindPort(d, id, port).vlan[i] == v;
    case _ =>
  }

  lemma ChangedTags(d: Draft, target: IF, patch: Patch)
    requires Tagged(d) && (patch.vlanId.To? ==> IsTag(patch.vlanId.value))
    ensures Tagged(ChangeIF(d, target, patch))
  {
    var g := ChangedVlan(d, target, patch);
    MapShows(d.vlan, g);
    assert ChangeIF(d, target, patch).vlan == Map(d.vlan, g);
    hide ChangeIF;
    forall v | v in d.vlan ensures g(v).vlanId.Some? ==> IsTag(g(v).vlanId.value) {
      ChangedVlanTagged(d, target, patch, v);
    }
    hide ChangedVlan;
    hide IsTag;
  }

  lemma EditKeepsLabels(d: Draft, e: Edit)
    requires WellFormed(d) && Labelled(d) && Tagged(d) && Allowed(d, e)
    ensures Labelled(Apply(d, e))
  {
    hide WellFormed;
    match e
    case AddVlanOn(parent, id, tag) => VlanKeepsLabels(d, parent, id, tag);
    case SetTag(id, vid) => RetagKeepsLabels(d, id, vid);
    case Change(target, patch) => EditsKeepLabels(d, target, patch);
    case AddInit(ids) => GrowthKeeps(d, ids);
    case Bind(id, port) =>
      BindKeeps(d, id, port);
      var r := BindPort(d, id, port);
      forall v | v in r.vlan ensures Carries(v) {
        var i :| 0 <= i < |r.vlan| && r.vlan[i] == v;
        assert d.vlan[i] in d.vlan;
      }
    case _ => FewerVlans(d, Apply(d, e));
  }

  /** From any sound draft, any session of edits the wizard allows ends in a sound draft. */
  lemma {:induction false} SessionsKeep(d: Draft, es: seq<Edit>)
    requires Sound(d) && Session(d, es)
    ensures Sound(ApplyAll(d, es))
    decreases |es|
  {
    hide Allowed;
    hide WellFormed;
    hide Labelled;
    hide Tagged;
    hide Apply;
    if es != [] {
      var before := es[..|es| - 1];
      assert forall i :: 0 <= i < |before| ==> before[..i] == es[..i] && before[i] == es[i];
      SessionsKeep(d, before);
      EditKeepsForm(ApplyAll(d, before), es[|es| - 1]);
      TagsStayTags(ApplyAll(d, before), es[|es| - 1]);
      EditKeepsLabels(ApplyAll(d, before), es[|es| - 1]);
    }
  }

  // ------------------------------------------------------- tags that are only in a label

  /** Every VLAN of r without a stored tag was one of d's, and reads as the same tag as then. */
  ghost predicate ReadAsIn(d: Draft, r: Draft) {
    forall v :: v in r.vlan && v.vlanId.None? ==> Had(d, v)
  }

  predicate Had(d: Draft, v: IF) {
    exists w :: w in d.vlan && w.id == v.id && w.vlanId.None? && VlanTag(w.name) == VlanTag(v.name)
  }

  /**
   What an edit does to a VLAN whose tag is only in its label keeps the tag it is read as, and no
   stored tag is cleared.
   */
  predicate SteadyFor(v: IF, target: IF, patch: Patch) {
    var named := target.kind == Vlan && v.id == target.id;
    && (v.vlanId.None? && named && patch.name.Some? && !patch.vlanId.To?
        ==> VlanTag(patch.name.value) == VlanTag(v.name))
    && (v.vlanId.None? && target.kind == Bond && patch.name.Some? && v.master == Some(target.id)
        ==> VlanTag(v.name) == 0)
    && (v.vlanId.Some? && named ==> !patch.vlanId.Clear?)
  }

  predicate Steady(d: Draft, e: Edit) {
    match e
    case Change(target, patch) => forall v :: v in d.vlan ==> SteadyFor(v, target, patch)
    case _ => true
  }

  lemma ChangeReadsOn(d: Draft, target: IF, patch: Patch, v: IF)
    requires WellFormed(d) && v in d.vlan
    ensures var h := ChangedVlan(d, target, patch)(v);
            h.id == v.id && ((h.vlanId.None? ==> Had(d, h)) <==> SteadyFor(v, target, patch))
  {
    var p := WithLabel(d, target, patch);
    var h := ChangedVlan(d, target, patch)(v);
    if target.kind == Bond && p.name.Some? { UndefinedReadsAsNone(p.name.value); }
    HadAlone(d, v, h);
    hide WellFormed;
    hide VlanTag;
    hide Had;
    hide NameOf;
  }

  /** Ids are unique, so only the VLAN itself can be what another was. */
  lemma HadAlone(d: Draft, v: IF, h: IF)
    requires WellFormed(d) && v in d.vlan
    ensures h.id == v.id ==> (Had(d, h) <==> v.vlanId.None? && VlanTag(v.name) == VlanTag(h.name))
  {
    WellFormedIds(d);
    hide WellFormed;
    hide VlanTag;
    if w :| w in d.vlan && w.id == h.id && w.vlanId.None? && VlanTag(w.name) == VlanTag(h.name) {
      if h.id == v.id { SameId(d.vlan, v, w); }
    }
  }

  lemma SteadyChange(d: Draft, target: IF, patch: Patch)
    requires WellFormed(d)
    ensures ReadAsIn(d, ChangeIF(d, target, patch)) <==> forall v :: v in d.vlan ==> SteadyFor(v, target, patch)
  {
    hide WellFormed;
    var g := ChangedVlan(d, target, patch);
    MapShows(d.vlan, g);
    assert ChangeIF(d, target, patch).vlan == Map(d.vlan, g);
    hide ChangeIF;
    forall v | v in d.vlan ensures (g(v).vlanId.None? ==> Had(d, g(v))) <==> SteadyFor(v, target, patch) {
      ChangeReadsOn(d, target, patch, v);
    }
    hide ChangedVlan;
    hide SteadyFor;
    hide Had;
  }

  lemma BindReadsOn(d: Draft, id: Id, port: nat)
    requires WellFormed(d)
    ensures ReadAsIn(d, BindPort(d, id, port))
  {
    hide WellFormed;
    hide VlanTag;
    var r := BindPort(d, id, port);
    BindKeeps(d, id, port);
    hide BindPort;
    forall v | v in r.vlan && v.vlanId.None? ensures Had(d, v) {
      var i :| 0 <= i < |r.vlan| && r.vlan[i] == v;
      assert d.vlan[i] in d.vlan;
    }
  }

  lemma ReadAsOwn(d: Draft)
    ensures forall v :: v in d.vlan && v.vlanId.None? ==> Had(d, v)
  {
    forall v | v in d.vlan && v.vlanId.None? ensures Had(d, v) {}
  }

  /** An edit leaves every VLAN without a stored tag reading as it did if and only if it is steady. */
  lemma SteadyEditsReadOn(d: Draft, e: Edit)
    requires WellFormed(d)
    ensures ReadAsIn(d, Apply(d, e)) <==> Steady(d, e)
  {
    hide WellFormed;
    hide SteadyFor;
    hide ChangeIF;
    hide BindPort;
    ReadAsOwn(d);
    hide Had;
    match e
    case AddVlanOn(parent, id, tag) => AppendShows(d.vlan, NewVlan(parent, id, tag));
    case SetTag(id, vid) => MapShows(d.vlan, Retag(d, id, vid));
    case Change(target, patch) => SteadyChange(d, target, patch);
    case AddInit(ids) => GrownVlans(d, ids);
    case Bind(id, port) => BindReadsOn(d, id, port);
    case _ =>
  }

  lemma {:induction false} GrownVlans(d: Draft, ids: seq<Id>)
    ensures Grown(d, ids).vlan == d.vlan
    decreases |ids|
  {
    if ids != [] { GrownVlans(d, ids[..|ids| - 1]); }
  }

  ghost predicate SteadySession(d: Draft, es: seq<Edit>) {
    Session(d, es) && forall i :: 0 <= i < |es| ==> Steady(ApplyAll(d, es[..i]), es[i])
  }

  /** So a VLAN reloaded without a stored tag reads as its old tag through any steady session. */
  lemma {:induction false} TagsReadOn(d: Draft, es: seq<Edit>)
    requires WellFormed(d) && SteadySession(d, es)
    ensures WellFormed(ApplyAll(d, es)) && ReadAsIn(d, ApplyAll(d, es))
    decreases |es|
  {
    hide Allowed;
    hide Steady;
    hide WellFormed;
    hide Apply;
    hide VlanTag;
    if es == [] {
      forall v | v in d.vlan && v.vlanId.None? ensures Had(d, v) {}
    } else {
      var before := es[..|es| - 1];
      assert forall i :: 0 <= i < |before| ==> before[..i] == es[..i] && before[i] == es[i];
      TagsReadOn(d, before);
      var r, e := ApplyAll(d, before), es[|es| - 1];
      EditKeepsForm(r, e);
      SteadyEditsReadOn(r, e);
      forall v | v in Apply(r, e).vlan && v.vlanId.None? ensures Had(d, v) {
        assert Had(r, v);
        var w :| w in r.vlan && w.id == v.id && w.vlanId.None? && VlanTag(w.name) == VlanTag(v.name);
        assert Had(d, w);
      }
    }
  }
}
