/** The node wizard's interface editor: physical interfaces, bonds over them, VLANs on either. */
module NodeDraft {
  import opened Basics
  import opened Decimal
  import opened VlanLabel

  type Id = string

  datatype Kind = Init | Bond | Vlan

  datatype IF = IF(
    id: Id, kind: Kind, name: string, enabled: bool, addr: Option<string>, mask: Option<string>,
    master: Option<Id>, slaves: seq<Id>, vlanId: Option<int>)

  datatype Draft = Draft(init: seq<IF>, bond: seq<IF>, vlan: seq<IF>)

  function All(d: Draft): seq<IF> { d.init + d.bond + d.vlan }

  /** A text that is set and not empty. */
  predicate Set(o: Option<string>) { o.Some? && o.value != "" }

  // -------------------------------------------------------------- lists of interfaces

  function Map(s: seq<IF>, g: IF -> IF): (r: seq<IF>)
    ensures |r| == |s| && forall i :: 0 <= i < |s| ==> r[i] == g(s[i])
  {
    seq(|s|, i requires 0 <= i < |s| => g(s[i]))
  }

  function Filter(s: seq<IF>, p: IF -> bool): (r: seq<IF>)
    ensures forall f :: f in r <==> f in s && p(f)
    ensures |r| <= |s|
    decreases |s|
  {
    if s == [] then []
    else
      var last := s[|s| - 1];
      var r := Filter(s[..|s| - 1], p);
      assert forall f :: f in s <==> f in s[..|s| - 1] || f == last;
      if p(last) then r + [last] else r
  }

  function Ids(s: seq<IF>): set<Id> { set f | f in s :: f.id }

  ghost predicate Distinct(s: seq<IF>) { forall i, j :: 0 <= i < j < |s| ==> s[i].id != s[j].id }

  lemma MapShows(s: seq<IF>, g: IF -> IF)
    ensures forall f :: f in s ==> g(f) in Map(s, g)
    ensures forall h :: h in Map(s, g) ==> exists f :: f in s && g(f) == h
    ensures (forall f :: f in s ==> g(f).id == f.id) ==>
              Ids(Map(s, g)) == Ids(s) && (Distinct(s) ==> Distinct(Map(s, g)))
  {
    forall f | f in s ensures g(f) in Map(s, g) {
      var i :| 0 <= i < |s| && s[i] == f;
      assert Map(s, g)[i] == g(f);
    }
    forall h | h in Map(s, g) ensures exists f :: f in s && g(f) == h {
      var i :| 0 <= i < |s| && Map(s, g)[i] == h;
      assert s[i] in s && g(s[i]) == h;
    }
  }

  lemma {:induction false} FilterDistinct(s: seq<IF>, p: IF -> bool)
    requires Distinct(s)
    ensures Distinct(Filter(s, p))
    decreases |s|
  {
    if s != [] {
      var before := s[..|s| - 1];
      FilterDistinct(before, p);
      var r := Filter(before, p);
      forall i | 0 <= i < |r| ensures r[i].id != s[|s| - 1].id {
        assert r[i] in before;
      }
    }
  }

  // ------------------------------------------------------------------ well-formedness

  predicate IsFreeInit(d: Draft, m: Id) { exists f :: f in d.init && f.id == m && f.master == None }

  predicate IsBond(d: Draft, m: Id) { exists b :: b in d.bond && b.id == m }

  predicate Enslaves(d: Draft, b: Id, s: Id) { exists f :: f in d.bond && f.id == b && s in f.slaves }

  predicate Obeys(d: Draft, s: Id, b: Id) { exists f :: f in d.init && f.id == s && f.master == Some(b) }

  ghost predicate Identified(d: Draft) {
    && Distinct(d.init) && Distinct(d.bond) && Distinct(d.vlan)
    && Ids(d.init) !! Ids(d.bond) && Ids(d.init) !! Ids(d.vlan) && Ids(d.bond) !! Ids(d.vlan)
    && (forall f :: f in d.init ==> f.id != "" && f.kind == Init)
    && (forall f :: f in d.bond ==> f.id != "" && f.kind == Bond)
    && (forall f :: f in d.vlan ==> f.kind == Vlan)
  }

  /**
   The editor's integrity: ids are unique; masters and slaves agree both ways; no bond is empty
   or lists a slave twice; every VLAN sits on a bond or on a physical interface no bond has taken.
   */
  ghost predicate WellFormed(d: Draft) {
    && Identified(d)
    && (forall f :: f in d.init && f.master.Some? ==> Enslaves(d, f.master.value, f.id))
    && (forall b, s :: b in d.bond && s in b.slaves ==> Obeys(d, s, b.id))
    && (forall b :: b in d.bond ==> b.slaves != [] && NoDup(b.slaves))
    && (forall v :: v in d.vlan ==> v.master.Some? && (IsFreeInit(d, v.master.value) || IsBond(d, v.master.value)))
  }

  lemma SameId(s: seq<IF>, f: IF, g: IF)
    requires Distinct(s) && f in s && g in s && f.id == g.id
    ensures f == g
  {
  }

  lemma MasterOf(d: Draft, f: IF)
    requires WellFormed(d) && f in d.init && f.master.Some?
    ensures Enslaves(d, f.master.value, f.id) && f.master.value != ""
  {
    assert Enslaves(d, f.master.value, f.id);
  }

  lemma SlaveOf(d: Draft, b: IF, s: Id)
    requires WellFormed(d) && b in d.bond && s in b.slaves
    ensures Obeys(d, s, b.id) && s in Ids(d.init) && s !in Ids(d.bond) && s !in Ids(d.vlan)
  {
    assert Obeys(d, s, b.id);
    assert Ids(d.init) !! Ids(d.bond);
  }

  lemma BondOf(d: Draft, b: IF)
    requires WellFormed(d) && b in d.bond
    ensures b.slaves != [] && NoDup(b.slaves) && b.id != "" && b.id in Ids(d.bond)
  {
  }

  lemma VlanOf(d: Draft, v: IF)
    requires WellFormed(d) && v in d.vlan
    ensures v.master.Some? && v.master.value != "" && (IsFreeInit(d, v.master.value) || IsBond(d, v.master.value))
  {
    assert v.master.Some? && (IsFreeInit(d, v.master.value) || IsBond(d, v.master.value));
  }

  // --------------------------------------------------------------------- removal

  predicate AllIn(slaves: seq<Id>, gone: set<Id>) { forall s :: s in slaves ==> s in gone }

  /** Bonds are looked at in order; one whose slaves are all gone goes too. */
  function BondsGone(bonds: seq<IF>, gone: set<Id>): set<Id>
    decreases |bonds|
  {
    if bonds == [] then gone
    else
      var g := BondsGone(bonds[..|bonds| - 1], gone);
      if AllIn(bonds[|bonds| - 1].slaves, g) then g + {bonds[|bonds| - 1].id} else g
  }

  function VlansGone(vlans: seq<IF>, gone: set<Id>): set<Id>
    decreases |vlans|
  {
    if vlans == [] then gone
    else
      var g := VlansGone(vlans[..|vlans| - 1], gone);
      var v := vlans[|vlans| - 1];
      if Set(v.master) && v.master.value in g then g + {v.id} else g
  }

  function Gone(d: Draft, ids: set<Id>): set<Id> { VlansGone(d.vlan, BondsGone(d.bond, ids)) }

  function KeptSlaves(slaves: seq<Id>, gone: set<Id>): (r: seq<Id>)
    ensures forall s :: s in r <==> s in slaves && s !in gone
    ensures NoDup(slaves) ==> NoDup(r)
    decreases |slaves|
  {
    if slaves == [] then []
    else
      var r := KeptSlaves(slaves[..|slaves| - 1], gone);
      var last := slaves[|slaves| - 1];
      assert forall s :: s in slaves <==> s in slaves[..|slaves| - 1] || s == last;
      assert NoDup(slaves) ==> last !in slaves[..|slaves| - 1];
      if last in gone then r else r + [last]
  }

  function Stays(gone: set<Id>): IF -> bool { (f: IF) => f.id !in gone }

  function VlanStays(gone: set<Id>): IF -> bool {
    (f: IF) => f.id !in gone && !(Set(f.master) && f.master.value in gone)
  }

  function Loosen(gone: set<Id>): IF -> IF {
    (f: IF) => f.(master := if Set(f.master) && f.master.value !in gone then f.master else None)
  }

  function Thin(gone: set<Id>): IF -> IF { (f: IF) => f.(slaves := KeptSlaves(f.slaves, gone)) }

  function RemoveGone(d: Draft, gone: set<Id>): Draft {
    Draft(Map(Filter(d.init, Stays(gone)), Loosen(gone)), Map(Filter(d.bond, Stays(gone)), Thin(gone)),
          Filter(d.vlan, VlanStays(gone)))
  }

  function Removed(d: Draft, ids: set<Id>): Draft { RemoveGone(d, Gone(d, ids)) }

  method RemoveIFs(d: Draft, ids: seq<Id>) returns (r: Draft)
    ensures r == Removed(d, Elems(ids))
  {
    var gone := Elems(ids);
    for i := 0 to |d.bond|
      invariant gone == BondsGone(d.bond[..i], Elems(ids))
    {
      assert d.bond[..i + 1][..i] == d.bond[..i];
      if AllIn(d.bond[i].slaves, gone) { gone := gone + {d.bond[i].id}; }
    }
    assert d.bond[..|d.bond|] == d.bond;
    ghost var afterBonds := gone;
    for i := 0 to |d.vlan|
      invariant gone == VlansGone(d.vlan[..i], afterBonds)
    {
      assert d.vlan[..i + 1][..i] == d.vlan[..i];
      var v := d.vlan[i];
      if Set(v.master) && v.master.value in gone { gone := gone + {v.id}; }
    }
    assert d.vlan[..|d.vlan|] == d.vlan;
    r := RemoveGone(d, gone);
  }

  /** What the cascade amounts to: a bond goes exactly if it is named or all its slaves go,
      and nothing else goes but VLANs. */
  lemma {:induction false} BondsGoneMeans(bonds: seq<IF>, gone: set<Id>)
    requires forall b, c, s :: b in bonds && c in bonds && s in b.slaves ==> s != c.id
    ensures var g := BondsGone(bonds, gone);
            && gone <= g
            && (forall x :: x in g && x !in Ids(bonds) ==> x in gone)
            && (forall b :: b in bonds && AllIn(b.slaves, gone) ==> b.id in g)
            && (forall x :: x in g ==> x in gone || exists b :: b in bonds && b.id == x && AllIn(b.slaves, gone))
    decreases |bonds|
  {
    if bonds != [] {
      var before, last := bonds[..|bonds| - 1], bonds[|bonds| - 1];
      assert forall b :: b in bonds <==> b in before || b == last;
      BondsGoneMeans(before, gone);
      var g := BondsGone(before, gone);
      if AllIn(last.slaves, g) {
        forall s | s in last.slaves ensures s in gone {
          assert s !in Ids(before);
        }
      }
    }
  }

  lemma {:induction false} VlansGoneMeans(vlans: seq<IF>, gone: set<Id>)
    ensures var g := VlansGone(vlans, gone);
            && gone <= g
            && forall x :: x in g ==>
                 x in gone || exists v :: v in vlans && v.id == x && Set(v.master) && v.master.value in g
    decreases |vlans|
  {
    if vlans != [] {
      var before, last := vlans[..|vlans| - 1], vlans[|vlans| - 1];
      assert forall v :: v in vlans <==> v in before || v == last;
      VlansGoneMeans(before, gone);
    }
  }

  lemma GoneIsClosed(d: Draft, ids: set<Id>, b: IF)
    requires WellFormed(d) && b in d.bond && b.id !in Gone(d, ids)
    ensures !AllIn(b.slaves, Gone(d, ids))
  {
    hide WellFormed;
    var g := BondsGone(d.bond, ids);
    forall b, c, s | b in d.bond && c in d.bond && s in b.slaves ensures s != c.id {
      SlaveOf(d, b, s);
      BondOf(d, c);
    }
    BondsGoneMeans(d.bond, ids);
    VlansGoneMeans(d.vlan, g);
    if AllIn(b.slaves, Gone(d, ids)) {
      forall s | s in b.slaves ensures s in ids {
        SlaveOf(d, b, s);
      }
      assert false;
    }
  }

  lemma RemovalIdentified(d: Draft, gone: set<Id>)
    requires Identified(d)
    ensures Identified(RemoveGone(d, gone))
  {
    var r := RemoveGone(d, gone);
    FilterDistinct(d.init, Stays(gone));
    FilterDistinct(d.bond, Stays(gone));
    FilterDistinct(d.vlan, VlanStays(gone));
    MapShows(Filter(d.init, Stays(gone)), Loosen(gone));
    MapShows(Filter(d.bond, Stays(gone)), Thin(gone));
    assert Ids(r.init) <= Ids(d.init) && Ids(r.bond) <= Ids(d.bond) && Ids(r.vlan) <= Ids(d.vlan);
  }

  /** Where the interfaces of a draft after removal come from, and what becomes of those that stay. */
  lemma RemovalShows(d: Draft, gone: set<Id>)
    ensures var r := RemoveGone(d, gone);
            && (forall f :: f in d.init && f.id !in gone ==> Loosen(gone)(f) in r.init)
            && (forall h :: h in r.init ==> exists f :: f in d.init && f.id !in gone && h == Loosen(gone)(f))
            && (forall f :: f in d.bond && f.id !in gone ==> Thin(gone)(f) in r.bond)
            && (forall h :: h in r.bond ==> exists f :: f in d.bond && f.id !in gone && h == Thin(gone)(f))
  {
    MapShows(Filter(d.init, Stays(gone)), Loosen(gone));
    MapShows(Filter(d.bond, Stays(gone)), Thin(gone));
  }

  lemma VlanAnchored(d: Draft, gone: set<Id>, v: IF)
    requires WellFormed(d) && v in RemoveGone(d, gone).vlan
    ensures v.master.Some? && (IsFreeInit(RemoveGone(d, gone), v.master.value) || IsBond(RemoveGone(d, gone),
        v.master.value))
  {
    hide WellFormed;
    VlanOf(d, v);
    RemovalShows(d, gone);
    var m := v.master.value;
    if f :| f in d.init && f.id == m && f.master == None {
      assert Loosen(gone)(f) in RemoveGone(d, gone).init;
    } else {
      var b :| b in d.bond && b.id == m;
      assert Thin(gone)(b) in RemoveGone(d, gone).bond;
    }
  }

  lemma MastersStay(d: Draft, gone: set<Id>, h: IF)
    requires WellFormed(d) && h in RemoveGone(d, gone).init && h.master.Some?
    ensures Enslaves(RemoveGone(d, gone), h.master.value, h.id)
  {
    hide WellFormed;
    RemovalShows(d, gone);
    var f :| f in d.init && f.id !in gone && h == Loosen(gone)(f);
    MasterOf(d, f);
    var b :| b in d.bond && b.id == f.master.value && f.id in b.slaves;
    assert Thin(gone)(b) in RemoveGone(d, gone).bond;
  }

  lemma SlavesStay(d: Draft, ids: set<Id>, h: IF)
    requires WellFormed(d) && h in Removed(d, ids).bond
    ensures h.slaves != [] && NoDup(h.slaves) && forall s :: s in h.slaves ==> Obeys(Removed(d, ids), s, h.id)
  {
    hide WellFormed;
    var gone := Gone(d, ids);
    hide Gone;
    RemovalShows(d, gone);
    var b :| b in d.bond && b.id !in gone && h == Thin(gone)(b);
    BondOf(d, b);
    GoneIsClosed(d, ids, b);
    var s :| s in b.slaves && s !in gone;
    assert s in h.slaves;
    forall s | s in h.slaves ensures Obeys(Removed(d, ids), s, h.id) {
      SlaveOf(d, b, s);
      var f :| f in d.init && f.id == s && f.master == Some(b.id);
      assert Loosen(gone)(f) in Removed(d, ids).init;
    }
  }

  /** Removing any interfaces, with all that goes along, keeps the draft well formed. */
  lemma RemovalKeeps(d: Draft, ids: set<Id>)
    requires WellFormed(d)
    ensures WellFormed(Removed(d, ids))
  {
    var r := Removed(d, ids);
    RemovalIdentified(d, Gone(d, ids));
    hide Identified;
    forall h | h in r.init && h.master.Some? ensures Enslaves(r, h.master.value, h.id) { MastersStay(d, Gone(d,
        ids), h); }
    forall h | h in r.bond ensures h.slaves != [] && NoDup(h.slaves)
        && forall s :: s in h.slaves ==> Obeys(r, s, h.id) {
      SlavesStay(d, ids, h);
    }
    forall v | v in r.vlan ensures v.master.Some? && (IsFreeInit(r, v.master.value) || IsBond(r, v.master.value)) {
      VlanAnchored(d, Gone(d, ids), v);
    }
    hide Removed;
  }

  // ---------------------------------------------------------------------- bonds

  const BOND_NAMES: seq<string> := ["mgmt", "data", "ext", "stor", "backend"]

  function FreeName(d: Draft, k: nat): string
    requires k <= |BOND_NAMES|
    decreases |BOND_NAMES| - k
  {
    if k == |BOND_NAMES| then "newbdname"
    else if forall b :: b in d.bond ==> b.name != BOND_NAMES[k] then BOND_NAMES[k] else FreeName(d, k + 1)
  }

  function Enslave(slaves: seq<Id>, bondId: Id): IF -> IF {
    (f: IF) => if f.id in slaves then f.(master := Some(bondId), addr := None, mask := None, enabled := true) else f
  }

  function OffSlaves(slaves: seq<Id>): IF -> bool { (f: IF) => !(Set(f.master) && f.master.value in slaves) }

  function NewBond(bondId: Id, name: string, slaves: seq<Id>): IF {
    IF(bondId, Bond, name, true, None, None, None, slaves, None)
  }

  function CreateBond(d: Draft, slaves: seq<Id>, bondId: Id): Draft {
    Draft(Map(d.init, Enslave(slaves, bondId)), d.bond + [NewBond(bondId, FreeName(d, 0), slaves)], Filter(d.vlan,
        OffSlaves(slaves)))
  }

  predicate FreshId(d: Draft, id: Id) { id != "" && id !in Ids(d.init) && id !in Ids(d.bond) && id !in Ids(d.vlan) }

  /** What the wizard offers to bond: free physical interfaces, each once, and an id of its own for the bond. */
  ghost predicate Bondable(d: Draft, slaves: seq<Id>, bondId: Id) {
    && slaves != [] && NoDup(slaves) && (forall s :: s in slaves ==> IsFreeInit(d, s))
    && FreshId(d.(vlan := Filter(d.vlan, OffSlaves(slaves))), bondId)
  }

  lemma AppendShows(s: seq<IF>, x: IF)
    ensures forall f :: f in s + [x] <==> f in s || f == x
    ensures Ids(s + [x]) == Ids(s) + {x.id}
    ensures Distinct(s) && x.id !in Ids(s) ==> Distinct(s + [x])
  {
    assert forall f :: f in s + [x] <==> f in s || f == x;
    assert forall i :: 0 <= i < |s| ==> s[i].id in Ids(s);
  }

  lemma BondIdentified(d: Draft, slaves: seq<Id>, bondId: Id)
    requires Identified(d) && FreshId(d.(vlan := Filter(d.vlan, OffSlaves(slaves))), bondId)
    ensures Identified(CreateBond(d, slaves, bondId))
  {
    var r := CreateBond(d, slaves, bondId);
    MapShows(d.init, Enslave(slaves, bondId));
    AppendShows(d.bond, r.bond[|d.bond|]);
    FilterDistinct(d.vlan, OffSlaves(slaves));
    assert Ids(r.vlan) <= Ids(d.vlan);
  }

  lemma FreeInitIsNoSlave(d: Draft, f: IF, b: IF)
    requires WellFormed(d) && b in d.bond && f in d.init && f.id in b.slaves
    ensures f.master == Some(b.id)
  {
    assert Obeys(d, f.id, b.id);
    var g :| g in d.init && g.id == f.id && g.master == Some(b.id);
    SameId(d.init, f, g);
  }

  lemma BondSlavesObey(d: Draft, slaves: seq<Id>, bondId: Id, b: IF, s: Id)
    requires WellFormed(d) && Bondable(d, slaves, bondId) && b in CreateBond(d, slaves, bondId).bond && s in b.slaves
    ensures Obeys(CreateBond(d, slaves, bondId), s, b.id)
  {
    hide WellFormed;
    var r := CreateBond(d, slaves, bondId);
    MapShows(d.init, Enslave(slaves, bondId));
    AppendShows(d.bond, r.bond[|d.bond|]);
    if b in d.bond {
      SlaveOf(d, b, s);
      var f :| f in d.init && f.id == s && f.master == Some(b.id);
      if s in slaves {
        assert IsFreeInit(d, s);
        var g :| g in d.init && g.id == s && g.master == None;
        FreeInitIsNoSlave(d, g, b);
        assert false;
      }
      assert Enslave(slaves, bondId)(f) in r.init;
    } else {
      assert IsFreeInit(d, s);
      var f :| f in d.init && f.id == s && f.master == None;
      assert Enslave(slaves, bondId)(f) in r.init;
    }
  }

  lemma BondMasters(d: Draft, slaves: seq<Id>, bondId: Id, h: IF)
    requires WellFormed(d) && h in CreateBond(d, slaves, bondId).init && h.master.Some?
    ensures Enslaves(CreateBond(d, slaves, bondId), h.master.value, h.id)
  {
    hide WellFormed;
    var r := CreateBond(d, slaves, bondId);
    MapShows(d.init, Enslave(slaves, bondId));
    AppendShows(d.bond, r.bond[|d.bond|]);
    var f :| f in d.init && h == Enslave(slaves, bondId)(f);
    if f.id in slaves {
      assert r.bond[|d.bond|] in r.bond;
    } else {
      MasterOf(d, f);
      var b :| b in d.bond && b.id == f.master.value && f.id in b.slaves;
      assert b in r.bond;
    }
  }

  lemma BondAnchors(d: Draft, slaves: seq<Id>, bondId: Id, v: IF)
    requires WellFormed(d) && v in CreateBond(d, slaves, bondId).vlan
    ensures var r := CreateBond(d, slaves, bondId);
        v.master.Some? && (IsFreeInit(r, v.master.value) || IsBond(r, v.master.value))
  {
    hide WellFormed;
    var r := CreateBond(d, slaves, bondId);
    MapShows(d.init, Enslave(slaves, bondId));
    AppendShows(d.bond, r.bond[|d.bond|]);
    VlanOf(d, v);
    if f :| f in d.init && f.id == v.master.value && f.master == None {
      assert Enslave(slaves, bondId)(f) in r.init;
    } else {
      var b :| b in d.bond && b.id == v.master.value;
      assert b in r.bond;
    }
  }

  /** Bonding what the wizard offers keeps the draft well formed. */
  lemma BondKeeps(d: Draft, slaves: seq<Id>, bondId: Id)
    requires WellFormed(d) && Bondable(d, slaves, bondId)
    ensures WellFormed(CreateBond(d, slaves, bondId))
  {
    var r := CreateBond(d, slaves, bondId);
    BondIdentified(d, slaves, bondId);
    AppendShows(d.bond, r.bond[|d.bond|]);
    forall b | b in r.bond ensures b.slaves != [] && NoDup(b.slaves) {
      if b in d.bond { BondOf(d, b); }
    }
    hide Identified;
    forall h | h in r.init && h.master.Some? ensures Enslaves(r, h.master.value, h.id) { BondMasters(d, slaves,
        bondId, h); }
    forall b, s | b in r.bond && s in b.slaves ensures Obeys(r, s, b.id) { BondSlavesObey(d, slaves, bondId, b, s); }
    forall v | v in r.vlan ensures v.master.Some? && (IsFreeInit(r, v.master.value) || IsBond(r, v.master.value)) {
      BondAnchors(d, slaves, bondId, v);
    }
    hide CreateBond;
  }

  /** And nothing else does: any other selection breaks the draft. */
  lemma BondNeedsBondable(d: Draft, slaves: seq<Id>, bondId: Id)
    requires WellFormed(d) && WellFormed(CreateBond(d, slaves, bondId))
    ensures Bondable(d, slaves, bondId)
  {
    var r := CreateBond(d, slaves, bondId);
    var b := r.bond[|d.bond|];
    assert b in r.bond;
    BondOf(r, b);
    BondFresh(d, slaves, bondId);
    forall s | s in slaves ensures IsFreeInit(d, s) {
      SlaveIsFree(d, slaves, bondId, s);
    }
  }

  lemma NewBondIsNew(d: Draft, slaves: seq<Id>, bondId: Id, c: IF)
    requires Identified(CreateBond(d, slaves, bondId)) && c in d.bond
    ensures c.id != bondId
  {
    var r := CreateBond(d, slaves, bondId);
    var i :| 0 <= i < |d.bond| && d.bond[i] == c;
    assert r.bond[i].id != r.bond[|d.bond|].id;
  }

  lemma BondFresh(d: Draft, slaves: seq<Id>, bondId: Id)
    requires Identified(CreateBond(d, slaves, bondId))
    ensures FreshId(d.(vlan := Filter(d.vlan, OffSlaves(slaves))), bondId)
  {
    var r := CreateBond(d, slaves, bondId);
    MapShows(d.init, Enslave(slaves, bondId));
    AppendShows(d.bond, r.bond[|d.bond|]);
    assert r.bond[|d.bond|] in r.bond;
    forall c | c in d.bond ensures c.id != bondId {
      NewBondIsNew(d, slaves, bondId, c);
    }
  }

  lemma OriginOf(d: Draft, slaves: seq<Id>, bondId: Id, h: IF) returns (f: IF)
    requires h in CreateBond(d, slaves, bondId).init
    ensures f in d.init && f.id == h.id
  {
    MapShows(d.init, Enslave(slaves, bondId));
    f :| f in d.init && h == Enslave(slaves, bondId)(f);
  }

  lemma SlaveIsFree(d: Draft, slaves: seq<Id>, bondId: Id, s: Id)
    requires WellFormed(d) && WellFormed(CreateBond(d, slaves, bondId)) && s in slaves
    ensures IsFreeInit(d, s)
  {
    hide WellFormed;
    var r := CreateBond(d, slaves, bondId);
    var b := NewBond(bondId, FreeName(d, 0), slaves);
    assert r.bond[|d.bond|] == b && b in r.bond;
    hide CreateBond;
    hide FreeName;
    SlaveOf(r, b, s);
    var h :| h in r.init && h.id == s && h.master == Some(bondId);
    var f := OriginOf(d, slaves, bondId, h);
    TakenOnce(d, slaves, bondId, f, h);
  }

  lemma WellFormedIds(d: Draft)
    requires WellFormed(d)
    ensures Identified(d)
  {
    hide Identified;
  }

  lemma TakenOnce(d: Draft, slaves: seq<Id>, bondId: Id, f: IF, h: IF)
    requires WellFormed(d) && WellFormed(CreateBond(d, slaves, bondId))
    requires f in d.init && h in CreateBond(d, slaves, bondId).init && h.id == f.id && h.master == Some(bondId)
    ensures f.master == None
  {
    hide WellFormed;
    var r := CreateBond(d, slaves, bondId);
    WellFormedIds(r);
    if f.master.Some? {
      MasterOf(d, f);
      var c :| c in d.bond && c.id == f.master.value && f.id in c.slaves;
      NewBondIsNew(d, slaves, bondId, c);
      FreeInitIsNoSlave(r, h, c);
      assert false;
    }
  }

  // --------------------------------------------------------------- growing a bond

  function Find(s: seq<IF>, id: Id): (r: Option<IF>)
    ensures r.Some? ==> r.value in s && r.value.id == id
    ensures r.None? ==> id !in Ids(s)
  {
    if s == [] then None else if s[0].id == id then Some(s[0]) else
    var r := Find(s[1..], id);
    assert forall f :: f in s <==> f == s[0] || f in s[1..];
    r
  }

  function Extend(bondId: Id, slave: Id): IF -> IF {
    (b: IF) => if b.id == bondId then b.(slaves := b.slaves + [slave]) else b
  }

  /** Without the bond, or the slave, or with a slave already taken, nothing changes. */
  function AddToBond(d: Draft, bondId: Id, slave: Id): Draft {
    var bond, init := Find(d.bond, bondId), Find(d.init, slave);
    if bond.None? || init.None? || Set(init.value.master) then d
    else Draft(Map(d.init, Enslave([slave], bondId)), Map(d.bond, Extend(bondId, slave)), Filter(d.vlan,
        OffSlaves([slave])))
  }

  lemma MapIdentified(d: Draft, gi: IF -> IF, gb: IF -> IF, p: IF -> bool)
    requires Identified(d)
    requires forall f :: f in d.init ==> gi(f).id == f.id && gi(f).kind == f.kind
    requires forall f :: f in d.bond ==> gb(f).id == f.id && gb(f).kind == f.kind
    ensures Identified(Draft(Map(d.init, gi), Map(d.bond, gb), Filter(d.vlan, p)))
  {
    MapShows(d.init, gi);
    MapShows(d.bond, gb);
    FilterDistinct(d.vlan, p);
    hide Distinct;
    assert Ids(Filter(d.vlan, p)) <= Ids(d.vlan);
    hide Map;
  }

  lemma AddIdentified(d: Draft, bondId: Id, slave: Id)
    requires Identified(d)
    ensures Identified(AddToBond(d, bondId, slave))
  {
    MapIdentified(d, Enslave([slave], bondId), Extend(bondId, slave), OffSlaves([slave]));
    hide Identified;
    hide Find;
    hide Map;
    hide Filter;
  }

  lemma FindMeans(s: seq<IF>, id: Id, f: IF)
    requires Distinct(s) && f in s && f.id == id
    ensures Find(s, id) == Some(f)
  {
    SameId(s, f, Find(s, id).value);
  }

  lemma ExtendedShows(d: Draft, bondId: Id, slave: Id, c: IF)
    requires c in d.bond
    ensures Extend(bondId, slave)(c) in Map(d.bond, Extend(bondId, slave))
  {
    MapShows(d.bond, Extend(bondId, slave));
  }

  lemma AddMasters(d: Draft, bondId: Id, slave: Id, h: IF)
    requires WellFormed(d) && h in AddToBond(d, bondId, slave).init && h.master.Some?
        && AddToBond(d, bondId, slave) != d
    ensures Enslaves(AddToBond(d, bondId, slave), h.master.value, h.id)
  {
    hide WellFormed;
    var r := AddToBond(d, bondId, slave);
    MapShows(d.init, Enslave([slave], bondId));
    var f :| f in d.init && h == Enslave([slave], bondId)(f);
    var c: IF;
    if f.id == slave {
      c := Find(d.bond, bondId).value;
    } else {
      MasterOf(d, f);
      c :| c in d.bond && c.id == f.master.value && f.id in c.slaves;
    }
    ExtendedShows(d, bondId, slave, c);
    assert Extend(bondId, slave)(c) in r.bond;
  }

  lemma OldSlaveObeys(d: Draft, bondId: Id, slave: Id, c: IF, s: Id)
    requires WellFormed(d) && c in d.bond && s in c.slaves && AddToBond(d, bondId, slave) != d
    ensures Obeys(AddToBond(d, bondId, slave), s, c.id)
  {
    hide WellFormed;
    var free := Find(d.init, slave).value;
    SlaveOf(d, c, s);
    BondOf(d, c);
    if s == slave {
      FreeInitIsNoSlave(d, free, c);
      assert false;
    }
    var f :| f in d.init && f.id == s && f.master == Some(c.id);
    MapShows(d.init, Enslave([slave], bondId));
    assert Enslave([slave], bondId)(f) == f;
    assert f in AddToBond(d, bondId, slave).init;
  }

  lemma NewSlaveObeys(d: Draft, bondId: Id, slave: Id)
    requires AddToBond(d, bondId, slave) != d
    ensures Obeys(AddToBond(d, bondId, slave), slave, bondId)
  {
    var free := Find(d.init, slave).value;
    MapShows(d.init, Enslave([slave], bondId));
    assert Enslave([slave], bondId)(free) in AddToBond(d, bondId, slave).init;
  }

  lemma AddSlaves(d: Draft, bondId: Id, slave: Id, b: IF, s: Id)
    requires WellFormed(d) && b in AddToBond(d, bondId, slave).bond && s in b.slaves && AddToBond(d, bondId, slave) != d
    ensures Obeys(AddToBond(d, bondId, slave), s, b.id)
  {
    hide WellFormed;
    hide Obeys;
    MapShows(d.bond, Extend(bondId, slave));
    var c :| c in d.bond && b == Extend(bondId, slave)(c);
    if s in c.slaves {
      OldSlaveObeys(d, bondId, slave, c, s);
    } else {
      NewSlaveObeys(d, bondId, slave);
    }
  }

  lemma AddAnchors(d: Draft, bondId: Id, slave: Id, v: IF)
    requires WellFormed(d) && v in AddToBond(d, bondId, slave).vlan && AddToBond(d, bondId, slave) != d
    ensures var r := AddToBond(d, bondId, slave);
        v.master.Some? && (IsFreeInit(r, v.master.value) || IsBond(r, v.master.value))
  {
    hide WellFormed;
    var r := AddToBond(d, bondId, slave);
    MapShows(d.init, Enslave([slave], bondId));
    VlanOf(d, v);
    if f :| f in d.init && f.id == v.master.value && f.master == None {
      assert Enslave([slave], bondId)(f) in r.init;
    } else {
      var b :| b in d.bond && b.id == v.master.value;
      ExtendedShows(d, bondId, slave, b);
      assert Extend(bondId, slave)(b) in r.bond;
    }
  }

  lemma NoDupAppend(s: seq<Id>, x: Id)
    requires NoDup(s) && x !in s
    ensures NoDup(s + [x])
  {
  }

  lemma AddedBond(d: Draft, bondId: Id, slave: Id, b: IF)
    requires WellFormed(d) && b in AddToBond(d, bondId, slave).bond && AddToBond(d, bondId, slave) != d
    ensures b.slaves != [] && NoDup(b.slaves)
  {
    hide WellFormed;
    MapShows(d.bond, Extend(bondId, slave));
    var c :| c in d.bond && b == Extend(bondId, slave)(c);
    BondOf(d, c);
    if slave in c.slaves {
      FreeInitIsNoSlave(d, Find(d.init, slave).value, c);
    } else {
      NoDupAppend(c.slaves, slave);
    }
    hide NoDup;
  }

  /** Growing a bond keeps the draft well formed, whatever it is asked to add to whatever. */
  lemma AddKeeps(d: Draft, bondId: Id, slave: Id)
    requires WellFormed(d)
    ensures WellFormed(AddToBond(d, bondId, slave))
  {
    hide WellFormed;
    hide AddToBond;
    hide Identified;
    var r := AddToBond(d, bondId, slave);
    if r != d {
      WellFormedIds(d);
      AddIdentified(d, bondId, slave);
      forall h | h in r.init && h.master.Some? ensures Enslaves(r, h.master.value, h.id) { AddMasters(d, bondId,
          slave, h); }
      forall b, s | b in r.bond && s in b.slaves ensures Obeys(r, s, b.id) { AddSlaves(d, bondId, slave, b, s); }
      forall b | b in r.bond ensures b.slaves != [] && NoDup(b.slaves) { AddedBond(d, bondId, slave, b); }
      forall v | v in r.vlan ensures v.master.Some? && (IsFreeInit(r, v.master.value) || IsBond(r, v.master.value)) {
        AddAnchors(d, bondId, slave, v);
      }
      Assemble(r);
    }
  }

  lemma Assemble(r: Draft)
    requires Identified(r)
    requires forall f :: f in r.init && f.master.Some? ==> Enslaves(r, f.master.value, f.id)
    requires forall b, s :: b in r.bond && s in b.slaves ==> Obeys(r, s, b.id)
    requires forall b :: b in r.bond ==> b.slaves != [] && NoDup(b.slaves)
    requires forall v :: v in r.vlan ==> v.master.Some? && (IsFreeInit(r, v.master.value) || IsBond(r, v.master.value))
    ensures WellFormed(r)
  {
    hide Identified;
  }

  // --------------------------------------------------- edits that leave the shape alone

  /** An edit of an interface that does not touch what ties interfaces together. */
  ghost predicate FieldOnly(g: IF -> IF, s: seq<IF>) {
    forall f :: f in s ==> g(f).id == f.id && g(f).kind == f.kind && g(f).master == f.master && g(f).slaves == f.slaves
  }

  function MapAll(d: Draft, gi: IF -> IF, gb: IF -> IF, gv: IF -> IF): Draft {
    Draft(Map(d.init, gi), Map(d.bond, gb), Map(d.vlan, gv))
  }

  /** Such edits, in any of the three lists, keep the draft well formed. */
  lemma FieldEditsKeep(d: Draft, gi: IF -> IF, gb: IF -> IF, gv: IF -> IF)
    requires WellFormed(d) && FieldOnly(gi, d.init) && FieldOnly(gb, d.bond) && FieldOnly(gv, d.vlan)
    ensures WellFormed(MapAll(d, gi, gb, gv))
  {
    hide WellFormed;
    var r := MapAll(d, gi, gb, gv);
    WellFormedIds(d);
    MapShows(d.init, gi);
    MapShows(d.bond, gb);
    MapShows(d.vlan, gv);
    assert Identified(r);
    hide Identified;
    hide Distinct;
    hide Map;
    forall h | h in r.init && h.master.Some? ensures Enslaves(r, h.master.value, h.id) {
      var f :| f in d.init && gi(f) == h;
      MasterOf(d, f);
      var b :| b in d.bond && b.id == f.master.value && f.id in b.slaves;
      assert gb(b) in r.bond;
    }
    forall h, s | h in r.bond && s in h.slaves ensures Obeys(r, s, h.id) {
      var b :| b in d.bond && gb(b) == h;
      SlaveOf(d, b, s);
      var f :| f in d.init && f.id == s && f.master == Some(b.id);
      assert gi(f) in r.init;
    }
    forall h | h in r.bond ensures h.slaves != [] && NoDup(h.slaves) {
      var b :| b in d.bond && gb(b) == h;
      BondOf(d, b);
    }
    forall h | h in r.vlan ensures h.master.Some? && (IsFreeInit(r, h.master.value) || IsBond(r, h.master.value)) {
      var v :| v in d.vlan && gv(v) == h;
      VlanOf(d, v);
      if f :| f in d.init && f.id == v.master.value && f.master == None {
        assert gi(f) in r.init;
      } else {
        var b :| b in d.bond && b.id == v.master.value;
        assert gb(b) in r.bond;
      }
    }
    Assemble(r);
  }

  /** What a patch does to a field that may be unset. */
  datatype Change<+T> = Keep | Clear | To(value: T)

  function Changed<T>(now: Option<T>, c: Change<T>): Option<T> {
    match c
    case Keep => now
    case Clear => None
    case To(value) => Some(value)
  }

  /** A patch of the fields the wizard lets the operator change; None leaves a field as it is. */
  datatype Patch = Patch(
    name: Option<string>, enabled: Option<bool>, addr: Change<string>, mask: Change<string>, vlanId: Change<int>)

  function Patched(f: IF, p: Patch): IF {
    f.(name := if p.name.Some? then p.name.value else f.name,
       enabled := if p.enabled.Some? then p.enabled.value else f.enabled,
       addr := Changed(f.addr, p.addr), mask := Changed(f.mask, p.mask), vlanId := Changed(f.vlanId, p.vlanId))
  }

  function PatchOne(id: Id, p: Patch, wanted: bool): IF -> IF {
    (f: IF) => if wanted && f.id == id then Patched(f, p) else f
  }

  /** A renamed bond takes its VLANs' labels along; a VLAN without a tag gets the text undefined for one. */
  function Relabel(bond: Id, name: string, wanted: bool): IF -> IF {
    (v: IF) => if wanted && v.master == Some(bond)
               then v.(name := if v.vlanId.Some? then Label(name, v.vlanId.value) else name + ".undefined") else v
  }

  function Then(g: IF -> IF, h: IF -> IF): IF -> IF { (f: IF) => h(g(f)) }

  function NameOf(d: Draft, id: Option<Id>): string {
    if id.None? || Find(All(d), id.value).None? then "None" else Find(All(d), id.value).value.name
  }

  /** A new tag for a VLAN brings its own label. */
  function WithLabel(d: Draft, target: IF, p: Patch): Patch {
    if target.kind == Vlan && p.vlanId.To? then p.(name := Some(Label(NameOf(d, target.master), p.vlanId.value)))
    else p
  }

  /** What a ChangeIF does to one VLAN. */
  function ChangedVlan(d: Draft, target: IF, patch: Patch): IF -> IF {
    var p := WithLabel(d, target, patch);
    var renames := target.kind == Bond && p.name.Some?;
    Then(PatchOne(target.id, p, target.kind == Vlan), Relabel(target.id, if renames then p.name.value else "", renames))
  }

  function ChangeIF(d: Draft, target: IF, patch: Patch): Draft {
    var p := WithLabel(d, target, patch);
    MapAll(d, PatchOne(target.id, p, target.kind == Init), PatchOne(target.id, p, target.kind == Bond),
           ChangedVlan(d, target, patch))
  }

  function Retag(d: Draft, id: Id, vid: int): IF -> IF {
    (v: IF) => if v.id == id then v.(name := Label(NameOf(d, v.master), vid), vlanId := Some(vid)) else v
  }

  function Same(): IF -> IF { (f: IF) => f }

  function SetVlanId(d: Draft, id: Id, vid: int): Draft {
    MapAll(d, Same(), Same(), Retag(d, id, vid))
  }

  // ------------------------------------------------------------------- VLAN labels

  predicate Carries(v: IF) { v.vlanId.Some? ==> VlanTag(v.name) == v.vlanId.value }

  /** Every VLAN's label reads back as its tag. */
  ghost predicate Labelled(d: Draft) { forall v :: v in d.vlan ==> Carries(v) }

  predicate IsTag(t: int) { INT64_MIN <= t <= INT64_MAX }

  /** Tags that are numbers at all for the generator. */
  ghost predicate Tagged(d: Draft) { forall v :: v in d.vlan && v.vlanId.Some? ==> IsTag(v.vlanId.value) }

  lemma ChangeKeeps(d: Draft, target: IF, patch: Patch)
    requires WellFormed(d)
    ensures WellFormed(ChangeIF(d, target, patch))
  {
    hide WellFormed;
    var p := WithLabel(d, target, patch);
    FieldEditsKeep(d, PatchOne(target.id, p, target.kind == Init), PatchOne(target.id, p, target.kind == Bond),
                   ChangedVlan(d, target, patch));
  }

  lemma RetagKeeps(d: Draft, id: Id, vid: int)
    requires WellFormed(d)
    ensures WellFormed(SetVlanId(d, id, vid))
  {
    hide WellFormed;
    FieldEditsKeep(d, Same(), Same(), Retag(d, id, vid));
  }

  /** Should the patch rename a VLAN outright, the new label carries the tag that stays with it. */
  predicate LabelFits(d: Draft, target: IF, patch: Patch) {
    target.kind == Vlan && patch.name.Some? && patch.vlanId.Keep? ==>
      forall v :: v in d.vlan && v.id == target.id && v.vlanId.Some? ==> VlanTag(patch.name.value) == v.vlanId.value
  }

  lemma ChangedVlanTagged(d: Draft, target: IF, patch: Patch, v: IF)
    requires (v.vlanId.Some? ==> IsTag(v.vlanId.value)) && (patch.vlanId.To? ==> IsTag(patch.vlanId.value))
    ensures var h := ChangedVlan(d, target, patch)(v); h.vlanId.Some? ==> IsTag(h.vlanId.value)
  {
    hide NameOf;
    hide Label;
  }

  lemma ChangedVlanCarries(d: Draft, target: IF, patch: Patch, v: IF)
    requires Carries(v) && (v.vlanId.Some? ==> IsTag(v.vlanId.value))
        && (patch.vlanId.To? ==> IsTag(patch.vlanId.value))
    ensures Carries(ChangedVlan(d, target, patch)(v)) <==>
              !(target.kind == Vlan && patch.name.Some? && patch.vlanId.Keep? && v.id == target.id && v.vlanId.Some?
                && VlanTag(patch.name.value) != v.vlanId.value)
  {
    var p := WithLabel(d, target, patch);
    if target.kind == Vlan && v.id == target.id && p.vlanId.To? {
      LabelParsesBack(NameOf(d, target.master), p.vlanId.value);
    } else if target.kind == Bond && p.name.Some? && v.master == Some(target.id) && v.vlanId.Some? {
      LabelParsesBack(p.name.value, v.vlanId.value);
    }
    hide VlanTag;
    hide NameOf;
  }

  /**
   An edit leaves every label readable as its tag if and only if no VLAN is renamed outright to a label
   that is not.
   */
  lemma EditsKeepLabels(d: Draft, target: IF, patch: Patch)
    requires Labelled(d) && Tagged(d) && (patch.vlanId.To? ==> IsTag(patch.vlanId.value))
    ensures Labelled(ChangeIF(d, target, patch)) <==> LabelFits(d, target, patch)
  {
    var g := ChangedVlan(d, target, patch);
    MapShows(d.vlan, g);
    assert ChangeIF(d, target, patch).vlan == Map(d.vlan, g);
    hide ChangeIF;
    forall v | v in d.vlan ensures Carries(g(v)) <==>
      !(target.kind == Vlan && patch.name.Some? && patch.vlanId.Keep? && v.id == target.id && v.vlanId.Some?
        && VlanTag(patch.name.value) != v.vlanId.value)
    {
      ChangedVlanCarries(d, target, patch, v);
    }
    hide ChangedVlan;
    hide VlanTag;
    hide Carries;
    forall h | h in Map(d.vlan, g) ensures exists v :: v in d.vlan && g(v) == h {}
  }

  // ------------------------------------------------ VLANs whose tag is only in the label

  lemma UndefinedReadsAsNone(name: string)
    ensures VlanTag(name + ".undefined") == 0
  {
    LastDotBehind(name, "undefined");
    assert (name + ".undefined")[|name| + 1..] == "undefined";
    assert name + ".undefined" == name + "." + "undefined";
    assert "undefined"[0] == 'u' && !IsDigit('u');
  }

  lemma Hundred()
    ensures Itoa(100) == "100"
  {
    assert Digits(1) == "1" && Digits(10) == "10" && Digits(100) == "100";
  }

  /** A VLAN reloaded from the server has its tag in its label alone; renaming its bond loses it. */
  lemma RenameLosesTag(id: Id, bond: Id)
    ensures var v := IF(id, Vlan, "data.100", true, None, None, Some(bond), [], None);
            VlanTag(v.name) == 100 && VlanTag(Relabel(bond, "lan", true)(v).name) == 0
  {
    hide VlanTag;
    hide Itoa;
    Hundred();
    LabelParsesBack("data", 100);
    assert Label("data", 100) == "data.100";
    UndefinedReadsAsNone("lan");
  }

  /**
   Renaming a bond leaves the tag its VLAN's label is read as if and only if that is the stored tag, 0
   standing for none.
   */
  lemma RenameKeepsTag(bond: Id, name: string, v: IF)
    requires v.master == Some(bond) && (v.vlanId.Some? ==> IsTag(v.vlanId.value))
    ensures VlanTag(Relabel(bond, name, true)(v).name) == VlanTag(v.name)
            <==> (if v.vlanId.Some? then v.vlanId.value else 0) == VlanTag(v.name)
  {
    if v.vlanId.Some? { LabelParsesBack(name, v.vlanId.value); } else { UndefinedReadsAsNone(name); }
  }

  lemma RetagKeepsLabels(d: Draft, id: Id, vid: int)
    requires Labelled(d) && IsTag(vid)
    ensures Labelled(SetVlanId(d, id, vid))
    ensures forall v :: v in SetVlanId(d, id, vid).vlan && v.id == id ==> VlanTag(v.name) == vid
  {
    MapShows(d.vlan, Retag(d, id, vid));
    forall h | h in SetVlanId(d, id, vid).vlan ensures Carries(h) && (h.id == id ==> VlanTag(h.name) == vid) {
      var v :| v in d.vlan && Retag(d, id, vid)(v) == h;
      LabelParsesBack(NameOf(d, v.master), vid);
    }
  }

  // ------------------------------------------------------------------- adding a VLAN

  predicate TagTaken(d: Draft, t: int) { exists v :: v in d.vlan && v.vlanId == Some(t) }

  function NewVlan(parent: IF, id: Id, tag: int): IF {
    IF(id, Vlan, Label(parent.name, tag), true, None, None, Some(parent.id), [], Some(tag))
  }

  function AddVlan(d: Draft, parent: IF, id: Id, tag: int): Draft {
    d.(vlan := d.vlan + [NewVlan(parent, id, tag)])
  }

  function Tags(s: seq<IF>): set<int> { set v | v in s && v.vlanId.Some? :: v.vlanId.value }

  lemma {:induction false} FewTags(s: seq<IF>)
    ensures |Tags(s)| <= |s|
    decreases |s|
  {
    if s != [] {
      var before, last := s[..|s| - 1], s[|s| - 1];
      assert forall f :: f in s <==> f in before || f == last;
      FewTags(before);
      assert Tags(s) == Tags(before) + if last.vlanId.Some? then {last.vlanId.value} else {};
    } else {
      assert Tags(s) == {};
    }
  }

  lemma {:induction false} FirstTags(n: nat, taken: set<int>)
    requires forall t :: 1 <= t <= n ==> t in taken
    ensures n <= |taken|
    decreases n
  {
    if n > 0 {
      FirstTags(n - 1, taken - {n});
    }
  }

  /**
   Adds a VLAN with the given tag, or with the smallest unused one; the search always ends, and
   no further than one past the number of VLANs there are.
   */
  method CreateVlan(d: Draft, parent: IF, id: Id, vid: Option<int>) returns (r: Draft, tag: int)
    ensures r == AddVlan(d, parent, id, tag)
    ensures vid.Some? ==> tag == vid.value
    ensures vid.None? ==> !TagTaken(d, tag) && (forall t :: 1 <= t < tag ==> TagTaken(d, t)) && 1 <= tag <= |d.vlan| + 1
  {
    tag := if vid.Some? then vid.value else 1;
    if vid.None? {
      FewTags(d.vlan);
      while TagTaken(d, tag)
        invariant 1 <= tag <= |d.vlan| + 1 && forall t :: 1 <= t < tag ==> TagTaken(d, t)
        decreases |d.vlan| + 1 - tag
      {
        forall t | 1 <= t <= tag ensures t in Tags(d.vlan) {
          assert TagTaken(d, t);
        }
        FirstTags(tag, Tags(d.vlan));
        tag := tag + 1;
      }
    }
    r := d.(vlan := d.vlan + [NewVlan(parent, id, tag)]);
  }

  /** Parents the wizard offers: a bond, or a physical interface no bond has taken. */
  predicate Offered(d: Draft, parent: IF) { parent in d.bond || (parent in d.init && parent.master == None) }

  lemma VlanKeeps(d: Draft, parent: IF, id: Id, tag: int)
    requires WellFormed(d) && Offered(d, parent) && FreshId(d, id)
    ensures WellFormed(AddVlan(d, parent, id, tag))
  {
    AppendShows(d.vlan, NewVlan(parent, id, tag));
    var r := AddVlan(d, parent, id, tag);
    assert Identified(r);
    hide Identified;
    forall v | v in r.vlan ensures v.master.Some? && (IsFreeInit(r, v.master.value) || IsBond(r, v.master.value)) {
      if v in d.vlan {
        VlanOf(d, v);
        assert IsFreeInit(d, v.master.value) ==> IsFreeInit(r, v.master.value);
        assert IsBond(d, v.master.value) ==> IsBond(r, v.master.value);
      }
    }
    assert forall f :: f in r.init && f.master.Some? ==>
        Enslaves(d, f.master.value, f.id) && Enslaves(r, f.master.value, f.id);
    assert forall b, s :: b in r.bond && s in b.slaves ==> Obeys(d, s, b.id) && Obeys(r, s, b.id);
  }

  lemma VlanKeepsLabels(d: Draft, parent: IF, id: Id, tag: int)
    requires Labelled(d) && IsTag(tag)
    ensures Labelled(AddVlan(d, parent, id, tag)) && VlanTag(NewVlan(parent, id, tag).name) == tag
  {
    LabelParsesBack(parent.name, tag);
    AppendShows(d.vlan, NewVlan(parent, id, tag));
  }

  // ------------------------------------------------------------ resizing and pruning

  function NewInit(id: Id, index: nat): IF {
    IF(id, Init, "IF." + Itoa(index), false, None, None, None, [], None)
  }

  function Grown(d: Draft, ids: seq<Id>): Draft
    decreases |ids|
  {
    if ids == [] then d
    else
      var g := Grown(d, ids[..|ids| - 1]);
      g.(init := g.init + [NewInit(ids[|ids| - 1], |g.init| + 1)])
  }

  lemma GrownByOne(d: Draft, ids: seq<Id>, k: nat)
    requires k < |ids|
    ensures var g := Grown(d, ids[..k]); Grown(d, ids[..k + 1]) == g.(init := g.init + [NewInit(ids[k], |g.init| + 1)])
  {
    assert ids[..k + 1][..k] == ids[..k];
  }

  function IdList(s: seq<IF>): (r: seq<Id>)
    ensures |r| == |s| && forall i :: 0 <= i < |s| ==> r[i] == s[i].id
  {
    seq(|s|, i requires 0 <= i < |s| => s[i].id)
  }

  lemma IdListElems(s: seq<IF>)
    ensures Elems(IdList(s)) == Ids(s)
  {
    forall f | f in s ensures f.id in IdList(s) {
      var i :| 0 <= i < |s| && s[i] == f;
      assert IdList(s)[i] == f.id;
    }
  }

  /** Growing takes the ids it needs from a supply of fresh ones; shrinking removes from the end,
      with all that goes along. */
  method ResizeInitIFs(d: Draft, count: int, supply: seq<Id>) returns (r: Draft)
    requires |supply| >= 100
    ensures count < 1 || count > 100 ==> r == d
    ensures 1 <= count <= 100 && |d.init| < count ==> r == Grown(d, supply[..count - |d.init|]) && |r.init| == count
    ensures 1 <= count <= 100 && |d.init| >= count ==> r == Removed(d, Ids(d.init[count..]))
  {
    if count < 1 || count > 100 { return d; }
    if |d.init| < count {
      r := d;
      var k := 0;
      assert supply[..0] == [];
      while |r.init| < count
        invariant 0 <= k <= |supply| && |r.init| == |d.init| + k <= count && r == Grown(d, supply[..k])
      {
        GrownByOne(d, supply, k);
        r := r.(init := r.init + [NewInit(supply[k], |r.init| + 1)]);
        k := k + 1;
      }
      return;
    }
    IdListElems(d.init[count..]);
    r := RemoveIFs(d, IdList(d.init[count..]));
  }

  lemma {:induction false} GrowthKeeps(d: Draft, ids: seq<Id>)
    requires WellFormed(d) && NoDup(ids) && forall x :: x in ids ==> FreshId(d, x)
    ensures var g := Grown(d, ids);
        WellFormed(g) && g.bond == d.bond && g.vlan == d.vlan && Ids(g.init) == Ids(d.init) + Elems(ids)
    decreases |ids|
  {
    hide WellFormed;
    if ids != [] {
      var before, last := ids[..|ids| - 1], ids[|ids| - 1];
      assert forall x :: x in ids <==> x in before || x == last;
      assert last !in before && NoDup(before) && last in ids;
      GrowthKeeps(d, before);
      assert FreshId(d, last) && last !in Elems(before);
      ElemsAppend(before, last);
      assert before + [last] == ids;
      hide Elems;
      hide Ids;
      OneMoreKeeps(Grown(d, before), last);
    } else {
      assert Elems(ids) == {};
    }
  }

  lemma OneMoreKeeps(d: Draft, id: Id)
    requires WellFormed(d) && FreshId(d, id)
    ensures var g := d.(init := d.init + [NewInit(id, |d.init| + 1)]);
        WellFormed(g) && Ids(g.init) == Ids(d.init) + {id}
  {
    var f := NewInit(id, |d.init| + 1);
    var g := d.(init := d.init + [f]);
    AppendShows(d.init, f);
    assert Identified(g);
    hide Identified;
    assert forall h :: h in g.init && h.master.Some? ==>
        Enslaves(d, h.master.value, h.id) && Enslaves(g, h.master.value, h.id);
    forall b, s | b in g.bond && s in b.slaves ensures Obeys(g, s, b.id) {
      assert Obeys(d, s, b.id);
      var h :| h in d.init && h.id == s && h.master == Some(b.id);
      assert h in g.init;
    }
    forall v | v in g.vlan ensures v.master.Some? && (IsFreeInit(g, v.master.value) || IsBond(g, v.master.value)) {
      VlanOf(d, v);
      if h :| h in d.init && h.id == v.master.value && h.master == None { assert h in g.init; }
      assert IsBond(d, v.master.value) ==> IsBond(g, v.master.value);
    }
  }

  datatype RoleKey = MgmtIF | ProviderIF | OverlayIF | StorIF | StorIFBackend | DefaultIF

  /** Enabled, not taken by a bond, and with an address where the role needs one. */
  predicate Selectable(f: IF, key: RoleKey) {
    f.enabled && !(f.kind == Init && Set(f.master)) && (key == MgmtIF || key == DefaultIF ==> Set(f.addr))
  }

  predicate Valid(d: Draft, key: RoleKey, id: Id) {
    id != "" && Find(All(d), id).Some? && Selectable(Find(All(d), id).value, key)
  }

  lemma ValidIs(d: Draft, key: RoleKey, id: Id)
    ensures Valid(d, key, id) <==> id != "" && Find(All(d), id).Some? && Selectable(Find(All(d), id).value, key)
  {
  }

  /** Selections by role; no entry, or an empty id, is no selection. */
  method PruneRoleSettings(d: Draft, keys: seq<RoleKey>, settings: map<RoleKey, Id>) returns (pruned: map<RoleKey, Id>)
    ensures pruned == map k | k in settings && k in keys && Valid(d, k, settings[k]) :: settings[k]
  {
    pruned := map[];
    hide Valid;
    for i := 0 to |keys|
      invariant forall k :: k in pruned <==> k in settings && k in keys[..i] && Valid(d, k, settings[k])
      invariant forall k :: k in pruned ==> pruned[k] == settings[k]
    {
      var key := keys[i];
      assert forall k :: k in keys[..i + 1] <==> k in keys[..i] || k == key;
      pruned := pruned - {key};
      if key in settings && settings[key] == "" { ValidIs(d, key, ""); }
      if key in settings && settings[key] != "" {
        var f := Find(All(d), settings[key]);
        ValidIs(d, key, settings[key]);
        if f.Some? && Selectable(f.value, key) { pruned := pruned[key := settings[key]]; }
      }
    }
    assert keys[..|keys|] == keys;
  }

  /** After pruning every selection names an interface of the draft that may be selected for it. */
  lemma PrunedIsValid(d: Draft, keys: seq<RoleKey>, settings: map<RoleKey, Id>, k: RoleKey)
    ensures var pruned := map k | k in settings && k in keys && Valid(d, k, settings[k]) :: settings[k];
            && (k in pruned ==> exists f :: f in All(d) && f.id == pruned[k] && Selectable(f, k))
            && (k in settings && k in keys && k !in pruned && settings[k] != "" ==>
                  forall f :: f in All(d) && f.id == settings[k] && Distinct(All(d)) ==> !Selectable(f, k))
  {
    if k in settings && Distinct(All(d)) {
      forall f | f in All(d) && f.id == settings[k] ensures Find(All(d), settings[k]) == Some(f) {
        FindMeans(All(d), settings[k], f);
      }
    }
  }

  function PruneDefaultIF(d: Draft, id: Id): (r: Id)
    ensures r != "" ==> r == id && Valid(d, DefaultIF, r)
    ensures Valid(d, DefaultIF, id) ==> r == id
  {
    if id == "" then id else if Find(All(d), id).Some? && Selectable(Find(All(d), id).value, DefaultIF) then id else ""
  }

  // --------------------------------------------------- binding a port to an interface

  predicate StartsWith(s: string, prefix: string) { prefix <= s }

  function Rename(id: Id, name: string): IF -> IF { (f: IF) => if f.id == id then f.(name := name) else f }

  function CarryName(id: Id, before: string, after: string): IF -> IF {
    (v: IF) => if v.master == Some(id) && StartsWith(v.name, before + ".")
        then v.(name := after + "." + v.name[|before| + 1..]) else v
  }

  /** Relabels a physical interface after its port and cascades to the VLANs whose label begins with the old one. */
  function BindPort(d: Draft, id: Id, port: nat): Draft {
    var base := Find(All(d), id);
    if base.None? then d
    else MapAll(d, Rename(id, "IF." + Itoa(port + 1)), Same(), CarryName(id, base.value.name, "IF." + Itoa(port + 1)))
  }

  /** Binding a port changes no tag and no tie: every VLAN's label reads back as before. */
  lemma BindKeeps(d: Draft, id: Id, port: nat)
    requires WellFormed(d)
    ensures WellFormed(BindPort(d, id, port)) && |BindPort(d, id, port).vlan| == |d.vlan|
    ensures forall i :: 0 <= i < |d.vlan| ==>
              VlanTag(BindPort(d, id, port).vlan[i].name) == VlanTag(d.vlan[i].name)
                  && BindPort(d, id, port).vlan[i].vlanId == d.vlan[i].vlanId
                  && BindPort(d, id, port).vlan[i].id == d.vlan[i].id
  {
    hide WellFormed;
    var base := Find(All(d), id);
    if base.Some? {
      var before, after := base.value.name, "IF." + Itoa(port + 1);
      FieldEditsKeep(d, Rename(id, after), Same(), CarryName(id, before, after));
      forall i | 0 <= i < |d.vlan|
        ensures VlanTag(BindPort(d, id, port).vlan[i].name) == VlanTag(d.vlan[i].name)
      {
        var v := d.vlan[i];
        if v.master == Some(id) && StartsWith(v.name, before + ".") {
          var rest := v.name[|before| + 1..];
          assert v.name == before + "." + rest;
          RelabelKeepsTag(before, after, rest);
        }
      }
    }
  }
}
