/** What the editor does to a draft: what a removal takes along, what bonding and binding a port change. */
module NodeEffects {
  import opened Basics
  import opened Decimal
  import opened VlanLabel
  import opened NodeDraft

  // --------------------------------------------------------------------- removal

  /** What goes: what is named, and a bond none of whose slaves stays. */
  predicate Goes(d: Draft, ids: set<Id>, x: Id) {
    x in ids || exists b :: b in d.bond && b.id == x && AllIn(b.slaves, ids)
  }

  lemma BondsGo(d: Draft, ids: set<Id>, x: Id)
    requires WellFormed(d)
    ensures x in BondsGone(d.bond, ids) <==> Goes(d, ids, x)
  {
    forall b, c, s | b in d.bond && c in d.bond && s in b.slaves ensures s != c.id {
      SlaveOf(d, b, s);
      BondOf(d, c);
    }
    hide WellFormed;
    BondsGoneMeans(d.bond, ids);
  }

  lemma GoneMeans(d: Draft, ids: set<Id>, x: Id)
    requires WellFormed(d) && x !in Ids(d.vlan)
    ensures x in Gone(d, ids) <==> Goes(d, ids, x)
  {
    BondsGo(d, ids, x);
    hide WellFormed;
    hide Goes;
    VlansGoneMeans(d.vlan, BondsGone(d.bond, ids));
  }

  lemma VlanGoes(d: Draft, ids: set<Id>, v: IF)
    requires WellFormed(d) && v in d.vlan
    ensures v.master.Some?
    ensures VlanStays(Gone(d, ids))(v) <==> v.id !in ids && !Goes(d, ids, v.master.value)
  {
    VlanOf(d, v);
    var m := v.master.value;
    assert m !in Ids(d.vlan) && Distinct(d.vlan) && v.id !in Ids(d.bond);
    GoneMeans(d, ids, m);
    BondsGo(d, ids, v.id);
    assert Goes(d, ids, v.id) <==> v.id in ids;
    hide WellFormed;
    hide Goes;
    var bonds := BondsGone(d.bond, ids);
    VlansGoneMeans(d.vlan, bonds);
    if v.id in Gone(d, ids) && v.id !in ids {
      var w :| w in d.vlan && w.id == v.id && Set(w.master) && w.master.value in Gone(d, ids);
      SameId(d.vlan, v, w);
    }
  }

  /** What is left of a bond's slaves is what was not named. */
  lemma SlavesLeft(d: Draft, ids: set<Id>, b: IF, s: Id)
    requires WellFormed(d) && b in d.bond
    ensures s in KeptSlaves(b.slaves, Gone(d, ids)) <==> s in b.slaves && s !in ids
  {
    if s in b.slaves {
      SlaveOf(d, b, s);
      GoneMeans(d, ids, s);
    }
    hide Gone;
  }

  lemma InitApart(d: Draft, f: IF)
    requires WellFormed(d) && f in d.init
    ensures f.id !in Ids(d.vlan) && f.id !in Ids(d.bond)
    ensures f.master.Some? ==> f.master.value != "" && f.master.value !in Ids(d.vlan)
  {
    if f.master.Some? {
      MasterOf(d, f);
      assert f.master.value in Ids(d.bond);
    }
  }

  /** What becomes of a physical interface: it loses its master if that goes. */
  lemma InitRemoved(d: Draft, ids: set<Id>, f: IF)
    requires WellFormed(d) && f in d.init
    ensures var r := Removed(d, ids);
            if f.id in ids then f.id !in Ids(r.init)
            else f.(master := if f.master.Some? && !Goes(d, ids, f.master.value) then f.master else None) in r.init
  {
    hide WellFormed;
    var gone := Gone(d, ids);
    InitApart(d, f);
    GoneMeans(d, ids, f.id);
    assert Goes(d, ids, f.id) <==> f.id in ids;
    hide Goes;
    hide Gone;
    if f.master.Some? { GoneMeans(d, ids, f.master.value); }
    RemovalShows(d, gone);
  }

  /** What becomes of a bond: it goes, or stays with the slaves that stay. */
  lemma BondRemoved(d: Draft, ids: set<Id>, b: IF)
    requires WellFormed(d) && b in d.bond
    ensures var r := Removed(d, ids);
            if Goes(d, ids, b.id) then b.id !in Ids(r.bond)
            else b.(slaves := KeptSlaves(b.slaves, Gone(d, ids))) in r.bond
  {
    var gone := Gone(d, ids);
    assert b.id in Ids(d.bond) && b.id !in Ids(d.vlan);
    GoneMeans(d, ids, b.id);
    RemovalShows(d, gone);
    hide WellFormed;
    hide Goes;
    hide Gone;
  }

  ghost predicate BondLeft(r: Draft, b: IF, ids: set<Id>) {
    exists c :: c in r.bond && c == b.(slaves := c.slaves) && forall s :: s in c.slaves <==> s in b.slaves && s !in ids
  }

  lemma BondIsLeft(d: Draft, ids: set<Id>, b: IF)
    requires WellFormed(d) && b in d.bond
    ensures if Goes(d, ids, b.id) then b.id !in Ids(Removed(d, ids).bond) else BondLeft(Removed(d, ids), b, ids)
  {
    BondRemoved(d, ids, b);
    var kept := KeptSlaves(b.slaves, Gone(d, ids));
    forall s ensures s in kept <==> s in b.slaves && s !in ids {
      SlavesLeft(d, ids, b, s);
    }
    hide WellFormed;
    hide Goes;
    hide Removed;
    if !Goes(d, ids, b.id) {
      assert b.(slaves := kept) in Removed(d, ids).bond;
    }
  }

  lemma NothingNew(d: Draft, ids: set<Id>)
    ensures Ids(Removed(d, ids).init) <= Ids(d.init) && Ids(Removed(d, ids).bond) <= Ids(d.bond)
  {
    RemovalShows(d, Gone(d, ids));
    hide Gone;
  }

  /**
   Removal is exact. From a well-formed draft exactly what is named goes, with the bonds none of whose
   slaves stays and the VLANs on anything that goes. What stays is as it was, but for a master that
   went and for the slaves a bond has lost; and nothing is there that was not before.
   */
  lemma RemovalIsExact(d: Draft, ids: set<Id>)
    requires WellFormed(d)
    ensures var r := Removed(d, ids);
            && Ids(r.init) <= Ids(d.init) && Ids(r.bond) <= Ids(d.bond)
            && (forall f :: f in d.init ==>
                  if f.id in ids then f.id !in Ids(r.init)
                  else f.(master := if f.master.Some? && !Goes(d, ids, f.master.value) then f.master
                                    else None) in r.init)
            && (forall b :: b in d.bond ==> if Goes(d, ids, b.id) then b.id !in Ids(r.bond) else BondLeft(r, b, ids))
            && (forall v :: v in r.vlan <==>
                  v in d.vlan && v.id !in ids && v.master.Some? && !Goes(d, ids, v.master.value))
  {
    var r := Removed(d, ids);
    NothingNew(d, ids);
    forall v ensures v in r.vlan <==> v in d.vlan && v.id !in ids && v.master.Some? && !Goes(d, ids, v.master.value) {
      if v in d.vlan { VlanGoes(d, ids, v); }
    }
    hide *;
    forall f | f in d.init
      ensures if f.id in ids then f.id !in Ids(r.init)
              else f.(master := if f.master.Some? && !Goes(d, ids, f.master.value) then f.master else None) in r.init
    {
      InitRemoved(d, ids, f);
    }
    forall b | b in d.bond ensures if Goes(d, ids, b.id) then b.id !in Ids(r.bond) else BondLeft(r, b, ids) {
      BondIsLeft(d, ids, b);
    }
  }

  // --------------------------------------------------------------------- bonding

  predicate NameTaken(d: Draft, name: string) { exists b :: b in d.bond && b.name == name }

  /** A new bond is called by the first name of the pool no bond has; by the one outside it only if all are taken. */
  lemma FirstFreeName(d: Draft, k: nat)
    requires k <= |BOND_NAMES|
    ensures var n := FreeName(d, k);
            if exists i :: k <= i < |BOND_NAMES| && !NameTaken(d, BOND_NAMES[i])
            then exists i :: k <= i < |BOND_NAMES| && n == BOND_NAMES[i] && !NameTaken(d, n)
                             && forall j :: k <= j < i ==> NameTaken(d, BOND_NAMES[j])
            else n == "newbdname"
    decreases |BOND_NAMES| - k
  {
    if k < |BOND_NAMES| {
      assert NameTaken(d, BOND_NAMES[k]) <==> exists b :: b in d.bond && b.name == BOND_NAMES[k];
      FirstFreeName(d, k + 1);
    }
  }

  /**
   Bonding changes what it takes and nothing else: a slave obeys the new bond, is switched on and loses
   its address, the VLANs on it go, and the bond is added at the end, switched on and without an address.
   */
  lemma BondingTakes(d: Draft, slaves: seq<Id>, bondId: Id)
    ensures var r := CreateBond(d, slaves, bondId);
            && |r.init| == |d.init| && |r.bond| == |d.bond| + 1 && r.bond[..|d.bond|] == d.bond
            && (forall i :: 0 <= i < |d.init| ==>
                  r.init[i] == if d.init[i].id in slaves
                               then d.init[i].(master := Some(bondId), addr := None, mask := None, enabled := true)
                               else d.init[i])
            && (forall v :: v in r.vlan <==>
                  v in d.vlan && !(v.master.Some? && v.master.value != "" && v.master.value in slaves))
            && var b := r.bond[|d.bond|];
               b.id == bondId && b.enabled && b.slaves == slaves && !Set(b.addr) && b.master == None
  {
    hide FreeName;
  }

  /**
   Growing a bond is bonding one interface more: it happens exactly if there is such a bond and such a
   free interface, and changes what it takes and nothing else.
   */
  lemma AddingTakes(d: Draft, bondId: Id, slave: Id)
    requires WellFormed(d)
    ensures var r := AddToBond(d, bondId, slave);
            if !IsBond(d, bondId) || !IsFreeInit(d, slave) then r == d
            else
              && |r.init| == |d.init| && |r.bond| == |d.bond|
              && (forall i :: 0 <= i < |d.init| ==>
                    r.init[i] == if d.init[i].id == slave
                                 then d.init[i].(master := Some(bondId), addr := None, mask := None, enabled := true)
                                 else d.init[i])
              && (forall i :: 0 <= i < |d.bond| ==>
                    r.bond[i] == if d.bond[i].id == bondId then d.bond[i].(slaves := d.bond[i].slaves + [slave])
                                 else d.bond[i])
              && (forall v :: v in r.vlan <==> v in d.vlan && v.master != Some(slave))
  {
    assert Distinct(d.init) && Distinct(d.bond);
    forall f | f in d.init && f.id == slave
      ensures Find(d.init, slave) == Some(f) && (f.master.Some? ==> Set(f.master))
    {
      FindMeans(d.init, slave, f);
      if f.master.Some? { MasterOf(d, f); }
    }
    forall b | b in d.bond && b.id == bondId ensures Find(d.bond, bondId) == Some(b) {
      FindMeans(d.bond, bondId, b);
    }
    hide WellFormed;
    hide Distinct;
  }

  lemma FindFirst(s: seq<IF>, t: seq<IF>, f: IF)
    requires Distinct(s) && f in s
    ensures Find(s + t, f.id) == Some(f)
    decreases |t|
  {
    FindMeans(s, f.id, f);
    FindAppend(s, t, f.id);
  }

  lemma {:induction false} FindAppend(s: seq<IF>, t: seq<IF>, id: Id)
    ensures Find(s + t, id) == if Find(s, id).Some? then Find(s, id) else Find(t, id)
    decreases |s|
  {
    if s == [] {
      assert s + t == t;
    } else {
      assert (s + t)[1..] == s[1..] + t;
      FindAppend(s[1..], t, id);
    }
  }

  lemma FindInit(r: Draft, f: IF)
    requires WellFormed(r) && f in r.init
    ensures Find(All(r), f.id) == Some(f) && f.kind == Init
  {
    assert Distinct(r.init);
    hide WellFormed;
    FindFirst(r.init, r.bond + r.vlan, f);
    assert All(r) == r.init + (r.bond + r.vlan);
  }

  /** Once bonded, an interface can be selected for no role. */
  lemma SlavesAreNoChoice(d: Draft, slaves: seq<Id>, bondId: Id, s: Id, key: RoleKey)
    requires WellFormed(d) && Bondable(d, slaves, bondId) && s in slaves
    ensures !Valid(CreateBond(d, slaves, bondId), key, s)
  {
    var r := CreateBond(d, slaves, bondId);
    assert IsFreeInit(d, s) && bondId != "";
    BondKeeps(d, slaves, bondId);
    BondingTakes(d, slaves, bondId);
    hide WellFormed;
    hide Bondable;
    hide CreateBond;
    var f :| f in d.init && f.id == s && f.master == None;
    var i :| 0 <= i < |d.init| && d.init[i] == f;
    FindInit(r, r.init[i]);
    ValidIs(r, key, s);
    hide Find;
    hide Valid;
  }

  lemma FindBond(r: Draft, b: IF)
    requires WellFormed(r) && b in r.bond
    ensures Find(All(r), b.id) == Some(b) && b.kind == Bond && b.id != ""
  {
    assert Distinct(r.bond) && b.id in Ids(r.bond) && Ids(r.init) !! Ids(r.bond);
    hide WellFormed;
    FindAppend(r.init, r.bond + r.vlan, b.id);
    FindFirst(r.bond, r.vlan, b);
    assert All(r) == r.init + (r.bond + r.vlan);
  }

  /** The new bond can be, but for management and the default route, which need an address it does not have yet. */
  lemma NewBondIsAChoice(d: Draft, slaves: seq<Id>, bondId: Id, key: RoleKey)
    requires WellFormed(d) && Bondable(d, slaves, bondId)
    ensures Valid(CreateBond(d, slaves, bondId), key, bondId) <==> key != MgmtIF && key != DefaultIF
  {
    var r := CreateBond(d, slaves, bondId);
    BondKeeps(d, slaves, bondId);
    BondingTakes(d, slaves, bondId);
    hide WellFormed;
    hide Bondable;
    hide CreateBond;
    FindBond(r, r.bond[|d.bond|]);
    ValidIs(r, key, bondId);
    hide Valid;
    hide Find;
  }

  // ------------------------------------------------------------- binding a port

  /**
   Binding a port names the interface after it, by the port's number counted from one, and carries the
   name into the labels of the VLANs on it that began with the old one; nothing else changes.
   */
  lemma BindRenames(d: Draft, f: IF, port: nat)
    requires WellFormed(d) && f in d.init
    ensures var r := BindPort(d, f.id, port);
            var name := "IF." + Itoa(port + 1);
            && |r.init| == |d.init| && r.bond == d.bond && |r.vlan| == |d.vlan|
            && (forall i :: 0 <= i < |d.init| ==>
                  r.init[i] == if d.init[i].id == f.id then d.init[i].(name := name) else d.init[i])
            && (forall i :: 0 <= i < |d.vlan| ==>
                  var v := d.vlan[i];
                  r.vlan[i] == if v.master == Some(f.id) && f.name + "." <= v.name
                               then v.(name := name + "." + v.name[|f.name| + 1..]) else v)
  {
    assert Distinct(d.init);
    hide WellFormed;
    FindFirst(d.init, d.bond + d.vlan, f);
    assert All(d) == d.init + (d.bond + d.vlan);
  }
}
