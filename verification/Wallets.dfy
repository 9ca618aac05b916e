/**
 Merging duplicate wallets: dedupeWalletEntries of src/main/settings.ts, over the index, the seed
 files and the active wallet.
 */
module Wallets {
  import opened Common

  type Id = string

  datatype Wallet = Wallet(id: Id, address: string)

  /** The entries with an address, in order. */
  function Group(ws: seq<Wallet>, address: string): seq<Wallet>
    decreases |ws|
  {
    if ws == [] then []
    else Group(ws[..|ws| - 1], address) + if ws[|ws| - 1].address == address then [ws[|ws| - 1]] else []
  }

  lemma {:induction false} GroupMembers(ws: seq<Wallet>, address: string)
    ensures forall w :: w in Group(ws, address) <==> w in ws && w.address == address
    decreases |ws|
  {
    if ws != [] {
      GroupMembers(ws[..|ws| - 1], address);
      assert ws == ws[..|ws| - 1] + [ws[|ws| - 1]];
    }
  }

  function IndexOfUnlockable(group: seq<Wallet>, unlockable: Id -> bool): (i: nat)
    ensures i <= |group| && (i < |group| ==> unlockable(group[i].id))
    ensures forall k :: 0 <= k < i ==> !unlockable(group[k].id)
    decreases |group|
  {
    if group == [] || unlockable(group[0].id) then 0
    else
      assert forall k :: 1 <= k < |group| ==> group[k] == group[1..][k - 1];
      1 + IndexOfUnlockable(group[1..], unlockable)
  }

  /** The first whose seed can be decrypted, else the first. */
  function FirstUnlockable(group: seq<Wallet>, unlockable: Id -> bool): (r: Wallet)
    requires group != []
    ensures r in group
    ensures unlockable(r.id) <==> exists w :: w in group && unlockable(w.id)
  {
    var i := IndexOfUnlockable(group, unlockable);
    if i < |group| then group[i] else group[0]
  }

  /** Who is kept for each address. */
  type Table = map<string, Wallet>

  /** The table covers every address, with the survivor of its group. */
  predicate TableOf(ws: seq<Wallet>, unlockable: Id -> bool, table: Table) {
    && (forall a :: a in table ==> a != "" && Group(ws, a) != [] && table[a] == FirstUnlockable(Group(ws, a), unlockable))
    && (forall w :: w in ws && w.address != "" ==> w.address in table)
  }

  /** Entries without an address are left alone. */
  predicate Stays(w: Wallet, table: Table) {
    w.address == "" || w.address !in table || table[w.address].id == w.id
  }

  /** The kept ones among the first n, in order. */
  function Kept(ws: seq<Wallet>, table: Table, n: nat): seq<Wallet>
    requires n <= |ws|
    decreases n
  {
    if n == 0 then [] else Kept(ws, table, n - 1) + if Stays(ws[n - 1], table) then [ws[n - 1]] else []
  }

  /** The dropped ids among the first n. */
  function Dropped(ws: seq<Wallet>, table: Table, n: nat): seq<Id>
    requires n <= |ws|
    decreases n
  {
    if n == 0 then [] else Dropped(ws, table, n - 1) + if Stays(ws[n - 1], table) then [] else [ws[n - 1].id]
  }

  /** In whose favour each dropped id goes; a later entry with the id overwrites. */
  function HeirMap(ws: seq<Wallet>, table: Table, n: nat): map<Id, Id>
    requires n <= |ws|
    decreases n
  {
    if n == 0 then map[]
    else
      var w, before := ws[n - 1], HeirMap(ws, table, n - 1);
      if Stays(w, table) then before else before[w.id := table[w.address].id]
  }

  function Repointed(active: Option<Id>, heirs: map<Id, Id>): Option<Id> {
    if active.Some? && active.value in heirs then Some(heirs[active.value]) else active
  }

  /** The files that a merge deletes. */
  function Gone(dropped: seq<Id>, removable: Id -> bool): set<Id> {
    set id | id in dropped && removable(id)
  }

  predicate DistinctIds(ws: seq<Wallet>) {
    forall i, j :: 0 <= i < j < |ws| ==> ws[i].id != ws[j].id
  }

  // ---- the code --------------------------------------------------------------------

  class Store {
    var index: seq<Wallet>
    var files: set<Id>
    var active: Option<Id>
    const unlockable: Id -> bool
    const removable: Id -> bool      // whether a file can be deleted

    constructor (index: seq<Wallet>, files: set<Id>, active: Option<Id>, unlockable: Id -> bool, removable: Id -> bool)
      ensures this.index == index && this.files == files && this.active == active
      ensures this.unlockable == unlockable && this.removable == removable
    {
      this.index, this.files, this.active, this.unlockable, this.removable := index, files, active, unlockable, removable;
    }

    /** The first loop: entries by address. */
    method GroupByAddress() returns (byAddress: map<string, seq<Wallet>>)
      ensures Grouped(index, byAddress)
    {
      byAddress := map[];
      for i := 0 to |index|
        invariant forall a :: a in byAddress <==> a != "" && Group(index[..i], a) != []
        invariant forall a :: a in byAddress ==> byAddress[a] == Group(index[..i], a)
      {
        var w := index[i];
        GroupSnoc(index, i);
        if w.address != "" {
          if w.address in byAddress {
            byAddress := byAddress[w.address := byAddress[w.address] + [w]];
          } else {
            byAddress := byAddress[w.address := [w]];
          }
        }
      }
      assert index[..|index|] == index;
      forall w | w in index && w.address != "" ensures w.address in byAddress {
        GroupMembers(index, w.address);
        assert w in Group(index, w.address);
      }
    }

    /** The survivor of each address. */
    method Survivors(byAddress: map<string, seq<Wallet>>) returns (table: Table)
      requires Grouped(index, byAddress)
      ensures TableOf(index, unlockable, table)
    {
      table := map[];
      var todo := byAddress.Keys;
      while todo != {}
        invariant todo <= byAddress.Keys && table.Keys == byAddress.Keys - todo
        invariant forall a :: a in table ==> table[a] == FirstUnlockable(byAddress[a], unlockable)
        decreases |todo|
      {
        var a :| a in todo;
        table := table[a := FirstUnlockable(byAddress[a], unlockable)];
        todo := todo - {a};
      }
    }

    /** The second pass: what is kept, what is dropped, and in whose favour. */
    method Partition(table: Table) returns (kept: seq<Wallet>, dropped: seq<Id>, heirs: map<Id, Id>)
      ensures kept == Kept(index, table, |index|) && dropped == Dropped(index, table, |index|)
      ensures heirs == HeirMap(index, table, |index|)
    {
      kept, dropped, heirs := [], [], map[];
      for i := 0 to |index|
        invariant kept == Kept(index, table, i) && dropped == Dropped(index, table, i) && heirs == HeirMap(index, table, i)
      {
        var w := index[i];
        if w.address != "" && w.address in table && table[w.address].id != w.id {
          dropped := dropped + [w.id];
          heirs := heirs[w.id := table[w.address].id];
        } else {
          kept := kept + [w];
        }
      }
    }

    /** A file that cannot be deleted is left; the index is already right. */
    method RemoveFiles(dropped: seq<Id>)
      modifies this`files
      ensures files == old(files) - Gone(dropped, removable)
    {
      for i := 0 to |dropped|
        invariant files == old(files) - Gone(dropped[..i], removable)
      {
        assert dropped[..i + 1] == dropped[..i] + [dropped[i]];
        if dropped[i] in files && removable(dropped[i]) {
          files := files - {dropped[i]};
        }
      }
      assert dropped[..|dropped|] == dropped;
    }

    /** Nothing is decrypted, and nothing changes, unless some address has two entries. */
    method DedupeWalletEntries() returns (ghost table: Table)
      modifies this
      ensures TableOf(old(index), unlockable, table)
      ensures index == Kept(old(index), table, |old(index)|)
      ensures files == old(files) - Gone(Dropped(old(index), table, |old(index)|), removable)
      ensures active == Repointed(old(active), HeirMap(old(index), table, |old(index)|))
    {
      var byAddress := GroupByAddress();
      if forall a :: a in byAddress ==> |byAddress[a]| <= 1 {
        table := AloneTable(index, byAddress, unlockable);
        NothingDropped(index, table, |index|);
        assert index[..|index|] == index && Gone([], removable) == {};
        return;
      }
      var survivors := Survivors(byAddress);
      table := survivors;
      var kept, dropped, heirs := Partition(survivors);
      if dropped == [] {
        NothingDropped(index, table, |index|);
        assert index[..|index|] == index && Gone([], removable) == {};
        return;
      }
      index := kept;
      RemoveFiles(dropped);
      if active.Some? && active.value in heirs {
        active := Some(heirs[active.value]);
      }
    }
  }

  /** The groups of all addresses. */
  predicate Grouped(ws: seq<Wallet>, byAddress: map<string, seq<Wallet>>) {
    && (forall w :: w in ws && w.address != "" ==> w.address in byAddress)
    && (forall a :: a in byAddress ==> a != "" && byAddress[a] != [] && byAddress[a] == Group(ws, a))
  }

  lemma GroupSnoc(ws: seq<Wallet>, i: nat)
    requires i < |ws|
    ensures forall a :: Group(ws[..i + 1], a) == Group(ws[..i], a) + if ws[i].address == a then [ws[i]] else []
  {
    assert ws[..i + 1][..i] == ws[..i];
  }

  lemma {:induction false} NothingDropped(ws: seq<Wallet>, table: Table, n: nat)
    requires n <= |ws| && (|Dropped(ws, table, n)| == 0 || forall i :: 0 <= i < n ==> Stays(ws[i], table))
    ensures Kept(ws, table, n) == ws[..n] && Dropped(ws, table, n) == [] && HeirMap(ws, table, n) == map[]
    decreases n
  {
    if n > 0 {
      NothingDropped(ws, table, n - 1);
      assert ws[..n] == ws[..n - 1] + [ws[n - 1]];
    }
  }

  /** Where every address has one entry, each is its own survivor. */
  lemma AloneTable(ws: seq<Wallet>, byAddress: map<string, seq<Wallet>>, unlockable: Id -> bool) returns (table: Table)
    requires Grouped(ws, byAddress) && forall a :: a in byAddress ==> |byAddress[a]| <= 1
    ensures TableOf(ws, unlockable, table) && forall i :: 0 <= i < |ws| ==> Stays(ws[i], table)
  {
    table := map a | a in byAddress :: byAddress[a][0];
    forall i | 0 <= i < |ws| && ws[i].address != "" ensures Stays(ws[i], table) {
      GroupMembers(ws, ws[i].address);
      assert ws[i] in ws;
      assert ws[i] in byAddress[ws[i].address];
    }
  }

  // ---- what a merge keeps ----------------------------------------------------------

  function Merged(ws: seq<Wallet>, table: Table): seq<Wallet> {
    Kept(ws, table, |ws|)
  }

  lemma {:induction false} KeptMembers(ws: seq<Wallet>, table: Table, n: nat, w: Wallet)
    requires n <= |ws|
    ensures w in Kept(ws, table, n) <==> w in ws[..n] && Stays(w, table)
    decreases n
  {
    if n > 0 {
      KeptMembers(ws, table, n - 1, w);
      assert ws[..n] == ws[..n - 1] + [ws[n - 1]];
    }
  }

  lemma {:induction false} DroppedMembers(ws: seq<Wallet>, table: Table, n: nat, id: Id)
    requires n <= |ws|
    ensures id in Dropped(ws, table, n) <==> exists w :: w in ws[..n] && w.id == id && !Stays(w, table)
    decreases n
  {
    if n > 0 {
      DroppedMembers(ws, table, n - 1, id);
      assert ws[..n] == ws[..n - 1] + [ws[n - 1]];
      assert forall w :: w in ws[..n] <==> w in ws[..n - 1] || w == ws[n - 1];
    }
  }

  lemma MergedMembers(ws: seq<Wallet>, table: Table, w: Wallet)
    ensures w in Merged(ws, table) <==> w in ws && Stays(w, table)
  {
    KeptMembers(ws, table, |ws|, w);
    assert ws[..|ws|] == ws;
  }

  lemma SameIdSame(ws: seq<Wallet>, v: Wallet, w: Wallet)
    requires DistinctIds(ws) && v in ws && w in ws && v.id == w.id
    ensures v == w
  {
    var i :| 0 <= i < |ws| && ws[i] == v;
    var j :| 0 <= j < |ws| && ws[j] == w;
    assert i == j;
  }

  /** The survivor of an address: one of its entries, kept, and unlockable if any of them is. */
  lemma SurvivorStays(ws: seq<Wallet>, w: Wallet, unlockable: Id -> bool, table: Table)
    requires TableOf(ws, unlockable, table) && w in ws && w.address != ""
    ensures var s := table[w.address];
      && s in ws && s.address == w.address && s in Merged(ws, table)
      && (unlockable(s.id) <==> exists v :: v in ws && v.address == w.address && unlockable(v.id))
  {
    GroupMembers(ws, w.address);
    var s := table[w.address];
    assert s in Group(ws, w.address);
    MergedMembers(ws, table, s);
    if v :| v in ws && v.address == w.address && unlockable(v.id) {
      assert v in Group(ws, w.address);
    }
  }

  /** The oldest entry at i that can be unlocked, or if none can, the oldest. */
  predicate OldestUsable(ws: seq<Wallet>, address: string, unlockable: Id -> bool, i: nat) {
    && i < |ws| && ws[i].address == address
    && forall j :: 0 <= j < i && ws[j].address == address ==> unlockable(ws[i].id) && !unlockable(ws[j].id)
  }

  /** The survivor is the oldest entry of its address whose seed can be decrypted, if any can be. */
  lemma {:induction false} SurvivorIsOldest(ws: seq<Wallet>, address: string, unlockable: Id -> bool) returns (i: nat)
    requires Group(ws, address) != []
    ensures OldestUsable(ws, address, unlockable, i) && ws[i] == FirstUnlockable(Group(ws, address), unlockable)
    decreases |ws|
  {
    var before, last := ws[..|ws| - 1], ws[|ws| - 1];
    var group := Group(before, address);
    assert Group(ws, address) == if last.address == address then group + [last] else group;
    if group == [] {
      assert [] + [last] == [last];
      i := |ws| - 1;
      LastIsOldest(ws, address, unlockable);
    } else {
      i := SurvivorIsOldest(before, address, unlockable);
      assert before[i] == ws[i];
      if last.address == address {
        LaterEntry(group, last, unlockable);
        if !unlockable(ws[i].id) && unlockable(last.id) {
          i := |ws| - 1;
          LastIsOldest(ws, address, unlockable);
        }
      }
    }
  }

  /** The last entry, when none before it can be unlocked. */
  lemma LastIsOldest(ws: seq<Wallet>, address: string, unlockable: Id -> bool)
    requires ws != [] && ws[|ws| - 1].address == address
    requires forall w :: w in Group(ws[..|ws| - 1], address) ==> unlockable(ws[|ws| - 1].id) && !unlockable(w.id)
    ensures OldestUsable(ws, address, unlockable, |ws| - 1)
  {
    var before := ws[..|ws| - 1];
    GroupMembers(before, address);
    forall j | 0 <= j < |ws| - 1 && ws[j].address == address
      ensures unlockable(ws[|ws| - 1].id) && !unlockable(ws[j].id)
    {
      assert ws[j] in before;
    }
  }

  /** A later entry of the same address takes over only if it is the first that can be unlocked. */
  lemma LaterEntry(group: seq<Wallet>, last: Wallet, unlockable: Id -> bool)
    requires group != []
    ensures FirstUnlockable(group + [last], unlockable)
         == if !unlockable(FirstUnlockable(group, unlockable).id) && unlockable(last.id) then last
            else FirstUnlockable(group, unlockable)
    ensures !unlockable(FirstUnlockable(group, unlockable).id) ==> forall w :: w in group ==> !unlockable(w.id)
  {
    var i, k := IndexOfUnlockable(group, unlockable), IndexOfUnlockable(group + [last], unlockable);
    assert forall j :: 0 <= j < |group| ==> (group + [last])[j] == group[j];
    if i < |group| {
      assert k == i;
    } else {
      assert k >= |group|;
    }
  }

  /**
   After a merge no two entries share an address, but for blank ones; every blank entry is kept;
   nothing is invented; and each address that was stored still is, by its survivor.
   */
  lemma MergeIsSound(ws: seq<Wallet>, unlockable: Id -> bool, table: Table)
    requires DistinctIds(ws) && TableOf(ws, unlockable, table)
    ensures forall v, w :: v in Merged(ws, table) && w in Merged(ws, table) && v.address == w.address && v != w
              ==> v.address == ""
    ensures forall w :: w in ws && w.address == "" ==> w in Merged(ws, table)
    ensures forall w :: w in Merged(ws, table) ==> w in ws
    ensures forall w :: w in ws && w.address != "" ==> w.address in table && table[w.address] in Merged(ws, table)
  {
    forall v, w | v in Merged(ws, table) && w in Merged(ws, table) && v.address == w.address && v != w
      ensures v.address == ""
    {
      MergedMembers(ws, table, v);
      MergedMembers(ws, table, w);
      if v.address != "" {
        SameIdSame(ws, v, w);
      }
    }
    forall w | w in ws && w.address == "" ensures w in Merged(ws, table) {
      MergedMembers(ws, table, w);
    }
    forall w | w in Merged(ws, table) ensures w in ws {
      MergedMembers(ws, table, w);
    }
    forall w | w in ws && w.address != "" ensures table[w.address] in Merged(ws, table) {
      SurvivorStays(ws, w, unlockable, table);
    }
  }

  /** `from` says where each kept entry was, in rising order. */
  predicate InOrder(from: seq<nat>, kept: seq<Wallet>, ws: seq<Wallet>, n: nat)
    requires n <= |ws|
  {
    && |from| == |kept|
    && (forall k :: 0 <= k < |from| ==> from[k] < n && kept[k] == ws[from[k]])
    && (forall j, k :: 0 <= j < k < |from| ==> from[j] < from[k])
  }

  lemma InOrderSnoc(from: seq<nat>, kept: seq<Wallet>, ws: seq<Wallet>, n: nat)
    requires n < |ws| && InOrder(from, kept, ws, n)
    ensures InOrder(from, kept, ws, n + 1) && InOrder(from + [n], kept + [ws[n]], ws, n + 1)
  {
  }

  /** The merged list is what is left of the old one, in its order. */
  lemma {:induction false} OrderKept(ws: seq<Wallet>, table: Table, n: nat) returns (from: seq<nat>)
    requires n <= |ws|
    ensures InOrder(from, Kept(ws, table, n), ws, n)
    decreases n
  {
    if n == 0 {
      from := [];
    } else {
      from := OrderKept(ws, table, n - 1);
      InOrderSnoc(from, Kept(ws, table, n - 1), ws, n - 1);
      if Stays(ws[n - 1], table) {
        from := from + [n - 1];
      }
    }
  }

  lemma {:induction false} MappedToHeir(ws: seq<Wallet>, w: Wallet, table: Table, n: nat)
    requires DistinctIds(ws) && n <= |ws| && w in ws
    ensures var m := HeirMap(ws, table, n);
      && (w in ws[..n] && !Stays(w, table) ==> w.id in m)
      && (w.id in m ==> !Stays(w, table) && m[w.id] == table[w.address].id)
    decreases n
  {
    if n > 0 {
      assert ws[..n] == ws[..n - 1] + [ws[n - 1]];
      MappedToHeir(ws, w, table, n - 1);
      if ws[n - 1].id == w.id {
        SameIdSame(ws, ws[n - 1], w);
      }
    }
  }

  /** An active id that named a stored wallet still names one, with the same address. */
  lemma ActiveStays(ws: seq<Wallet>, w: Wallet, unlockable: Id -> bool, table: Table)
    requires DistinctIds(ws) && TableOf(ws, unlockable, table) && w in ws
    ensures var a := Repointed(Some(w.id), HeirMap(ws, table, |ws|));
      exists v :: v in Merged(ws, table) && a == Some(v.id) && v.address == w.address
  {
    assert ws[..|ws|] == ws;
    MappedToHeir(ws, w, table, |ws|);
    MergedMembers(ws, table, w);
    if Stays(w, table) {
      assert w in Merged(ws, table);
    } else {
      SurvivorStays(ws, w, unlockable, table);
    }
  }

  /**
   The seed files after a merge: a kept wallet's stays, a dropped one's goes unless it cannot be
   deleted, and a file of no wallet is not touched.
   */
  lemma FilesFollowIndex(ws: seq<Wallet>, table: Table, files: set<Id>, removable: Id -> bool, id: Id)
    requires DistinctIds(ws)
    ensures var left := files - Gone(Dropped(ws, table, |ws|), removable);
      && (forall w :: w in ws && w.id == id ==>
            (id in left <==> id in files && (w in Merged(ws, table) || !removable(id))))
      && ((forall w :: w in ws ==> w.id != id) ==> (id in left <==> id in files))
  {
    DroppedMembers(ws, table, |ws|, id);
    assert ws[..|ws|] == ws;
    forall w | w in ws && w.id == id ensures id in Dropped(ws, table, |ws|) <==> w !in Merged(ws, table) {
      MergedMembers(ws, table, w);
      if v :| v in ws && v.id == id && !Stays(v, table) {
        SameIdSame(ws, v, w);
      }
    }
  }
}
