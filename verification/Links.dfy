/** link, unlink, create and the directory routines under them (kernel/sysfile.c, kernel/fs.c).
    Paths are resolved already: a call gets the inodes that namei and nameiparent found. */
module Links {
  import opened Common
  import opened LinkSpec

  class Directories {
    var inodes: map<nat, Inode>
    ghost var home: map<nat, Slot>

    ghost function Value(): Tree
      reads this
    {
      Tree(inodes, home)
    }

    ghost predicate Ok()
      reads this
    {
      Inv(Value())
    }

    /** A new file system: the root, with itself as parent. */
    constructor ()
      ensures Ok() && inodes == map[ROOT := Inode(Dir, 1, [Entry(ROOT, "."), Entry(ROOT, "..")])]
    {
      inodes, home := map[ROOT := Inode(Dir, 1, [Entry(ROOT, "."), Entry(ROOT, "..")])], map[];
      new;
      RootOnly(Value());
    }

    /** dirlookup: the first entry with the name, up to DIRSIZ characters. */
    method DirLookup(d: nat, name: string) returns (r: Option<nat>)
      requires d in inodes
      ensures r.Some? ==>
                r.value < |inodes[d].entries| && inodes[d].entries[r.value].inum != 0
                && inodes[d].entries[r.value].name == Cut(name)
      ensures r.Some? ==> forall j :: 0 <= j < r.value && inodes[d].entries[j].inum != 0 ==>
                inodes[d].entries[j].name != Cut(name)
      ensures r == None ==> forall j :: 0 <= j < |inodes[d].entries| && inodes[d].entries[j].inum != 0 ==>
                inodes[d].entries[j].name != Cut(name)
    {
      var k := 0;
      while k < |inodes[d].entries|
        invariant 0 <= k <= |inodes[d].entries|
        invariant forall j :: 0 <= j < k && inodes[d].entries[j].inum != 0 ==> inodes[d].entries[j].name != Cut(name)
      {
        if inodes[d].entries[k].inum != 0 && inodes[d].entries[k].name == Cut(name) {
          return Some(k);
        }
        k := k + 1;
      }
      r := None;
    }

    /** dirlink: fails if the name is there, or if a new entry is needed and there is no room. */
    method DirLink(d: nat, name: string, inum: nat, room: bool) returns (ok: bool, k: nat)
      requires d in inodes
      modifies this`inodes
      ensures k <= |old(inodes)[d].entries|
      ensures ok <==> HasRoom(old(inodes)[d].entries, Cut(name), room)
      ensures !ok ==> inodes == old(inodes)
      ensures ok ==> inodes == SetEntry(old(Value()), d, k, Entry(inum, Cut(name))).inodes
      ensures ok ==> Fresh(old(Value()), d, k, Cut(name))
    {
      k := 0;
      var found := DirLookup(d, name);
      if found.Some? {
        assert NameIn(inodes[d].entries, Cut(name));
        return false, k;
      }
      while k < |inodes[d].entries| && inodes[d].entries[k].inum != 0
        invariant k <= |inodes[d].entries| && forall j :: 0 <= j < k ==> inodes[d].entries[j].inum != 0
      {
        k := k + 1;
      }
      if k == |inodes[d].entries| && !room {
        return false, k;
      }
      var es := inodes[d].entries;
      inodes := inodes[d := inodes[d].(entries := if k < |es| then es[k := Entry(inum, Cut(name))]
                                       else es + [Entry(inum, Cut(name))])];
      ok := true;
    }

    /** isdirempty: nothing beyond the first two entries. */
    method IsDirEmpty(d: nat) returns (empty: bool)
      requires d in inodes
      ensures empty <==> forall k :: 2 <= k < |inodes[d].entries| ==> inodes[d].entries[k].inum == 0
    {
      var k := 2;
      while k < |inodes[d].entries|
        invariant 2 <= k && forall j :: 2 <= j < k && j < |inodes[d].entries| ==> inodes[d].entries[j].inum == 0
      {
        if inodes[d].entries[k].inum != 0 {
          return false;
        }
        k := k + 1;
      }
      empty := true;
    }

    /** sys_link.  A failure leaves everything as it was; a success keeps the link counts exactly
        when the directory has a link itself, which the code does not check. */
    method Link(ip: nat, dp: Option<nat>, name: string, room: bool) returns (ok: bool)
      requires Ok() && ip in inodes && (dp.Some? ==> dp.value in inodes && inodes[dp.value].kind == Dir)
      modifies this
      ensures ok <==> old(inodes)[ip].kind != Dir && dp.Some? && old(HasRoom(inodes[dp.value].entries, Cut(name), room))
      ensures !ok ==> Value() == old(Value())
      ensures ok ==>
                (Ok() <==> old(inodes)[dp.value].nlink > 0) && (Counted(Value()) <==> old(inodes)[dp.value].nlink > 0)
      ensures ok ==> HasLink(old(Value()), dp.value, Cut(name), ip, Value())
    {
      hide Inv, Linked, EntryAt, Fresh, HasRoom, HasLink;
      if inodes[ip].kind == Dir {
        return false;
      }
      ghost var t := Value();
      inodes := inodes[ip := inodes[ip].(nlink := inodes[ip].nlink + 1)];
      var k;
      if dp == None {
        ok := false;
      } else {
        ok, k := DirLink(dp.value, name, ip, room);
      }
      if !ok {
        inodes := inodes[ip := inodes[ip].(nlink := inodes[ip].nlink - 1)];
        assert inodes == t.inodes;
        return;
      }
      LinkDone(t, dp.value, k, Cut(name), ip);
      assert Value() == Linked(t, dp.value, k, Cut(name), ip);
    }

    /** sys_unlink; "." and "..", a missing name and a directory with entries are refused, and
        the panic over nlink is unreachable. */
    method Unlink(dp: nat, name: string) returns (ok: bool)
      requires Ok() && dp in inodes && inodes[dp].kind == Dir
      modifies this
      ensures Ok() && (!ok ==> Value() == old(Value()))
      ensures ok <==> Cut(name) != "." && Cut(name) != ".." && exists k :: Removable(old(inodes), dp, k, Cut(name))
      ensures ok ==> exists k :: Removed(old(Value()), dp, k, Cut(name), Value())
    {
      hide Inv, RemovedTree, Removed;
      if Cut(name) == "." || Cut(name) == ".." {
        return false;
      }
      var found := DirLookup(dp, name);
      if found == None {
        return false;
      }
      var k := found.value;
      ghost var t := Value();
      UnlinkReady(t, dp, k);
      var ip := inodes[dp].entries[k].inum;
      OneEntry(t, dp, k);
      if inodes[ip].kind == Dir {
        var empty := IsDirEmpty(ip);
        if !empty {
          return false;
        }
      }
      assert Removable(t.inodes, dp, k, Cut(name));
      UnlinkDone(t, dp, k, Cut(name));
      RemovedShape(t, dp, k);
      assert inodes[ip].nlink >= 1;
      inodes := inodes[dp := inodes[dp].(entries := inodes[dp].entries[k := EMPTY])];
      if inodes[ip].kind == Dir {
        inodes := inodes[dp := inodes[dp].(nlink := inodes[dp].nlink - 1)];
        home := home - {ip};
      }
      inodes := inodes[ip := inodes[ip].(nlink := inodes[ip].nlink - 1)];
      assert Value() == RemovedTree(t, dp, k);
      ok := true;
    }

    /** create, given the free inode that ialloc found.  ilock panics exactly if the name is the
        ".." of a removed directory whose parent was freed.  Every failure leaves everything as it
        was; what a new inode does to the link counts is CreateOutcome. */
    method Create(dp: nat, name: string, kind: Kind, ino: Option<nat>, room0: bool, room1: bool, room: bool)
      returns (r: Option<nat>, panics: bool)
      requires Ok() && dp in inodes && inodes[dp].kind == Dir && (ino.Some? ==> ino.value !in inodes && ino.value != 0)
      modifies this
      ensures panics <==> Cut(name) == ".." && old(EntryAt(Value(), Slot(dp, 1)).inum !in inodes)
      ensures old(NameIn(inodes[dp].entries, Cut(name))) ==> Value() == old(Value())
      ensures old(NameIn(inodes[dp].entries, Cut(name))) ==>
                forall i :: old(Finds(inodes[dp].entries, Cut(name), i)) && !panics ==>
                    i in inodes && r == if kind == File && inodes[i].kind != Dir then Some(i) else None
      ensures !old(NameIn(inodes[dp].entries, Cut(name))) ==>
                (r.Some? <==>
                 ino.Some? && (kind == Dir ==> room0 && room1) && old(HasRoom(inodes[dp].entries, Cut(name), room)))
      ensures !old(NameIn(inodes[dp].entries, Cut(name))) && r == None ==> Value() == old(Value())
      ensures !old(NameIn(inodes[dp].entries, Cut(name))) && r.Some? ==>
                r == ino && CreateOutcome(old(Value()), dp, Cut(name), kind, ino.value, Value())
    {
      hide Inv, EntryAt, Fresh, Created, SetEntry, HasRoom, CreateOutcome;
      var found := DirLookup(dp, name);
      if found.Some? {
        var at := inodes[dp].entries[found.value].inum;
        assert Finds(inodes[dp].entries, Cut(name), at);
        OneFound(Value(), dp, Cut(name), at);
        LookupPanicsIff(Value(), dp, Cut(name), at);
        if at !in inodes {
          return None, true;
        }
        return if kind == File && inodes[at].kind != Dir then Some(at) else None, false;
      }
      DotsAreThere(Value(), dp);
      panics := false;
      if ino == None {
        return None, false;
      }
      r := MakeInode(dp, name, kind, ino.value, room0, room1, room);
    }

    /** create once the name is known to be free. */
    method MakeInode(dp: nat, name: string, kind: Kind, ip: nat, room0: bool, room1: bool, room: bool)
      returns (r: Option<nat>)
      requires Ok() && dp in inodes && inodes[dp].kind == Dir && ip !in inodes && ip != 0
      modifies this
      ensures r == if (kind == Dir ==> room0 && room1)
              && old(HasRoom(inodes[dp].entries, Cut(name), room)) then Some(ip) else None
      ensures r == None ==> Value() == old(Value())
      ensures r.Some? ==> CreateOutcome(old(Value()), dp, Cut(name), kind, ip, Value())
    {
      hide Inv, EntryAt, Fresh, Created, SetEntry, HasRoom, CreateOutcome;
      ghost var t := Value();
      var ok, k := true, 0;
      inodes := inodes[ip := Inode(kind, 1, [])];
      if kind == Dir {
        ok := MakeDots(ip, dp, room0, room1);
      }
      assert ok ==> Value() == NewInode(t, ip, kind, dp);
      if ok {
        ok, k := DirLink(dp, name, ip, room);
      }
      if !ok {
        inodes := inodes - {ip};
        assert inodes == t.inodes;
        return None;
      }
      CreateDone(t, dp, k, Cut(name), kind, ip);
      CreatedShape(t, dp, k, Cut(name), kind, ip);
      if kind == Dir {
        inodes := inodes[dp := inodes[dp].(nlink := inodes[dp].nlink + 1)];
        home := home[ip := Slot(dp, k)];
      }
      assert Value() == Created(t, dp, k, Cut(name), kind, ip);
      r := Some(ip);
    }

    /** The "." and ".." entries of a new directory. */
    method MakeDots(ip: nat, dp: nat, room0: bool, room1: bool) returns (ok: bool)
      requires ip in inodes && inodes[ip].entries == [] && ip != 0
      modifies this`inodes
      ensures ok <==> room0 && room1
      ensures ok ==> inodes == old(inodes)[ip := old(inodes)[ip].(entries := [Entry(ip, "."), Entry(dp, "..")])]
      ensures !ok ==> ip in inodes && inodes == old(inodes)[ip := inodes[ip]]
    {
      var k0, k1;
      ghost var before := inodes;
      ok, k0 := DirLink(ip, ".", ip, room0);
      if ok {
        assert before[ip].entries + [Entry(ip, Cut("."))] == [Entry(ip, ".")];
        assert inodes == before[ip := before[ip].(entries := [Entry(ip, ".")])];
        ok, k1 := DirLink(ip, "..", dp, room1);
        assert ok ==> k1 == 1;
        assert [Entry(ip, ".")] + [Entry(dp, Cut(".."))] == [Entry(ip, "."), Entry(dp, "..")];
      }
    }

    /** iput of the last reference to an inode without links. */
    method Iput(i: nat)
      requires Ok() && i in inodes && inodes[i].nlink == 0
      modifies this`inodes
      ensures Ok() && inodes == old(inodes) - {i}
    {
      hide Inv;
      ReapedOk(Value(), i);
      inodes := inodes - {i};
    }
  }

  ghost predicate Finds(es: seq<Entry>, name: string, i: nat) {
    i != 0 && exists j :: 0 <= j < |es| && es[j] == Entry(i, name)
  }

  ghost predicate NameIn(es: seq<Entry>, name: string) {
    exists j :: 0 <= j < |es| && es[j].inum != 0 && es[j].name == name
  }

  /** When dirlink succeeds: the name is new, and an entry is free or there is room for one more. */
  ghost predicate HasRoom(es: seq<Entry>, name: string, room: bool) {
    !NameIn(es, name) && (room || exists j :: 0 <= j < |es| && es[j].inum == 0)
  }

  /** What unlink may remove: anything but a directory with entries. */
  ghost predicate Removable(inodes: map<nat, Inode>, d: nat, k: nat, name: string) {
    && d in inodes && 0 <= k < |inodes[d].entries| && inodes[d].entries[k].name == name
    && var ip := inodes[d].entries[k].inum;
       ip != 0 && ip in inodes && (inodes[ip].kind == Dir ==> forall j :: 2 <= j < |inodes[ip].entries| ==>
                                   inodes[ip].entries[j].inum == 0)
  }

  /** The name now leads to ip, in the first free entry, and ip has one link more. */
  ghost predicate HasLink(t: Tree, d: nat, name: string, ip: nat, t': Tree) {
    exists k :: Fresh(t, d, k, name) && ip in t.inodes && t' == Linked(t, d, k, name, ip)
  }

  ghost predicate HasInode(t: Tree, d: nat, name: string, kind: Kind, ip: nat, t': Tree) {
    exists k :: Fresh(t, d, k, name) && d != ip && t' == Created(t, d, k, name, kind, ip)
  }

  lemma OneEntry(t: Tree, d: nat, k: nat)
    requires Inv(t) && d in t.inodes && t.inodes[d].kind == Dir && k < |t.inodes[d].entries|
             && t.inodes[d].entries[k].inum != 0
    ensures forall j | 0 <= j < |t.inodes[d].entries| && t.inodes[d].entries[j].inum != 0
                       && t.inodes[d].entries[j].name == t.inodes[d].entries[k].name :: j == k
  {
    ShapeDir(t, d);
  }

  lemma OneFound(t: Tree, d: nat, name: string, i: nat)
    requires Inv(t) && d in t.inodes && t.inodes[d].kind == Dir && Finds(t.inodes[d].entries, name, i)
    ensures forall i' :: Finds(t.inodes[d].entries, name, i') ==> i' == i
  {
    ShapeDir(t, d);
  }

  /** A name leads to no inode, where ilock panics, exactly if it is the ".." of a removed
      directory whose parent was freed. */
  lemma LookupPanicsIff(t: Tree, d: nat, name: string, i: nat)
    requires Inv(t) && d in t.inodes && t.inodes[d].kind == Dir && Finds(t.inodes[d].entries, name, i)
    ensures i !in t.inodes <==> name == ".." && EntryAt(t, Slot(d, 1)).inum !in t.inodes
    ensures i !in t.inodes ==> t.inodes[d].nlink == 0
  {
    hide Names, HomeOk;
    ShapeDir(t, d);
    assert DirOk(t, d);
    var es := t.inodes[d].entries;
    var j :| 0 <= j < |es| && es[j] == Entry(i, name);
    if t.inodes[d].nlink > 0 {
      assert TargetOk(t, d, j) && TargetOk(t, d, 1);
      assert EntryAt(t, Slot(d, j)) == es[j] && EntryAt(t, Slot(d, 1)) == es[1];
    } else {
      assert j < 2;
    }
  }

  lemma DotsAreThere(t: Tree, d: nat)
    requires Inv(t) && d in t.inodes && t.inodes[d].kind == Dir
    ensures NameIn(t.inodes[d].entries, "..")
  {
    hide Names, HomeOk;
    assert DirOk(t, d);
    assert t.inodes[d].entries[1].name == "..";
  }

  /** What dirlink promises of the place it chose. */
  ghost predicate Fresh(t: Tree, d: nat, k: nat, name: string) {
    && d in t.inodes && k <= |t.inodes[d].entries| && EntryAt(t, Slot(d, k)).inum == 0
    && (forall j :: 0 <= j < k ==> t.inodes[d].entries[j].inum != 0)
    && (forall j :: 0 <= j < |t.inodes[d].entries| && t.inodes[d].entries[j].inum != 0 ==>
        t.inodes[d].entries[j].name != name)
  }

  lemma ShapeDir(t: Tree, d: nat)
    requires Inv(t) && d in t.inodes
    ensures DirOk(t, d) && d != 0
  {
  }

  /** Where dirlink puts an entry it leaves "." and ".." alone. */
  lemma Placeable(t: Tree, d: nat, k: nat, name: string)
    requires Fresh(t, d, k, name) && DirOk(t, d) && d != 0 && t.inodes[d].kind == Dir
    ensures CanPlace(t, d, k, name) && 2 <= k && name != "." && name != ".."
  {
    var es := t.inodes[d].entries;
    assert es[0].name == "." && es[1].name == ".." && es[0].inum != 0 && es[1].inum != 0;
    hide UniqueNames, TargetOk;
  }

  lemma FreshSame(t: Tree, t': Tree, d: nat, k: nat, name: string)
    requires Fresh(t, d, k, name) && d in t.inodes && d in t'.inodes && t'.inodes[d].entries == t.inodes[d].entries
    ensures Fresh(t', d, k, name) && k <= |t'.inodes[d].entries|
  {
  }

  lemma CanPlaceIn(t: Tree, d: nat, k: nat, name: string)
    requires CanPlace(t, d, k, name)
    ensures d in t.inodes && 2 <= k <= |t.inodes[d].entries|
  {
  }

  lemma LinkDone(t: Tree, d: nat, k: nat, name: string, ip: nat)
    requires Inv(t) && ip in t.inodes && t.inodes[ip].kind != Dir && d in t.inodes && t.inodes[d].kind == Dir
    requires Fresh(SetNlink(t, ip, t.inodes[ip].nlink + 1), d, k, name)
    ensures k <= |t.inodes[d].entries| && (Inv(Linked(t, d, k, name, ip)) <==> t.inodes[d].nlink > 0)
    ensures Counted(Linked(t, d, k, name, ip)) <==> t.inodes[d].nlink > 0
    ensures HasLink(t, d, name, ip, Linked(t, d, k, name, ip))
    ensures Linked(t, d, k, name, ip) == SetEntry(SetNlink(t, ip, t.inodes[ip].nlink + 1), d, k, Entry(ip, name))
  {
    hide Inv, DirOk, CanPlace, Counted, Names, Fresh, EntryAt;
    ShapeDir(t, d);
    ShapeDir(t, ip);
    FreshSame(SetNlink(t, ip, t.inodes[ip].nlink + 1), t, d, k, name);
    Placeable(t, d, k, name);
    CanPlaceIn(t, d, k, name);
    InvCounted(Linked(t, d, k, name, ip));
    if t.inodes[d].nlink > 0 { LinkedOk(t, d, k, name, ip); } else { LinkIntoRemoved(t, d, k, name, ip); }
  }

  lemma RootOnly(t: Tree)
    requires t == Tree(map[ROOT := Inode(Dir, 1, [Entry(ROOT, "."), Entry(ROOT, "..")])], map[])
    ensures Inv(t)
  {
    assert Names(t, ROOT) == {Slot(ROOT, 1)} by {
      forall s ensures s in Names(t, ROOT) <==> s == Slot(ROOT, 1) { InNames(t, s, ROOT); }
    }
    assert DirOk(t, ROOT);
  }

  ghost function RemovedTree(t: Tree, d: nat, k: nat): Tree {
    if d in t.inodes && k < |t.inodes[d].entries| && t.inodes[d].nlink > 0 then
      var ip := t.inodes[d].entries[k].inum;
      if ip in t.inodes && t.inodes[ip].nlink > 0
         && ip != d then (if t.inodes[ip].kind == Dir then Detached(t, d, k, ip) else Unlinked(t, d, k, ip)) else t
    else t
  }

  /** The entry named `name` is gone and its inode has one link less. */
  ghost predicate Removed(t: Tree, d: nat, k: nat, name: string, t': Tree) {
    && d in t.inodes && k < |t.inodes[d].entries| && t.inodes[d].entries[k].name == name
    && var ip := t.inodes[d].entries[k].inum;
       && ip in t.inodes && ip in t'.inodes && t'.inodes[ip].nlink == t.inodes[ip].nlink - 1
       && EntryAt(t', Slot(d, k)) == EMPTY && t' == RemovedTree(t, d, k)
  }

  /** What unlink finds exists and is named, so its count is positive. */
  lemma UnlinkReady(t: Tree, d: nat, k: nat)
    requires Inv(t) && d in t.inodes && t.inodes[d].kind == Dir && k < |t.inodes[d].entries|
             && t.inodes[d].entries[k].inum != 0
    requires t.inodes[d].entries[k].name != "." && t.inodes[d].entries[k].name != ".."
    ensures var ip := t.inodes[d].entries[k].inum;
            ip in t.inodes && t.inodes[ip].nlink >= 1 && ip != d && k >= 2 && LinkedDir(t, d)
    ensures var ip := t.inodes[d].entries[k].inum;
            t.inodes[ip].kind == Dir ==> ip in t.home && t.home[ip] == Slot(d, k) && HomeOk(t, ip)
  {
    hide HomeOk, Names;
    var ip := t.inodes[d].entries[k].inum;
    assert DirOk(t, d);
    assert TargetOk(t, d, k);
    InNames(t, Slot(d, k), ip);
    hide DirOk, TargetOk;
    assert Slot(d, k) in Names(t, ip);
    if t.inodes[ip].kind == Dir { HomeDiffers(t, ip); }
  }

  lemma HomeDiffers(t: Tree, c: nat)
    requires c in t.home && HomeOk(t, c)
    ensures t.home[c].dir != c
  {
  }

  /** The writes of unlink, in its order. */
  lemma RemovedShape(t: Tree, d: nat, k: nat)
    requires d in t.inodes && k < |t.inodes[d].entries| && t.inodes[d].nlink > 0
    requires var ip := t.inodes[d].entries[k].inum; ip in t.inodes && t.inodes[ip].nlink > 0 && ip != d
    ensures var ip := t.inodes[d].entries[k].inum;
            var isDir := t.inodes[ip].kind == Dir;
            var dir := t.inodes[d].(entries := t.inodes[d].entries[k := EMPTY],
                                    nlink := t.inodes[d].nlink - if isDir then 1 else 0);
            RemovedTree(t, d, k) == Tree(t.inodes[d := dir][ip := t.inodes[ip].(nlink := t.inodes[ip].nlink - 1)],
                                         if isDir then t.home - {ip} else t.home)
  {
  }

  lemma UnlinkDone(t: Tree, d: nat, k: nat, name: string)
    requires Inv(t) && d in t.inodes && t.inodes[d].kind == Dir && k < |t.inodes[d].entries|
             && t.inodes[d].entries[k].inum != 0
    requires t.inodes[d].entries[k].name == name && name != "." && name != ".."
    requires var ip := t.inodes[d].entries[k].inum;
             ip in t.inodes && (t.inodes[ip].kind == Dir ==> forall j :: 2 <= j < |t.inodes[ip].entries| ==>
                                t.inodes[ip].entries[j].inum == 0)
    ensures Inv(RemovedTree(t, d, k)) && Removed(t, d, k, name, RemovedTree(t, d, k))
  {
    hide Inv, HomeOk, Names;
    UnlinkReady(t, d, k);
    ShapeDir(t, d);
    var ip := t.inodes[d].entries[k].inum;
    if t.inodes[ip].kind == Dir {
      ShapeDir(t, ip);
      IsBare(t, ip, d);
      DetachedOk(t, d, k, ip);
      DetachedAt(t, d, k, ip, Slot(d, k));
    } else {
      UnlinkedOk(t, d, k, ip);
      UnlinkedAt(t, d, k, ip, Slot(d, k));
    }
  }

  lemma IsBare(t: Tree, ip: nat, d: nat)
    requires ip in t.inodes && t.inodes[ip].kind == Dir && DirOk(t, ip) && ip in t.home && HomeOk(t, ip)
             && t.home[ip].dir == d && d != 0
    requires forall j :: 2 <= j < |t.inodes[ip].entries| ==> t.inodes[ip].entries[j].inum == 0
    ensures Bare(t, ip, d) && LinkedDir(t, ip) && ip != ROOT
  {
  }

  ghost function Created(t: Tree, d: nat, k: nat, name: string, kind: Kind, ip: nat): Tree
    requires d in t.inodes && k <= |t.inodes[d].entries| && d != ip
  {
    if kind == Dir then Attached(Added(t, ip, Dir, d), d, k, name, ip)
       else Linked(Added(t, ip, kind, d), d, k, name, ip)
  }

  /** What ialloc and the dots leave: nlink is 1 before the entry is there. */
  function NewInode(t: Tree, ip: nat, kind: Kind, d: nat): Tree {
    t.(inodes := t.inodes[ip := Inode(kind, 1, if kind == Dir then [Entry(ip, "."), Entry(d, "..")] else [])])
  }

  /** The writes of create, in its order. */
  lemma CreatedShape(t: Tree, d: nat, k: nat, name: string, kind: Kind, ip: nat)
    requires d in t.inodes && k <= |t.inodes[d].entries| && ip !in t.inodes
    ensures d in NewInode(t, ip, kind, d).inodes && NewInode(t, ip, kind, d).inodes[d] == t.inodes[d]
    ensures var t2 := SetEntry(NewInode(t, ip, kind, d), d, k, Entry(ip, name));
            && d in t2.inodes && t2.home == t.home
            && Created(t, d, k, name, kind, ip) == if kind == Dir then
                 SetNlink(t2, d, t2.inodes[d].nlink + 1).(home := t.home[ip := Slot(d, k)]) else t2
  {
    var t2, c := SetEntry(NewInode(t, ip, kind, d), d, k, Entry(ip, name)), Created(t, d, k, name, kind, ip);
    var r := if kind == Dir then SetNlink(t2, d, t2.inodes[d].nlink + 1).(home := t.home[ip := Slot(d, k)]) else t2;
    assert c.inodes.Keys == r.inodes.Keys;
    forall x | x in c.inodes ensures c.inodes[x] == r.inodes[x] {}
  }

  /** When create keeps the counts: the parent has a link; or it has none, the new inode is a
      directory, and the parent's ".." leads to no inode, the new one included. */
  ghost predicate CountsSurvive(t: Tree, d: nat, kind: Kind, ip: nat)
    requires d in t.inodes
  {
    t.inodes[d].nlink > 0 || (kind == Dir && EntryAt(t, Slot(d, 1)).inum !in t.inodes.Keys + {ip})
  }

  /** What a caller sees of create: the inode has the kind asked for, one link, and as a directory
      its dots; its name is in the parent; and every other inode is as before. */
  ghost predicate HasNew(t: Tree, d: nat, name: string, kind: Kind, ip: nat, t': Tree) {
    && ip in t'.inodes
    && t'.inodes[ip] == Inode(kind, 1, if kind == Dir then [Entry(ip, "."), Entry(d, "..")] else [])
    && d in t'.inodes && Finds(t'.inodes[d].entries, name, ip) && t'.inodes.Keys == t.inodes.Keys + {ip}
    && forall j :: j in t.inodes && j != d && j in t'.inodes ==> t'.inodes[j] == t.inodes[j]
  }

  lemma CreatedIsNew(t: Tree, d: nat, k: nat, name: string, kind: Kind, ip: nat)
    requires d in t.inodes && k <= |t.inodes[d].entries| && ip !in t.inodes && ip != 0
    ensures HasNew(t, d, name, kind, ip, Created(t, d, k, name, kind, ip))
  {
    var t' := Created(t, d, k, name, kind, ip);
    CreatedShape(t, d, k, name, kind, ip);
    hide Created;
    assert t'.inodes[d].entries[k] == Entry(ip, name);
  }

  /** A new inode under the name; whether the tree and the counts are still in order. */
  ghost predicate CreateOutcome(t: Tree, d: nat, name: string, kind: Kind, ip: nat, t': Tree) {
    && d in t.inodes && HasInode(t, d, name, kind, ip, t') && HasNew(t, d, name, kind, ip, t')
    && (Inv(t') <==> t.inodes[d].nlink > 0)
    && (Counted(t') <==> CountsSurvive(t, d, kind, ip))
  }

  lemma InvCounted(t: Tree)
    ensures Inv(t) ==> Counted(t)
  {
  }

  /** create in terms of a nameless inode that is then linked. */
  lemma CreateDone(t: Tree, d: nat, k: nat, name: string, kind: Kind, ip: nat)
    requires Inv(t) && d in t.inodes && t.inodes[d].kind == Dir && ip !in t.inodes && ip != 0
    requires Fresh(NewInode(t, ip, kind, d), d, k, name)
    ensures k <= |t.inodes[d].entries| && d != ip
            && CreateOutcome(t, d, name, kind, ip, Created(t, d, k, name, kind, ip))
  {
    hide Inv, DirOk, CanPlace, Counted, HasNew;
    InvCounted(Created(t, d, k, name, kind, ip));
    CreatedIsNew(t, d, k, name, kind, ip);
    var t1 := Added(t, ip, kind, d);
    ShapeDir(t, d);
    AddedOk(t, ip, kind, d);
    ShapeDir(t1, d);
    assert Fresh(t1, d, k, name);
    Placeable(t1, d, k, name);
    RootExists(t);
    if kind == Dir {
      if t.inodes[d].nlink > 0 {
        AttachedOk(t1, d, k, name, ip);
      } else {
        AttachToRemoved(t1, d, k, name, ip);
        AttachToRemovedCounts(t1, d, k, name, ip);
      }
    } else {
      if t.inodes[d].nlink > 0 { LinkedOk(t1, d, k, name, ip); } else { LinkIntoRemoved(t1, d, k, name, ip); }
    }
  }

  lemma RootExists(t: Tree)
    requires Inv(t)
    ensures ROOT in t.inodes
  {
  }

  /** mkdir a; cd a; rmdir ../a; create f: file 3 has a link count of 1 and no name. */
  lemma CreateInRemovedDirectory() returns (t0: Tree, t1: Tree, t: Tree, t': Tree)
    ensures t0 == Tree(map[ROOT := Inode(Dir, 1, [Entry(ROOT, "."), Entry(ROOT, "..")])], map[])
    ensures HasInode(t0, ROOT, "a", Dir, 2, t1) && Removed(t1, ROOT, 2, "a", t) && HasInode(t, 2, "f", File, 3, t')
    ensures Inv(t0) && Inv(t1) && Inv(t) && !Counted(t') && 3 in t'.inodes && t'.inodes[3].nlink == 1
            && Names(t', 3) == {}
  {
    hide Inv, Counted, Names, Removed, HasInode, RemovedTree;
    t0 := Tree(map[ROOT := Inode(Dir, 1, [Entry(ROOT, "."), Entry(ROOT, "..")])], map[]);
    RootOnly(t0);
    CreateDone(t0, ROOT, 2, "a", Dir, 2);
    t1 := Created(t0, ROOT, 2, "a", Dir, 2);
    UnlinkDone(t1, ROOT, 2, "a");
    t := RemovedTree(t1, ROOT, 2);
    RemovedShape(t1, ROOT, 2);
    CreateDone(t, 2, 2, "f", File, 3);
    t' := Created(t, 2, 2, "f", File, 3);
    AddedOk(t, 3, File, 2);
    NamelessIs(Added(t, 3, File, 2), 3);
    LinkIntoRemoved(Added(t, 3, File, 2), 2, 2, "f", 3);
  }

  lemma NamelessIs(t: Tree, i: nat)
    requires Inv(t) && i in t.inodes && t.inodes[i].nlink == 0
    ensures Names(t, i) == {}
  {
    hide Shape, Names;
  }

  /** mkdir in a removed directory whose parent is gone too: every count is right, but the
      directory counts as linked, hangs on nothing, and its ".." leads to a freed inode. */
  lemma MkdirInOrphan(t: Tree, d: nat, k: nat, name: string, ip: nat)
    requires Inv(t) && d in t.inodes && t.inodes[d].kind == Dir && t.inodes[d].nlink == 0 && ip !in t.inodes && ip != 0
    requires Fresh(NewInode(t, ip, Dir, d), d, k, name) && EntryAt(t, Slot(d, 1)).inum !in t.inodes.Keys + {ip}
    ensures k <= |t.inodes[d].entries| && d != ip
    ensures var t' := Created(t, d, k, name, Dir, ip);
            && Counted(t') && LinkedDir(t', d) && d !in t'.home && EntryAt(t', Slot(d, 1)).inum !in t'.inodes
            && Names(t', d) == {Slot(ip, 1)}
  {
    hide Inv, Counted, Names, DirOk;
    CreateDone(t, d, k, name, Dir, ip);
    var t1 := Added(t, ip, Dir, d);
    ShapeDir(t, d);
    AddedOk(t, ip, Dir, d);
    ShapeDir(t1, d);
    assert Fresh(t1, d, k, name);
    Placeable(t1, d, k, name);
    hide Fresh, HasInode;
    ReattachedNames(t1, d, k, name, ip, d);
    NamelessIs(t1, d);
    RemovedHome(t1, d);
    SetEntryAt(t1, d, k, Entry(ip, name), Slot(d, 1));
  }

  /** Such a directory comes about: mkdir a; mkdir a/b; cd a/b; rmdir ../b; rmdir ../../a. */
  lemma OrphanIsReachable() returns (t0: Tree, t1: Tree, t2: Tree, t3: Tree, t4: Tree, t5: Tree)
    ensures t0 == Tree(map[ROOT := Inode(Dir, 1, [Entry(ROOT, "."), Entry(ROOT, "..")])], map[])
    ensures HasInode(t0, ROOT, "a", Dir, 2, t1) && HasInode(t1, 2, "b", Dir, 3, t2)
    ensures Removed(t2, 2, 2, "b", t3) && Removed(t3, ROOT, 2, "a", t4) && 2 in t4.inodes && t4.inodes[2].nlink == 0
            && t5 == Reaped(t4, 2)
    ensures Inv(t5) && 3 in t5.inodes && t5.inodes[3] == Inode(Dir, 0, [Entry(3, "."), Entry(2, "..")])
            && 2 !in t5.inodes
  {
    hide Inv, Counted, Names, Removed, HasInode, RemovedTree;
    t0 := Tree(map[ROOT := Inode(Dir, 1, [Entry(ROOT, "."), Entry(ROOT, "..")])], map[]);
    RootOnly(t0);
    CreateDone(t0, ROOT, 2, "a", Dir, 2);
    t1 := Created(t0, ROOT, 2, "a", Dir, 2);
    CreateDone(t1, 2, 2, "b", Dir, 3);
    t2 := Created(t1, 2, 2, "b", Dir, 3);
    UnlinkDone(t2, 2, 2, "b");
    t3 := RemovedTree(t2, 2, 2);
    RemovedShape(t2, 2, 2);
    UnlinkDone(t3, ROOT, 2, "a");
    t4 := RemovedTree(t3, ROOT, 2);
    RemovedShape(t3, ROOT, 2);
    t5 := Reaped(t4, 2);
    ReapedOk(t4, 2);
  }
}
