/** Directories and link counts: what kernel/sysfile.c keeps between system calls. */
module LinkSpec {
  import opened Common

  const DIRSIZ: nat := 14
  const ROOT: nat := 1

  datatype Kind = Dir | File | Device

  /** A directory entry; inum 0 is an empty one. */
  datatype Entry = Entry(inum: nat, name: string)

  const EMPTY := Entry(0, "")

  /** The inodes whose type is not 0; entries are a directory's content. */
  datatype Inode = Inode(kind: Kind, nlink: nat, entries: seq<Entry>)

  datatype Slot = Slot(dir: nat, k: nat)

  /** The inodes, and as history which entry of which directory every directory hangs on. */
  datatype Tree = Tree(inodes: map<nat, Inode>, home: map<nat, Slot>)

  /** strncmp to DIRSIZ sees this much of a name. */
  function Cut(name: string): string { if |name| <= DIRSIZ then name else name[..DIRSIZ] }

  predicate LinkedDir(t: Tree, d: nat) { d in t.inodes && t.inodes[d].kind == Dir && t.inodes[d].nlink > 0 }

  function EntryAt(t: Tree, s: Slot): Entry {
    if s.dir in t.inodes && s.k < |t.inodes[s.dir].entries| then t.inodes[s.dir].entries[s.k] else EMPTY
  }

  /** The entries other than "." that name inode i in linked directories. */
  ghost function Names(t: Tree, i: nat): set<Slot> {
    set d, k | d in t.inodes && 0 <= k < |t.inodes[d].entries| && NamesIt(t, Slot(d, k), i) :: Slot(d, k)
  }

  predicate NamesIt(t: Tree, s: Slot, i: nat) {
    LinkedDir(t, s.dir) && s.k < |t.inodes[s.dir].entries| && EntryAt(t, s).inum == i && EntryAt(t, s).name != "."
  }

  lemma InNames(t: Tree, s: Slot, i: nat)
    ensures s in Names(t, i) <==> NamesIt(t, s, i)
  {
  }

  // ---- The invariant ----

  ghost predicate UniqueNames(entries: seq<Entry>) {
    forall j, k :: 0 <= j < k < |entries| && entries[j].inum != 0 && entries[k].inum != 0 ==>
        entries[j].name != entries[k].name
  }

  ghost predicate DirOk(t: Tree, d: nat)
    requires d in t.inodes
  {
    var ino := t.inodes[d];
    if ino.kind != Dir then ino.entries == []
    else
      && |ino.entries| >= 2 && ino.entries[0] == Entry(d, ".") && ino.entries[1].name == ".."
      && ino.entries[1].inum != 0
      && UniqueNames(ino.entries)
      && (forall k :: 0 <= k < |ino.entries| && ino.nlink > 0 ==> TargetOk(t, d, k))
      && (forall k :: 2 <= k < |ino.entries| && ino.nlink == 0 ==> ino.entries[k].inum == 0)
      && (ino.nlink > 0 && d != ROOT ==> d in t.home)
  }

  /** An entry names an inode that exists; a directory hangs on one entry only. */
  ghost predicate TargetOk(t: Tree, d: nat, k: nat) {
    var i := EntryAt(t, Slot(d, k)).inum;
    i != 0 ==> i in t.inodes && (k >= 2 && t.inodes[i].kind == Dir ==> i in t.home && t.home[i] == Slot(d, k))
  }

  ghost predicate HomeOk(t: Tree, c: nat)
    requires c in t.home
  {
    var s := t.home[c];
    && c != ROOT && c != 0 && LinkedDir(t, c) && LinkedDir(t, s.dir) && s.dir != c && s.k >= 2
    && EntryAt(t, s).inum == c
    && EntryAt(t, Slot(c, 1)).inum == s.dir
  }

  ghost predicate Shape(t: Tree) {
    && 0 !in t.inodes && LinkedDir(t, ROOT) && EntryAt(t, Slot(ROOT, 1)).inum == ROOT && ROOT !in t.home
    && (forall d :: d in t.inodes ==> DirOk(t, d))
    && (forall c :: c in t.home ==> HomeOk(t, c))
  }

  /** Every nlink is the number of names. */
  ghost predicate Counted(t: Tree) { forall i :: i in t.inodes ==> t.inodes[i].nlink == |Names(t, i)| }

  ghost predicate Inv(t: Tree) { Shape(t) && Counted(t) }

  // ---- Elementary changes ----

  /** Entry k of directory d, or a new one at the end. */
  function SetEntry(t: Tree, d: nat, k: nat, e: Entry): Tree
    requires d in t.inodes && k <= |t.inodes[d].entries|
  {
    var es := t.inodes[d].entries;
    t.(inodes := t.inodes[d := t.inodes[d].(entries := if k < |es| then es[k := e] else es + [e])])
  }

  function SetNlink(t: Tree, i: nat, n: nat): Tree
    requires i in t.inodes
  {
    t.(inodes := t.inodes[i := t.inodes[i].(nlink := n)])
  }

  lemma SetEntryAt(t: Tree, d: nat, k: nat, e: Entry, s: Slot)
    requires d in t.inodes && k <= |t.inodes[d].entries|
    ensures EntryAt(SetEntry(t, d, k, e), s) == if s == Slot(d, k) then e else EntryAt(t, s)
  {
  }

  /** Filling an empty slot of a linked directory gives its target one more name. */
  lemma FillNames(t: Tree, d: nat, k: nat, e: Entry, i: nat)
    requires LinkedDir(t, d) && k <= |t.inodes[d].entries| && EntryAt(t, Slot(d, k)).inum == 0 && e.inum != 0
             && e.name != "." && i != 0
    ensures Names(SetEntry(t, d, k, e), i) == Names(t, i) + (if e.inum == i then {Slot(d, k)} else {})
            && Slot(d, k) !in Names(t, i)
  {
    var t' := SetEntry(t, d, k, e);
    forall s ensures s in Names(t', i) <==> s in Names(t, i) || (e.inum == i && s == Slot(d, k)) {
      InNames(t, s, i);
      InNames(t', s, i);
      SetEntryAt(t, d, k, e, s);
    }
  }

  /** Clearing a slot takes the name away. */
  lemma ClearNames(t: Tree, d: nat, k: nat, i: nat)
    requires LinkedDir(t, d) && k < |t.inodes[d].entries| && i != 0
    ensures Names(SetEntry(t, d, k, EMPTY), i) == Names(t, i) - {Slot(d, k)}
  {
    var t' := SetEntry(t, d, k, EMPTY);
    forall s ensures s in Names(t', i) <==> s in Names(t, i) && s != Slot(d, k) {
      InNames(t, s, i);
      InNames(t', s, i);
      SetEntryAt(t, d, k, EMPTY, s);
    }
  }

  /** Counts and home do not change names while no directory becomes linked or unlinked. */
  lemma NlinkNames(t: Tree, t': Tree, i: nat)
    requires t'.inodes.Keys == t.inodes.Keys
    requires forall d :: d in t.inodes ==>
               t'.inodes[d].entries == t.inodes[d].entries && (LinkedDir(t', d) <==> LinkedDir(t, d))
    ensures Names(t', i) == Names(t, i)
  {
    forall s ensures s in Names(t', i) <==> s in Names(t, i) {
      InNames(t, s, i);
      InNames(t', s, i);
    }
  }

  // ---- link ----

  /** Directory d has a free slot k (or the end) and no entry with that name. */
  ghost predicate CanPlace(t: Tree, d: nat, k: nat, name: string) {
    && d in t.inodes && t.inodes[d].kind == Dir && 2 <= k <= |t.inodes[d].entries| && EntryAt(t, Slot(d, k)).inum == 0
    && forall j :: 0 <= j < |t.inodes[d].entries| && t.inodes[d].entries[j].inum != 0 ==>
         t.inodes[d].entries[j].name != name
  }

  function Linked(t: Tree, d: nat, k: nat, name: string, ip: nat): Tree
    requires d in t.inodes && k <= |t.inodes[d].entries| && ip in t.inodes
  {
    SetEntry(SetNlink(t, ip, t.inodes[ip].nlink + 1), d, k, Entry(ip, name))
  }

  lemma PlacedUnique(es: seq<Entry>, k: nat, e: Entry)
    requires UniqueNames(es) && k <= |es| && (k < |es| ==> es[k].inum == 0)
             && forall j :: 0 <= j < |es| && es[j].inum != 0 ==> es[j].name != e.name
    ensures UniqueNames(if k < |es| then es[k := e] else es + [e])
  {
  }

  ghost predicate CanLink(t: Tree, d: nat, k: nat, name: string, ip: nat) {
    && CanPlace(t, d, k, name) && LinkedDir(t, d) && 2 <= k <= |t.inodes[d].entries| && ip in t.inodes
    && t.inodes[ip].kind != Dir && ip != 0 && name != "."
  }

  lemma LinkedAt(t: Tree, d: nat, k: nat, name: string, ip: nat, s: Slot)
    requires CanLink(t, d, k, name, ip)
    ensures EntryAt(Linked(t, d, k, name, ip), s) == if s == Slot(d, k) then Entry(ip, name) else EntryAt(t, s)
  {
    SetEntryAt(SetNlink(t, ip, t.inodes[ip].nlink + 1), d, k, Entry(ip, name), s);
  }

  lemma LinkedTarget(t: Tree, d: nat, k: nat, name: string, ip: nat, x: nat, j: nat)
    requires CanLink(t, d, k, name, ip) && TargetOk(t, x, j)
    ensures TargetOk(Linked(t, d, k, name, ip), x, j)
  {
    LinkedAt(t, d, k, name, ip, Slot(x, j));
    hide EntryAt;
  }

  lemma LinkedDirOk(t: Tree, d: nat, k: nat, name: string, ip: nat, x: nat)
    requires CanLink(t, d, k, name, ip) && DirOk(t, d) && x in t.inodes && DirOk(t, x)
    ensures DirOk(Linked(t, d, k, name, ip), x)
  {
    var t' := Linked(t, d, k, name, ip);
    PlacedUnique(t.inodes[d].entries, k, Entry(ip, name));
    hide UniqueNames, TargetOk, EntryAt;
    forall j | 0 <= j < |t'.inodes[x].entries| && t'.inodes[x].nlink > 0 && t.inodes[x].kind == Dir
      ensures TargetOk(t', x, j) {
      if j < |t.inodes[x].entries| { LinkedTarget(t, d, k, name, ip, x, j); } else { LinkedEnd(t, d, k, name, ip); }
    }
  }

  lemma LinkedEnd(t: Tree, d: nat, k: nat, name: string, ip: nat)
    requires CanLink(t, d, k, name, ip)
    ensures TargetOk(Linked(t, d, k, name, ip), d, k)
  {
    LinkedAt(t, d, k, name, ip, Slot(d, k));
  }

  lemma LinkedHome(t: Tree, d: nat, k: nat, name: string, ip: nat, c: nat)
    requires CanLink(t, d, k, name, ip) && c in t.home && HomeOk(t, c)
    ensures HomeOk(Linked(t, d, k, name, ip), c)
  {
    LinkedAt(t, d, k, name, ip, t.home[c]);
    LinkedAt(t, d, k, name, ip, Slot(c, 1));
    hide EntryAt;
  }

  lemma LinkedCount(t: Tree, d: nat, k: nat, name: string, ip: nat, i: nat)
    requires CanLink(t, d, k, name, ip) && i in t.inodes && i != 0 && t.inodes[i].nlink == |Names(t, i)|
    ensures Linked(t, d, k, name, ip).inodes[i].nlink == |Names(Linked(t, d, k, name, ip), i)|
  {
    hide Names, UniqueNames;
    var t1 := SetNlink(t, ip, t.inodes[ip].nlink + 1);
    NlinkNames(t, t1, i);
    FillNames(t1, d, k, Entry(ip, name), i);
  }

  lemma LinkedOk(t: Tree, d: nat, k: nat, name: string, ip: nat)
    requires Inv(t) && CanLink(t, d, k, name, ip)
    ensures Inv(Linked(t, d, k, name, ip))
  {
    hide DirOk, HomeOk, Names, CanPlace, EntryAt;
    var t' := Linked(t, d, k, name, ip);
    LinkedAt(t, d, k, name, ip, Slot(ROOT, 1));
    forall x | x in t'.inodes ensures DirOk(t', x) { LinkedDirOk(t, d, k, name, ip, x); }
    forall c | c in t'.home ensures HomeOk(t', c) { LinkedHome(t, d, k, name, ip, c); }
    forall i | i in t'.inodes ensures t'.inodes[i].nlink == |Names(t', i)| { LinkedCount(t, d, k, name, ip, i); }
  }

  // ---- unlink of a file ----

  function Unlinked(t: Tree, d: nat, k: nat, ip: nat): Tree
    requires d in t.inodes && k < |t.inodes[d].entries| && ip in t.inodes && t.inodes[ip].nlink > 0
  {
    SetEntry(SetNlink(t, ip, t.inodes[ip].nlink - 1), d, k, EMPTY)
  }

  ghost predicate CanUnlink(t: Tree, d: nat, k: nat, ip: nat) {
    && LinkedDir(t, d) && 2 <= k < |t.inodes[d].entries| && t.inodes[d].entries[k].inum == ip && ip != 0
    && t.inodes[d].entries[k].name != "."
    && ip in t.inodes && t.inodes[ip].kind != Dir && t.inodes[ip].nlink > 0
  }

  lemma UnlinkedAt(t: Tree, d: nat, k: nat, ip: nat, s: Slot)
    requires CanUnlink(t, d, k, ip)
    ensures EntryAt(Unlinked(t, d, k, ip), s) == if s == Slot(d, k) then EMPTY else EntryAt(t, s)
  {
    SetEntryAt(SetNlink(t, ip, t.inodes[ip].nlink - 1), d, k, EMPTY, s);
  }

  lemma UnlinkedDirOk(t: Tree, d: nat, k: nat, ip: nat, x: nat)
    requires CanUnlink(t, d, k, ip) && x in t.inodes && DirOk(t, x)
    ensures DirOk(Unlinked(t, d, k, ip), x)
  {
    var t' := Unlinked(t, d, k, ip);
    forall j | 0 <= j < |t'.inodes[x].entries| && t'.inodes[x].nlink > 0 && t.inodes[x].kind == Dir
      ensures TargetOk(t', x, j) {
      assert TargetOk(t, x, j);
      UnlinkedAt(t, d, k, ip, Slot(x, j));
    }
    hide TargetOk, EntryAt;
  }

  lemma UnlinkedHome(t: Tree, d: nat, k: nat, ip: nat, c: nat)
    requires CanUnlink(t, d, k, ip) && c in t.home && HomeOk(t, c)
    ensures HomeOk(Unlinked(t, d, k, ip), c)
  {
    UnlinkedAt(t, d, k, ip, t.home[c]);
    UnlinkedAt(t, d, k, ip, Slot(c, 1));
  }

  lemma UnlinkedCount(t: Tree, d: nat, k: nat, ip: nat, i: nat)
    requires CanUnlink(t, d, k, ip) && i in t.inodes && i != 0 && t.inodes[i].nlink == |Names(t, i)|
    ensures Unlinked(t, d, k, ip).inodes[i].nlink == |Names(Unlinked(t, d, k, ip), i)|
  {
    var t1 := SetNlink(t, ip, t.inodes[ip].nlink - 1);
    NlinkNames(t, t1, i);
    ClearNames(t1, d, k, i);
    InNames(t, Slot(d, k), i);
    hide Names;
  }

  lemma UnlinkedOk(t: Tree, d: nat, k: nat, ip: nat)
    requires Inv(t) && CanUnlink(t, d, k, ip)
    ensures Inv(Unlinked(t, d, k, ip))
  {
    hide DirOk, HomeOk, Names, EntryAt;
    var t' := Unlinked(t, d, k, ip);
    UnlinkedAt(t, d, k, ip, Slot(ROOT, 1));
    forall x | x in t'.inodes ensures DirOk(t', x) { UnlinkedDirOk(t, d, k, ip, x); }
    forall c | c in t'.home ensures HomeOk(t', c) { UnlinkedHome(t, d, k, ip, c); }
    forall i | i in t'.inodes ensures t'.inodes[i].nlink == |Names(t', i)| { UnlinkedCount(t, d, k, ip, i); }
  }

  // ---- Inodes come and go with no names ----

  function Added(t: Tree, ip: nat, kind: Kind, parent: nat): Tree {
    t.(inodes := t.inodes[ip := Inode(kind, 0, if kind == Dir then [Entry(ip, "."), Entry(parent, "..")] else [])])
  }

  lemma AddedOk(t: Tree, ip: nat, kind: Kind, parent: nat)
    requires Inv(t) && ip !in t.inodes && ip != 0 && parent != 0
    ensures Inv(Added(t, ip, kind, parent))
  {
    hide DirOk, HomeOk, Names, EntryAt;
    var t' := Added(t, ip, kind, parent);
    AddedNew(t, ip, kind, parent);
    forall x | x in t.inodes ensures DirOk(t', x) { AddedDirOk(t, ip, kind, parent, x); }
    forall c | c in t.home ensures HomeOk(t', c) { AddedHome(t, ip, kind, parent, c); }
    forall i ensures Names(t', i) == Names(t, i) { AddedNames(t, ip, kind, parent, i); }
    NoNames(t, ip);
  }

  lemma AddedNew(t: Tree, ip: nat, kind: Kind, parent: nat)
    requires ip !in t.inodes && ip != 0 && parent != 0 && ROOT in t.inodes
    ensures DirOk(Added(t, ip, kind, parent), ip)
            && EntryAt(Added(t, ip, kind, parent), Slot(ROOT, 1)) == EntryAt(t, Slot(ROOT, 1))
  {
  }

  lemma AddedDirOk(t: Tree, ip: nat, kind: Kind, parent: nat, x: nat)
    requires ip !in t.inodes && x in t.inodes && DirOk(t, x)
    ensures DirOk(Added(t, ip, kind, parent), x)
  {
    forall j | 0 <= j < |t.inodes[x].entries| && t.inodes[x].nlink > 0 && t.inodes[x].kind == Dir
      ensures TargetOk(Added(t, ip, kind, parent), x, j) {
      assert TargetOk(t, x, j);
    }
    hide TargetOk;
  }

  lemma AddedHome(t: Tree, ip: nat, kind: Kind, parent: nat, c: nat)
    requires ip !in t.inodes && c in t.home && HomeOk(t, c)
    ensures HomeOk(Added(t, ip, kind, parent), c)
  {
  }

  lemma AddedNames(t: Tree, ip: nat, kind: Kind, parent: nat, i: nat)
    requires ip !in t.inodes
    ensures Names(Added(t, ip, kind, parent), i) == Names(t, i)
  {
    forall s ensures s in Names(Added(t, ip, kind, parent), i) <==> s in Names(t, i) {
      InNames(t, s, i);
      InNames(Added(t, ip, kind, parent), s, i);
    }
  }

  /** An inode that does not exist has no names. */
  lemma NoNames(t: Tree, i: nat)
    requires Shape(t) && i !in t.inodes && i != 0
    ensures Names(t, i) == {}
  {
    forall s ensures s !in Names(t, i) {
      InNames(t, s, i);
      if s.dir in t.inodes && s.k < |t.inodes[s.dir].entries| && LinkedDir(t, s.dir) {
        assert DirOk(t, s.dir);
        assert TargetOk(t, s.dir, s.k);
      }
    }
  }

  /** iput of an unnamed inode that nobody holds. */
  function Reaped(t: Tree, i: nat): Tree { t.(inodes := t.inodes - {i}) }

  lemma ReapedDirOk(t: Tree, i: nat, x: nat)
    requires x in t.inodes && DirOk(t, x) && x != i && x != 0 && i in t.inodes && i != 0
    requires forall k: nat :: !NamesIt(t, Slot(x, k), i)
    ensures DirOk(Reaped(t, i), x)
  {
    forall j | 0 <= j < |t.inodes[x].entries| && t.inodes[x].nlink > 0 && t.inodes[x].kind == Dir
      ensures TargetOk(Reaped(t, i), x, j) {
      assert TargetOk(t, x, j);
      assert !NamesIt(t, Slot(x, j), i);
      assert t.inodes[x].entries[j].name == "." && t.inodes[x].entries[j].inum != 0 ==> j == 0;
    }
    hide TargetOk;
  }

  lemma ReapedHome(t: Tree, i: nat, c: nat)
    requires c in t.home && HomeOk(t, c) && i in t.inodes && t.inodes[i].nlink == 0
    ensures HomeOk(Reaped(t, i), c)
  {
  }

  lemma ReapedNames(t: Tree, i: nat, j: nat)
    requires i in t.inodes && t.inodes[i].nlink == 0
    ensures Names(Reaped(t, i), j) == Names(t, j)
  {
    forall s ensures s in Names(Reaped(t, i), j) <==> s in Names(t, j) {
      InNames(t, s, j);
      InNames(Reaped(t, i), s, j);
    }
  }

  lemma ReapedOk(t: Tree, i: nat)
    requires Inv(t) && i in t.inodes && t.inodes[i].nlink == 0
    ensures Inv(Reaped(t, i))
  {
    hide DirOk, HomeOk, Names, NamesIt;
    var t' := Reaped(t, i);
    forall x | x in t'.inodes ensures DirOk(t', x) {
      forall k: nat ensures !NamesIt(t, Slot(x, k), i) { InNames(t, Slot(x, k), i); }
      ReapedDirOk(t, i, x);
    }
    forall c | c in t.home ensures HomeOk(t', c) { ReapedHome(t, i, c); }
    forall j ensures Names(t', j) == Names(t, j) { ReapedNames(t, i, j); }
  }

  // ---- Hanging a directory into the tree, and taking it out ----

  /** Directory ip holds only "." and "..", and ".." is d. */
  ghost predicate Bare(t: Tree, ip: nat, d: nat) {
    && ip in t.inodes && t.inodes[ip].kind == Dir && |t.inodes[ip].entries| >= 2
    && t.inodes[ip].entries[0] == Entry(ip, ".") && t.inodes[ip].entries[1] == Entry(d, "..")
    && forall k :: 2 <= k < |t.inodes[ip].entries| ==> t.inodes[ip].entries[k].inum == 0
  }

  function Attached(t: Tree, d: nat, k: nat, name: string, ip: nat): Tree
    requires d in t.inodes && k <= |t.inodes[d].entries| && ip in t.inodes && d != ip
  {
    SetNlink(SetNlink(SetEntry(t, d, k, Entry(ip, name)), d, t.inodes[d].nlink + 1), ip,
             1).(home := t.home[ip := Slot(d, k)])
  }

  ghost predicate CanAttach(t: Tree, d: nat, k: nat, name: string, ip: nat) {
    && CanPlace(t, d, k, name) && LinkedDir(t, d) && 2 <= k <= |t.inodes[d].entries| && name != "." && d != 0
    && ip != 0 && d != ip && ip != ROOT
    && Bare(t, ip, d) && ip in t.inodes && t.inodes[ip].nlink == 0
  }

  lemma AttachedAt(t: Tree, d: nat, k: nat, name: string, ip: nat, s: Slot)
    requires CanAttach(t, d, k, name, ip)
    ensures EntryAt(Attached(t, d, k, name, ip), s) == if s == Slot(d, k) then Entry(ip, name) else EntryAt(t, s)
    ensures forall x :: LinkedDir(Attached(t, d, k, name, ip), x) <==> LinkedDir(t, x) || x == ip
  {
    SetEntryAt(t, d, k, Entry(ip, name), s);
  }

  lemma AttachedNames(t: Tree, d: nat, k: nat, name: string, ip: nat, i: nat)
    requires CanAttach(t, d, k, name, ip) && i != 0
    ensures Names(Attached(t, d, k, name, ip), i) ==
            Names(t, i) + (if i == ip then {Slot(d, k)} else if i == d then {Slot(ip, 1)} else {})
    ensures Slot(d, k) !in Names(t, i) && Slot(ip, 1) !in Names(t, i)
  {
    var t' := Attached(t, d, k, name, ip);
    forall s ensures s in Names(t', i) <==>
        s in Names(t, i) || (i == ip && s == Slot(d, k)) || (i == d && s == Slot(ip, 1)) {
      InNames(t, s, i);
      InNames(t', s, i);
      AttachedAt(t, d, k, name, ip, s);
    }
    InNames(t, Slot(d, k), i);
    InNames(t, Slot(ip, 1), i);
  }

  lemma AttachedTarget(t: Tree, d: nat, k: nat, name: string, ip: nat, x: nat, j: nat)
    requires CanAttach(t, d, k, name, ip) && d in t.inodes && (TargetOk(t, x, j) || Slot(x, j) == Slot(d, k))
             && EntryAt(t, Slot(x, j)).inum != ip
    ensures TargetOk(Attached(t, d, k, name, ip), x, j)
  {
    AttachedAt(t, d, k, name, ip, Slot(x, j));
  }

  lemma AttachedDirOk(t: Tree, d: nat, k: nat, name: string, ip: nat, x: nat)
    requires CanAttach(t, d, k, name, ip) && DirOk(t, d) && x in t.inodes && DirOk(t, x) && x != ip
             && (LinkedDir(t, x) ==> forall j: nat :: EntryAt(t, Slot(x, j)).inum != ip)
    ensures DirOk(Attached(t, d, k, name, ip), x)
  {
    var t' := Attached(t, d, k, name, ip);
    PlacedUnique(t.inodes[d].entries, k, Entry(ip, name));
    hide UniqueNames, TargetOk, EntryAt;
    forall j | 0 <= j < |t'.inodes[x].entries| && t'.inodes[x].nlink > 0 && t.inodes[x].kind == Dir
      ensures TargetOk(t', x, j) {
      AttachedTarget(t, d, k, name, ip, x, j);
    }
  }

  lemma AttachedSelf(t: Tree, d: nat, k: nat, name: string, ip: nat)
    requires CanAttach(t, d, k, name, ip) && DirOk(t, ip)
    ensures DirOk(Attached(t, d, k, name, ip), ip)
  {
    var t' := Attached(t, d, k, name, ip);
    forall j | 0 <= j < |t'.inodes[ip].entries| ensures TargetOk(t', ip, j) {
      AttachedAt(t, d, k, name, ip, Slot(ip, j));
    }
    hide TargetOk;
  }

  lemma AttachedHome(t: Tree, d: nat, k: nat, name: string, ip: nat, c: nat)
    requires CanAttach(t, d, k, name, ip) && (c == ip || (c in t.home && HomeOk(t, c)))
    ensures HomeOk(Attached(t, d, k, name, ip), c)
  {
    var t' := Attached(t, d, k, name, ip);
    AttachedAt(t, d, k, name, ip, t'.home[c]);
    AttachedAt(t, d, k, name, ip, Slot(c, 1));
  }

  /** An inode without names is named by no entry of another linked directory. */
  lemma Unnamed(t: Tree, i: nat, x: nat, j: nat)
    requires Inv(t) && i in t.inodes && t.inodes[i].nlink == 0 && LinkedDir(t, x) && x != i
    ensures EntryAt(t, Slot(x, j)).inum != i
  {
    InNames(t, Slot(x, j), i);
    assert DirOk(t, x);
    assert Names(t, i) == {};
    assert j < |t.inodes[x].entries| && t.inodes[x].entries[j].name == "." && t.inodes[x].entries[j].inum != 0 ==>
             j == 0;
  }

  lemma AttachedOk(t: Tree, d: nat, k: nat, name: string, ip: nat)
    requires Inv(t) && CanAttach(t, d, k, name, ip)
    ensures Inv(Attached(t, d, k, name, ip))
  {
    hide DirOk, HomeOk, Names, EntryAt, CanPlace, Bare;
    var t' := Attached(t, d, k, name, ip);
    AttachedAt(t, d, k, name, ip, Slot(ROOT, 1));
    AttachedSelf(t, d, k, name, ip);
    forall x | x in t'.inodes && x != ip ensures DirOk(t', x) {
      if LinkedDir(t, x) { forall j: nat ensures EntryAt(t, Slot(x, j)).inum != ip { Unnamed(t, ip, x, j); } }
      AttachedDirOk(t, d, k, name, ip, x);
    }
    forall c | c in t'.home ensures HomeOk(t', c) { AttachedHome(t, d, k, name, ip, c); }
    forall i | i in t'.inodes ensures t'.inodes[i].nlink == |Names(t', i)| { AttachedNames(t, d, k, name, ip, i); }
  }

  function Detached(t: Tree, d: nat, k: nat, ip: nat): Tree
    requires d in t.inodes && k < |t.inodes[d].entries| && ip in t.inodes && d != ip && t.inodes[d].nlink > 0
             && t.inodes[ip].nlink > 0
  {
    SetNlink(SetNlink(SetEntry(t, d, k, EMPTY), d, t.inodes[d].nlink - 1), ip,
             t.inodes[ip].nlink - 1).(home := t.home - {ip})
  }

  ghost predicate CanDetach(t: Tree, d: nat, k: nat, ip: nat) {
    && LinkedDir(t, d) && 2 <= k < |t.inodes[d].entries| && t.inodes[d].entries[k].inum == ip
    && t.inodes[d].entries[k].name != "."
    && LinkedDir(t, ip) && Bare(t, ip, d) && ip in t.home && t.home[ip] == Slot(d, k) && d != 0 && ip != 0 && d != ip
    && ip != ROOT
  }

  /** What the invariant says of one linked directory. */
  ghost predicate LinkedOk1(t: Tree, x: nat) {
    LinkedDir(t, x) && DirOk(t, x) && (x == ROOT || (x in t.home && HomeOk(t, x)))
    && EntryAt(t, Slot(ROOT, 1)).inum == ROOT
  }

  lemma LinkedFacts(t: Tree, x: nat)
    requires Shape(t) && LinkedDir(t, x)
    ensures LinkedOk1(t, x) && x != 0
  {
    assert DirOk(t, x);
    hide HomeOk, TargetOk, UniqueNames;
  }

  lemma NameIsHome(t: Tree, d: nat, k: nat, ip: nat, s: Slot)
    requires CanDetach(t, d, k, ip) && LinkedOk1(t, s.dir) && s.dir != 0 && NamesIt(t, s, ip)
    ensures s == Slot(d, k)
  {
    assert TargetOk(t, s.dir, s.k);
  }

  /** A bare directory has one name, so removing it leaves none. */
  lemma OnlyName(t: Tree, d: nat, k: nat, ip: nat)
    requires Inv(t) && CanDetach(t, d, k, ip)
    ensures Names(t, ip) == {Slot(d, k)} && t.inodes[ip].nlink == 1
  {
    hide DirOk, HomeOk, LinkedOk1, Bare, Names;
    forall s ensures s in Names(t, ip) <==> s == Slot(d, k) {
      InNames(t, s, ip);
      if NamesIt(t, s, ip) {
        LinkedFacts(t, s.dir);
        NameIsHome(t, d, k, ip, s);
      }
    }
    assert Names(t, ip) == {Slot(d, k)};
  }

  /** The entry a directory hangs on; the root's is its own "..". */
  function Own(t: Tree, d: nat): Slot { if d == ROOT || d !in t.home then Slot(ROOT, 1) else t.home[d] }

  lemma OwnName(t: Tree, d: nat)
    requires LinkedOk1(t, d) && d != 0 && LinkedOk1(t, Own(t, d).dir) && Own(t, d).dir != 0
    ensures NamesIt(t, Own(t, d), d)
  {
    var s := Own(t, d);
    assert s.k < |t.inodes[s.dir].entries|;
    assert UniqueNames(t.inodes[s.dir].entries);
  }

  /** Its parent keeps a name of its own. */
  lemma ParentStays(t: Tree, d: nat, k: nat, ip: nat)
    requires Inv(t) && CanDetach(t, d, k, ip)
    ensures t.inodes[d].nlink >= 2
  {
    hide DirOk, Names;
    LinkedFacts(t, d);
    LinkedFacts(t, ip);
    LinkedFacts(t, Own(t, d).dir);
    OwnName(t, d);
    InNames(t, Own(t, d), d);
    InNames(t, Slot(ip, 1), d);
    AtLeastTwo(Names(t, d), Own(t, d), Slot(ip, 1));
  }

  lemma AtLeastTwo(s: set<Slot>, a: Slot, b: Slot)
    requires a in s && b in s && a != b
    ensures |s| >= 2
  {
    assert |s - {a}| == |s| - 1 && b in s - {a};
  }

  lemma DetachedAt(t: Tree, d: nat, k: nat, ip: nat, s: Slot)
    requires CanDetach(t, d, k, ip) && t.inodes[ip].nlink == 1 && t.inodes[d].nlink >= 2
    ensures EntryAt(Detached(t, d, k, ip), s) == if s == Slot(d, k) then EMPTY else EntryAt(t, s)
    ensures forall x :: LinkedDir(Detached(t, d, k, ip), x) <==> LinkedDir(t, x) && x != ip
  {
    SetEntryAt(t, d, k, EMPTY, s);
  }

  lemma DetachedNames(t: Tree, d: nat, k: nat, ip: nat, i: nat)
    requires CanDetach(t, d, k, ip) && t.inodes[ip].nlink == 1 && t.inodes[d].nlink >= 2 && i != 0
    ensures Names(Detached(t, d, k, ip), i) ==
            Names(t, i) - (if i == ip then {Slot(d, k)} else if i == d then {Slot(ip, 1)} else {})
    ensures (i == ip ==> Slot(d, k) in Names(t, i)) && (i == d ==> Slot(ip, 1) in Names(t, i))
  {
    var t' := Detached(t, d, k, ip);
    forall s ensures s in Names(t', i) <==>
        s in Names(t, i) && !(i == ip && s == Slot(d, k)) && !(i == d && s == Slot(ip, 1)) {
      InNames(t, s, i);
      InNames(t', s, i);
      DetachedAt(t, d, k, ip, s);
    }
    InNames(t, Slot(d, k), i);
    InNames(t, Slot(ip, 1), i);
  }

  lemma DetachedDirOk(t: Tree, d: nat, k: nat, ip: nat, x: nat)
    requires CanDetach(t, d, k, ip) && t.inodes[ip].nlink == 1 && t.inodes[d].nlink >= 2 && x in t.inodes && DirOk(t, x)
    requires x != ip && LinkedDir(t, x) ==> forall j: nat :: NamesIt(t, Slot(x, j), ip) ==> Slot(x, j) == Slot(d, k)
    ensures DirOk(Detached(t, d, k, ip), x)
  {
    var t' := Detached(t, d, k, ip);
    forall j | 0 <= j < |t'.inodes[x].entries| && t'.inodes[x].nlink > 0 && t.inodes[x].kind == Dir
      ensures TargetOk(t', x, j) {
      DetachedAt(t, d, k, ip, Slot(x, j));
      assert TargetOk(t, x, j);
      assert NamesIt(t, Slot(x, j), ip) ==> Slot(x, j) == Slot(d, k);
    }
    hide TargetOk;
  }

  lemma DetachedHome(t: Tree, d: nat, k: nat, ip: nat, c: nat)
    requires CanDetach(t, d, k, ip) && t.inodes[ip].nlink == 1 && t.inodes[d].nlink >= 2 && c in t.home
             && HomeOk(t, c) && c != ip && t.home[c] != Slot(d, k)
    requires t.home[c].dir != ip
    ensures HomeOk(Detached(t, d, k, ip), c)
  {
    DetachedAt(t, d, k, ip, t.home[c]);
    DetachedAt(t, d, k, ip, Slot(c, 1));
  }

  lemma HomeApart(t: Tree, d: nat, k: nat, ip: nat, c: nat)
    requires CanDetach(t, d, k, ip) && c in t.home && HomeOk(t, c) && c != ip
    ensures t.home[c] != Slot(d, k) && t.home[c].dir != ip
  {
  }

  lemma DetachedOk(t: Tree, d: nat, k: nat, ip: nat)
    requires Inv(t) && CanDetach(t, d, k, ip)
    ensures t.inodes[ip].nlink == 1 && t.inodes[d].nlink >= 2 && Inv(Detached(t, d, k, ip))
  {
    hide DirOk, HomeOk, Names, NamesIt, EntryAt, Bare;
    OnlyName(t, d, k, ip);
    ParentStays(t, d, k, ip);
    var t' := Detached(t, d, k, ip);
    DetachedAt(t, d, k, ip, Slot(ROOT, 1));
    forall x | x in t'.inodes ensures DirOk(t', x) {
      forall j: nat ensures NamesIt(t, Slot(x, j), ip) ==> Slot(x, j) == Slot(d, k) { InNames(t, Slot(x, j), ip); }
      DetachedDirOk(t, d, k, ip, x);
    }
    forall c | c in t'.home ensures HomeOk(t', c) {
      HomeApart(t, d, k, ip, c);
      DetachedHome(t, d, k, ip, c);
    }
    forall i | i in t'.inodes ensures t'.inodes[i].nlink == |Names(t', i)| { DetachedNames(t, d, k, ip, i); }
  }

  // ---- Names in a removed directory ----

  /** A directory that is still open but has no link: entries in it are no names. */
  lemma RemovedNames(t: Tree, t': Tree, d: nat, i: nat)
    requires d in t.inodes && t.inodes[d].nlink == 0 && !LinkedDir(t', d)
    requires forall x :: x in t'.inodes && LinkedDir(t', x) ==>
               x in t.inodes && LinkedDir(t, x) && t'.inodes[x].entries == t.inodes[x].entries
    requires forall x :: LinkedDir(t, x) ==> LinkedDir(t', x)
    ensures Names(t', i) == Names(t, i)
  {
    forall s ensures s in Names(t', i) <==> s in Names(t, i) {
      InNames(t, s, i);
      InNames(t', s, i);
    }
  }

  /** link and create of a file into a directory with no link break the count. */
  lemma LinkIntoRemoved(t: Tree, d: nat, k: nat, name: string, ip: nat)
    requires Inv(t) && CanPlace(t, d, k, name) && t.inodes[d].nlink == 0 && ip in t.inodes && t.inodes[ip].kind != Dir
    ensures !Counted(Linked(t, d, k, name, ip)) && Names(Linked(t, d, k, name, ip), ip) == Names(t, ip)
  {
    hide Shape, Names;
    var t' := Linked(t, d, k, name, ip);
    LinkedElsewhere(t, d, k, name, ip);
    RemovedNames(t, t', d, ip);
    assert t'.inodes[ip].nlink == t.inodes[ip].nlink + 1;
  }

  lemma LinkedElsewhere(t: Tree, d: nat, k: nat, name: string, ip: nat)
    requires CanPlace(t, d, k, name) && t.inodes[d].nlink == 0 && ip in t.inodes && t.inodes[ip].kind != Dir
    ensures var t' := Linked(t, d, k, name, ip);
            && !LinkedDir(t', d) && ip in t'.inodes && t'.inodes[ip].nlink == t.inodes[ip].nlink + 1
            && (forall x :: x in t'.inodes && LinkedDir(t', x) ==>
                x in t.inodes && LinkedDir(t, x) && t'.inodes[x].entries == t.inodes[x].entries)
            && (forall x :: LinkedDir(t, x) ==> LinkedDir(t', x))
  {
  }

  /** mkdir makes a removed directory d count as linked again, so that its ".." is a name too. */
  lemma ReattachedNames(t: Tree, d: nat, k: nat, name: string, ip: nat, i: nat)
    requires CanPlace(t, d, k, name) && t.inodes[d].nlink == 0 && DirOk(t, d) && d != ip && name != "." && i != 0
             && ip != 0
    requires Bare(t, ip, d) && t.inodes[ip].nlink == 0
    ensures Names(Attached(t, d, k, name, ip), i)
         == Names(t, i) + (if i == ip then {Slot(d, k)} else {}) + (if i == d then {Slot(ip, 1)} else {})
            + (if i == EntryAt(t, Slot(d, 1)).inum then {Slot(d, 1)} else {})
    ensures Slot(d, k) !in Names(t, i) && Slot(ip, 1) !in Names(t, i) && Slot(d, 1) !in Names(t, i)
  {
    var t', up := Attached(t, d, k, name, ip), EntryAt(t, Slot(d, 1)).inum;
    forall s ensures s in Names(t', i) <==>
        s in Names(t, i) || (i == ip && s == Slot(d, k)) || (i == d && s == Slot(ip, 1))
        || (i == up && s == Slot(d, 1)) {
      InNames(t, s, i);
      InNames(t', s, i);
      SetEntryAt(t, d, k, Entry(ip, name), s);
      hide UniqueNames, TargetOk;
    }
    InNames(t, Slot(d, k), i);
    InNames(t, Slot(ip, 1), i);
    InNames(t, Slot(d, 1), i);
  }

  /** The counts then hold exactly if that ".." leads to no inode any more. */
  lemma AttachToRemovedCounts(t: Tree, d: nat, k: nat, name: string, ip: nat)
    requires Inv(t) && CanPlace(t, d, k, name) && t.inodes[d].nlink == 0 && d != ip && name != "."
    requires ip in t.inodes && Bare(t, ip, d) && t.inodes[ip].nlink == 0
    ensures Counted(Attached(t, d, k, name, ip)) <==> EntryAt(t, Slot(d, 1)).inum !in t.inodes
  {
    hide Names, DirOk, HomeOk, Bare, EntryAt;
    var t', up := Attached(t, d, k, name, ip), EntryAt(t, Slot(d, 1)).inum;
    forall i | i in t.inodes ensures (t'.inodes[i].nlink == |Names(t', i)|) <==> i != up {
      ReattachedNames(t, d, k, name, ip, i);
      assert t'.inodes[i].nlink == t.inodes[i].nlink + (if i == ip then 1 else 0) + if i == d then 1 else 0;
      assert i == up ==> |Names(t', i)| == |Names(t, i)| + (if i == ip then 1 else 0) + (if i == d then 1 else 0) + 1;
    }
    assert t'.inodes.Keys == t.inodes.Keys;
  }

  /** But the tree is broken all the same: a linked directory that hangs on nothing, or whose
      ".." leads nowhere. */
  lemma AttachToRemoved(t: Tree, d: nat, k: nat, name: string, ip: nat)
    requires Inv(t) && CanPlace(t, d, k, name) && t.inodes[d].nlink == 0 && ip in t.inodes && d != ip
    ensures !Inv(Attached(t, d, k, name, ip))
  {
    RemovedHome(t, d);
    hide Inv;
    LinkedHasHome(Attached(t, d, k, name, ip), d);
  }

  lemma RemovedHome(t: Tree, d: nat)
    requires Inv(t) && d in t.inodes && t.inodes[d].nlink == 0
    ensures d !in t.home && d != ROOT
  {
    hide DirOk;
    assert d in t.home ==> HomeOk(t, d);
  }

  lemma LinkedHasHome(t: Tree, d: nat)
    requires LinkedDir(t, d) && d != ROOT && d !in t.home
    ensures !Inv(t)
  {
    assert Inv(t) ==> DirOk(t, d);
  }
}
