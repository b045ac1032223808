/** The log and cache code against group commit: the abstract transaction system of module
    GroupCommit is what the code of kernel/log.c and kernel/bio.c implements. */
module CrashSafety {
  import opened Common
  import opened Bio
  import opened LogSpec
  import opened Logging
  import Group = GroupCommit

  /** The blocks outside the log. */
  ghost function Home(d: seq<Block>, l: Layout): map<nat, Block> { map bn: nat | bn < |d| && !InLog(l, bn) :: d[bn] }

  /** The logical disk is the view, the disk is what is durable, and the header lists the same blocks. */
  ghost predicate Implements(c: Cache, l: Layout, lh: seq<int>, s: Group.Sys) {
    && s.view == Home(Logical(c), l) && s.durable == Home(c.disk, l) && s.size == l.size
    && |s.lh| == |lh| && forall i :: 0 <= i < |lh| ==> s.lh[i] == lh[i]
  }

  /** File system calls that do not store keep everything abstract as it is. */
  lemma CallImplements(c: Cache, l: Layout, lh: seq<int>, call: Call, s: Group.Sys)
    requires Inv(c) && OpCall(c, l, lh, call) && !call.SetData? && Implements(c, l, lh, s)
    ensures Implements(Apply(c, call), l, lh, s)
  {
    ApplyRefines(c, call);
    hide Inv, View, Logical, Home;
  }

  /** A store followed by log_write is one step of group commit. */
  lemma LogWriteImplements(c: Cache, l: Layout, lh: seq<int>, b: nat, data: Block, s: Group.Sys, i: nat)
    requires Inv(c) && b < NBUF && c.bufs[b].locked && c.bufs[b].valid && !InLog(l, c.bufs[b].blockno)
             && Implements(c, l, lh, s)
    requires Group.Enabled(s, Group.LogWrite(i, c.bufs[b].blockno, data)) && !Group.TooBig(s)
    ensures var bn, c1 := c.bufs[b].blockno, Store(c, b, data);
            var s' := Group.Apply(s, Group.LogWrite(i, bn, data));
            Implements(if bn in lh then c1 else Pin(c1, b), l, if bn in lh then lh else lh + [bn], s')
  {
    hide View, Logical, Distinct, Permutation, Clean;
    StoreView(c, b, data);
    PinView(Store(c, b, data), b);
    var bn := c.bufs[b].blockno;
    assert Placed(c, c.bufs[b]);
    hide Inv;
    assert bn in lh <==> bn in s.lh by {
      if bn in lh { var j :| 0 <= j < |lh| && lh[j] == bn; assert s.lh[j] == bn; }
      if bn in s.lh { var j :| 0 <= j < |s.lh| && s.lh[j] == bn; assert lh[j] == bn; }
    }
    assert Home(Logical(c)[bn := data], l) == Home(Logical(c), l)[bn := data];
  }

  /** What a crash of the abstract system leaves while it commits, before and after its commit point. */
  ghost predicate AfterCrash(s: Group.Sys, done: bool, home: map<nat, Block>) {
    Group.Enabled(s, Group.CommitPoint)
    && home == Group.Apply(if done then Group.Apply(s, Group.CommitPoint) else s, Group.Crash).view
  }

  lemma CrashViews(c: Cache, l: Layout, lh: seq<int>, s: Group.Sys)
    requires Implements(c, l, lh, s) && lh != [] && s.committing && !s.panicked && s.committed <= |s.history|
    ensures AfterCrash(s, false, Home(c.disk, l)) && AfterCrash(s, true, Home(Logical(c), l))
  {
    hide Home, Logical, View;
  }

  /** Crash anywhere in commit() and recover, however often recovery crashes too: the home blocks
      are those of the abstract crash, before the commit point or after it. */
  lemma CrashImplements(c0: Cache, t0: seq<seq<Block>>, l: Layout, lh: seq<int>, pins: seq<nat>,
                        c: Cache, t: seq<seq<Block>>, k: nat, boots: seq<seq<Block>>, s: Group.Sys)
    requires LogInv(c0, l, lh, pins) && AllLogged(c0, lh) && Committed(c0, t0, l, lh, pins, c, t) && lh != []
    requires |t0| <= k < |t| && CrashChain(boots, l) && boots[0] == t[k]
    requires Implements(c0, l, lh, s) && s.committing && !s.panicked && s.committed <= |s.history|
    ensures WellFormed(boots[|boots| - 1], l)
    ensures AfterCrash(s, k >= |t0| + |lh|, Home(Recovered(boots[|boots| - 1], l), l))
  {
    hide LogInv, AllLogged, Committed, Recovered, Logical, View, WellFormed, CrashedRecovery, Implements, AfterCrash,
         Home, SameHome;
    CommitIsAtomic(c0, t0, l, lh, pins, c, t, k, boots);
    CrashViews(c0, l, lh, s);
    var r := Recovered(boots[|boots| - 1], l);
    if k < |t0| + |lh| { SameHomes(r, c0.disk, l); } else { SameHomes(r, Logical(c0), l); }
  }

  lemma SameHomes(d: seq<Block>, e: seq<Block>, l: Layout)
    requires SameHome(d, e, l)
    ensures Home(d, l) == Home(e, l)
  {
  }

  /** A commit() that runs to its end is the commit point and, with the pins dropped, the end of the
      abstract commit. */
  lemma CommitImplements(c0: Cache, t0: seq<seq<Block>>, l: Layout, lh: seq<int>, pins: seq<nat>, c: Cache,
                         t: seq<seq<Block>>, s: Group.Sys)
    requires LogInv(c0, l, lh, pins) && Committed(c0, t0, l, lh, pins, c, t) && lh != []
    requires Implements(c0, l, lh, s) && s.committing && !s.panicked
    ensures Group.Enabled(s, Group.CommitPoint)
    ensures var s1 := Group.Apply(s, Group.CommitPoint).(pinned := 0);
            Group.Enabled(s1, Group.CommitDone) && Implements(c, l, [], Group.Apply(s1, Group.CommitDone))
  {
    hide LogInv, Logical, View, Home, SameHome, Steady, DropAll, CommitTrace;
    SameHomes(c.disk, Logical(c0), l);
  }
}
