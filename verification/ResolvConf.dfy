/**
 The resolver switch of daemon/internal/ops/dns.go: /etc/resolv.conf is replaced for a session
 and put back afterwards, and the process may die between any two file operations. A plan lists
 the operations of one call; a run that dies, or whose next operation fails, has executed a
 prefix of the plan.
 */
module ResolvConf {
  import opened Common

  /** Permission bits. */
  type Mode = set<nat>
  const MODE_0644: Mode := {8, 7, 5, 2}

  datatype Entry = Missing | File(data: string, mode: Mode) | Link(target: string)

  datatype Path = Resolv | Tmp | Bak | Marker

  /** The four entries, and the files that symlinks among them lead to. */
  datatype Fs = Fs(resolv: Entry, tmp: Entry, bak: Entry, marker: Entry,
                   outside: map<string, Entry>, umask: Mode)
  {
    function At(p: Path): Entry {
      match p
      case Resolv => resolv
      case Tmp => tmp
      case Bak => bak
      case Marker => marker
    }

    function Put(p: Path, e: Entry): Fs {
      match p
      case Resolv => this.(resolv := e)
      case Tmp => this.(tmp := e)
      case Bak => this.(bak := e)
      case Marker => this.(marker := e)
    }

    function Target(t: string): Entry {
      if t in outside then outside[t] else Missing
    }

    /** A snapshot exists, so another Set must not take one. */
    predicate HasRecord() {
      !bak.Missing? || marker.File?
    }

    /** What a program that opens /etc/resolv.conf reads. */
    function Lookup(): Option<string> {
      match resolv
      case Missing => None
      case File(data, _) => Some(data)
      case Link(t) => if Target(t).File? then Some(Target(t).data) else None
    }
  }

  datatype Op =
    | Remove(at: Path)
    | Symlink(at: Path, target: string)
    | WriteFile(at: Path, data: string, perm: Mode)
    | Chmod(at: Path, perm: Mode)
    | RenameTmp                                       // onto resolv.conf

  /** Writing a file that exists keeps its mode; a new one gets perm without the umask. */
  function Written(was: Entry, data: string, perm: Mode, umask: Mode): Entry {
    File(data, if was.File? then was.mode else perm - umask)
  }

  function Chmodded(was: Entry, perm: Mode): Entry {
    if was.File? then was.(mode := perm) else was
  }

  /** One file operation. Writes and chmods follow a symlink; the others act on the entry. */
  function Apply(fs: Fs, op: Op): Fs {
    match op
    case Remove(p) => fs.Put(p, Missing)
    case Symlink(p, t) => fs.Put(p, Link(t))
    case RenameTmp => fs.(resolv := fs.tmp, tmp := Missing)
    case WriteFile(p, data, perm) =>
      (match fs.At(p)
       case Link(t) => fs.(outside := fs.outside[t := Written(fs.Target(t), data, perm, fs.umask)])
       case e => fs.Put(p, Written(e, data, perm, fs.umask)))
    case Chmod(p, perm) =>
      (match fs.At(p)
       case Link(t) => fs.(outside := fs.outside[t := Chmodded(fs.Target(t), perm)])
       case e => fs.Put(p, Chmodded(e, perm)))
  }

  /** The first n operations of a plan. */
  function Exec(fs: Fs, plan: seq<Op>, n: nat): Fs
    decreases n
  {
    if n == 0 || plan == [] then fs else Exec(Apply(fs, plan[0]), plan[1..], n - 1)
  }

  /** `cp -P`: the link as a link, the file with its mode. */
  function CopyPlan(e: Entry, dst: Path): seq<Op> {
    match e
    case Missing => []
    case Link(t) => [Remove(dst), Symlink(dst, t)]
    case File(data, mode) => [Remove(dst), WriteFile(dst, data, mode), Chmod(dst, mode)]
  }

  function Conf(ip: string): string {
    "nameserver " + ip + "\n"
  }

  const ALLOWED := {"1.1.1.1", "1.0.0.1", "8.8.8.8", "9.9.9.9", "45.90.28.0"}

  function SnapshotPlan(fs: Fs): seq<Op> {
    if fs.HasRecord() then []
    else if fs.resolv.Missing? then [WriteFile(Marker, "", MODE_0644)]
    else CopyPlan(fs.resolv, Bak)
  }

  function ReplacePlan(ip: string): seq<Op> {
    [WriteFile(Tmp, Conf(ip), MODE_0644), Chmod(Tmp, MODE_0644), RenameTmp]
  }

  function SetPlan(fs: Fs, ip: string): seq<Op> {
    SnapshotPlan(fs) + ReplacePlan(ip)
  }

  function RestorePlan(fs: Fs): seq<Op> {
    if !fs.bak.Missing? then CopyPlan(fs.bak, Tmp) + [RenameTmp, Remove(Bak)]
    else if fs.marker.File? then [Remove(Resolv), Remove(Marker)]
    else []
  }

  /** A link is copied by two operations and a file by three; only what comes behind them is an error. */
  lemma ToldMeans(fs: Fs, n: nat)
    ensures ToldAfter(fs, n).Warning? <==> !fs.bak.Missing? && (n == 1 || (n == 2 && fs.bak.File?))
    ensures ToldAfter(fs, n).AnError? <==> (fs.bak.Link? && n == 2) || (fs.bak.File? && n == 3)
  {
  }

  // ---- the code --------------------------------------------------------------------

  datatype Outcome = Done | Refused | Stopped

  datatype Told = Nothing | Warning | AnError

  /**
   What a restore says whose operation n, counted from 0, fails. The first one of a copy is a
   removal, and removals do not fail: a restore that is cut there has died, and says nothing.
   */
  function ToldAfter(fs: Fs, n: nat): Told {
    if fs.bak.Missing? || n == 0 then Nothing
    else if n < |CopyPlan(fs.bak, Tmp)| then Warning
    else if n == |CopyPlan(fs.bak, Tmp)| then AnError
    else Nothing
  }

  /** The directory entries, and how many operations are left before the process dies. */
  class Host {
    var resolv: Entry
    var tmp: Entry
    var bak: Entry
    var marker: Entry
    var outside: map<string, Entry>
    const umask: Mode
    var budget: nat

    function View(): Fs
      reads this
    {
      Fs(resolv, tmp, bak, marker, outside, umask)
    }

    constructor (fs: Fs, n: nat)
      ensures View() == fs && budget == n
    {
      resolv, tmp, bak, marker, outside, umask := fs.resolv, fs.tmp, fs.bak, fs.marker, fs.outside, fs.umask;
      budget := n;
    }

    /** One system call, or the end. */
    method Do(op: Op) returns (ok: bool)
      modifies this
      ensures ok == (old(budget) > 0)
      ensures View() == Exec(old(View()), [op], old(budget))
      ensures budget == if ok then old(budget) - 1 else 0
    {
      ok := budget > 0;
      if ok {
        assert Exec(Apply(View(), op), [op][1..], budget - 1) == Apply(View(), op);
        var fs := Apply(View(), op);
        resolv, tmp, bak, marker, outside := fs.resolv, fs.tmp, fs.bak, fs.marker, fs.outside;
        budget := budget - 1;
      }
    }

    method CopyPreservingLink(src: Path, dst: Path) returns (ok: bool)
      modifies this
      requires !View().At(src).Missing? && src != dst
      ensures var plan := CopyPlan(old(View().At(src)), dst);
        && ok == (|plan| <= old(budget))
        && View() == Exec(old(View()), plan, old(budget))
        && budget == if ok then old(budget) - |plan| else 0
    {
      ghost var fs, n := View(), budget;
      var e := View().At(src);
      ok := Do(Remove(dst));
      ExecAppend(fs, [Remove(dst)], CopyPlan(e, dst)[1..], n);
      assert [Remove(dst)] + CopyPlan(e, dst)[1..] == CopyPlan(e, dst);
      if !ok {
        return;
      }
      if e.Link? {
        ok := Do(Symlink(dst, e.target));
        return;
      }
      ghost var fs1, n1 := View(), budget;
      ok := Do(WriteFile(dst, e.data, e.mode));
      ExecAppend(fs1, [WriteFile(dst, e.data, e.mode)], [Chmod(dst, e.mode)], n1);
      if ok {
        ok := Do(Chmod(dst, e.mode));
      }
    }

    method Replace(ip: string) returns (ok: bool)
      modifies this
      ensures ok == (3 <= old(budget))
      ensures View() == Exec(old(View()), ReplacePlan(ip), old(budget))
      ensures budget == if ok then old(budget) - 3 else 0
    {
      ghost var fs, n := View(), budget;
      ok := Do(WriteFile(Tmp, Conf(ip), MODE_0644));
      ExecAppend(fs, [WriteFile(Tmp, Conf(ip), MODE_0644)], [Chmod(Tmp, MODE_0644), RenameTmp], n);
      if !ok {
        return;
      }
      ghost var fs1, n1 := View(), budget;
      ok := Do(Chmod(Tmp, MODE_0644));
      ExecAppend(fs1, [Chmod(Tmp, MODE_0644)], [RenameTmp], n1);
      if ok {
        ok := Do(RenameTmp);
      }
    }

    method Snapshot() returns (ok: bool)
      modifies this
      ensures var plan := SnapshotPlan(old(View()));
        && ok == (|plan| <= old(budget))
        && View() == Exec(old(View()), plan, old(budget))
        && budget == if ok then old(budget) - |plan| else 0
    {
      ok := true;
      if bak.Missing? && !marker.File? {
        if !resolv.Missing? {
          ok := CopyPreservingLink(Resolv, Bak);
        } else {
          ok := Do(WriteFile(Marker, "", MODE_0644));
        }
      }
    }

    method DnsSet(ip: string) returns (r: Outcome)
      modifies this
      ensures r.Refused? <==> ip !in {"1.1.1.1", "1.0.0.1", "8.8.8.8", "9.9.9.9", "45.90.28.0"}
      ensures r.Refused? ==> View() == old(View())
      ensures !r.Refused? ==> View() == Exec(old(View()), SetPlan(old(View()), ip), old(budget))
      ensures !r.Refused? ==> (r.Done? <==> |SetPlan(old(View()), ip)| <= old(budget))
    {
      if ip !in ALLOWED {
        return Refused;
      }
      ghost var fs, n := View(), budget;
      var ok := Snapshot();
      ExecAppend(fs, SnapshotPlan(fs), ReplacePlan(ip), n);
      if ok {
        ok := Replace(ip);
      }
      r := if ok then Done else Stopped;
    }

    /**
     `told` is what the caller hears if the operation that did not happen was one that failed, and
     the process lived on: a copy that fails is only a warning, a rename is an error, and removals
     are quiet.
     */
    method DnsRestore() returns (r: Outcome, told: Told)
      modifies this
      ensures View() == Exec(old(View()), RestorePlan(old(View())), old(budget))
      ensures r.Done? <==> |RestorePlan(old(View()))| <= old(budget)
      ensures !r.Refused?
      ensures told == ToldAfter(old(View()), old(budget))
    {
      ghost var fs, n := View(), budget;
      var ok, n0 := true, budget;
      told := Nothing;
      if !bak.Missing? {
        ok := CopyPreservingLink(Bak, Tmp);
        ExecAppend(fs, CopyPlan(fs.bak, Tmp), [RenameTmp, Remove(Bak)], n);
        if ok {
          told := if budget == 0 then AnError else Nothing;
          ok := DoBoth(RenameTmp, Remove(Bak));
        } else if n0 > 0 {
          told := Warning;
        }
      } else if marker.File? {
        ok := DoBoth(Remove(Resolv), Remove(Marker));
      }
      r := if ok then Done else Stopped;
    }

    method DoBoth(a: Op, b: Op) returns (ok: bool)
      modifies this
      ensures ok == (2 <= old(budget))
      ensures View() == Exec(old(View()), [a, b], old(budget))
    {
      ghost var fs, n := View(), budget;
      ok := Do(a);
      ExecAppend(fs, [a], [b], n);
      assert [a] + [b] == [a, b];
      if ok {
        ok := Do(b);
      }
    }
  }

  lemma {:induction false} ExecAppend(fs: Fs, a: seq<Op>, b: seq<Op>, n: nat)
    ensures Exec(fs, a + b, n) == Exec(Exec(fs, a, n), b, if n <= |a| then 0 else n - |a|)
    decreases n
  {
    if n == 0 {
    } else if a == [] {
      assert a + b == b;
    } else {
      assert (a + b)[0] == a[0] && (a + b)[1..] == a[1..] + b;
      ExecAppend(Apply(fs, a[0]), a[1..], b, n - 1);
    }
  }

  /** The operations of a short plan, one by one. */
  lemma ExecFew(fs: Fs, plan: seq<Op>, n: nat)
    ensures n == 0 ==> Exec(fs, plan, n) == fs
    ensures |plan| == 0 ==> Exec(fs, plan, n) == fs
    ensures |plan| >= 1 && n == 1 ==> Exec(fs, plan, n) == Apply(fs, plan[0])
    ensures |plan| >= 2 && n == 2 ==> Exec(fs, plan, n) == Apply(Apply(fs, plan[0]), plan[1])
    ensures |plan| == 1 && n >= 1 ==> Exec(fs, plan, n) == Apply(fs, plan[0])
    ensures |plan| == 2 && n >= 2 ==> Exec(fs, plan, n) == Apply(Apply(fs, plan[0]), plan[1])
    ensures |plan| == 3 && n >= 3 ==> Exec(fs, plan, n) == Apply(Apply(Apply(fs, plan[0]), plan[1]), plan[2])
  {
    if n >= 1 && |plan| >= 1 {
      var fs1, rest := Apply(fs, plan[0]), plan[1..];
      if n >= 2 && |plan| >= 2 {
        var fs2, rest2 := Apply(fs1, rest[0]), rest[1..];
        assert Exec(fs1, rest, n - 1) == Exec(fs2, rest2, n - 2);
        if n >= 3 && |plan| == 3 {
          assert Exec(fs2, rest2, n - 2) == Exec(Apply(fs2, rest2[0]), rest2[1..], n - 3);
        }
      }
    }
  }

  // ---- what a cut-short call leaves ------------------------------------------------

  /** cp -P up to its n-th operation, over a destination that was not there. */
  lemma CopyEnds(fs: Fs, e: Entry, dst: Path, n: nat)
    requires !e.Missing?
    ensures var to := Exec(fs, CopyPlan(e, dst), n).At(dst);
      && Exec(fs, CopyPlan(e, dst), n) == fs.Put(dst, to)
      && (n == 0 ==> to == fs.At(dst))
      && (n == 1 ==> to == Missing)
      && (n == 2 ==> to == if e.File? then e.(mode := e.mode - fs.umask) else e)
      && (n >= 3 ==> to == e)
  {
    ExecFew(fs, CopyPlan(e, dst), n);
  }

  function PlainWrite(fs: Fs, ip: string): Entry
    requires !fs.tmp.Link?
  {
    Written(fs.tmp, Conf(ip), MODE_0644, fs.umask)
  }

  lemma ReplaceEnds(fs: Fs, ip: string, n: nat)
    requires !fs.tmp.Link?
    ensures Exec(fs, ReplacePlan(ip), n)
         == if n == 0 then fs
            else if n == 1 then fs.(tmp := PlainWrite(fs, ip))
            else if n == 2 then fs.(tmp := File(Conf(ip), MODE_0644))
            else fs.(tmp := Missing, resolv := File(Conf(ip), MODE_0644))
  {
    ExecFew(fs, ReplacePlan(ip), n);
  }

  /** A symlink left at the temporary name is written through, and then renamed into place. */
  lemma ReplaceThroughLink(fs: Fs, ip: string, n: nat)
    requires fs.tmp.Link?
    ensures var fs' := Exec(fs, ReplacePlan(ip), n);
      if n == 0 then fs' == fs
      else
        && fs'.Target(fs.tmp.target).File? && fs'.Target(fs.tmp.target).data == Conf(ip)
        && fs' == (if n >= 3 then fs.(resolv := fs.tmp, tmp := Missing) else fs).(outside := fs'.outside)
  {
    ExecFew(fs, ReplacePlan(ip), n);
  }

  // ---- runs ------------------------------------------------------------------------

  /** Set and Restore execute at most n operations; another program may replace the entry. */
  datatype Event = Set(ip: string, n: nat) | Restore(n: nat) | External(entry: Entry)

  /** `origin` is the entry resolv.conf had the last time there was no snapshot. */
  datatype World = World(fs: Fs, origin: Entry)

  function After(fs: Fs, ev: Event): Fs {
    match ev
    case Set(ip, n) => if ip in ALLOWED then Exec(fs, SetPlan(fs, ip), n) else fs
    case Restore(n) => Exec(fs, RestorePlan(fs), n)
    case External(e) => fs.(resolv := e)
  }

  function Next(w: World, ev: Event): World {
    var fs := After(w.fs, ev);
    World(fs, if fs.HasRecord() then w.origin else fs.resolv)
  }

  function Run(w: World, es: seq<Event>): World
    decreases |es|
  {
    if es == [] then w else Run(Next(w, es[0]), es[1..])
  }

  /** No session: no snapshot, and nothing under the temporary name but perhaps a file. */
  predicate Fresh(w: World) {
    w.fs.bak.Missing? && w.fs.marker.Missing? && !w.fs.tmp.Link? && w.origin == w.fs.resolv
  }

  /** The same entry, but for permission bits that the umask took. */
  predicate SameButUmask(was: Entry, now: Entry, umask: Mode) {
    now == was || (was.File? && now == was.(mode := was.mode - umask))
  }

  /** What the snapshot pair says the original entry was. */
  function Recorded(fs: Fs): Entry
    requires fs.HasRecord()
  {
    if fs.bak.Missing? then Missing else fs.bak
  }

  predicate Inv(w: World) {
    && (w.fs.bak.Missing? || w.fs.marker.Missing?)
    && !w.fs.marker.Link?
    && (if w.fs.HasRecord() then SameButUmask(w.origin, Recorded(w.fs), w.fs.umask) else w.origin == w.fs.resolv)
    && (w.fs.tmp.Link? ==> w.fs.tmp == w.fs.bak)
  }

  lemma SnapshotEnds(w: World, n: nat)
    requires Inv(w)
    ensures var fs := Exec(w.fs, SnapshotPlan(w.fs), n);
      && fs == w.fs.(bak := fs.bak, marker := fs.marker)
      && (w.fs.HasRecord() ==> fs == w.fs)
      && (n >= |SnapshotPlan(w.fs)| ==> fs.HasRecord())
      && Inv(World(fs, w.origin))
  {
    if !w.fs.HasRecord() {
      if w.fs.resolv.Missing? {
        ExecFew(w.fs, SnapshotPlan(w.fs), n);
      } else {
        CopyEnds(w.fs, w.fs.resolv, Bak, n);
      }
    }
  }

  lemma ReplaceKeepsInv(w: World, ip: string, n: nat)
    requires Inv(w) && w.fs.HasRecord()
    ensures var fs := Exec(w.fs, ReplacePlan(ip), n);
      && Inv(World(fs, w.origin)) && fs.HasRecord()
      && (!w.fs.resolv.Missing? ==> !fs.resolv.Missing?)
  {
    if w.fs.tmp.Link? {
      ReplaceThroughLink(w.fs, ip, n);
    } else {
      ReplaceEnds(w.fs, ip, n);
    }
  }

  lemma SetKeepsInv(w: World, ip: string, n: nat)
    requires Inv(w)
    ensures Inv(Next(w, Set(ip, n)))
    ensures !w.fs.resolv.Missing? ==> !After(w.fs, Set(ip, n)).resolv.Missing?
  {
    if ip in ALLOWED {
      var plan := SnapshotPlan(w.fs);
      ExecAppend(w.fs, plan, ReplacePlan(ip), n);
      SnapshotEnds(w, n);
      if n > |plan| {
        ReplaceKeepsInv(World(Exec(w.fs, plan, n), w.origin), ip, n - |plan|);
      }
    }
  }

  /** A restore cut at its n-th operation, when there is a backup. */
  lemma RestoreEnds(fs: Fs, n: nat)
    requires !fs.bak.Missing?
    ensures var fs', copy := Exec(fs, RestorePlan(fs), n), |CopyPlan(fs.bak, Tmp)|;
      && (n <= copy ==> fs' == Exec(fs, CopyPlan(fs.bak, Tmp), n))
      && (n == copy + 1 ==> fs' == fs.(resolv := fs.bak, tmp := Missing))
      && (n >= copy + 2 ==> fs' == fs.(resolv := fs.bak, tmp := Missing, bak := Missing))
  {
    var plan, tail := CopyPlan(fs.bak, Tmp), [RenameTmp, Remove(Bak)];
    ExecAppend(fs, plan, tail, n);
    CopyEnds(fs, fs.bak, Tmp, n);
    var fs1, m := Exec(fs, plan, n), if n <= |plan| then 0 else n - |plan|;
    ExecFew(fs1, tail, m);
    if n >= |plan| {
      ExecWhole(fs, plan, n);
      CopyEnds(fs, fs.bak, Tmp, 3);
      ExecWhole(fs, plan, 3);
      assert fs1 == fs.(tmp := fs.bak);
    }
  }

  /** Operations left over change nothing. */
  lemma {:induction false} ExecWhole(fs: Fs, plan: seq<Op>, n: nat)
    requires n >= |plan|
    ensures Exec(fs, plan, n) == Exec(fs, plan, |plan|)
    decreases |plan|
  {
    if plan != [] {
      ExecWhole(Apply(fs, plan[0]), plan[1..], n - 1);
    }
  }

  lemma RestoreKeepsInv(w: World, n: nat)
    requires Inv(w)
    ensures Inv(Next(w, Restore(n)))
    ensures !w.fs.resolv.Missing? && !w.origin.Missing? ==> !After(w.fs, Restore(n)).resolv.Missing?
  {
    if !w.fs.bak.Missing? {
      RestoreEnds(w.fs, n);
      CopyEnds(w.fs, w.fs.bak, Tmp, n);
    } else {
      ExecFew(w.fs, RestorePlan(w.fs), n);
    }
  }

  lemma NextKeepsInv(w: World, ev: Event)
    requires Inv(w)
    ensures Inv(Next(w, ev))
  {
    match ev {
      case Set(ip, n) => SetKeepsInv(w, ip, n);
      case Restore(n) => RestoreKeepsInv(w, n);
      case External(_) =>
    }
  }

  /**
   Over every run, cut anywhere, the pair (backup, marker) records exactly the entry that
   resolv.conf had before the first Set of the session, but for bits the umask may have taken.
   */
  lemma {:induction false} RecordIsOrigin(w: World, es: seq<Event>)
    requires Inv(w)
    ensures Inv(Run(w, es))
    decreases |es|
  {
    if es != [] {
      NextKeepsInv(w, es[0]);
      RecordIsOrigin(Next(w, es[0]), es[1..]);
    }
  }

  /** Bits are lost in one place: a Set that dies between writing the backup and its chmod. */
  lemma SnapshotExactIff(w: World, ip: string, n: nat)
    requires Inv(w) && !w.fs.HasRecord() && ip in ALLOWED
    ensures var fs := Next(w, Set(ip, n)).fs;
      fs.HasRecord() ==>
        (Recorded(fs) == w.fs.resolv <==>
          !(n == 2 && w.fs.resolv.File? && w.fs.resolv.mode - w.fs.umask != w.fs.resolv.mode))
  {
    var plan := SnapshotPlan(w.fs);
    ExecAppend(w.fs, plan, ReplacePlan(ip), n);
    var fs1 := Exec(w.fs, plan, n);
    if w.fs.resolv.Missing? {
      ExecFew(w.fs, plan, n);
    } else {
      CopyEnds(w.fs, w.fs.resolv, Bak, n);
    }
    if n > |plan| {
      ReplaceEnds(fs1, ip, n - |plan|);
    }
  }

  // ---- restoring -------------------------------------------------------------------

  /** A restore that reaches its end puts back what was recorded, and the session is over. */
  lemma CompletedRestore(w: World, n: nat)
    requires Inv(w) && w.fs.HasRecord() && n >= |RestorePlan(w.fs)|
    ensures var w' := Next(w, Restore(n));
      && w'.fs.resolv == Recorded(w.fs) && SameButUmask(w.origin, w'.fs.resolv, w.fs.umask)
      && Fresh(w')
      && w'.fs.outside == w.fs.outside
  {
    if !w.fs.bak.Missing? {
      RestoreEnds(w.fs, n);
    } else {
      ExecFew(w.fs, RestorePlan(w.fs), n);
    }
  }

  /**
   A restore that was cut, or one whose operation failed, keeps the record whatever it told its
   caller, and the next one that reaches its end puts back the same entry.
   */
  lemma RestoreCanBeRetried(w: World, n: nat, m: nat)
    requires Inv(w) && w.fs.HasRecord() && n < |RestorePlan(w.fs)|
    ensures var w1 := Next(w, Restore(n));
      && w1.fs.HasRecord() && Recorded(w1.fs) == Recorded(w.fs)
      && (ToldAfter(w.fs, n) != Nothing ==> w1.fs.resolv == w.fs.resolv)
      && (m >= |RestorePlan(w1.fs)| ==> Next(w1, Restore(m)).fs.resolv == Recorded(w.fs))
  {
    var w1 := Next(w, Restore(n));
    RestoreKeepsInv(w, n);
    if !w.fs.bak.Missing? {
      RestoreEnds(w.fs, n);
      CopyEnds(w.fs, w.fs.bak, Tmp, n);
    } else {
      ExecFew(w.fs, RestorePlan(w.fs), n);
    }
    if m >= |RestorePlan(w1.fs)| {
      CompletedRestore(w1, m);
    }
  }

  /** Nobody else deletes the file. */
  predicate NoOutsideRemoval(es: seq<Event>) {
    forall i :: 0 <= i < |es| && es[i].External? ==> !es[i].entry.Missing?
  }

  /**
   An originally present resolv.conf is never absent. A run may be cut after any operation, so
   this speaks about every moment and not only about the ends of calls.
   */
  lemma {:induction false} NeverAbsent(w: World, es: seq<Event>)
    requires Inv(w) && !w.origin.Missing? && !w.fs.resolv.Missing? && NoOutsideRemoval(es)
    ensures !Run(w, es).fs.resolv.Missing?
    decreases |es|
  {
    if es != [] {
      NextKeepsInv(w, es[0]);
      match es[0] {
        case Set(ip, n) => SetKeepsInv(w, ip, n);
        case Restore(n) => RestoreKeepsInv(w, n);
        case External(_) =>
      }
      NeverAbsent(Next(w, es[0]), es[1..]);
    }
  }

  // ---- what a completed Set means, and the symlink left behind ---------------------

  /**
   A completed Set always takes effect for those who read the file. It leaves a regular file
   exactly when no symlink was left under the temporary name.
   */
  lemma CompletedSet(w: World, ip: string, n: nat)
    requires Inv(w) && ip in ALLOWED && n >= |SetPlan(w.fs, ip)|
    ensures var fs := Next(w, Set(ip, n)).fs;
      && fs.Lookup() == Some("nameserver " + ip + "\n") && fs.HasRecord()
      && (fs.resolv == File("nameserver " + ip + "\n", {8, 7, 5, 2}) <==> !w.fs.tmp.Link?)
      && (w.fs.tmp.Link? ==> fs.resolv == w.origin)
  {
    var plan := SnapshotPlan(w.fs);
    ExecAppend(w.fs, plan, ReplacePlan(ip), n);
    SnapshotEnds(w, n);
    var fs1 := Exec(w.fs, plan, n);
    if w.fs.tmp.Link? {
      ReplaceThroughLink(fs1, ip, n - |plan|);
    } else {
      ReplaceEnds(fs1, ip, n - |plan|);
    }
  }

  /** A restore of a symlink that dies between making the new link and renaming it. */
  predicate CutBeforeRename(fs: Fs, ev: Event) {
    ev.Restore? && ev.n == 2 && fs.bak.Link?
  }

  /** The only ways to have a symlink under the temporary name: that cut, or nothing removed it. */
  lemma LinkLeftIff(w: World, ev: Event)
    requires Inv(w)
    ensures Next(w, ev).fs.tmp.Link?
       <==> CutBeforeRename(w.fs, ev) || (w.fs.tmp.Link? && KeepsTmp(ev))
    ensures Next(w, ev).fs.outside == w.fs.outside || w.fs.tmp.Link?
  {
    match ev {
      case Set(ip, n) =>
        if ip in ALLOWED {
          var plan := SnapshotPlan(w.fs);
          ExecAppend(w.fs, plan, ReplacePlan(ip), n);
          SnapshotEnds(w, n);
          if n > |plan| {
            if w.fs.tmp.Link? {
              ReplaceThroughLink(w.fs, ip, n);
            } else {
              ReplaceEnds(Exec(w.fs, plan, n), ip, n - |plan|);
            }
          }
        }
      case Restore(n) =>
        if !w.fs.bak.Missing? {
          RestoreEnds(w.fs, n);
          CopyEnds(w.fs, w.fs.bak, Tmp, n);
        } else {
          ExecFew(w.fs, RestorePlan(w.fs), n);
        }
      case External(_) =>
    }
  }

  /** The call dies before the operation that would take the temporary name away. */
  predicate KeepsTmp(ev: Event) {
    match ev
    case Set(ip, n) => ip !in ALLOWED || n < 3
    case Restore(n) => n == 0
    case External(_) => true
  }

  ghost predicate NeverCut(w: World, es: seq<Event>)
    decreases |es|
  {
    es == [] || (!CutBeforeRename(w.fs, es[0]) && NeverCut(Next(w, es[0]), es[1..]))
  }

  /** Without that cut, no run touches a file that resolv.conf links to. */
  lemma {:induction false} OutsideUntouched(w: World, es: seq<Event>)
    requires Inv(w) && !w.fs.tmp.Link? && NeverCut(w, es)
    ensures Run(w, es).fs.outside == w.fs.outside && !Run(w, es).fs.tmp.Link?
    decreases |es|
  {
    if es != [] {
      NextKeepsInv(w, es[0]);
      LinkLeftIff(w, es[0]);
      OutsideUntouched(Next(w, es[0]), es[1..]);
    }
  }

  /** What the original entry read before the session, and reads again after it. */
  lemma RestoreReturnsLookup(w: World, es: seq<Event>, n: nat)
    requires Fresh(w) && NeverCut(w, es)
    requires Run(w, es).fs.HasRecord() && n >= |RestorePlan(Run(w, es).fs)|
    ensures var end := Run(w, es);
      Next(end, Restore(n)).fs.Lookup() == w.fs.(resolv := end.origin).Lookup()
  {
    RecordIsOrigin(w, es);
    OutsideUntouched(w, es);
    CompletedRestore(Run(w, es), n);
  }

  /**
   After a completed Set and a completed restore, the original entry reads as it did before the
   Set exactly when no link was left under the temporary name, or the file it leads to already
   held our text.
   */
  lemma RestoreAfterSetIff(w: World, ip: string, n: nat, m: nat)
    requires Inv(w) && ip in ALLOWED && n >= |SetPlan(w.fs, ip)|
    requires m >= |RestorePlan(Next(w, Set(ip, n)).fs)|
    ensures var before := w.fs.(resolv := w.origin).Lookup();
      Next(Next(w, Set(ip, n)), Restore(m)).fs.Lookup() == before
      <==> (!w.fs.tmp.Link? || before == Some(Conf(ip)))
  {
    NextKeepsInv(w, Set(ip, n));
    CompletedSet(w, ip, n);
    LinkLeftIff(w, Set(ip, n));
    CompletedRestore(Next(w, Set(ip, n)), m);
    if w.fs.tmp.Link? {
      ReplaceThroughLink(w.fs, ip, n);
    }
  }

  /**
   With that cut it fails: the Set that follows writes our resolver through the left-over link
   into the system's own file, and the completed restore brings back the link only.
   */
  lemma CutClobbersTheOriginal(t: string, data: string, mode: Mode, umask: Mode, ip: string)
    requires ip in ALLOWED && data != Conf(ip)
    ensures var fs := Fs(Link(t), Missing, Missing, Missing, map[t := File(data, mode)], umask);
      var end := Run(World(fs, fs.resolv), [Set(ip, 5), Restore(2), Set(ip, 3), Restore(4)]).fs;
      && fs.Lookup() == Some(data)
      && end.resolv == fs.resolv && !end.HasRecord()
      && end.Lookup() == Some(Conf(ip))
  {
    var fs := Fs(Link(t), Missing, Missing, Missing, map[t := File(data, mode)], umask);
    var w := World(fs, fs.resolv);
    var es := [Set(ip, 5), Restore(2), Set(ip, 3), Restore(4)];
    CompletedSet(w, ip, 5);
    var w1 := Next(w, es[0]);
    NextKeepsInv(w, es[0]);
    RestoreEnds(w1.fs, 2);
    CopyEnds(w1.fs, w1.fs.bak, Tmp, 2);
    var w2 := Next(w1, es[1]);
    NextKeepsInv(w1, es[1]);
    CompletedSet(w2, ip, 3);
    var w3 := Next(w2, es[2]);
    NextKeepsInv(w2, es[2]);
    CompletedRestore(w3, 4);
    RunFour(w, es);
  }

  lemma RunFour(w: World, es: seq<Event>)
    requires |es| == 4
    ensures Run(w, es) == Next(Next(Next(Next(w, es[0]), es[1]), es[2]), es[3])
  {
    var a := es[1..];
    var b := a[1..];
    var c := b[1..];
    assert Run(w, es) == Run(Next(w, es[0]), a);
    assert Run(Next(w, es[0]), a) == Run(Next(Next(w, es[0]), a[0]), b);
    assert Run(Next(Next(w, es[0]), es[1]), b) == Run(Next(Next(Next(w, es[0]), es[1]), es[2]), c);
    assert c == [es[3]] && c[1..] == [];
  }
}
