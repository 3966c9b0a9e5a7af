/** The account lease: an exclusive lock on the file at a path, re-checked against the path. Kernel calls of any
    number of processes interleave with deletion and replacement of the file. Locks are exclusive per inode,
    descriptors are never shared, and a replacement may bring any inode. */
module Lease {
  import opened Common

  /** Where one process is in taking, holding or giving up its lease. `tries` counts earlier rounds of the retry loop;
      after a refusal the process may try again later. */
  datatype Phase =
    | Idle
    | Opened(path: nat, fd: nat, tries: nat)
    | Locked(path: nat, fd: nat, tries: nat)
    | Retrying(path: nat, tries: nat)
    | Held(path: nat, fd: nat)
    | Clearing(fd: nat)
    | Closing(fd: nat)
    | Busy
    | Unavailable

  /** The directory's files, the open descriptors, and the lock table: which descriptor locks which inode. */
  datatype Kernel = Kernel(
    paths: map<nat, nat>, openFds: map<nat, nat>, locks: map<nat, nat>, procs: map<nat, Phase>, nextFd: nat,
      nextInode: nat)

  datatype Step =
    | Open(p: nat, path: nat)
    | Lock(p: nat)
    | Check(p: nat)
    | Reopen(p: nat)
    | TryLater(p: nat)
    | Release(p: nat)
    | Unlock(p: nat)
    | Close(p: nat)
    | Die(p: nat)
    | Unlink(path: nat)
    | Replace(path: nat, inode: nat)

  function PhaseOf(k: Kernel, p: nat): Phase {
    if p in k.procs then k.procs[p] else Idle
  }

  predicate HasFd(x: Phase) { x.Opened? || x.Locked? || x.Held? || x.Clearing? || x.Closing? }

  predicate HasLock(x: Phase) { x.Locked? || x.Held? || x.Clearing? }

  predicate SameFile(k: Kernel, fd: nat, path: nat) {
    fd in k.openFds && path in k.paths && k.openFds[fd] == k.paths[path]
  }

  /** Closing the last descriptor of a file drops its lock. */
  function Closed(k: Kernel, fd: nat): Kernel {
    var locks := if fd in k.openFds && k.openFds[fd] in k.locks && k.locks[k.openFds[fd]] == fd
                 then k.locks - {k.openFds[fd]} else k.locks;
    k.(openFds := k.openFds - {fd}, locks := locks)
  }

  function Moved(k: Kernel, p: nat, x: Phase): Kernel { k.(procs := k.procs[p := x]) }

  predicate Enabled(k: Kernel, s: Step) {
    match s
    case Open(p, _) => PhaseOf(k, p).Idle?
    case Lock(p) => PhaseOf(k, p).Opened?
    case Check(p) => PhaseOf(k, p).Locked?
    case Reopen(p) => PhaseOf(k, p).Retrying?
    case TryLater(p) => PhaseOf(k, p).Busy? || PhaseOf(k, p).Unavailable?
    case Release(p) => PhaseOf(k, p).Held?
    case Unlock(p) => PhaseOf(k, p).Clearing?
    case Close(p) => PhaseOf(k, p).Closing?
    case Die(_) => true
    case Unlink(_) => true
    case Replace(_, _) => true
  }

  /** Opens the file at the path, creating it if there is none. */
  function OpenFile(k: Kernel, p: nat, path: nat, tries: nat): Kernel {
    var created := if path in k.paths then k
      else k.(paths := k.paths[path := k.nextInode], nextInode := k.nextInode + 1);
    Moved(created.(openFds := created.openFds[k.nextFd := created.paths[path]], nextFd := k.nextFd + 1),
          p, Opened(path, k.nextFd, tries))
  }

  const ROUNDS: nat := 2

  function Next(k: Kernel, s: Step): Kernel
    requires Enabled(k, s)
  {
    match s
    case Open(p, path) => OpenFile(k, p, path, 0)
    case Lock(p) =>
      var x := PhaseOf(k, p);
      if x.fd !in k.openFds then Moved(k, p, Unavailable)
      else if k.openFds[x.fd] in k.locks then Moved(Closed(k, x.fd), p, Busy)
      else Moved(k.(locks := k.locks[k.openFds[x.fd] := x.fd]), p, Locked(x.path, x.fd, x.tries))
    case Check(p) =>
      var x := PhaseOf(k, p);
      if SameFile(k, x.fd, x.path) then Moved(k, p, Held(x.path, x.fd))
      else Moved(Closed(k, x.fd), p, if x.tries + 1 < ROUNDS then Retrying(x.path, x.tries + 1) else Unavailable)
    case Reopen(p) => OpenFile(k, p, PhaseOf(k, p).path, PhaseOf(k, p).tries)
    case TryLater(p) => Moved(k, p, Idle)
    case Release(p) => Moved(k, p, Clearing(PhaseOf(k, p).fd))
    case Unlock(p) =>
      var fd := PhaseOf(k, p).fd;
      Moved(if fd in k.openFds then k.(locks := k.locks - {k.openFds[fd]}) else k, p, Closing(fd))
    case Close(p) => Moved(Closed(k, PhaseOf(k, p).fd), p, Idle)
    case Die(p) => Moved(if HasFd(PhaseOf(k, p)) then Closed(k, PhaseOf(k, p).fd) else k, p, Idle)
    case Unlink(path) => k.(paths := k.paths - {path})
    case Replace(path, inode) => k.(paths := k.paths[path := inode])
  }

  // ---- the invariant ----

  ghost predicate Inv(k: Kernel) {
    && (forall p :: p in k.procs && HasFd(k.procs[p]) ==> k.procs[p].fd in k.openFds && k.procs[p].fd < k.nextFd)
    && (forall p, q :: p in k.procs && q in k.procs && p != q && HasFd(k.procs[p]) && HasFd(k.procs[q]) ==>
          k.procs[p].fd != k.procs[q].fd)
    && (forall p :: p in k.procs && HasLock(k.procs[p]) ==>
          k.openFds[k.procs[p].fd] in k.locks && k.locks[k.openFds[k.procs[p].fd]] == k.procs[p].fd)
    && (forall fd :: fd in k.openFds ==> fd < k.nextFd)
    && (forall inode :: inode in k.locks ==> k.locks[inode] in k.openFds && k.openFds[k.locks[inode]] == inode)
  }

  /** What `verify()` checks: the lease is held and its descriptor is still the file at the path. */
  predicate Verifies(k: Kernel, p: nat, path: nat) {
    var x := PhaseOf(k, p);
    x.Held? && x.path == path && SameFile(k, x.fd, path)
  }

  lemma ClosedKeeps(k: Kernel, p: nat, x: Phase)
    requires Inv(k) && p in k.procs && HasFd(k.procs[p]) && !HasFd(x)
    ensures Inv(Moved(Closed(k, k.procs[p].fd), p, x))
  {
    var fd := k.procs[p].fd;
    var c := Closed(k, fd);
    forall q | q in k.procs && q != p && HasLock(k.procs[q])
      ensures k.procs[q].fd in c.openFds && c.openFds[k.procs[q].fd] in c.locks
              && c.locks[c.openFds[k.procs[q].fd]] == k.procs[q].fd
    {
      assert HasFd(k.procs[q]) && k.procs[q].fd != fd;
    }
  }

  /** A new descriptor on an inode. */
  function WithFd(k: Kernel, paths: map<nat, nat>, nextInode: nat, inode: nat): Kernel {
    k.(paths := paths, nextInode := nextInode, openFds := k.openFds[k.nextFd := inode], nextFd := k.nextFd + 1)
  }

  lemma NewFdKeeps(k: Kernel, paths: map<nat, nat>, nextInode: nat, inode: nat)
    requires Inv(k)
    ensures Inv(WithFd(k, paths, nextInode, inode))
    ensures forall q :: q in k.procs && HasFd(k.procs[q]) ==> k.procs[q].fd != k.nextFd
  {
  }

  lemma NewPhaseKeeps(k: Kernel, p: nat, x: Phase)
    requires Inv(k) && !HasFd(PhaseOf(k, p)) && HasFd(x) && !HasLock(x) && x.fd in k.openFds
    requires forall q :: q in k.procs && HasFd(k.procs[q]) ==> k.procs[q].fd != x.fd
    ensures Inv(Moved(k, p, x))
  {
  }

  lemma OpenKeeps(k: Kernel, p: nat, path: nat, tries: nat)
    requires Inv(k) && !HasFd(PhaseOf(k, p))
    ensures Inv(OpenFile(k, p, path, tries))
  {
    hide Inv;
    var paths, next := if path in k.paths then k.paths else k.paths[path := k.nextInode],
                       if path in k.paths then k.nextInode else k.nextInode + 1;
    var w := WithFd(k, paths, next, paths[path]);
    NewFdKeeps(k, paths, next, paths[path]);
    NewPhaseKeeps(w, p, Opened(path, k.nextFd, tries));
    assert OpenFile(k, p, path, tries) == Moved(w, p, Opened(path, k.nextFd, tries));
  }

  lemma MovedKeeps(k: Kernel, p: nat, x: Phase)
    requires Inv(k) && p in k.procs && HasFd(k.procs[p]) && HasFd(x) && x.fd == k.procs[p].fd
    requires HasLock(x) ==> HasLock(k.procs[p])
    ensures Inv(Moved(k, p, x))
  {
  }

  lemma LockKeeps(k: Kernel, p: nat)
    requires Inv(k) && PhaseOf(k, p).Opened?
    ensures Inv(Next(k, Lock(p)))
  {
    var x := PhaseOf(k, p);
    if k.openFds[x.fd] in k.locks { ClosedKeeps(k, p, Busy); }
  }

  lemma CheckKeeps(k: Kernel, p: nat)
    requires Inv(k) && PhaseOf(k, p).Locked?
    ensures Inv(Next(k, Check(p)))
  {
    hide Inv;
    var x := PhaseOf(k, p);
    if SameFile(k, x.fd, x.path) {
      MovedKeeps(k, p, Held(x.path, x.fd));
    } else {
      ClosedKeeps(k, p, if x.tries + 1 < ROUNDS then Retrying(x.path, x.tries + 1) else Unavailable);
    }
  }

  lemma UnlockKeeps(k: Kernel, p: nat)
    requires Inv(k) && PhaseOf(k, p).Clearing?
    ensures Inv(Next(k, Unlock(p)))
  {
    var fd := PhaseOf(k, p).fd;
    var r := Next(k, Unlock(p));
    forall q | q in r.procs && HasLock(r.procs[q])
      ensures r.openFds[r.procs[q].fd] in r.locks && r.locks[r.openFds[r.procs[q].fd]] == r.procs[q].fd
    {
      assert q != p && k.procs[q].fd != fd;
    }
  }

  lemma StepKeepsInv(k: Kernel, s: Step)
    requires Inv(k) && Enabled(k, s)
    ensures Inv(Next(k, s))
  {
    hide Inv, Closed, OpenFile;
    match s {
      case Open(p, path) => OpenKeeps(k, p, path, 0);
      case Lock(p) => LockKeeps(k, p);
      case Check(p) => CheckKeeps(k, p);
      case Reopen(p) => OpenKeeps(k, p, PhaseOf(k, p).path, PhaseOf(k, p).tries);
      case TryLater(p) => IdleKeeps(k, p);
      case Release(p) => MovedKeeps(k, p, Clearing(PhaseOf(k, p).fd));
      case Unlock(p) => UnlockKeeps(k, p);
      case Close(p) => ClosedKeeps(k, p, Idle);
      case Die(p) => if HasFd(PhaseOf(k, p)) { ClosedKeeps(k, p, Idle); } else { IdleKeeps(k, p); }
      case Unlink(path) => PathsKeep(k, k.paths - {path});
      case Replace(path, inode) => PathsKeep(k, k.paths[path := inode]);
    }
  }

  lemma IdleKeeps(k: Kernel, p: nat)
    requires Inv(k) && !HasFd(PhaseOf(k, p))
    ensures Inv(Moved(k, p, Idle))
  {
  }

  lemma PathsKeep(k: Kernel, paths: map<nat, nat>)
    requires Inv(k)
    ensures Inv(k.(paths := paths))
  {
  }

  // ---- exclusion ----

  lemma VerifiedIsUnique(k: Kernel, path: nat, p: nat, q: nat)
    requires Inv(k) && Verifies(k, p, path) && Verifies(k, q, path)
    ensures p == q
  {
    assert k.locks[k.paths[path]] == k.procs[p].fd == k.procs[q].fd;
  }

  predicate AllEnabled(k: Kernel, steps: seq<Step>)
    decreases |steps|
  {
    steps == [] || (Enabled(k, steps[0]) && AllEnabled(Next(k, steps[0]), steps[1..]))
  }

  function After(k: Kernel, steps: seq<Step>): Kernel
    requires AllEnabled(k, steps)
    decreases |steps|
  {
    if steps == [] then k else After(Next(k, steps[0]), steps[1..])
  }

  lemma {:induction false} RunKeepsInv(k: Kernel, steps: seq<Step>)
    requires Inv(k) && AllEnabled(k, steps)
    ensures Inv(After(k, steps))
    decreases |steps|
  {
    if steps != [] {
      StepKeepsInv(k, steps[0]);
      RunKeepsInv(Next(k, steps[0]), steps[1..]);
    }
  }

  const BOOT := Kernel(map[], map[], map[], map[], 0, 0)

  /** Over every interleaving of opening, locking, checking, releasing, dying, deleting and replacing: at every
      instant at most one lease of a path passes `verify()`. */
  lemma {:induction false} AtMostOneLease(steps: seq<Step>, path: nat, p: nat, q: nat)
    requires AllEnabled(BOOT, steps)
    requires Verifies(After(BOOT, steps), p, path) && Verifies(After(BOOT, steps), q, path)
    ensures p == q
  {
    RunKeepsInv(BOOT, steps);
    VerifiedIsUnique(After(BOOT, steps), path, p, q);
  }

  /** Holding alone is not exclusive: once the file is replaced a second process can hold a lease on the new one. Only
      the newer passes `verify()`. */
  lemma {:induction false} ReplacedFileHasTwoHolders(k: Kernel, path: nat, p: nat, q: nat, inode: nat)
    requires Inv(k) && Verifies(k, p, path) && PhaseOf(k, q).Idle? && inode !in k.locks && p != q
    ensures var steps := [Replace(path, inode), Open(q, path), Lock(q), Check(q)];
            && AllEnabled(k, steps)
            && var r := After(k, steps);
               PhaseOf(r, p).Held? && PhaseOf(r, q).Held? && !Verifies(r, p, path) && Verifies(r, q, path)
  {
    var steps := [Replace(path, inode), Open(q, path), Lock(q), Check(q)];
    var k1 := Next(k, steps[0]);
    var k2 := Next(k1, steps[1]);
    var k3 := Next(k2, steps[2]);
    var k4 := Next(k3, steps[3]);
    assert PhaseOf(k2, q) == Opened(path, k.nextFd, 0) && k2.openFds[k.nextFd] == inode;
    assert PhaseOf(k3, q) == Locked(path, k.nextFd, 0);
    assert PhaseOf(k4, q) == Held(path, k.nextFd);
    assert PhaseOf(k4, p) == PhaseOf(k, p) && k4.openFds[PhaseOf(k, p).fd] == k.openFds[PhaseOf(k, p).fd];
    Unroll(k, steps[0], steps[1], steps[2], steps[3]);
  }

  lemma {:induction false} Unroll(k: Kernel, a: Step, b: Step, c: Step, d: Step)
    requires Enabled(k, a) && Enabled(Next(k, a), b) && Enabled(Next(Next(k, a), b), c)
    requires Enabled(Next(Next(Next(k, a), b), c), d)
    ensures AllEnabled(k, [a, b, c, d]) && After(k, [a, b, c, d]) == Next(Next(Next(Next(k, a), b), c), d)
  {
    hide Next, Enabled;
    var k1 := Next(k, a);
    var k2 := Next(k1, b);
    var k3 := Next(k2, c);
    var k4 := Next(k3, d);
    assert [d][1..] == [] && AllEnabled(k4, []) && After(k4, []) == k4;
    assert AllEnabled(k3, [d]) && After(k3, [d]) == k4;
    assert [c, d][1..] == [d] && AllEnabled(k2, [c, d]) && After(k2, [c, d]) == k4;
    assert [b, c, d][1..] == [c, d] && AllEnabled(k1, [b, c, d]) && After(k1, [b, c, d]) == k4;
    assert [a, b, c, d][1..] == [b, c, d];
  }

  // ---- what an attempt comes to ----

  /** The file an open of the path gets. */
  function FileAt(k: Kernel, path: nat): nat { if path in k.paths then k.paths[path] else k.nextInode }

  /** Every other process is where it was, and what it locks it still locks. */
  ghost predicate OthersKept(k: Kernel, r: Kernel, p: nat) {
    forall q :: q != p && q in k.procs ==>
      q in r.procs && r.procs[q] == k.procs[q] && (HasLock(k.procs[q]) ==> StillLocks(k, r, k.procs[q].fd))
  }

  predicate StillLocks(k: Kernel, r: Kernel, fd: nat) {
    fd in k.openFds ==>
      && fd in r.openFds && r.openFds[fd] == k.openFds[fd]
      && r.openFds[fd] in r.locks && r.locks[r.openFds[fd]] == fd
  }

  lemma {:induction false} ThenAfter(k: Kernel, s: Step, rest: seq<Step>)
    requires Enabled(k, s) && AllEnabled(Next(k, s), rest)
    ensures AllEnabled(k, [s] + rest) && After(k, [s] + rest) == After(Next(k, s), rest)
  {
    hide Enabled, Next;
    assert ([s] + rest)[1..] == rest;
  }

  lemma {:induction false} TwoSteps(k: Kernel, a: Step, b: Step)
    requires Enabled(k, a) && Enabled(Next(k, a), b)
    ensures AllEnabled(k, [a, b]) && After(k, [a, b]) == Next(Next(k, a), b)
  {
    hide Enabled, Next;
    assert [a, b][1..] == [b] && [b][1..] == [];
    assert AllEnabled(Next(k, a), [b]) && After(Next(k, a), [b]) == After(Next(Next(k, a), b), []);
  }

  lemma OpenGets(k: Kernel, p: nat, path: nat, tries: nat)
    requires Inv(k) && !HasFd(PhaseOf(k, p))
    ensures var r := OpenFile(k, p, path, tries);
            && Inv(r) && PhaseOf(r, p) == Opened(path, k.nextFd, tries) && r.locks == k.locks && OthersKept(k, r, p)
            && path in r.paths && r.paths[path] == FileAt(k, path)
            && k.nextFd in r.openFds && r.openFds[k.nextFd] == FileAt(k, path)
  {
    OpenKeeps(k, p, path, tries);
  }

  /** An opened file that is locked is refused at once, and closed again. */
  lemma LockRefused(k: Kernel, p: nat)
    requires Inv(k) && PhaseOf(k, p).Opened? && k.openFds[PhaseOf(k, p).fd] in k.locks
    ensures var r := Next(k, Lock(p));
            PhaseOf(r, p) == Busy && PhaseOf(k, p).fd !in r.openFds && r.paths == k.paths && OthersKept(k, r, p)
  {
    var fd, r := PhaseOf(k, p).fd, Next(k, Lock(p));
    forall q | q != p && q in k.procs && HasLock(k.procs[q]) ensures StillLocks(k, r, k.procs[q].fd) {
      assert HasFd(k.procs[q]) && k.procs[q].fd != fd;
    }
  }

  /** A free opened file is locked and compared: the lease is held when it is still the file at the path, and otherwise
      closed again, with one more try after the first. */
  lemma {:induction false} LockAndCheck(k: Kernel, p: nat)
    requires Inv(k) && PhaseOf(k, p).Opened? && k.openFds[PhaseOf(k, p).fd] !in k.locks
    ensures var steps, x := [Lock(p), Check(p)], PhaseOf(k, p);
            && AllEnabled(k, steps)
            && var r := After(k, steps);
               && Inv(r) && OthersKept(k, r, p) && r.paths == k.paths
               && (if SameFile(k, x.fd, x.path) then PhaseOf(r, p) == Held(x.path, x.fd) && Verifies(r, p, x.path)
                   else && PhaseOf(r, p) == (if x.tries == 0 then Retrying(x.path, 1) else Unavailable)
                        && x.fd !in r.openFds && r.locks == k.locks)
  {
    hide Inv, Closed, OthersKept, AllEnabled, After;
    var x := PhaseOf(k, p);
    var locked := Next(k, Lock(p));
    LockTakes(k, p);
    CheckDecides(k, p);
    TwoSteps(k, Lock(p), Check(p));
  }

  lemma LockTakes(k: Kernel, p: nat)
    requires Inv(k) && PhaseOf(k, p).Opened? && k.openFds[PhaseOf(k, p).fd] !in k.locks
    ensures var x, r := PhaseOf(k, p), Next(k, Lock(p));
            && Inv(r) && PhaseOf(r, p) == Locked(x.path, x.fd, x.tries)
            && r == Moved(k.(locks := k.locks[k.openFds[x.fd] := x.fd]), p, Locked(x.path, x.fd, x.tries))
  {
    LockKeeps(k, p);
  }

  lemma CheckDecides(k: Kernel, p: nat)
    requires Inv(k) && PhaseOf(k, p).Opened? && k.openFds[PhaseOf(k, p).fd] !in k.locks
    ensures var x, locked := PhaseOf(k, p), Next(k, Lock(p));
            && PhaseOf(locked, p).Locked?
            && var r := Next(locked, Check(p));
               && Inv(r) && OthersKept(k, r, p) && r.paths == k.paths
               && (if SameFile(k, x.fd, x.path) then PhaseOf(r, p) == Held(x.path, x.fd) && Verifies(r, p, x.path)
                   else && PhaseOf(r, p) == (if x.tries == 0 then Retrying(x.path, 1) else Unavailable)
                        && x.fd !in r.openFds && r.locks == k.locks)
  {
    hide Inv, OthersKept;
    var x, locked := PhaseOf(k, p), Next(k, Lock(p));
    LockTakes(k, p);
    CheckKeeps(locked, p);
    CheckLeavesOthers(k, p);
    assert k.locks == locked.locks - {k.openFds[x.fd]};
  }

  lemma CheckLeavesOthers(k: Kernel, p: nat)
    requires Inv(k) && PhaseOf(k, p).Opened? && k.openFds[PhaseOf(k, p).fd] !in k.locks
    ensures PhaseOf(Next(k, Lock(p)), p).Locked? && OthersKept(k, Next(Next(k, Lock(p)), Check(p)), p)
  {
    var x, r := PhaseOf(k, p), Next(Next(k, Lock(p)), Check(p));
    forall q | q != p && q in k.procs && HasLock(k.procs[q]) ensures StillLocks(k, r, k.procs[q].fd) {
      assert HasFd(k.procs[q]) && k.procs[q].fd != x.fd;
      assert k.openFds[k.procs[q].fd] in k.locks;
    }
  }

  lemma OthersKeptTrans(a: Kernel, b: Kernel, c: Kernel, p: nat)
    requires OthersKept(a, b, p) && OthersKept(b, c, p)
    ensures OthersKept(a, c, p)
  {
  }

  /** A file nobody locks is taken at the first try. */
  lemma {:induction false} FreeFileIsTaken(k: Kernel, path: nat, p: nat)
    requires Inv(k) && PhaseOf(k, p).Idle? && FileAt(k, path) !in k.locks
    ensures var steps := [Open(p, path)] + [Lock(p), Check(p)];
            AllEnabled(k, steps) && Verifies(After(k, steps), p, path) && OthersKept(k, After(k, steps), p)
  {
    hide Inv, OpenFile, OthersKept, AllEnabled, After, Verifies;
    OpenGets(k, p, path, 0);
    var open := Next(k, Open(p, path));
    LockAndCheck(open, p);
    ThenAfter(k, Open(p, path), [Lock(p), Check(p)]);
    OthersKeptTrans(k, open, After(open, [Lock(p), Check(p)]), p);
  }

  /** A file somebody locks is refused, whoever holds it keeps it, and the process may try again. */
  lemma {:induction false} LockedFileIsBusy(k: Kernel, path: nat, p: nat)
    requires Inv(k) && PhaseOf(k, p).Idle? && FileAt(k, path) in k.locks
    ensures var steps := [Open(p, path), Lock(p)];
            && AllEnabled(k, steps) && PhaseOf(After(k, steps), p) == Busy && OthersKept(k, After(k, steps), p)
            && Enabled(After(k, steps), TryLater(p)) && PhaseOf(Next(After(k, steps), TryLater(p)), p) == Idle
  {
    hide Inv, OpenFile, OthersKept, AllEnabled, After;
    OpenGets(k, p, path, 0);
    var open := Next(k, Open(p, path));
    LockRefused(open, p);
    TwoSteps(k, Open(p, path), Lock(p));
    OthersKeptTrans(k, open, Next(open, Lock(p)), p);
  }

  lemma ReplaceKeeps(k: Kernel, path: nat, inode: nat, p: nat)
    requires Inv(k)
    ensures var r := Next(k, Replace(path, inode));
            Inv(r) && OthersKept(k, r, p) && r == k.(paths := k.paths[path := inode])
  {
    PathsKeep(k, k.paths[path := inode]);
  }

  /** The file is replaced between the open and the lock: the round that finds out closes it and opens again. */
  lemma {:induction false} ReplacedRound(k: Kernel, path: nat, p: nat, inode: nat)
    requires Inv(k) && PhaseOf(k, p).Opened? && PhaseOf(k, p).path == path
    requires k.openFds[PhaseOf(k, p).fd] !in k.locks && k.openFds[PhaseOf(k, p).fd] != inode
    ensures var steps := [Replace(path, inode)] + [Lock(p), Check(p)];
            && AllEnabled(k, steps)
            && var r := After(k, steps);
               && Inv(r) && OthersKept(k, r, p) && r.locks == k.locks && FileAt(r, path) == inode
               && PhaseOf(r, p) == (if PhaseOf(k, p).tries == 0 then Retrying(path, 1) else Unavailable)
  {
    hide Inv, OthersKept, AllEnabled, After;
    ReplaceKeeps(k, path, inode, p);
    var replaced := Next(k, Replace(path, inode));
    LockAndCheck(replaced, p);
    ThenAfter(k, Replace(path, inode), [Lock(p), Check(p)]);
    OthersKeptTrans(k, replaced, After(replaced, [Lock(p), Check(p)]), p);
  }

  /** A file replaced once between the open and the lock is still taken: the second round takes the new one. */
  lemma {:induction false} ReplacedOnceIsTaken(k: Kernel, path: nat, p: nat, inode: nat)
    requires Inv(k) && PhaseOf(k, p).Idle?
    requires FileAt(k, path) !in k.locks && inode !in k.locks && inode != FileAt(k, path)
    ensures var round, again := [Replace(path, inode)] + [Lock(p), Check(p)], [Reopen(p)] + [Lock(p), Check(p)];
            var steps := [Open(p, path)] + (round + again);
            AllEnabled(k, steps) && Verifies(After(k, steps), p, path) && OthersKept(k, After(k, steps), p)
  {
    hide Inv, OpenFile, OthersKept, AllEnabled, After, Verifies;
    var round, again := [Replace(path, inode)] + [Lock(p), Check(p)], [Reopen(p)] + [Lock(p), Check(p)];
    OpenGets(k, p, path, 0);
    var open := Next(k, Open(p, path));
    ReplacedRound(open, path, p, inode);
    var retrying := After(open, round);
    OpenGets(retrying, p, path, 1);
    var reopened := Next(retrying, Reopen(p));
    LockAndCheck(reopened, p);
    ThenAfter(retrying, Reopen(p), [Lock(p), Check(p)]);
    Joined(open, round, again);
    ThenAfter(k, Open(p, path), round + again);
    OthersKeptTrans(k, open, retrying, p);
    OthersKeptTrans(k, retrying, reopened, p);
    OthersKeptTrans(k, reopened, After(reopened, [Lock(p), Check(p)]), p);
  }

  /** A held file that is deleted no longer verifies; the next process opens a new one and takes it. */
  lemma {:induction false} UnlinkedFileIsNew(k: Kernel, path: nat, p: nat, q: nat)
    requires Inv(k) && Verifies(k, p, path) && PhaseOf(k, q).Idle? && p != q && k.nextInode !in k.locks
    ensures var steps := [Unlink(path)] + ([Open(q, path)] + [Lock(q), Check(q)]);
            && AllEnabled(k, steps)
            && var r := After(k, steps);
               PhaseOf(r, p) == PhaseOf(k, p) && Verifies(r, q, path) && !Verifies(r, p, path)
  {
    hide OpenFile, AllEnabled, After, OthersKept;
    var unlinked := Next(k, Unlink(path));
    PathsKeep(k, k.paths - {path});
    var rest := [Open(q, path)] + [Lock(q), Check(q)];
    FreeFileIsTaken(unlinked, path, q);
    ThenAfter(k, Unlink(path), rest);
    var r := After(unlinked, rest);
    KeptPhase(unlinked, r, q, p);
    RunKeepsInv(unlinked, rest);
    if Verifies(r, p, path) { VerifiedIsUnique(r, path, p, q); }
  }

  lemma KeptPhase(k: Kernel, r: Kernel, p: nat, q: nat)
    requires OthersKept(k, r, p) && q != p && q in k.procs
    ensures PhaseOf(r, q) == PhaseOf(k, q)
  {
  }

  /** Replaced again before the second lock, it is not, and the process may try again. */
  lemma {:induction false} ReplacedTwiceIsNot(k: Kernel, path: nat, p: nat, first: nat, second: nat)
    requires Inv(k) && PhaseOf(k, p).Idle? && FileAt(k, path) !in k.locks && first !in k.locks
    requires first != FileAt(k, path) && second != first
    ensures var one := [Replace(path, first)] + [Lock(p), Check(p)];
            var two := [Reopen(p)] + ([Replace(path, second)] + [Lock(p), Check(p)]);
            var steps := [Open(p, path)] + (one + two);
            && AllEnabled(k, steps) && PhaseOf(After(k, steps), p) == Unavailable && OthersKept(k, After(k, steps), p)
            && Enabled(After(k, steps), TryLater(p)) && PhaseOf(Next(After(k, steps), TryLater(p)), p) == Idle
  {
    hide Inv, OpenFile, OthersKept, AllEnabled, After;
    var one := [Replace(path, first)] + [Lock(p), Check(p)];
    var last := [Replace(path, second)] + [Lock(p), Check(p)];
    OpenGets(k, p, path, 0);
    var open := Next(k, Open(p, path));
    ReplacedRound(open, path, p, first);
    var retrying := After(open, one);
    OpenGets(retrying, p, path, 1);
    var reopened := Next(retrying, Reopen(p));
    ReplacedRound(reopened, path, p, second);
    ThenAfter(retrying, Reopen(p), last);
    Joined(open, one, [Reopen(p)] + last);
    ThenAfter(k, Open(p, path), one + ([Reopen(p)] + last));
    OthersKeptTrans(k, open, retrying, p);
    OthersKeptTrans(k, retrying, reopened, p);
    OthersKeptTrans(k, reopened, After(reopened, last), p);
  }

  lemma {:induction false} Joined(k: Kernel, a: seq<Step>, b: seq<Step>)
    requires AllEnabled(k, a) && AllEnabled(After(k, a), b)
    ensures AllEnabled(k, a + b) && After(k, a + b) == After(After(k, a), b)
    decreases |a|
  {
    hide Enabled, Next;
    if a == [] {
      assert a + b == b;
    } else {
      assert (a + b)[1..] == a[1..] + b;
      Joined(Next(k, a[0]), a[1..], b);
    }
  }

  /** A released lease leaves its file free, and so does a process that dies. */
  lemma {:induction false} ReleasingFrees(k: Kernel, p: nat)
    requires Inv(k) && PhaseOf(k, p).Held?
    ensures var steps, fd := [Release(p)] + [Unlock(p), Close(p)], PhaseOf(k, p).fd;
            && fd in k.openFds && AllEnabled(k, steps)
            && var r := After(k, steps);
               PhaseOf(r, p) == Idle && fd !in r.openFds && k.openFds[fd] !in r.locks && OthersKept(k, r, p)
    ensures var r, fd := Next(k, Die(p)), PhaseOf(k, p).fd;
            PhaseOf(r, p) == Idle && fd !in r.openFds && k.openFds[fd] !in r.locks && OthersKept(k, r, p)
  {
    hide AllEnabled, After;
    var fd := PhaseOf(k, p).fd;
    var a := Next(k, Release(p));
    var b := Next(a, Unlock(p));
    var c := Next(b, Close(p));
    TwoSteps(a, Unlock(p), Close(p));
    ThenAfter(k, Release(p), [Unlock(p), Close(p)]);
    forall q | q != p && q in k.procs && HasLock(k.procs[q])
      ensures StillLocks(k, c, k.procs[q].fd) && StillLocks(k, Next(k, Die(p)), k.procs[q].fd)
    {
      assert HasFd(k.procs[q]) && k.procs[q].fd != fd;
    }
  }

  // ---- one process's calls ----

  /** The kernel as one process sees it: its own calls, and whatever the others do in between. `trace` records both. */
  class Host {
    var kernel: Kernel
    ghost var trace: seq<Step>
    ghost const boot: Kernel

    ghost predicate Valid()
      reads this
    {
      Inv(boot) && AllEnabled(boot, trace) && kernel == After(boot, trace)
    }

    constructor (k: Kernel)
      requires Inv(k)
      ensures Valid() && kernel == k && trace == []
    {
      kernel, trace, boot := k, [], k;
    }

    method Do(s: Step)
      requires Valid() && Enabled(kernel, s)
      modifies this
      ensures Valid() && kernel == Next(old(kernel), s) && trace == old(trace) + [s]
    {
      OneMore(boot, trace, s);
      kernel := Next(kernel, s);
      trace := trace + [s];
    }

    /** The other processes' steps, as far as the kernel lets each happen. */
    method Others(me: nat, steps: seq<Step>)
      requires Valid()
      modifies this
      ensures Valid() && PhaseOf(kernel, me) == old(PhaseOf(kernel, me)) && old(trace) <= trace
      ensures steps == [] ==> kernel == old(kernel)
    {
      hide Inv, AllEnabled, After, Enabled;
      for n := 0 to |steps|
        invariant Valid() && PhaseOf(kernel, me) == old(PhaseOf(kernel, me)) && old(trace) <= trace
        invariant n == 0 ==> kernel == old(kernel)
      {
        if Enabled(kernel, steps[n]) && !ActsFor(steps[n], me) { Do(steps[n]); }
      }
    }

    /** At most two rounds of open, lock, compare; others run before every call. */
    method Acquire(me: nat, path: nat, gaps: seq<seq<Step>>) returns (lease: Option<nat>)
      requires Valid() && PhaseOf(kernel, me).Idle? && |gaps| == 6
      modifies this
      ensures Valid() && old(trace) <= trace
      ensures lease.Some? ==> PhaseOf(kernel, me) == Held(path, lease.value) && Verifies(kernel, me, path)
      ensures lease.None? ==> PhaseOf(kernel, me).Busy? || PhaseOf(kernel, me).Unavailable?
    {
      hide Inv, Next, After, AllEnabled;
      Others(me, gaps[0]);
      OpenLeads(kernel, me, path);
      Do(Open(me, path));
      var round := 0;
      while round < ROUNDS
        invariant round <= ROUNDS && Valid() && old(trace) <= trace
        invariant round < ROUNDS ==>
                  PhaseOf(kernel, me).Opened? && PhaseOf(kernel, me).path == path && PhaseOf(kernel, me).tries == round
        invariant round >= ROUNDS ==> PhaseOf(kernel, me).Unavailable?
      {
        Others(me, gaps[1 + 3 * round]);
        LockLeads(boot, trace, me);
        Do(Lock(me));
        if PhaseOf(kernel, me).Busy? { return None; }
        Others(me, gaps[2 + 3 * round]);
        CheckLeads(kernel, me);
        Do(Check(me));
        if PhaseOf(kernel, me).Held? { return Some(PhaseOf(kernel, me).fd); }
        round := round + 1;
        if round < ROUNDS {
          Others(me, gaps[3 * round]);
          ReopenLeads(kernel, me);
          Do(Reopen(me));
        }
      }
      lease := None;
    }
  }

  lemma OpenLeads(k: Kernel, p: nat, path: nat)
    requires PhaseOf(k, p).Idle?
    ensures var x := PhaseOf(Next(k, Open(p, path)), p); x.Opened? && x.path == path && x.tries == 0
  {
  }

  /** Locking never fails for want of the descriptor: either the lock is taken or the file is busy. */
  lemma {:induction false} LockLeads(boot: Kernel, steps: seq<Step>, p: nat)
    requires Inv(boot) && AllEnabled(boot, steps) && PhaseOf(After(boot, steps), p).Opened?
    ensures var k := After(boot, steps);
            var x, y := PhaseOf(k, p), PhaseOf(Next(k, Lock(p)), p);
            y.Busy? || (y.Locked? && y.path == x.path && y.tries == x.tries)
  {
    RunKeepsInv(boot, steps);
    hide Closed;
  }

  lemma ReopenLeads(k: Kernel, p: nat)
    requires PhaseOf(k, p).Retrying?
    ensures var x, y := PhaseOf(k, p), PhaseOf(Next(k, Reopen(p)), p);
            y.Opened? && y.path == x.path && y.tries == x.tries
  {
  }

  /** A check either proves the lease, closes the file to try the next round, or gives up. */
  lemma CheckLeads(k: Kernel, p: nat)
    requires PhaseOf(k, p).Locked?
    ensures var x, n := PhaseOf(k, p), Next(k, Check(p));
            var y := PhaseOf(n, p);
            if y.Held? then y.path == x.path && Verifies(n, p, x.path)
            else if x.tries + 1 < ROUNDS then y.Retrying? && y.path == x.path
              && y.tries == x.tries + 1 else y.Unavailable?
  {
  }

  predicate ActsFor(s: Step, p: nat) {
    !s.Unlink? && !s.Replace? && s.p == p
  }

  lemma {:induction false} OneMore(k: Kernel, steps: seq<Step>, s: Step)
    requires AllEnabled(k, steps) && Enabled(After(k, steps), s)
    ensures AllEnabled(k, steps + [s]) && After(k, steps + [s]) == Next(After(k, steps), s)
    decreases |steps|
  {
    if steps == [] {
      assert [] + [s] == [s] && [s][1..] == [];
    } else {
      assert (steps + [s])[1..] == steps[1..] + [s];
      OneMore(Next(k, steps[0]), steps[1..], s);
    }
  }

  /** A held lease: the descriptor is forgotten before the lock is given up, so a released lease never verifies. */
  class AccountLease {
    const path: nat
    var fd: Option<nat>

    constructor (path: nat, fd: nat)
      ensures this.path == path && this.fd == Some(fd)
    {
      this.path, this.fd := path, Some(fd);
    }

    /** The caller's phase says what the object says. */
    ghost predicate Mirrors(k: Kernel, me: nat)
      reads this
    {
      if fd.Some? then PhaseOf(k, me) == Held(path, fd.value) else !PhaseOf(k, me).Held?
    }

    /** Passes exactly when this process's lease verifies, and then no other process's does. */
    method Verify(k: Kernel, ghost me: nat) returns (ok: bool)
      requires Inv(k) && Mirrors(k, me)
      ensures ok <==> Verifies(k, me, path)
      ensures ok ==> forall q :: Verifies(k, q, path) ==> q == me
    {
      if fd.None? { return false; }
      if fd.value !in k.openFds || path !in k.paths { return false; }
      ok := k.openFds[fd.value] == k.paths[path];
      if ok {
        forall q | Verifies(k, q, path) ensures q == me { VerifiedIsUnique(k, path, q, me); }
      }
    }

    /** Clears the descriptor, then unlocks, then closes; others may run in between. */
    method Release(host: Host, me: nat, gaps: seq<seq<Step>>)
      requires host.Valid() && Mirrors(host.kernel, me) && |gaps| == 2
      modifies this, host
      ensures host.Valid() && fd == None && Mirrors(host.kernel, me)
      ensures old(fd).Some? ==> PhaseOf(host.kernel, me).Idle?
      ensures old(fd).None? ==> host.kernel == old(host.kernel)
    {
      var held := fd;
      fd := None;
      if held.Some? {
        host.Do(Step.Release(me));
        host.Others(me, gaps[0]);
        host.Do(Unlock(me));
        host.Others(me, gaps[1]);
        host.Do(Close(me));
      }
    }
  }
}
