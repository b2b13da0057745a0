/** The daemon token file as a lock: any number of daemons, any interleaving of their system calls. */
module TokenFile {
  import opened Wrappers

  type Pid = nat

  /** How a daemon's use of the file ends. */
  datatype End =
    | NotCreated     // its exclusive create was refused, or failed otherwise
    | Clean          // its file was unlinked
    | Stale          // an error kept it from identifying or removing its file
    | Crashed        // it died while the file was there
    | NotFound       // its file was gone before it could remove it
    | NotMine        // another file was there

  /**
   * Where a daemon is, with the inode behind its descriptor. Every way out of the block leads to
   * `Cleanup`, with the `identity` variable as it was then; `created` records, for the proofs
   * only, whether the exclusive create had succeeded.
   */
  datatype Pc =
    | Opened(ino: nat)      // created, `identity` still unset
    | Identified(ino: nat)  // `identity` is set
    | Live(ino: nat)        // token written and handed out
    | Cleanup(identity: Option<nat>, created: bool)
    | Matched(ino: nat)     // `lstat` agreed with `identity`, before `unlink`
    | Ended(end: End)

  /** The file at the path: its inode number, which may be one used before, and its creator. */
  datatype File = File(ino: nat, owner: Pid)

  datatype System = System(path: Option<File>, daemons: map<Pid, Pc>)

  const INITIAL := System(None, map[])

  /** `Skip` is the cleanup of a daemon without an identity. */
  datatype Action =
    | Open(ino: nat) | OpenFails | Fstat | FstatFails | Write | WriteFails | Exit
    | Skip | Lstat | LstatFails | Unlink | UnlinkFails | Crash

  function At(s: System, p: Pid, pc: Pc): System {
    s.(daemons := s.daemons[p := pc])
  }

  /** One system call of daemon `p`; a call it is not about to make changes nothing. */
  function Step(s: System, p: Pid, a: Action): System {
    if p !in s.daemons then
      match a
      case Open(ino) =>
        if s.path.Some? then At(s, p, Cleanup(None, false)) else System(Some(File(ino, p)), s.daemons[p := Opened(ino)])
      case OpenFails => At(s, p, Cleanup(None, false))
      case _ => s
    else
      match (s.daemons[p], a)
      case (Opened(i), Fstat) => At(s, p, Identified(i))
      case (Opened(_), FstatFails) => At(s, p, Cleanup(None, true))
      case (Identified(i), Write) => At(s, p, Live(i))
      case (Identified(i), WriteFails) => At(s, p, Cleanup(Some(i), true))
      case (Live(i), Exit) => At(s, p, Cleanup(Some(i), true))
      case (Cleanup(identity, created), _) => CleanupStep(s, p, identity, created, a)
      case (Matched(_), Unlink) =>
        if s.path.None? then At(s, p, Ended(NotFound)) else System(None, s.daemons[p := Ended(Clean)])
      case (Matched(_), UnlinkFails) => At(s, p, Ended(Stale))
      case (pc, Crash) => if pc.Ended? then s else At(s, p, Ended(Crashed))
      case _ => s
  }

  /** The `finally` block: only a set identity leads to `lstat`, and only its inode to `unlink`. */
  function CleanupStep(s: System, p: Pid, identity: Option<nat>, created: bool, a: Action): System {
    match a
    case Skip => if identity.None? then At(s, p, Ended(if created then Stale else NotCreated)) else s
    case Lstat =>
      if identity.None? then s
      else if s.path.None? then At(s, p, Ended(NotFound))
      else if s.path.value.ino == identity.value then At(s, p, Matched(identity.value))
      else At(s, p, Ended(NotMine))
    case LstatFails => if identity.None? then s else At(s, p, Ended(Stale))
    case Crash => At(s, p, Ended(if created then Crashed else NotCreated))
    case _ => s
  }

  function Exec(s: System, steps: seq<(Pid, Action)>): System
    decreases |steps|
  {
    if steps == [] then s else Exec(Step(s, steps[0].0, steps[0].1), steps[1..])
  }

  // ----- The invariant -----------------------------------------------------------------------

  /** Between its exclusive create and its end. */
  predicate Inside(pc: Pc) {
    match pc
    case Cleanup(_, created) => created
    case Ended(_) => false
    case _ => true
  }

  /** The inode a daemon that is inside knows or holds open. */
  function Inode(pc: Pc): Option<nat> {
    match pc
    case Opened(i) => Some(i)
    case Identified(i) => Some(i)
    case Live(i) => Some(i)
    case Cleanup(identity, _) => identity
    case Matched(i) => Some(i)
    case Ended(_) => None
  }

  /** The daemon's file is at the path: it is inside, or it went without removing it. */
  predicate Owns(pc: Pc) {
    Inside(pc) || pc == Ended(Stale) || pc == Ended(Crashed)
  }

  ghost predicate Inv(s: System) {
    && (forall p :: p in s.daemons && Owns(s.daemons[p]) ==> s.path.Some? && s.path.value.owner == p)
    && (s.path.Some? ==> s.path.value.owner in s.daemons && Owns(s.daemons[s.path.value.owner]))
    && (forall p :: p in s.daemons && Inode(s.daemons[p]).Some? ==>
          Inside(s.daemons[p]) && s.path.value.ino == Inode(s.daemons[p]).value)
    && (forall p :: p in s.daemons ==> s.daemons[p] != Ended(NotFound) && s.daemons[p] != Ended(NotMine))
  }

  lemma FirstStepKeeps(s: System, p: Pid, a: Action)
    requires Inv(s) && p !in s.daemons
    ensures Inv(Step(s, p, a))
  {
  }

  lemma CleanupKeeps(s: System, p: Pid, a: Action)
    requires Inv(s) && p in s.daemons && s.daemons[p].Cleanup?
    ensures Inv(Step(s, p, a))
  {
  }

  /** A daemon that is inside stays so, knowing no other inode, or goes without removing its file. */
  lemma MovedKeeps(s: System, p: Pid, pc: Pc)
    requires Inv(s) && p in s.daemons && Inside(s.daemons[p]) && Owns(pc)
    requires Inode(pc).Some? ==> Inode(pc) == Inode(s.daemons[p]) && Inside(pc)
    ensures Inv(At(s, p, pc))
  {
  }

  lemma UnlinkKeeps(s: System, p: Pid)
    requires Inv(s) && p in s.daemons && s.daemons[p].Matched?
    ensures Inv(Step(s, p, Unlink))
  {
  }

  lemma StepKeeps(s: System, p: Pid, a: Action)
    requires Inv(s)
    ensures Inv(Step(s, p, a))
  {
    if p !in s.daemons {
      FirstStepKeeps(s, p, a);
    } else if s.daemons[p].Cleanup? {
      CleanupKeeps(s, p, a);
    } else if s.daemons[p].Matched? && a.Unlink? {
      UnlinkKeeps(s, p);
    } else if Step(s, p, a) != s {
      MovedKeeps(s, p, Step(s, p, a).daemons[p]);
    }
  }

  lemma {:induction false} Reachable(s: System, steps: seq<(Pid, Action)>)
    requires Inv(s)
    ensures Inv(Exec(s, steps))
    decreases |steps|
  {
    if steps != [] {
      StepKeeps(s, steps[0].0, steps[0].1);
      Reachable(Step(s, steps[0].0, steps[0].1), steps[1..]);
    }
  }

  // ----- Properties of every run ----------------------------------------------------------------

  /** At most one daemon is between its exclusive create and its end, so at most one is live. */
  lemma MutualExclusion(steps: seq<(Pid, Action)>, p: Pid, q: Pid)
    requires var s := Exec(INITIAL, steps);
             p in s.daemons && q in s.daemons && Inside(s.daemons[p]) && Inside(s.daemons[q])
    ensures p == q
  {
    Reachable(INITIAL, steps);
  }

  /** A file only leaves the path by the unlink of the daemon that created it, after it was identified. */
  lemma OnlyTheOwnerUnlinks(steps: seq<(Pid, Action)>, p: Pid, a: Action)
    requires var s := Exec(INITIAL, steps); s.path.Some? && Step(s, p, a).path != s.path
    ensures var s := Exec(INITIAL, steps);
            a == Unlink && s.path.value.owner == p && p in s.daemons && s.daemons[p] == Matched(s.path.value.ino)
            && Step(s, p, a).path.None? && Step(s, p, a).daemons[p] == Ended(Clean)
  {
    Reachable(INITIAL, steps);
  }

  /** In its cleanup without an identity, or past it. */
  predicate Harmless(pc: Pc) {
    pc.Ended? || (pc.Cleanup? && pc.identity.None?)
  }

  /**
   * A daemon that enters the cleanup without an identity, because its create was refused or its
   * `fstat` failed, never changes the path again, whatever everyone does.
   */
  lemma {:induction false} NoIdentityNoUnlink(s: System, steps: seq<(Pid, Action)>, p: Pid, a: Action)
    requires p in s.daemons && Harmless(s.daemons[p])
    ensures var t := Exec(s, steps); p in t.daemons && Harmless(t.daemons[p]) && Step(t, p, a).path == t.path
    decreases |steps|
  {
    if steps != [] {
      var (q, b) := steps[0];
      assert p in Step(s, q, b).daemons && Harmless(Step(s, q, b).daemons[p]);
      NoIdentityNoUnlink(Step(s, q, b), steps[1..], p, a);
    }
  }

  /** A refused create, and a failed `fstat`, leave the daemon without an identity. */
  lemma RefusedHasNoIdentity(s: System, p: Pid, ino: nat)
    ensures p !in s.daemons && s.path.Some? ==> Harmless(Step(s, p, Open(ino)).daemons[p])
    ensures p !in s.daemons ==> Harmless(Step(s, p, OpenFails).daemons[p])
    ensures p in s.daemons && s.daemons[p].Opened? ==> Harmless(Step(s, p, FstatFails).daemons[p])
  {
  }

  /** The identity check of the cleanup always finds the daemon's own file. */
  lemma CleanupFindsItsFile(steps: seq<(Pid, Action)>, p: Pid)
    requires var s := Exec(INITIAL, steps); p in s.daemons && s.daemons[p].Cleanup? && s.daemons[p].identity.Some?
    ensures var s := Exec(INITIAL, steps);
            s.path == Some(File(s.daemons[p].identity.value, p))
            && Step(s, p, Lstat).daemons[p] == Matched(s.daemons[p].identity.value)
  {
    Reachable(INITIAL, steps);
  }

  /** Once every daemon has ended, the path is free exactly when none went without removing its file. */
  lemma FreePath(steps: seq<(Pid, Action)>)
    requires forall p :: p in Exec(INITIAL, steps).daemons ==> Exec(INITIAL, steps).daemons[p].Ended?
    ensures var s := Exec(INITIAL, steps);
            s.path.None? <==> forall p :: p in s.daemons ==> s.daemons[p].end == Clean || s.daemons[p].end == NotCreated
  {
    Reachable(INITIAL, steps);
  }

  /** A file left behind stays, and every later open is refused. */
  lemma {:induction false} LeftoverBlocks(s: System, steps: seq<(Pid, Action)>, p: Pid)
    requires Inv(s) && p in s.daemons && (s.daemons[p] == Ended(Stale) || s.daemons[p] == Ended(Crashed))
    ensures Exec(s, steps).path == s.path
    ensures forall q, ino :: q !in Exec(s, steps).daemons ==>
              Step(Exec(s, steps), q, Open(ino)).daemons[q] == Cleanup(None, false)
    decreases |steps|
  {
    if steps != [] {
      StepKeeps(s, steps[0].0, steps[0].1);
      assert Step(s, steps[0].0, steps[0].1).path == s.path;
      LeftoverBlocks(Step(s, steps[0].0, steps[0].1), steps[1..], p);
    }
  }

  // ----- Progress: an ordinary exit removes the file ------------------------------------------------

  /** Steps of other daemons. */
  ghost predicate OfOthers(steps: seq<(Pid, Action)>, p: Pid) {
    forall i :: 0 <= i < |steps| ==> steps[i].0 != p
  }

  /** Whatever the others do, a daemon stays where it is. */
  lemma {:induction false} OthersLeave(s: System, steps: seq<(Pid, Action)>, p: Pid)
    requires OfOthers(steps, p)
    ensures p in Exec(s, steps).daemons <==> p in s.daemons
    ensures p in s.daemons ==> Exec(s, steps).daemons[p] == s.daemons[p]
    decreases |steps|
  {
    if steps != [] {
      assert steps[0].0 != p;
      OthersLeave(Step(s, steps[0].0, steps[0].1), steps[1..], p);
    }
  }

  lemma CleanupEndsClean(s: System, p: Pid, between: seq<(Pid, Action)>)
    requires Inv(s) && p in s.daemons && s.daemons[p].Cleanup? && s.daemons[p].identity.Some?
    requires OfOthers(between, p)
    ensures var u := Step(Exec(Step(s, p, Lstat), between), p, Unlink);
            p in u.daemons && u.daemons[p] == Ended(Clean) && u.path == None
  {
    StepKeeps(s, p, Lstat);
    Reachable(Step(s, p, Lstat), between);
    OthersLeave(Step(s, p, Lstat), between, p);
  }

  /**
   * A daemon that is live and exits, or fails after it was identified, removes its file with its
   * next two calls, whatever the other daemons do before, between and after.
   */
  lemma ExitRemovesTheFile(steps: seq<(Pid, Action)>, p: Pid, before: seq<(Pid, Action)>, between: seq<(Pid, Action)>,
                           exit: Action)
    requires var s := Exec(INITIAL, steps);
             p in s.daemons
             && ((s.daemons[p].Live? && exit == Exit) || (s.daemons[p].Identified? && exit == WriteFails))
    requires OfOthers(before, p) && OfOthers(between, p)
    ensures var s := Exec(Step(Exec(INITIAL, steps), p, exit), before);
            var u := Step(Exec(Step(s, p, Lstat), between), p, Unlink);
            p in u.daemons && u.daemons[p] == Ended(Clean) && u.path == None
  {
    var s := Exec(INITIAL, steps);
    Reachable(INITIAL, steps);
    StepKeeps(s, p, exit);
    Reachable(Step(s, p, exit), before);
    OthersLeave(Step(s, p, exit), before, p);
    CleanupEndsClean(Exec(Step(s, p, exit), before), p, between);
  }

  /** A new daemon that finds the path free creates, identifies and writes its file, and then is live. */
  lemma FreePathIsTaken(s: System, p: Pid, ino: nat, before: seq<(Pid, Action)>, between: seq<(Pid, Action)>)
    requires Inv(s) && s.path == None && p !in s.daemons && OfOthers(before, p) && OfOthers(between, p)
    ensures var t := Step(Exec(Step(Exec(Step(s, p, Open(ino)), before), p, Fstat), between), p, Write);
            p in t.daemons && t.daemons[p] == Live(ino) && t.path == Some(File(ino, p))
  {
    var s1 := Step(s, p, Open(ino));
    var s2 := Exec(s1, before);
    var s3 := Step(s2, p, Fstat);
    var s4 := Exec(s3, between);
    OthersLeave(s1, before, p);
    OthersLeave(s3, between, p);
    StepKeeps(s, p, Open(ino));
    Reachable(s1, before);
    StepKeeps(s2, p, Fstat);
    Reachable(s3, between);
    assert s4.daemons[p] == Identified(ino);
  }

  /** No call that touches an existing file fails, and no daemon dies. */
  predicate Orderly(a: Action) {
    a != FstatFails && a != LstatFails && a != UnlinkFails && a != Crash
  }

  ghost predicate Untroubled(s: System) {
    forall p :: p in s.daemons ==>
      s.daemons[p] != Ended(Stale) && s.daemons[p] != Ended(Crashed) && s.daemons[p] != Cleanup(None, true)
  }

  lemma {:induction false} StaysUntroubled(s: System, steps: seq<(Pid, Action)>)
    requires Untroubled(s) && forall i :: 0 <= i < |steps| ==> Orderly(steps[i].1)
    ensures Untroubled(Exec(s, steps))
    decreases |steps|
  {
    if steps != [] {
      assert Orderly(steps[0].1);
      StaysUntroubled(Step(s, steps[0].0, steps[0].1), steps[1..]);
    }
  }

  /** A run in which every call succeeds on existing files, and every daemon has ended, leaves the path free. */
  lemma OrderlyRunFreesThePath(steps: seq<(Pid, Action)>)
    requires forall i :: 0 <= i < |steps| ==> Orderly(steps[i].1)
    requires forall p :: p in Exec(INITIAL, steps).daemons ==> Exec(INITIAL, steps).daemons[p].Ended?
    ensures Exec(INITIAL, steps).path == None
  {
    Reachable(INITIAL, steps);
    StaysUntroubled(INITIAL, steps);
  }

  // ----- Failures ---------------------------------------------------------------------------------------

  /**
   * How each failure ends a daemon: without an identity the cleanup does nothing, and leaves the file
   * of an unidentified daemon behind; a failing `lstat` or `unlink` leaves the file too.
   */
  lemma FailuresEnd(steps: seq<(Pid, Action)>, p: Pid)
    requires p in Exec(INITIAL, steps).daemons
    ensures var s := Exec(INITIAL, steps);
            match s.daemons[p]
            case Opened(_) => Step(Step(s, p, FstatFails), p, Skip) == At(s, p, Ended(Stale))
            case Cleanup(identity, created) =>
              if identity.Some? then Step(s, p, LstatFails) == At(s, p, Ended(Stale))
              else Step(s, p, Skip) == At(s, p, Ended(if s.path.Some? && s.path.value.owner == p then Stale
                                                      else NotCreated))
            case Matched(_) => Step(s, p, UnlinkFails) == At(s, p, Ended(Stale))
            case _ => true
  {
    Reachable(INITIAL, steps);
  }

  /** A daemon may die at any point before its end, and its file stays. */
  lemma DeathKeepsTheFile(steps: seq<(Pid, Action)>, p: Pid)
    requires p in Exec(INITIAL, steps).daemons && !Exec(INITIAL, steps).daemons[p].Ended?
    ensures var s := Exec(INITIAL, steps);
            var owned := s.path.Some? && s.path.value.owner == p;
            Step(s, p, Crash) == At(s, p, Ended(if owned then Crashed else NotCreated))
  {
    Reachable(INITIAL, steps);
  }
}
