/** Coalescing runs: any number of processes share one pending flag and one run lock.

  A driver raises the flag and, while it can take the lock, runs once for every time it finds the flag
  up.  A hook raises the flag too, looks whether anyone holds the lock, and starts a driver if not.
  Raising, lowering and looking at the flag are atomic (they are serialized by a lock of their own);
  taking the run lock never blocks.  Every step below is one such operation of one process.
 */
module Coalesce {
  import opened Common

  datatype Outcome = Ran(runs: nat) | Handed | Spawned | IoFailed | RunFailed | SpawnFailed

  datatype Pc =
    | Raising                                 // drive: about to raise the flag
    | Holding(runs: nat)                      //        about to try the lock
    | Lowering(runs: nat)                     //        holds the lock, about to lower the flag
    | Starting(runs: nat)                     //        lowered it, about to run
    | Running(runs: nat)
    | Dropping(runs: nat)                     //        found it down, about to let go of the lock
    | Checking(runs: nat)                     //        let go, about to look at the flag again
    | Aborting(failure: Outcome)              //        failed while holding the lock
    | Announcing                              // hook:  about to raise the flag
    | Probing                                 //        about to try the lock
    | Peeking                                 //        has it for a moment
    | Spawning                                //        nobody had it: about to start a driver
    | Ended(outcome: Outcome)

  predicate Failed(outcome: Outcome) {
    outcome.IoFailed? || outcome.RunFailed? || outcome.SpawnFailed?
  }

  predicate HasLock(pc: Pc) {
    pc.Lowering? || pc.Starting? || pc.Running? || pc.Dropping? || pc.Aborting? || pc.Peeking?
  }

  datatype Entry = Raised(process: nat) | Started(process: nat) | Finished(process: nat)

  /** `log` is history only: what was raised and run, in order. */
  datatype State = State(flag: bool, lock: Option<nat>, processes: seq<Pc>, log: seq<Entry>)

  /** Whether an operation succeeds; a raise that fails may or may not have left the flag up. */
  datatype Answer = Works | Fails | FailsAfterRaising

  function At(s: State, i: nat, pc: Pc): State
    requires i < |s.processes|
  {
    s.(processes := s.processes[i := pc])
  }

  function Raise(s: State, i: nat): State {
    s.(flag := true, log := s.log + [Raised(i)])
  }

  function RaiseStep(s: State, i: nat, answer: Answer, next: Pc): State
    requires i < |s.processes|
  {
    match answer
    case Works => At(Raise(s, i), i, next)
    case Fails => At(s, i, Ended(IoFailed))
    case FailsAfterRaising => At(Raise(s, i), i, Ended(IoFailed))
  }

  function Act(s: State, i: nat, answer: Answer): State
    requires i < |s.processes|
  {
    var fails := answer != Works;
    match s.processes[i]
    case Raising => RaiseStep(s, i, answer, Holding(0))
    case Holding(runs) =>
      if fails then At(s, i, Ended(IoFailed))
      else if s.lock.Some? then At(s, i, Ended(if runs == 0 then Handed else Ran(runs)))
      else At(s.(lock := Some(i)), i, Lowering(runs))
    case Lowering(runs) =>
      if fails then At(s, i, Aborting(IoFailed))
      else if s.flag then At(s.(flag := false), i, Starting(runs))
      else At(s, i, Dropping(runs))
    case Starting(runs) => At(s.(log := s.log + [Started(i)]), i, Running(runs))
    case Running(runs) =>
      if fails then At(s, i, Aborting(RunFailed))
      else At(s.(log := s.log + [Finished(i)]), i, Lowering(runs + 1))
    case Dropping(runs) => At(s.(lock := None), i, Checking(runs))
    case Checking(runs) =>
      if fails then At(s, i, Ended(IoFailed))
      else if s.flag then At(s, i, Holding(runs))
      else At(s, i, Ended(Ran(runs)))
    case Aborting(failure) => At(s.(lock := None), i, Ended(failure))
    case Announcing => RaiseStep(s, i, answer, Probing)
    case Probing =>
      if fails then At(s, i, Ended(IoFailed))
      else if s.lock.Some? then At(s, i, Ended(Handed))
      else At(s.(lock := Some(i)), i, Peeking)
    case Peeking => At(s.(lock := None), i, Spawning)
    case Spawning =>
      if fails then At(s, i, Ended(SpawnFailed))
      else At(s, i, Ended(Spawned)).(processes := s.processes[i := Ended(Spawned)] + [Raising])
    case Ended(_) => s
  }

  predicate Live(s: State, i: nat) {
    i < |s.processes| && !s.processes[i].Ended?
  }

  ghost predicate Next(s: State, t: State) {
    exists i: nat, answer :: Live(s, i) && t == Act(s, i, answer)
  }

  ghost predicate Quiet(s: State) {
    forall i: nat :: !Live(s, i)
  }

  ghost predicate SomeFailed(s: State) {
    exists i: nat :: i < |s.processes| && s.processes[i].Ended? && Failed(s.processes[i].outcome)
  }

  /** Nobody has done anything yet: a flag that is down and processes at their start. */
  predicate Initial(s: State) {
    && !s.flag && s.lock.None? && s.log == []
    && forall i :: 0 <= i < |s.processes| ==> s.processes[i] in {Raising, Announcing}
  }

  // ---------- history ----------

  /** A raise no run has started after. */
  predicate Unserved(log: seq<Entry>) {
    log != [] &&
    match log[|log| - 1]
    case Raised(_) => true
    case Started(_) => false
    case Finished(_) => Unserved(log[..|log| - 1])
  }

  function Raises(log: seq<Entry>): nat {
    if log == [] then 0 else Raises(log[..|log| - 1]) + if log[|log| - 1].Raised? then 1 else 0
  }

  function Starts(log: seq<Entry>): nat {
    if log == [] then 0 else Starts(log[..|log| - 1]) + if log[|log| - 1].Started? then 1 else 0
  }

  function FinishedBy(log: seq<Entry>, process: nat): nat {
    if log == [] then 0 else FinishedBy(log[..|log| - 1], process) + if log[|log| - 1] == Finished(process) then 1 else 0
  }

  /** The places of a log at which something is entered. */
  function Places(log: seq<Entry>, counted: Entry -> bool): set<int> {
    set k | 0 <= k < |log| && counted(log[k])
  }

  lemma PlacesGrow(log: seq<Entry>, counted: Entry -> bool)
    requires log != []
    ensures |Places(log, counted)| ==
      |Places(log[..|log| - 1], counted)| + if counted(log[|log| - 1]) then 1 else 0
  {
    var front, last := log[..|log| - 1], |log| - 1;
    if counted(log[last]) {
      assert Places(log, counted) == Places(front, counted) + {last};
    } else {
      assert Places(log, counted) == Places(front, counted);
    }
  }

  /** The counts of a log count these places. */
  lemma {:induction false} CountsArePlaces(log: seq<Entry>, process: nat)
    ensures Raises(log) == |Places(log, (entry: Entry) => entry.Raised?)|
    ensures Starts(log) == |Places(log, (entry: Entry) => entry.Started?)|
    ensures FinishedBy(log, process) == |Places(log, (entry: Entry) => entry == Finished(process))|
  {
    if log != [] {
      CountsArePlaces(log[..|log| - 1], process);
      PlacesGrow(log, (entry: Entry) => entry.Raised?);
      PlacesGrow(log, (entry: Entry) => entry.Started?);
      PlacesGrow(log, (entry: Entry) => entry == Finished(process));
    }
  }

  /** When nothing is unserved, every raise is followed by a run that started after it. */
  lemma {:induction false} ServedMeansRunAfter(log: seq<Entry>, k: nat)
    requires !Unserved(log)
    requires k < |log| && log[k].Raised?
    ensures exists j :: k < j < |log| && log[j].Started?
  {
    var last := |log| - 1;
    if log[last].Finished? {
      ServedMeansRunAfter(log[..last], k);
      var j :| k < j < last && log[..last][j].Started?;
      assert log[j].Started?;
    } else {
      assert log[last].Started? && k < last;
    }
  }

  // ---------- the invariant ----------

  function RunsOf(pc: Pc): Option<nat> {
    match pc
    case Holding(runs) => Some(runs)
    case Lowering(runs) => Some(runs)
    case Starting(runs) => Some(runs)
    case Running(runs) => Some(runs)
    case Dropping(runs) => Some(runs)
    case Checking(runs) => Some(runs)
    case Ended(Ran(runs)) => Some(runs)
    case Raising | Announcing | Probing | Peeking | Spawning => Some(0)
    case Ended(Handed) | Ended(Spawned) => Some(0)
    case _ => None
  }

  predicate StartingNow(s: State) {
    s.lock.Some? && s.lock.value < |s.processes| && s.processes[s.lock.value].Starting?
  }

  /** The run lock is held by exactly the process whose position says so. */
  ghost predicate LockAgrees(s: State) {
    && (s.lock.Some? ==> s.lock.value < |s.processes| && HasLock(s.processes[s.lock.value]))
    && (forall i :: 0 <= i < |s.processes| && HasLock(s.processes[i]) ==> s.lock == Some(i))
    && (forall i :: 0 <= i < |s.processes| && s.processes[i].Aborting? ==> Failed(s.processes[i].failure))
  }

  /** While the flag is up somebody is still there to see it, unless somebody failed. */
  ghost predicate FlagIsSeen(s: State) {
    s.flag ==> !Quiet(s) || SomeFailed(s)
  }

  /** A raise is served, or the flag is still up, or the run that will serve it is about to start; and
      every run was asked for by a raise of its own. */
  predicate HistoryAgrees(s: State) {
    && (Unserved(s.log) ==> s.flag || StartingNow(s))
    && Raises(s.log) >= Starts(s.log) + (if s.flag then 1 else 0) + (if StartingNow(s) then 1 else 0)
  }

  /** Each process counts the runs it finished. */
  ghost predicate CountsAgree(s: State) {
    && (forall i :: 0 <= i < |s.processes| && RunsOf(s.processes[i]).Some? ==>
          RunsOf(s.processes[i]) == Some(FinishedBy(s.log, i)))
    && (forall entry :: entry in s.log ==> entry.process < |s.processes|)
  }

  ghost predicate Inv(s: State) {
    LockAgrees(s) && FlagIsSeen(s) && HistoryAgrees(s) && CountsAgree(s)
  }

  lemma InitialInv(s: State)
    requires Initial(s)
    ensures Inv(s)
  {}

  lemma StepKeepsLock(s: State, i: nat, answer: Answer)
    requires LockAgrees(s) && Live(s, i)
    ensures LockAgrees(Act(s, i, answer))
  {}

  lemma StepKeepsFlagSeen(s: State, i: nat, answer: Answer)
    requires LockAgrees(s) && FlagIsSeen(s) && Live(s, i)
    ensures FlagIsSeen(Act(s, i, answer))
  {
    var t := Act(s, i, answer);
    assert t.processes[i].Ended? || Live(t, i);
    if t.processes[i] == Ended(Spawned) {
      assert Live(t, |s.processes|);
    } else if s.lock.Some? && s.lock.value != i {
      assert Live(t, s.lock.value);
    }
  }

  lemma {:induction false} NewcomerHasNoHistory(log: seq<Entry>, process: nat)
    requires forall entry :: entry in log ==> entry.process < process
    ensures FinishedBy(log, process) == 0
  {
    if log != [] {
      assert log[|log| - 1] in log;
      NewcomerHasNoHistory(log[..|log| - 1], process);
    }
  }

  lemma Appended(log: seq<Entry>, entry: Entry)
    ensures Unserved(log + [entry]) <==> entry.Raised? || (entry.Finished? && Unserved(log))
    ensures Raises(log + [entry]) == Raises(log) + if entry.Raised? then 1 else 0
    ensures Starts(log + [entry]) == Starts(log) + if entry.Started? then 1 else 0
    ensures forall k :: FinishedBy(log + [entry], k) == FinishedBy(log, k) + if entry == Finished(k) then 1 else 0
  {
    assert (log + [entry])[..|log|] == log;
  }

  /** The entry a step makes in the log, if it makes one. */
  function EntryOf(s: State, i: nat, answer: Answer): (entry: Option<Entry>)
    requires i < |s.processes|
    ensures entry.Some? ==> entry.value.process == i
  {
    match s.processes[i]
    case Raising | Announcing => if answer == Fails then None else Some(Raised(i))
    case Starting(_) => Some(Started(i))
    case Running(_) => if answer == Works then Some(Finished(i)) else None
    case _ => None
  }

  function Logged(log: seq<Entry>, entry: Option<Entry>): seq<Entry> {
    if entry.Some? then log + [entry.value] else log
  }

  lemma LogGrows(s: State, i: nat, answer: Answer)
    requires i < |s.processes|
    ensures Act(s, i, answer).log == Logged(s.log, EntryOf(s, i, answer))
  {}

  predicate LowersNow(s: State, i: nat, answer: Answer)
    requires i < |s.processes|
  {
    s.processes[i].Lowering? && answer == Works && s.flag
  }

  lemma FlagAfter(s: State, i: nat, answer: Answer)
    requires i < |s.processes|
    ensures Act(s, i, answer).flag <==>
      (EntryOf(s, i, answer) == Some(Raised(i)) || (s.flag && !LowersNow(s, i, answer)))
  {}

  /** A run is about to start once its process lowered the flag, until it starts. */
  lemma StartingAfter(s: State, i: nat, answer: Answer)
    requires LockAgrees(s) && Live(s, i)
    ensures StartingNow(Act(s, i, answer)) <==>
      LowersNow(s, i, answer) || (StartingNow(s) && EntryOf(s, i, answer) != Some(Started(i)))
    ensures EntryOf(s, i, answer) == Some(Started(i)) || LowersNow(s, i, answer) ==> s.lock == Some(i)
    ensures EntryOf(s, i, answer) == Some(Finished(i)) ==> !StartingNow(s)
    ensures EntryOf(s, i, answer) == Some(Started(i)) ==> StartingNow(s)
    ensures LowersNow(s, i, answer) ==> !StartingNow(s) && EntryOf(s, i, answer).None?
  {}

  lemma StepKeepsHistory(s: State, i: nat, answer: Answer)
    requires LockAgrees(s) && HistoryAgrees(s) && Live(s, i)
    ensures HistoryAgrees(Act(s, i, answer))
  {
    LogGrows(s, i, answer);
    FlagAfter(s, i, answer);
    StartingAfter(s, i, answer);
    HistoryAfter(s, Act(s, i, answer), i, EntryOf(s, i, answer), LowersNow(s, i, answer));
  }

  lemma HistoryAfter(s: State, t: State, i: nat, entry: Option<Entry>, lowers: bool)
    requires HistoryAgrees(s) && t.log == Logged(s.log, entry) && (entry.Some? ==> entry.value.process == i)
    requires t.flag <==> (entry == Some(Raised(i)) || (s.flag && !lowers))
    requires StartingNow(t) <==> (lowers || (StartingNow(s) && entry != Some(Started(i))))
    requires entry == Some(Started(i)) ==> StartingNow(s)
    requires lowers ==> s.flag && !StartingNow(s) && entry.None?
    ensures HistoryAgrees(t)
  {
    if entry.Some? {
      Appended(s.log, entry.value);
    }
  }

  /** What a step may change: the process that takes it, at most one new process, at most one log entry. */
  ghost predicate Effect(s: State, t: State, i: nat, entry: Option<Entry>)
    requires i < |s.processes|
  {
    && |s.processes| <= |t.processes| <= |s.processes| + 1
    && (forall k :: 0 <= k < |s.processes| && k != i ==> t.processes[k] == s.processes[k])
    && (|t.processes| > |s.processes| ==> t.processes[|s.processes|] == Raising)
    && t.log == Logged(s.log, entry)
    && (RunsOf(t.processes[i]).Some? ==>
          && RunsOf(s.processes[i]).Some?
          && RunsOf(t.processes[i]).value == RunsOf(s.processes[i]).value + if entry == Some(Finished(i)) then 1 else 0)
  }

  lemma StepEffect(s: State, i: nat, answer: Answer)
    requires LockAgrees(s) && Live(s, i)
    ensures Effect(s, Act(s, i, answer), i, EntryOf(s, i, answer))
  {
    LogGrows(s, i, answer);
  }

  /** However the log grew, the runs a process finished grew by its own finish alone. */
  lemma FinishedAfter(log: seq<Entry>, entry: Option<Entry>, k: nat)
    ensures FinishedBy(Logged(log, entry), k) == FinishedBy(log, k) + if entry == Some(Finished(k)) then 1 else 0
  {
    if entry.Some? {
      Appended(log, entry.value);
    }
  }

  lemma CountAt(s: State, t: State, i: nat, entry: Option<Entry>, k: nat)
    requires CountsAgree(s) && i < |s.processes| && Effect(s, t, i, entry) && k < |t.processes|
    requires entry.Some? ==> entry.value.process == i
    ensures RunsOf(t.processes[k]).Some? ==> RunsOf(t.processes[k]) == Some(FinishedBy(t.log, k))
  {
    if k == |s.processes| {
      NewcomerCounts(s.log, entry, k);
    } else {
      KeepsCounting(s.log, entry, s.processes[k], t.processes[k], i, k);
    }
  }

  lemma NewcomerCounts(log: seq<Entry>, entry: Option<Entry>, process: nat)
    requires forall e :: e in log ==> e.process < process
    requires entry.Some? ==> entry.value.process < process
    ensures RunsOf(Raising) == Some(FinishedBy(Logged(log, entry), process))
  {
    NewcomerHasNoHistory(log, process);
    FinishedAfter(log, entry, process);
  }

  /** A count that agreed and grew as its runs did still agrees. */
  lemma KeepsCounting(log: seq<Entry>, entry: Option<Entry>, was: Pc, now: Pc, i: nat, k: nat)
    requires entry.Some? ==> entry.value.process == i
    requires RunsOf(was).Some? ==> RunsOf(was) == Some(FinishedBy(log, k))
    requires k != i ==> now == was
    requires RunsOf(now).Some? && k == i ==>
      RunsOf(was).Some? && RunsOf(now).value == RunsOf(was).value + if entry == Some(Finished(i)) then 1 else 0
    ensures RunsOf(now).Some? ==> RunsOf(now) == Some(FinishedBy(Logged(log, entry), k))
  {
    FinishedAfter(log, entry, k);
  }

  lemma StepKeepsCounts(s: State, i: nat, answer: Answer)
    requires LockAgrees(s) && CountsAgree(s) && Live(s, i)
    ensures CountsAgree(Act(s, i, answer))
  {
    var t := Act(s, i, answer);
    var made := EntryOf(s, i, answer);
    StepEffect(s, i, answer);
    forall k | 0 <= k < |t.processes| && RunsOf(t.processes[k]).Some?
      ensures RunsOf(t.processes[k]) == Some(FinishedBy(t.log, k))
    {
      CountAt(s, t, i, made, k);
    }
    forall entry | entry in t.log ensures entry.process < |t.processes| {
      assert entry in s.log || entry.process == i;
    }
  }

  lemma StepKeepsInv(s: State, t: State)
    requires Inv(s) && Next(s, t)
    ensures Inv(t)
  {
    var i: nat, answer :| Live(s, i) && t == Act(s, i, answer);
    StepKeepsLock(s, i, answer);
    StepKeepsFlagSeen(s, i, answer);
    StepKeepsHistory(s, i, answer);
    StepKeepsCounts(s, i, answer);
  }

  // ---------- every run comes to rest ----------

  /** Raises still to come: a hook that ends up starting a driver raises twice. */
  function ToRaise(pc: Pc): nat {
    match pc
    case Announcing => 2
    case Raising | Probing | Peeking | Spawning => 1
    case _ => 0
  }

  /** Steps still to come while the flag stays as it is. */
  function Steps(pc: Pc, flag: bool): nat {
    match pc
    case Announcing => 4
    case Probing => 3
    case Peeking => 2
    case Spawning => 1
    case Raising => 0
    case Starting(_) => 8
    case Running(_) => 7
    case Dropping(_) => if flag then 9 else 3
    case Checking(_) => if flag then 8 else 2
    case Holding(_) => if flag then 7 else 5
    case Lowering(_) => if flag then 6 else 4
    case Aborting(_) => 1
    case Ended(_) => 0
  }

  function SumToRaise(processes: seq<Pc>): nat {
    if processes == [] then 0 else ToRaise(processes[0]) + SumToRaise(processes[1..])
  }

  function SumSteps(processes: seq<Pc>, flag: bool): nat {
    if processes == [] then 0 else Steps(processes[0], flag) + SumSteps(processes[1..], flag)
  }

  lemma {:induction false} SumsUpdate(processes: seq<Pc>, i: nat, pc: Pc, flag: bool)
    requires i < |processes|
    ensures SumToRaise(processes[i := pc]) == SumToRaise(processes) - ToRaise(processes[i]) + ToRaise(pc)
    ensures SumSteps(processes[i := pc], flag) == SumSteps(processes, flag) - Steps(processes[i], flag) + Steps(pc, flag)
  {
    if i > 0 {
      SumsUpdate(processes[1..], i - 1, pc, flag);
      assert processes[i := pc][1..] == processes[1..][i - 1 := pc];
    } else {
      assert processes[i := pc][1..] == processes[1..];
    }
  }

  lemma {:induction false} SumsAppend(processes: seq<Pc>, pc: Pc, flag: bool)
    ensures SumToRaise(processes + [pc]) == SumToRaise(processes) + ToRaise(pc)
    ensures SumSteps(processes + [pc], flag) == SumSteps(processes, flag) + Steps(pc, flag)
  {
    if processes == [] {
      assert processes + [pc] == [pc];
    } else {
      assert (processes + [pc])[1..] == processes[1..] + [pc];
      SumsAppend(processes[1..], pc, flag);
    }
  }

  predicate Spawns(s: State, i: nat, answer: Answer)
    requires i < |s.processes|
  {
    s.processes[i].Spawning? && answer == Works
  }

  /** What one process has left before and after its step; a driver it starts has one raise left. */
  lemma OneUsesUp(s: State, i: nat, answer: Answer)
    requires Live(s, i)
    ensures var t, pc := Act(s, i, answer), s.processes[i];
      var raises := ToRaise(t.processes[i]) + if Spawns(s, i, answer) then ToRaise(Raising) else 0;
      var steps := Steps(t.processes[i], s.flag) + if Spawns(s, i, answer) then Steps(Raising, s.flag) else 0;
      || raises < ToRaise(pc)
      || (raises == ToRaise(pc) && s.flag && !t.flag)
      || (raises == ToRaise(pc) && s.flag == t.flag && steps < Steps(pc, s.flag))
    ensures Act(s, i, answer).processes ==
      s.processes[i := Act(s, i, answer).processes[i]] + if Spawns(s, i, answer) then [Raising] else []
  {}

  /** Every step uses something up: a raise still to come, or the flag, or a step before either changes. */
  lemma StepUsesUp(s: State, i: nat, answer: Answer)
    requires Live(s, i)
    ensures
      var t := Act(s, i, answer);
      || SumToRaise(t.processes) < SumToRaise(s.processes)
      || (SumToRaise(t.processes) == SumToRaise(s.processes) && s.flag && !t.flag)
      || (SumToRaise(t.processes) == SumToRaise(s.processes) && s.flag == t.flag
          && SumSteps(t.processes, t.flag) < SumSteps(s.processes, s.flag))
  {
    OneUsesUp(s, i, answer);
    SumsAfter(s, Act(s, i, answer), i, Spawns(s, i, answer));
  }

  lemma SumsAfter(s: State, t: State, i: nat, spawns: bool)
    requires i < |s.processes| && i < |t.processes|
    requires t.processes == s.processes[i := t.processes[i]] + if spawns then [Raising] else []
    ensures SumToRaise(t.processes) ==
      SumToRaise(s.processes) - ToRaise(s.processes[i]) + ToRaise(t.processes[i]) + if spawns then ToRaise(Raising) else 0
    ensures SumSteps(t.processes, s.flag) ==
      SumSteps(s.processes, s.flag) - Steps(s.processes[i], s.flag) + Steps(t.processes[i], s.flag)
      + if spawns then Steps(Raising, s.flag) else 0
  {
    SumsUpdate(s.processes, i, t.processes[i], s.flag);
    if spawns {
      SumsAppend(s.processes[i := t.processes[i]], Raising, s.flag);
    } else {
      assert s.processes[i := t.processes[i]] + [] == s.processes[i := t.processes[i]];
    }
  }

  /** Any number of drivers and hooks may be about to start, in any order. */
  lemma AnyMayStart(processes: seq<Pc>)
    requires forall i :: 0 <= i < |processes| ==> processes[i] == Raising || processes[i] == Announcing
    ensures Initial(State(false, None, processes, []))
  {}

  /** A run of the whole system: a step at a time for as long as anybody is left. */
  ghost predicate Run(run: nat -> State) {
    && Initial(run(0))
    && forall n: nat :: Next(run(n), run(n + 1)) || (Quiet(run(n)) && run(n + 1) == run(n))
  }

  /** Some step, if anybody is left. */
  ghost function Onwards(s: State): (t: State)
    ensures Next(s, t) || (Quiet(s) && t == s)
  {
    if i: nat :| Live(s, i) then
      assert Next(s, Act(s, i, Works));
      Act(s, i, Works)
    else s
  }

  ghost function After(s: State, n: nat): State {
    if n == 0 then s else Onwards(After(s, n - 1))
  }

  /** And whoever starts, there are runs. */
  lemma RunsExist(s: State) returns (run: nat -> State)
    requires Initial(s)
    ensures Run(run) && run(0) == s
  {
    run := (n: nat) => After(s, n);
    forall n: nat ensures Next(run(n), run(n + 1)) || (Quiet(run(n)) && run(n + 1) == run(n)) {
      assert run(n + 1) == Onwards(run(n));
    }
  }

  lemma {:induction false} RunKeepsInv(run: nat -> State, n: nat)
    requires Run(run)
    ensures Inv(run(n))
  {
    if n == 0 {
      InitialInv(run(0));
    } else {
      RunKeepsInv(run, n - 1);
      assert Next(run(n - 1), run(n - 1 + 1)) || run(n - 1 + 1) == run(n - 1);
      if Next(run(n - 1), run(n)) {
        StepKeepsInv(run(n - 1), run(n));
      }
    }
  }

  lemma {:induction false} RunComesToRest(run: nat -> State, n: nat) returns (rest: nat)
    requires Run(run)
    ensures rest >= n && Quiet(run(rest))
    decreases SumToRaise(run(n).processes), if run(n).flag then 1 else 0, SumSteps(run(n).processes, run(n).flag)
  {
    if Quiet(run(n)) {
      return n;
    }
    assert Next(run(n), run(n + 1));
    var i: nat, answer :| Live(run(n), i) && run(n + 1) == Act(run(n), i, answer);
    StepUsesUp(run(n), i, answer);
    rest := RunComesToRest(run, n + 1);
  }

  // ---------- what is promised ----------

  /** At most one run is under way. */
  lemma RunsAreExclusive(run: nat -> State, n: nat, i: nat, j: nat)
    requires Run(run)
    requires i < |run(n).processes| && run(n).processes[i].Running?
    requires j < |run(n).processes| && run(n).processes[j].Running?
    ensures i == j
  {
    RunKeepsInv(run, n);
  }

  /** There are never more runs than raises. */
  lemma RunsNeverExceedRaises(run: nat -> State, n: nat)
    requires Run(run)
    ensures Starts(run(n).log) <= Raises(run(n).log)
  {
    RunKeepsInv(run, n);
  }

  /** A process reports exactly the runs it finished; one that was handed off ran nothing. */
  lemma ReportsItsRuns(run: nat -> State, n: nat, i: nat)
    requires Run(run) && i < |run(n).processes|
    ensures run(n).processes[i] == Ended(Handed) ==> FinishedBy(run(n).log, i) == 0
    ensures run(n).processes[i].Ended? && run(n).processes[i].outcome.Ran? ==>
      run(n).processes[i].outcome.runs == FinishedBy(run(n).log, i)
  {
    RunKeepsInv(run, n);
    assert RunsOf(run(n).processes[i]).Some? ==> RunsOf(run(n).processes[i]) == Some(FinishedBy(run(n).log, i));
  }

  /** A flag left up when all is quiet means that some process failed. */
  lemma FlagLeftUpMeansFailure(run: nat -> State, n: nat)
    requires Run(run) && Quiet(run(n)) && run(n).flag
    ensures SomeFailed(run(n))
  {
    RunKeepsInv(run, n);
  }

  /** No request is lost: the system comes to rest, and then either the flag is still up, which only a
      failure explains, or every raise is followed by a run that started after it, whoever failed. */
  lemma NoRequestIsLost(run: nat -> State) returns (rest: nat)
    requires Run(run)
    ensures Quiet(run(rest))
    ensures run(rest).flag ==> SomeFailed(run(rest))
    ensures run(rest).flag || forall k :: 0 <= k < |run(rest).log| && run(rest).log[k].Raised? ==>
      exists j :: k < j < |run(rest).log| && run(rest).log[j].Started?
  {
    rest := RunComesToRest(run, 0);
    var s := run(rest);
    RunKeepsInv(run, rest);
    if !s.flag {
      assert !StartingNow(s) by {
        if StartingNow(s) {
          assert Live(s, s.lock.value);
        }
      }
      forall k | 0 <= k < |s.log| && s.log[k].Raised? ensures exists j :: k < j < |s.log| && s.log[j].Started? {
        ServedMeansRunAfter(s.log, k);
      }
    }
  }

  // ---------- the driver's loop ----------

  /** What one operation tells a driver: `Yes`/`No` for taking the lock, lowering and looking at the flag. */
  datatype Reply = Yes | No | Error

  /** Skip over the steps that ask nothing of the outside: starting a run, letting go of the lock. */
  function Settled(pc: Pc): Pc {
    match pc
    case Starting(runs) => Running(runs)
    case Dropping(runs) => Checking(runs)
    case Aborting(failure) => Ended(failure)
    case Peeking => Spawning
    case _ => pc
  }

  function Follow(pc: Pc, reply: Reply): Pc {
    match pc
    case Raising => if reply.Error? then Ended(IoFailed) else Holding(0)
    case Holding(runs) =>
      if reply.Error? then Ended(IoFailed)
      else if reply.No? then Ended(if runs == 0 then Handed else Ran(runs))
      else Lowering(runs)
    case Lowering(runs) =>
      if reply.Error? then Ended(IoFailed) else if reply.No? then Checking(runs) else Running(runs)
    case Running(runs) => if reply.Error? then Ended(RunFailed) else Lowering(runs + 1)
    case Checking(runs) =>
      if reply.Error? then Ended(IoFailed) else if reply.No? then Ended(Ran(runs)) else Holding(runs)
    case Announcing => if reply.Error? then Ended(IoFailed) else Probing
    case Probing =>
      if reply.Error? then Ended(IoFailed) else if reply.No? then Ended(Handed) else Spawning
    case Spawning => Ended(if reply.Error? then SpawnFailed else Spawned)
    case _ => pc
  }

  /** Where a process that begins at `start` is after these replies. */
  function Position(start: Pc, script: seq<Reply>): Pc {
    if script == [] then start else Follow(Position(start, script[..|script| - 1]), script[|script| - 1])
  }

  /** What the shared state replies to a driver's operation. */
  function ReplyOf(s: State, i: nat, answer: Answer): Reply
    requires i < |s.processes|
  {
    if answer != Works then Error
    else match s.processes[i]
      case Holding(_) | Probing => if s.lock.Some? then No else Yes
      case Lowering(_) | Checking(_) => if s.flag then Yes else No
      case _ => Yes
  }

  predicate Driving(pc: Pc) {
    pc.Raising? || pc.Holding? || pc.Lowering? || pc.Running? || pc.Checking?
  }

  /** A driver in the shared system goes where its replies take it. */
  lemma DriversFollowReplies(s: State, i: nat, answer: Answer)
    requires i < |s.processes|
    ensures Driving(s.processes[i]) ==>
      Settled(Act(s, i, answer).processes[i]) == Follow(s.processes[i], ReplyOf(s, i, answer))
    ensures s.processes[i].Starting? || s.processes[i].Dropping? || s.processes[i].Aborting? ==>
      Act(s, i, answer).processes[i] == Settled(s.processes[i])
  {}

  predicate Hooking(pc: Pc) {
    pc.Announcing? || pc.Probing? || pc.Spawning?
  }

  /** So does a hook; the one that finds nobody holding the lock adds a driver, and no other step adds anybody. */
  lemma HooksFollowReplies(s: State, i: nat, answer: Answer)
    requires i < |s.processes|
    ensures Hooking(s.processes[i]) ==>
      Settled(Act(s, i, answer).processes[i]) == Follow(s.processes[i], ReplyOf(s, i, answer))
    ensures s.processes[i].Peeking? ==> Act(s, i, answer).processes[i] == Spawning
    ensures Act(s, i, answer).processes[|s.processes|..] ==
      if s.processes[i].Spawning? && ReplyOf(s, i, answer).Yes? then [Raising] else []
  {}

  /** The reply to the next operation, unless the replies ran out. */
  method Await(start: Pc, script: seq<Reply>, at: nat) returns (reply: Option<Reply>, next: nat)
    requires at <= |script|
    ensures reply.None? ==> next == at == |script|
    ensures reply.Some? ==>
      next == at + 1 <= |script| && Position(start, script[..next]) == Follow(Position(start, script[..at]), reply.value)
  {
    if at == |script| {
      return None, at;
    }
    assert script[..at + 1][..at] == script[..at];
    return Some(script[at]), at + 1;
  }

  /** While the lock is held: run once for every time the flag is found up.  The outcome is that of a failure;
    without one the lock has been let go of, unless the replies ran out. */
  method RunWhileRaised(script: seq<Reply>, from: nat, already: nat) returns (failure: Option<Outcome>, at: nat, runs: nat)
    requires from <= |script| && Position(Raising, script[..from]) == Lowering(already)
    ensures from <= at <= |script|
    ensures failure.Some? ==> Position(Raising, script[..at]) == Ended(failure.value)
    ensures failure.None? ==>
      Position(Raising, script[..at]) == Checking(runs) || (at == |script| && Driving(Position(Raising, script[..at])))
  {
    at, runs := from, already;
    while at < |script|
      invariant from <= at <= |script|
      invariant Position(Raising, script[..at]) == Lowering(runs)
    {
      var reply;
      reply, at := Await(Raising, script, at);
      if reply.None? { return None, at, runs; }
      if reply.value.Error? { return Some(IoFailed), at, runs; }
      if reply.value.No? { return None, at, runs; }
      reply, at := Await(Raising, script, at);
      if reply.None? { return None, at, runs; }
      if reply.value.Error? { return Some(RunFailed), at, runs; }
      runs := runs + 1;
    }
    return None, at, runs;
  }

  /** The nested loops of `drive`, against any replies; `None` when it is still going when they run out. */
  method Drive(script: seq<Reply>) returns (outcome: Option<Outcome>, at: nat)
    ensures at <= |script|
    ensures outcome.Some? ==> Position(Raising, script[..at]) == Ended(outcome.value)
    ensures outcome.None? ==> at == |script| && Driving(Position(Raising, script[..at]))
  {
    assert script[..0] == [];
    var reply;
    reply, at := Await(Raising, script, 0);
    if reply.None? { return None, at; }
    if reply.value.Error? { return Some(IoFailed), at; }
    var runs := 0;
    while at < |script|
      invariant 1 <= at <= |script|
      invariant Position(Raising, script[..at]) == Holding(runs)
    {
      reply, at := Await(Raising, script, at);
      if reply.None? { return None, at; }
      if reply.value.Error? { return Some(IoFailed), at; }
      if reply.value.No? { return Some(if runs == 0 then Handed else Ran(runs)), at; }
      var failure;
      failure, at, runs := RunWhileRaised(script, at, runs);
      if failure.Some? { return failure, at; }
      reply, at := Await(Raising, script, at);
      if reply.None? { return None, at; }
      if reply.value.Error? { return Some(IoFailed), at; }
      if reply.value.No? { return Some(Ran(runs)), at; }
    }
    return None, at;
  }

  /** `detach`: raise the flag, look whether anybody holds the lock, and start a driver if nobody does; against
    any replies, as `Drive` is. */
  method Detach(script: seq<Reply>) returns (outcome: Option<Outcome>, at: nat)
    ensures at <= |script|
    ensures outcome.Some? ==> Position(Announcing, script[..at]) == Ended(outcome.value)
    ensures outcome.None? ==> at == |script| && Hooking(Position(Announcing, script[..at]))
  {
    assert script[..0] == [];
    var reply;
    reply, at := Await(Announcing, script, 0);
    if reply.None? { return None, at; }
    if reply.value.Error? { return Some(IoFailed), at; }
    reply, at := Await(Announcing, script, at);
    if reply.None? { return None, at; }
    if reply.value.Error? { return Some(IoFailed), at; }
    if reply.value.No? { return Some(Handed), at; }
    reply, at := Await(Announcing, script, at);
    if reply.None? { return None, at; }
    return Some(if reply.value.Error? then SpawnFailed else Spawned), at;
  }
}
