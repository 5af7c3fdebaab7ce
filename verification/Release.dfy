/** The release monitor: a checkout is recorded as released, and answers for the record only while the
  checkout has not changed.

  Three parties share a phase guarded by a lock: the monitor's thread, which first prepares and then
  serves requests, the callback that filesystem events arrive through, and whoever drops the release.
  Every step below is one critical section or one call of one party; between them anything may happen.
  A snapshot is taken at one instant, and a barrier returns once every event made before it was heard. */
module Release {
  import opened Common
  import opened Records

  /** What a snapshot of the checkout comes to. */
  datatype Rec = Rec(identity: Identity, digest: nat)

  datatype OwnerLock = Free | Held | Unreadable

  datatype Evidence = Evidence(recorded: Rec, observed: Rec, monitor: OwnerLock, writers: OwnerLock)

  function Witness(recorded: Rec, observed: Rec, writers: OwnerLock): Evidence {
    Evidence(recorded, observed, Held, writers)
  }

  predicate SettlesAsReleased(evidence: Evidence) {
    && evidence.recorded.identity == evidence.observed.identity
    && evidence.recorded.digest == evidence.observed.digest
    && evidence.monitor == Held
    && evidence.writers == Free
  }

  /** Evidence settles a checkout as released exactly when it vouches for the whole record, the monitor holds
    its lock, and nobody writes. */
  lemma SettlesExactlyWhen(evidence: Evidence)
    ensures SettlesAsReleased(evidence) <==>
      evidence.recorded == evidence.observed && evidence.monitor == Held && evidence.writers == Free
  {}

  datatype Phase = Preparing | Released | Revoked

  /** What arrives through the event callback. */
  datatype Event = Entry | Lost | Wake | Checkpoint

  predicate SourceChange(event: Event) {
    event.Entry? || event.Lost?
  }

  datatype Stage =
    | Opening                                    // prepare: about to see that nobody writes
    | First                                      //   about to take the first snapshot
    | Covering(before: Rec)                      //   about to ask for every event
    | Settling(before: Rec)                      //   about to begin a barrier
    | Settled(before: Rec, mark: nat)            //   waiting for the barrier
    | Second(before: Rec)                        //   about to take the second snapshot
    | Recording(before: Rec, after: Rec)         //   about to lock and record
    | Listening                                  // serve: about to accept a peer
    | Admitting                                  //   about to lock and look at the phase
    | Reading                                    //   about to read the request
    | Calling                                    //   about to begin a barrier
    | Waiting(mark: nat)                         //   waiting for it; `mark` changes came before it
    | Looking(mark: nat)                         //   about to take a snapshot
    | Weighing(mark: nat, current: Rec)          //   about to see whether anybody writes
    | Deciding(mark: nat, current: Rec, writers: OwnerLock)  // about to lock and answer
    | Ended

  predicate IsPreparing(stage: Stage) {
    stage.Opening? || stage.First? || stage.Covering? || stage.Settling? || stage.Settled? ||
    stage.Second? || stage.Recording?
  }

  /** `changes` counts the changes of the checkout, `heard` those of them the callback was told of. */
  datatype State = State(
    phase: Phase, filed: Option<Rec>, covered: bool, stage: Stage,
    content: Rec, changes: nat, heard: nat, replies: nat)

  datatype Answer = Fine | Other | Again | Fails

  datatype Action =
    | Change(content: Rec)                // the checkout changes
    | Miss                                // a change goes unreported before coverage is complete
    | Hear(event: Event, count: nat, removed: bool)  // the callback hears of one change, or of many lost ones
    | Go(answer: Answer)                  // the monitor's thread takes a step
    | Drop(removed: bool)                 // the release is dropped; removing its record may fail

  /** `LeaseState::revoke`: the phase changes even when the record cannot be removed. */
  function Revoke(s: State, removed: bool): State {
    s.(phase := Revoked, filed := if removed then None else s.filed)
  }

  function End(s: State): State { s.(stage := Ended) }

  function Decide(s: State, removed: bool): State
    requires s.stage.Deciding?
  {
    if s.phase != Released then End(s)
    else if s.filed != Some(s.stage.current) then End(Revoke(s, removed))
    else if SettlesAsReleased(Witness(s.filed.value, s.stage.current, s.stage.writers))
    then s.(replies := s.replies + 1, stage := Listening)
    else s.(stage := Listening)
  }

  function Step(s: State, answer: Answer): State {
    match s.stage
    case Opening => if answer.Fine? then s.(stage := First) else End(s)
    case First => if answer.Fails? then End(s) else s.(stage := Covering(s.content))
    case Covering(before) => if answer.Fine? then s.(covered := true, stage := Settling(before)) else End(s)
    case Settling(before) => if answer.Fails? then End(s) else s.(stage := Settled(before, s.changes))
    case Settled(before, _) => if answer.Fails? then End(s) else s.(stage := Second(before))
    case Second(before) => if answer.Fails? then End(s) else s.(stage := Recording(before, s.content))
    case Recording(before, after) =>
      if before != after || !answer.Fine? then End(s)
      else s.(filed := Some(after), phase := Released, stage := Listening)
    case Listening => if answer.Fine? then s.(stage := Admitting) else End(s)
    case Admitting => if answer.Fails? || s.phase != Released then End(s) else s.(stage := Reading)
    case Reading =>
      match answer {
        case Fine => s.(stage := Calling)
        case Other => End(s)
        case Again => s.(stage := Listening)
        case Fails => s.(stage := Listening)
      }
    case Calling => if answer.Fails? then End(s) else s.(stage := Waiting(s.changes))
    case Waiting(mark) => if answer.Fails? then End(s) else s.(stage := Looking(mark))
    case Looking(mark) => if answer.Fails? then End(s) else s.(stage := Weighing(mark, s.content))
    case Weighing(mark, current) =>
      s.(stage := Deciding(mark, current, if answer.Fine? then Free else if answer.Fails? then Unreadable else Held))
    case Deciding(_, _, _) => Decide(s, !answer.Fails?)
    case Ended => s
  }

  predicate Enabled(s: State, action: Action) {
    match action
    case Change(_) => true
    case Miss => !s.covered && s.heard < s.changes
    case Hear(event, count, _) =>
      s.heard + count <= s.changes && (event.Entry? ==> count == 1) && (!SourceChange(event) ==> count == 0)
    case Go(answer) =>
      // a barrier that does not fail returns only when everything before it was heard
      && (s.stage.Settled? && !answer.Fails? ==> s.stage.mark <= s.heard)
      && (s.stage.Waiting? && !answer.Fails? ==> s.stage.mark <= s.heard)
    case Drop(_) => s.phase != Preparing
  }

  function Apply(s: State, action: Action): State {
    match action
    case Change(content) => s.(content := content, changes := s.changes + 1)
    case Miss => s.(heard := s.heard + 1)
    case Hear(event, count, removed) =>
      var told := s.(heard := s.heard + count);
      if SourceChange(event) && s.phase == Released then Revoke(told, removed) else told
    case Go(answer) => Step(s, answer)
    case Drop(removed) => Revoke(s, removed)
  }

  ghost predicate Next(s: State, t: State) {
    exists action :: Enabled(s, action) && t == Apply(s, action)
  }

  predicate Initial(s: State) {
    s.phase == Preparing && s.filed.None? && !s.covered && s.stage == Opening && s.heard <= s.changes && s.replies == 0
  }

  type Run = nat -> State

  ghost predicate IsRun(run: Run) {
    Initial(run(0)) && forall i: nat :: StepsAt(run, i)
  }

  ghost predicate StepsAt(run: Run, i: nat) {
    Next(run(i), run(i + 1))
  }

  // ---------- the phase ----------

  /** One step leaves the phase, or moves it from preparing to released or from released to revoked. */
  lemma PhaseOnlyAdvances(s: State, t: State)
    requires Next(s, t)
    requires IsPreparing(s.stage) ==> s.phase == Preparing
    ensures
      || t.phase == s.phase
      || (s.phase == Preparing && t.phase == Released)
      || (s.phase != Preparing && t.phase == Revoked)
    ensures t.changes >= s.changes && t.heard >= s.heard && t.replies >= s.replies
    ensures t.replies > s.replies ==> s.phase == Released && t.phase == Released
  {}

  /** What holds of each state by itself. */
  predicate Inv(s: State) {
    && s.heard <= s.changes
    && (IsPreparing(s.stage) ==> s.phase == Preparing)
    && (s.phase == Preparing ==> (IsPreparing(s.stage) || s.stage.Ended?) && s.filed.None? && s.replies == 0)
    && (s.phase == Released ==> s.filed.Some? && s.covered)
    && ((s.stage.Recording? || s.stage.Settling? || s.stage.Settled? || s.stage.Second?) ==> s.covered)
    && (s.stage.Waiting? ==> s.stage.mark <= s.changes)
    && ((s.stage.Looking? || s.stage.Weighing? || s.stage.Deciding?) ==> s.stage.mark <= s.heard)
  }

  lemma InvIsKept(s: State, t: State)
    requires Inv(s) && Next(s, t)
    ensures Inv(t)
  {
    var action :| Enabled(s, action) && t == Apply(s, action);
    if action.Go? {
      StepKeepsInv(s, action.answer);
    }
  }

  lemma StepKeepsInv(s: State, answer: Answer)
    requires Inv(s) && Enabled(s, Go(answer))
    ensures Inv(Step(s, answer))
  {}

  lemma {:induction false} InvOverRun(run: Run, i: nat)
    requires IsRun(run)
    ensures Inv(run(i))
  {
    if i > 0 {
      InvOverRun(run, i - 1);
      assert StepsAt(run, i - 1);
      InvIsKept(run(i - 1), run(i));
    }
  }

  function Order(phase: Phase): nat {
    match phase case Preparing => 0 case Released => 1 case Revoked => 2
  }

  /** Over a whole run the phase never goes back, and counts never fall. */
  lemma {:induction false} RunAdvances(run: Run, i: nat, j: nat)
    requires IsRun(run) && i <= j
    ensures Order(run(i).phase) <= Order(run(j).phase)
    ensures run(i).changes <= run(j).changes && run(i).heard <= run(j).heard && run(i).replies <= run(j).replies
    decreases j
  {
    if i < j {
      RunAdvances(run, i, j - 1);
      OneAdvance(run, j - 1);
    }
  }

  /** One step of a run, as `PhaseOnlyAdvances` has it. */
  lemma OneAdvance(run: Run, n: nat)
    requires IsRun(run)
    ensures Order(run(n).phase) <= Order(run(n + 1).phase)
    ensures run(n).changes <= run(n + 1).changes && run(n).heard <= run(n + 1).heard && run(n).replies <= run(n + 1).replies
    ensures run(n + 1).replies > run(n).replies ==> run(n).phase == Released
  {
    InvOverRun(run, n);
    assert StepsAt(run, n);
    PhaseOnlyAdvances(run(n), run(n + 1));
  }

  /** Once revoked, nothing is ever answered again. */
  lemma {:induction false} NothingAfterRevocation(run: Run, i: nat, j: nat)
    requires IsRun(run) && i <= j && run(i).phase == Revoked
    ensures run(j).phase == Revoked && run(j).replies == run(i).replies
    decreases j
  {
    if i < j {
      NothingAfterRevocation(run, i, j - 1);
      OneAdvance(run, j - 1);
    }
  }

  // ---------- what a reply vouches for ----------

  /** Instants of a run: the step that entered the released phase, the last barrier begun, the last snapshot,
    and the last time the writers' lock was looked at. */
  datatype Instants = Instants(entered: nat, barrier: nat, snapshot: nat, weighed: nat)

  ghost predicate EntersReleased(run: Run, r: nat) {
    run(r).phase == Preparing && run(r + 1).phase == Released
  }

  predicate Asking(stage: Stage) {
    stage.Waiting? || stage.Looking? || stage.Weighing? || stage.Deciding?
  }

  predicate Seen(stage: Stage) {
    stage.Weighing? || stage.Deciding?
  }

  /** The check under way at one instant began its barrier at another. */
  ghost predicate BeganAt(run: Run, i: nat, entered: nat, barrier: nat)
    requires Asking(run(i).stage)
  {
    && entered < barrier < i
    && run(barrier).stage.Calling? && run(barrier).changes == run(i).stage.mark
    && forall j :: barrier < j <= i ==> Asking(run(j).stage)
  }

  /** The writers' lock is looked at, and this is how it is. */
  ghost predicate FindsWriters(run: Run, i: nat, writers: OwnerLock) {
    run(i).stage.Weighing? && run(i + 1).stage.Deciding? && run(i + 1).stage.writers == writers
  }

  ghost predicate InstantsHold(run: Run, i: nat, at: Instants) {
    var s := run(i);
    s.phase != Preparing ==>
      && at.entered < i && EntersReleased(run, at.entered)
      && (s.phase == Released ==> s.heard <= run(at.entered + 1).changes && s.filed == run(at.entered + 1).filed)
      && (Asking(s.stage) ==> BeganAt(run, i, at.entered, at.barrier))
      && (Seen(s.stage) ==> at.barrier <= at.snapshot < i && run(at.snapshot).content == s.stage.current)
      && (s.stage.Deciding? ==> at.snapshot < at.weighed < i && FindsWriters(run, at.weighed, s.stage.writers))
  }

  function NextInstants(s: State, t: State, i: nat, at: Instants): Instants {
    Instants(
      if s.phase == Preparing then i else at.entered,
      if s.stage.Calling? then i else at.barrier,
      if s.stage.Looking? then i else at.snapshot,
      if s.stage.Weighing? then i else at.weighed)
  }

  /** What one step does to the record, to what was heard, and to a check under way. */
  predicate Moved(s: State, t: State) {
    && (t.phase == s.phase || (s.phase.Preparing? && t.phase.Released?) || (!s.phase.Preparing? && t.phase.Revoked?))
    && (t.phase.Released? && s.phase.Preparing? ==> t.heard <= t.changes && !Asking(t.stage))
    && (t.phase.Released? && s.phase.Released? ==> t.heard == s.heard && t.filed == s.filed)
    && (Asking(t.stage) ==>
          if s.stage.Calling? then t.stage == Waiting(s.changes) else Asking(s.stage) && t.stage.mark == s.stage.mark)
    && (Seen(t.stage) ==>
          if s.stage.Looking? then t.stage.current == s.content else Seen(s.stage) && t.stage.current == s.stage.current)
    && (t.stage.Deciding? ==> s.stage.Weighing? || s.stage == t.stage)
    && (s.phase.Preparing? ==> !Asking(s.stage) && !s.stage.Calling?)
  }

  lemma StepMoves(s: State, t: State)
    requires Inv(s) && Next(s, t)
    ensures Moved(s, t)
  {}

  lemma InstantsStep(run: Run, i: nat, at: Instants)
    requires IsRun(run) && InstantsHold(run, i, at) && Inv(run(i))
    ensures InstantsHold(run, i + 1, NextInstants(run(i), run(i + 1), i, at))
  {
    assert StepsAt(run, i);
    StepMoves(run(i), run(i + 1));
    InstantsMoveOn(run, i, at);
  }

  lemma InstantsMoveOn(run: Run, i: nat, at: Instants)
    requires InstantsHold(run, i, at) && Moved(run(i), run(i + 1))
    ensures InstantsHold(run, i + 1, NextInstants(run(i), run(i + 1), i, at))
  {}

  lemma {:induction false} InstantsOf(run: Run, i: nat) returns (at: Instants)
    requires IsRun(run)
    ensures InstantsHold(run, i, at)
  {
    if i == 0 {
      at := Instants(0, 0, 0, 0);
    } else {
      at := InstantsOf(run, i - 1);
      InvOverRun(run, i - 1);
      InstantsStep(run, i - 1, at);
      at := NextInstants(run(i - 1), run(i - 1 + 1), i - 1, at);
    }
  }

  ghost predicate Replies(run: Run, i: nat) {
    run(i + 1).replies > run(i).replies
  }

  lemma RepliesWhenFree(s: State, t: State)
    requires Next(s, t) && t.replies > s.replies
    ensures s.stage.Deciding? && s.stage.writers == Free && s.phase == Released && s.filed == Some(s.stage.current)
  {}

  /** What a check comes to: a reply exactly in the released phase, for the recorded snapshot and without
    writers; writers alone only withhold it, and another snapshot ends the release. */
  lemma DecidesExactlyWhen(s: State, answer: Answer)
    requires s.stage.Deciding?
    ensures var t := Step(s, answer);
      && (t.replies == s.replies + 1 <==>
          s.phase == Released && s.filed == Some(s.stage.current) && s.stage.writers == Free)
      && (t.replies == s.replies + 1 || t.replies == s.replies)
      && (s.phase == Released && s.filed == Some(s.stage.current) ==> t.phase == Released && t.stage == Listening)
      && (s.phase == Released && s.filed != Some(s.stage.current) ==> t.phase == Revoked && t.stage == Ended)
      && (s.phase != Released ==> t.phase == s.phase && t.stage == Ended)
      && (t.phase == s.phase ==> t.filed == s.filed)
  {}

  /** A preparation enters the released phase exactly when both snapshots agree and the record could be
    written with nobody writing to the checkout. */
  lemma EntersExactlyWhen(s: State, action: Action)
    requires Enabled(s, action) && s.phase == Preparing
    ensures Apply(s, action).phase == Released <==>
      s.stage.Recording? && s.stage.before == s.stage.after && action == Go(Fine)
  {}

  /** What ends the release: a change heard of, dropping it, or a check that finds another snapshot.  The record
    is then gone, unless it could not be removed. */
  lemma RevokesExactlyWhen(s: State, action: Action)
    requires Enabled(s, action) && s.phase != Revoked && (IsPreparing(s.stage) ==> s.phase == Preparing)
    ensures var t := Apply(s, action);
      && (t.phase == Revoked <==>
            || (action.Hear? && action.event in {Entry, Lost} && s.phase == Released)
            || action.Drop?
            || (action.Go? && s.stage.Deciding? && s.phase == Released && s.filed != Some(s.stage.current)))
      && (t.phase == Revoked ==>
            t.filed == if RemovesRecord(action) then None else s.filed)
  {}

  /** Whether removing the record succeeds, where that is tried. */
  predicate RemovesRecord(action: Action) {
    match action
    case Hear(_, _, removed) => removed
    case Drop(removed) => removed
    case Go(answer) => answer != Fails
    case _ => false
  }

  /** A reply vouches for the record: after the released phase was entered a barrier was begun, then a
    snapshot taken that equals the record, and then the writers' lock found free; and from the entry to the
    barrier the checkout did not change. */
  lemma ReplyIsSound(run: Run, i: nat) returns (at: Instants)
    requires IsRun(run) && Replies(run, i)
    ensures at.entered < at.barrier <= at.snapshot < at.weighed < i && EntersReleased(run, at.entered)
    ensures FindsWriters(run, at.weighed, Free)
    ensures Asking(run(i).stage) && BeganAt(run, i, at.entered, at.barrier)
    ensures run(i).filed == run(at.entered + 1).filed == Some(run(at.snapshot).content)
    ensures forall j :: at.entered < j <= at.barrier ==> run(j).changes == run(at.entered + 1).changes
    ensures forall j :: at.entered < j <= i + 1 ==> run(j).phase == Released
  {
    at := InstantsOf(run, i);
    InvOverRun(run, i);
    assert StepsAt(run, i);
    RepliesWhenFree(run(i), run(i + 1));
    RunAdvances(run, at.entered + 1, at.barrier);
    assert run(at.barrier).changes == run(at.entered + 1).changes;
    forall j | at.entered < j <= at.barrier ensures run(j).changes == run(at.entered + 1).changes {
      RunAdvances(run, at.entered + 1, j);
      RunAdvances(run, j, at.barrier);
    }
    forall j | at.entered < j <= i + 1 ensures run(j).phase == Released {
      RunAdvances(run, at.entered + 1, j);
      if j <= i {
        RunAdvances(run, j, i);
      }
    }
  }

  /** A checkout that is as recorded is answered for, when every change of it was heard and nobody writes. */
  lemma UnchangedIsAnswered(s: State) returns (states: seq<State>)
    requires s.phase == Released && s.stage == Listening && s.filed == Some(s.content) && s.heard == s.changes
    ensures |states| == 9 && states[0] == s && states[8] == s.(replies := s.replies + 1)
    ensures forall n :: 0 <= n < 8 ==> GoesFine(states[n], states[n + 1])
  {
    states := [s];
    for n := 0 to 8
      invariant |states| == n + 1 && states[0] == s
      invariant states[n] == if n == 8 then s.(replies := s.replies + 1) else s.(stage := Served(s, n))
      invariant forall m :: 0 <= m < n ==> GoesFine(states[m], states[m + 1])
    {
      ServedNext(s, n);
      states := states + [Step(states[n], Fine)];
    }
  }

  ghost predicate GoesFine(s: State, t: State) {
    Enabled(s, Go(Fine)) && t == Apply(s, Go(Fine))
  }

  function Served(s: State, n: nat): Stage {
    if n == 0 then Listening else if n == 1 then Admitting else if n == 2 then Reading else if n == 3 then Calling
    else if n == 4 then Waiting(s.changes) else if n == 5 then Looking(s.changes)
    else if n == 6 then Weighing(s.changes, s.content) else Deciding(s.changes, s.content, Free)
  }

  lemma ServedNext(s: State, n: nat)
    requires s.phase == Released && s.stage == Listening && s.filed == Some(s.content) && s.heard == s.changes && n < 8
    ensures Enabled(s.(stage := Served(s, n)), Go(Fine))
    ensures Step(s.(stage := Served(s, n)), Fine) ==
      if n == 7 then s.(replies := s.replies + 1) else s.(stage := Served(s, n + 1))
  {}

  /** A change of the released checkout ends the replies: whatever is answered afterwards is the one check
    whose barrier had already begun. */
  lemma OnlyTheCheckUnderWay(run: Run, change: nat, i: nat) returns (at: Instants)
    requires IsRun(run) && Replies(run, i) && change <= i
    requires run(change).phase == Released && run(change + 1).changes > run(change).changes
    ensures at.barrier <= change && run(at.barrier).stage.Calling?
    ensures forall j :: at.barrier < j <= i ==> Asking(run(j).stage)
  {
    at := ReplyIsSound(run, i);
    RunAdvances(run, change, Max(change, at.entered));
    RunAdvances(run, at.entered + 1, Max(change, at.entered + 1));
    RunAdvances(run, change + 1, Max(change + 1, at.barrier));
  }

  // ---------- what entering the released phase vouches for ----------

  /** Instants of the preparation: the first snapshot, the beginning of the barrier, the second snapshot. */
  datatype Taken = Taken(first: nat, barrier: nat, second: nat)

  predicate Begun(stage: Stage) {
    stage.Covering? || stage.Settling? || stage.Settled? || stage.Second? || stage.Recording?
  }

  /** The barrier of the preparation was begun. */
  predicate Barred(stage: Stage) {
    stage.Settled? || stage.Second? || stage.Recording?
  }

  ghost predicate TakenHold(run: Run, i: nat, at: Taken) {
    var stage := run(i).stage;
    && (Begun(stage) ==> at.first < i && run(at.first).stage.First? && run(at.first).content == stage.before)
    && (Barred(stage) ==> at.first < at.barrier < i && run(at.barrier).stage.Settling?)
    && (stage.Settled? ==> stage.mark == run(at.barrier).changes)
    && (stage.Second? || stage.Recording? ==> run(at.barrier).changes <= run(i).heard)
    && (stage.Recording? ==>
          && at.barrier < at.second < i && run(at.second).stage.Second?
          && run(at.second).content == stage.after && run(at.barrier).changes <= run(at.second).heard)
  }

  function NextTaken(s: State, i: nat, at: Taken): Taken {
    Taken(if s.stage.First? then i else at.first,
          if s.stage.Settling? then i else at.barrier,
          if s.stage.Second? then i else at.second)
  }

  /** What one step does to a preparation under way. */
  predicate Prepares(s: State, t: State) {
    && t.heard >= s.heard
    && (Begun(t.stage) ==>
          if s.stage.First? then t.stage.Covering? && t.stage.before == s.content
          else Begun(s.stage) && t.stage.before == s.stage.before)
    && (Barred(t.stage) ==> if s.stage.Settling? then t.stage.Settled? && t.stage.mark == s.changes else Barred(s.stage))
    && (t.stage.Settled? ==> s.stage.Settling? || s.stage == t.stage)
    && (t.stage.Second? ==> s.stage.Second? || (s.stage.Settled? && s.stage.mark <= s.heard))
    && (t.stage.Recording? ==> s.stage == t.stage || (s.stage.Second? && t.stage.after == s.content))
    && (s.phase.Preparing? && t.phase.Released? ==>
          && s.stage.Recording? && s.stage.before == s.stage.after
          && t.filed == Some(s.stage.after) && t.content == s.content)
  }

  lemma StepPrepares(s: State, t: State)
    requires Next(s, t)
    ensures Prepares(s, t)
  {}

  lemma TakenMoveOn(run: Run, i: nat, at: Taken)
    requires TakenHold(run, i, at) && Prepares(run(i), run(i + 1))
    ensures TakenHold(run, i + 1, NextTaken(run(i), i, at))
  {}

  lemma {:induction false} TakenOf(run: Run, i: nat) returns (at: Taken)
    requires IsRun(run)
    ensures TakenHold(run, i, at)
  {
    if i == 0 {
      at := Taken(0, 0, 0);
    } else {
      at := TakenOf(run, i - 1);
      assert StepsAt(run, i - 1);
      StepPrepares(run(i - 1), run(i - 1 + 1));
      TakenMoveOn(run, i - 1, at);
      at := NextTaken(run(i - 1), i - 1, at);
    }
  }

  /** What is recorded on entering the released phase is what both snapshots found, the second of them after
    a barrier that delivered every change made before it.  So the record is the checkout as it is on entry
    exactly when the checkout is then what it was at the second snapshot, and it is if nothing changed in
    between. */
  lemma RecordIsCurrentExactlyWhen(run: Run, e: nat) returns (at: Taken)
    requires IsRun(run) && EntersReleased(run, e)
    ensures at.first < at.barrier < at.second < e
    ensures run(at.first).stage.First? && run(at.barrier).stage.Settling? && run(at.second).stage.Second?
    ensures run(at.barrier).changes <= run(at.second).heard
    ensures run(e + 1).filed == Some(run(at.second).content) == Some(run(at.first).content)
    ensures run(e + 1).filed == Some(run(e + 1).content) <==> run(at.second).content == run(e).content
    ensures run(e).changes == run(at.second).changes ==> run(e + 1).filed == Some(run(e + 1).content)
  {
    at := TakenOf(run, e);
    assert StepsAt(run, e);
    StepPrepares(run(e), run(e + 1));
    if run(e).changes == run(at.second).changes {
      SameContent(run, at.second, e);
    }
  }

  lemma {:induction false} SameContent(run: Run, i: nat, j: nat)
    requires IsRun(run) && i <= j && run(i).changes == run(j).changes
    ensures run(i).content == run(j).content
    decreases j
  {
    if i < j {
      RunAdvances(run, i, j - 1);
      OneAdvance(run, j - 1);
      assert StepsAt(run, j - 1);
      SameContent(run, i, j - 1);
    }
  }

  ghost predicate IsPrefixOfRun(states: seq<State>) {
    && states != [] && Initial(states[0])
    && forall n :: 0 <= n < |states| - 1 ==> Next(states[n], states[n + 1])
  }

  lemma OneMore(states: seq<State>, action: Action)
    requires IsPrefixOfRun(states) && Enabled(states[|states| - 1], action)
    ensures IsPrefixOfRun(states + [Apply(states[|states| - 1], action)])
  {
    var t := Apply(states[|states| - 1], action);
    assert Next(states[|states| - 1], t);
  }

  /** A change heard of between the second snapshot and the recording is passed over, so the record may be
    out of date from the start; only the snapshot of a later check can tell. */
  lemma RecordMayBeStale(was: Rec, now: Rec) returns (states: seq<State>)
    requires was != now
    ensures IsPrefixOfRun(states)
    ensures var end := states[|states| - 1];
      && end.phase == Released && end.filed == Some(was)
      && end.content == now && end.heard == end.changes
  {
    states := [State(Preparing, None, false, Opening, was, 0, 0, 0)];
    for step := 0 to 9
      invariant IsPrefixOfRun(states)
      invariant var s := states[|states| - 1];
        && (step <= 6 ==> s.phase == Preparing && s.filed.None? && s.content == was && s.changes == s.heard == 0)
        && (step == 0 ==> s.stage == Opening) && (step == 1 ==> s.stage == First)
        && (step == 2 ==> s.stage == Covering(was)) && (step == 3 ==> s.stage == Settling(was))
        && (step == 4 ==> s.stage == Settled(was, 0)) && (step == 5 ==> s.stage == Second(was))
        && (6 <= step <= 8 ==> s.stage == Recording(was, was) && s.phase == Preparing)
        && (7 <= step ==> s.content == now && s.changes == 1)
        && (8 <= step ==> s.heard == 1)
        && (step == 7 ==> s.heard == 0)
        && (step == 9 ==> s.phase == Released && s.filed == Some(was))
    {
      var action := if step == 6 then Change(now) else if step == 7 then Hear(Entry, 1, true) else Go(Fine);
      OneMore(states, action);
      states := states + [Apply(states[|states| - 1], action)];
    }
  }

  // ---------- the monitor's thread ----------

  /** What one operation tells the monitor: the outcome of a call, a snapshot, how many changes came before a
    barrier was begun, or how the writers' lock is. */
  datatype Reply = Yes | No | Stop | Garbled | Error | Snapshot(content: Rec) | Marked(changes: nat) | Writers(lock: OwnerLock)

  /** Where the thread goes from where it is, by the reply to the operation it is about to do. */
  function Follow(stage: Stage, reply: Reply): Stage {
    match stage
    case Opening => if reply.Yes? then First else Ended
    case First => if reply.Snapshot? then Covering(reply.content) else Ended
    case Covering(before) => if reply.Yes? then Settling(before) else Ended
    case Settling(before) => if reply.Marked? then Settled(before, reply.changes) else Ended
    case Settled(before, _) => if reply.Yes? then Second(before) else Ended
    case Second(before) => if reply.Snapshot? then Recording(before, reply.content) else Ended
    case Recording(before, after) => if before == after && reply.Yes? then Listening else Ended
    case Listening => if reply.Yes? then Admitting else Ended
    case Admitting => if reply.Yes? then Reading else Ended
    case Reading => if reply.Yes? then Calling else if reply.Garbled? || reply.Error? then Listening else Ended
    case Calling => if reply.Marked? then Waiting(reply.changes) else Ended
    case Waiting(mark) => if reply.Yes? then Looking(mark) else Ended
    case Looking(mark) => if reply.Snapshot? then Weighing(mark, reply.content) else Ended
    case Weighing(mark, current) => if reply.Writers? then Deciding(mark, current, reply.lock) else Ended
    case Deciding(_, _, _) => if reply.Yes? then Listening else Ended
    case Ended => Ended
  }

  function Position(start: Stage, script: seq<Reply>): Stage {
    if script == [] then start else Follow(Position(start, script[..|script| - 1]), script[|script| - 1])
  }

  /** What the shared state replies to the monitor's operation. */
  function ReplyOf(s: State, answer: Answer): Reply {
    match s.stage
    case First | Second(_) | Looking(_) => if answer.Fails? then Error else Snapshot(s.content)
    case Settling(_) | Calling => if answer.Fails? then Error else Marked(s.changes)
    case Settled(_, _) | Waiting(_) => if answer.Fails? then Error else Yes
    case Admitting => if answer.Fails? then Error else if s.phase == Released then Yes else No
    case Reading => (match answer case Fine => Yes case Other => Stop case Again => Garbled case Fails => Error)
    case Weighing(_, _) => Writers(match answer case Fine => Free case Fails => Unreadable case _ => Held)
    case Deciding(_, current, _) => if s.phase == Released && s.filed == Some(current) then Yes else No
    case _ => if answer.Fine? then Yes else No
  }

  /** The monitor in the shared system goes where its replies take it, and nobody else moves it. */
  lemma MonitorFollowsReplies(s: State, action: Action)
    ensures Apply(s, action).stage == if action.Go? then Follow(s.stage, ReplyOf(s, action.answer)) else s.stage
  {
    if action.Go? {
      StepFollows(s, action.answer);
    }
  }

  lemma StepFollows(s: State, answer: Answer)
    ensures Step(s, answer).stage == Follow(s.stage, ReplyOf(s, answer))
  {
    if IsPreparing(s.stage) {
      PreparingFollows(s, answer);
    } else if s.stage.Deciding? {
      DecidesExactlyWhen(s, answer);
    } else {
      ServingFollows(s, answer);
    }
  }

  lemma PreparingFollows(s: State, answer: Answer)
    requires IsPreparing(s.stage)
    ensures Step(s, answer).stage == Follow(s.stage, ReplyOf(s, answer))
  {}

  lemma ServingFollows(s: State, answer: Answer)
    requires !IsPreparing(s.stage) && !s.stage.Deciding?
    ensures Step(s, answer).stage == Follow(s.stage, ReplyOf(s, answer))
  {}

  /** The reply to the next operation, unless the replies ran out. */
  method Await(start: Stage, script: seq<Reply>, at: nat) returns (reply: Option<Reply>, next: nat)
    requires at <= |script|
    ensures reply.None? ==> next == at == |script|
    ensures reply.Some? ==>
      next == at + 1 <= |script| && Position(start, script[..next]) == Follow(Position(start, script[..at]), reply.value)
  {
    if at == |script| {
      return None, at;
    }
    assert script[..at + 1][..at] == script[..at];
    return Some(script[at]), at + 1;
  }

  /** `prepare`, against any replies: whether the released phase was entered, or that the replies ran out. */
  method Prepare(script: seq<Reply>) returns (entered: Option<bool>, at: nat)
    ensures at <= |script|
    ensures entered == Some(true) ==> Position(Opening, script[..at]) == Listening
    ensures entered == Some(false) ==> Position(Opening, script[..at]) == Ended
    ensures entered.None? ==> at == |script| && IsPreparing(Position(Opening, script[..at]))
  {
    at := 0;
    assert script[..0] == [];
    var reply;
    reply, at := Await(Opening, script, at);
    if reply.None? { return None, at; }
    if !reply.value.Yes? { return Some(false), at; }
    reply, at := Await(Opening, script, at);
    if reply.None? { return None, at; }
    if !reply.value.Snapshot? { return Some(false), at; }
    var before := reply.value.content;
    reply, at := Await(Opening, script, at);
    if reply.None? { return None, at; }
    if !reply.value.Yes? { return Some(false), at; }
    entered, at := Record(script, at, before);
  }

  /** Once every event is asked for: a barrier, the second snapshot, and the recording under the lock. */
  method Record(script: seq<Reply>, from: nat, before: Rec) returns (entered: Option<bool>, at: nat)
    requires from <= |script| && Position(Opening, script[..from]) == Settling(before)
    ensures from <= at <= |script|
    ensures entered == Some(true) ==> Position(Opening, script[..at]) == Listening
    ensures entered == Some(false) ==> Position(Opening, script[..at]) == Ended
    ensures entered.None? ==> at == |script| && IsPreparing(Position(Opening, script[..at]))
  {
    var reply;
    reply, at := Await(Opening, script, from);
    if reply.None? { return None, at; }
    if !reply.value.Marked? { return Some(false), at; }
    reply, at := Await(Opening, script, at);
    if reply.None? { return None, at; }
    if !reply.value.Yes? { return Some(false), at; }
    reply, at := Await(Opening, script, at);
    if reply.None? { return None, at; }
    if !reply.value.Snapshot? { return Some(false), at; }
    var after := reply.value.content;
    reply, at := Await(Opening, script, at);
    if reply.None? { return None, at; }
    return Some(before == after && reply.value.Yes?), at;
  }

  /** `serve`, against any replies: it goes on until a peer or a failure stops it, or the replies run out. */
  method Serve(script: seq<Reply>) returns (stopped: bool, at: nat)
    ensures at <= |script|
    ensures stopped ==> Position(Listening, script[..at]) == Ended
    ensures !stopped ==> at == |script| && Serving(Position(Listening, script[..at]))
  {
    at := 0;
    assert script[..0] == [];
    while at < |script|
      invariant at <= |script| && Position(Listening, script[..at]) == Listening
    {
      var reply;
      reply, at := Await(Listening, script, at);
      if reply.None? { return false, at; }
      if !reply.value.Yes? { return true, at; }
      reply, at := Await(Listening, script, at);
      if reply.None? { return false, at; }
      if !reply.value.Yes? { return true, at; }
      reply, at := Await(Listening, script, at);
      if reply.None? { return false, at; }
      if reply.value.Garbled? || reply.value.Error? { continue; }
      if !reply.value.Yes? { return true, at; }
      var checked;
      checked, at := AnswerCheck(script, at);
      if checked.None? { return false, at; }
      if !checked.value { return true, at; }
    }
    return false, at;
  }

  /** One check, from its barrier to its decision. */
  method AnswerCheck(script: seq<Reply>, from: nat) returns (goesOn: Option<bool>, at: nat)
    requires from <= |script| && Position(Listening, script[..from]) == Calling
    ensures from <= at <= |script|
    ensures goesOn == Some(true) ==> at > from && Position(Listening, script[..at]) == Listening
    ensures goesOn == Some(false) ==> Position(Listening, script[..at]) == Ended
    ensures goesOn.None? ==> at == |script| && Serving(Position(Listening, script[..at]))
  {
    var reply;
    reply, at := Await(Listening, script, from);
    if reply.None? { return None, at; }
    if !reply.value.Marked? { return Some(false), at; }
    var mark := reply.value.changes;
    reply, at := Await(Listening, script, at);
    if reply.None? { return None, at; }
    if !reply.value.Yes? { return Some(false), at; }
    goesOn, at := Examine(script, at, mark);
  }

  /** After the barrier: a snapshot, a look at the writers, and the decision under the lock. */
  method Examine(script: seq<Reply>, from: nat, mark: nat) returns (goesOn: Option<bool>, at: nat)
    requires from <= |script| && Position(Listening, script[..from]) == Looking(mark)
    ensures from <= at <= |script|
    ensures goesOn == Some(true) ==> at > from && Position(Listening, script[..at]) == Listening
    ensures goesOn == Some(false) ==> Position(Listening, script[..at]) == Ended
    ensures goesOn.None? ==> at == |script| && Serving(Position(Listening, script[..at]))
  {
    var reply;
    reply, at := Await(Listening, script, from);
    if reply.None? { return None, at; }
    if !reply.value.Snapshot? { return Some(false), at; }
    reply, at := Await(Listening, script, at);
    if reply.None? { return None, at; }
    if !reply.value.Writers? { return Some(false), at; }
    reply, at := Await(Listening, script, at);
    if reply.None? { return None, at; }
    return Some(reply.value.Yes?), at;
  }

  predicate Serving(stage: Stage) {
    !IsPreparing(stage) && !stage.Ended?
  }
}
