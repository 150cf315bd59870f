/**
 The protocol never gets stuck: any reconcile of an upgrade can be completed from wherever it is
 over current copies, and every run can go on to the end of its upgrade. So what `Progress` says
 about laps is said of laps that there are.
 */
module Recovery {
  import opened Wrappers
  import opened Conditions
  import opened Protocol
  import opened MigrationSafety
  import opened Phases
  import opened Convergence
  import opened Progress

  // ---- Completing a reconcile ----

  /** Nobody has written since the controller read the copies it holds. */
  predicate Current(w: World) {
    && (HoldsQuay(w.main) ==> w.main.quay.rv == w.reg.rv)
    && (HoldsWant(w.main) ==> w.main.want.rv == w.reg.rv)
    && (w.main.Decide? || w.main.Gate? || w.main.Finalize? ==> w.main.updated.rv == w.reg.rv)
  }

  /** The controller's next move, if nothing fails. */
  function Next(main: Main, input: Input): Event {
    match main
    case Idle => Begin
    case Prepare(_) => Inflate(input.plan, input.order)
    case ReadMigrationJob(_) => ReadJob(true, 0)
    case ReadDatabaseJob(_, _) => ReadJob(true, 0)
    case Apply(_, _, todo) =>
      if todo == [] then CleanupDone else if IsJob(todo[0]) then ReadJob(true, 0) else ApplyObject(true)
    case DeleteJob(_, _, _) => RemoveJob(Acked)
    case CreateJob(_, _, _) => AddJob(Acked)
    case Settle(_, _) => Proceed(0)
    case Decide(_, _) => Proceed(0)
    case Gate(_, _) => Proceed(0)
    case Finalize(_) => Return
    case _ => Write(Acked)
  }

  /** A bound on the moves that are left. */
  function MovesLeft(main: Main, input: Input): nat {
    match main
    case Idle => 0
    case ReadMigrationJob(_) => 2
    case Prepare(_) => 4 * |input.before + [input.job] + input.later| + 11
    case Apply(_, _, todo) => 4 * |todo| + 10
    case DeleteJob(_, _, todo) => 4 * |todo| + 9
    case CreateJob(_, _, todo) => 4 * |todo| + 8
    case Settle(_, _) => 8
    case ReportRollout(_, _) => 7
    case Decide(_, _) => 6
    case ReportEndpoint(_, _) => 5
    case Gate(_, _) => 4
    case LastWrite(_) => 1
    case _ => 0
  }

  lemma NextIsEnabled(w0: World, input: Input, w: World)
    requires Starts(w0, input) && RoundInv(w0, input, w) && w.main != Idle && Current(w)
    ensures Enabled(w, Next(w.main, input)) && Undisturbed(w.main, Next(w.main, input), input)
  {
    if w.main.Prepare? {
      GoodForVersion(input, w0.reg, w.main.quay, w.op);
    }
  }

  /** The move leaves current copies, and fewer moves. */
  ghost predicate Nearer(w: World, next: World, input: Input) {
    Current(next) && MovesLeft(next.main, input) < MovesLeft(w.main, input)
  }

  lemma WriteIsNearer(w: World, input: Input)
    requires Current(w) && Enabled(w, Write(Acked)) && !w.main.ReportCleanup?
    ensures Nearer(w, Step(w, Write(Acked)), input)
  {
  }

  lemma ProceedIsNearer(w: World, input: Input)
    requires Current(w) && Enabled(w, Proceed(0))
    ensures Nearer(w, Step(w, Proceed(0)), input)
  {
  }

  lemma ReadIsNearer(w: World, input: Input)
    requires Current(w) && Enabled(w, ReadJob(true, 0)) && !w.main.ReadDatabaseJob?
    ensures Nearer(w, Step(w, ReadJob(true, 0)), input)
  {
  }

  lemma JobIsNearer(w: World, input: Input, e: Event)
    requires Current(w) && Enabled(w, e) && (e == RemoveJob(Acked) || e == AddJob(Acked))
    ensures Nearer(w, Step(w, e), input)
  {
  }

  lemma ObjectIsNearer(w: World, input: Input, e: Event)
    requires Current(w) && Enabled(w, e) && (e == ApplyObject(true) || e == CleanupDone)
    ensures Nearer(w, Step(w, e), input)
  {
  }

  lemma InflateIsNearer(w: World, input: Input, e: Event)
    requires Current(w) && Enabled(w, e) && e == Inflate(input.plan, input.order)
    requires |Queue(input.plan, input.order)| == |input.before + [input.job] + input.later|
    ensures Nearer(w, Step(w, e), input)
  {
  }

  lemma NextIsNearer(w0: World, input: Input, w: World)
    requires Starts(w0, input) && RoundInv(w0, input, w) && w.main != Idle && Current(w)
    requires Enabled(w, Next(w.main, input))
    ensures Nearer(w, Step(w, Next(w.main, input)), input)
  {
    var e := Next(w.main, input);
    match e {
      case Inflate(_, _) => InflateIsNearer(w, input, e);
      case ReadJob(_, _) => ReadIsNearer(w, input);
      case RemoveJob(_) => JobIsNearer(w, input, e);
      case AddJob(_) => JobIsNearer(w, input, e);
      case ApplyObject(_) => ObjectIsNearer(w, input, e);
      case CleanupDone => ObjectIsNearer(w, input, e);
      case Proceed(_) => ProceedIsNearer(w, input);
      case Write(_) => WriteIsNearer(w, input);
      case _ =>
    }
  }

  /** Moves without a failure, up to the end of the reconcile. */
  ghost predicate Finishes(states: seq<World>, events: seq<Event>, input: Input) {
    && IsRun(states, events) && states[|events|].main == Idle
    && forall i | 0 <= i < |events| :: states[i].main != Idle && Undisturbed(states[i].main, events[i], input)
  }

  lemma FinishesCons(w: World, e: Event, states: seq<World>, events: seq<Event>, input: Input)
    requires Enabled(w, e) && w.main != Idle && Undisturbed(w.main, e, input)
    requires Finishes(states, events, input) && states[0] == Step(w, e)
    ensures Finishes([w] + states, [e] + events, input)
  {
    var ss, es := [w] + states, [e] + events;
    forall i | 0 <= i < |es|
      ensures Enabled(ss[i], es[i]) && ss[i + 1] == Step(ss[i], es[i])
      ensures ss[i].main != Idle && Undisturbed(ss[i].main, es[i], input)
    {
      if i > 0 { assert es[i] == events[i - 1] && ss[i] == states[i - 1] && ss[i + 1] == states[i]; }
    }
  }

  /** From wherever a working reconcile is, over current copies, it can be completed. */
  lemma {:induction false} RoundCanFinish(w0: World, input: Input, w: World)
    returns (states: seq<World>, events: seq<Event>)
    requires Starts(w0, input) && RoundInv(w0, input, w) && Current(w)
    ensures Finishes(states, events, input) && states[0] == w
    ensures w.main != Idle ==> events != []
    decreases MovesLeft(w.main, input)
  {
    if w.main == Idle {
      states, events := [w], [];
    } else {
      NextIsEnabled(w0, input, w);
      var e := Next(w.main, input);
      NextIsNearer(w0, input, w);
      OwnStepInv(w0, input, w, e);
      var ss, es := RoundCanFinish(w0, input, Step(w, e));
      FinishesCons(w, e, ss, es, input);
      states, events := [w] + ss, [e] + es;
    }
  }

  // ---- Going on with a run ----

  ghost predicate Extends(states: seq<World>, events: seq<Event>, more: seq<World>, further: seq<Event>) {
    IsRun(states, events) && IsRun(more, further) && states <= more && events <= further
  }

  lemma GoOn(states: seq<World>, events: seq<Event>, ss: seq<World>, es: seq<Event>)
    returns (more: seq<World>, further: seq<Event>)
    requires IsRun(states, events) && IsRun(ss, es) && ss[0] == states[|events|]
    ensures Extends(states, events, more, further) && |further| == |events| + |es|
    ensures forall i | 0 <= i <= |es| :: more[|events| + i] == ss[i]
    ensures forall i | 0 <= i < |es| :: further[|events| + i] == es[i]
  {
    more, further := states + ss[1..], events + es;
    forall i | 0 <= i < |further| ensures Enabled(more[i], further[i]) && more[i + 1] == Step(more[i], further[i]) {
      if i >= |events| {
        var j := i - |events|;
        assert further[i] == es[j] && more[i] == ss[j] && more[i + 1] == ss[j + 1];
      } else {
        assert more[i] == states[i] && more[i + 1] == states[i + 1];
      }
    }
  }

  lemma PrefixKeeps(states: seq<World>, events: seq<Event>, more: seq<World>, further: seq<Event>, i: nat)
    requires Extends(states, events, more, further) && i < |events|
    ensures more[i] == states[i] && further[i] == events[i]
  {
  }

  lemma OneStep(w: World, e: Event)
    requires Enabled(w, e)
    ensures IsRun([w, Step(w, e)], [e])
  {
  }

  /** The cluster finishes what it has to do: a deleted job goes, an unfinished one succeeds. */
  lemma CanSettle(states: seq<World>, events: seq<Event>) returns (more: seq<World>, further: seq<Event>)
    requires IsRun(states, events) && Inv(states[|events|])
    requires states[|events|].main == Idle && !PostgresUpgradeRunning(states[|events|].reg)
    ensures Extends(states, events, more, further) && IsSettling(more, further, |events|, |further|)
    ensures Settled(more[|further|]) && more[|further|].op == states[|events|].op
    ensures more[|further|].reg == states[|events|].reg
  {
    var w := states[|events|];
    if AppUpgrade in w.jobs && (w.jobs[AppUpgrade].terminating || !Finished(w.jobs[AppUpgrade])) {
      var e := if w.jobs[AppUpgrade].terminating then JobGone(AppUpgrade) else JobSucceeds(AppUpgrade);
      StepKeepsInv(w, e);
      OneStep(w, e);
      more, further := GoOn(states, events, [w, Step(w, e)], [e]);
      assert further[|events|] == e && more[|events|] == w && more[|further|] == Step(w, e);
    } else {
      more, further := states, events;
    }
  }

  /** A begun reconcile, with what completes it from `m` on. */
  lemma BegunRound(states: seq<World>, events: seq<Event>, rs: seq<World>, re: seq<Event>, n: nat, m: nat, input: Input)
    requires IsRun(states, events) && m == n + 1 && |events| == m + |re|
    requires states[n].main == Idle && events[n] == Begin && Finishes(rs, re, input)
    requires forall i | 0 <= i <= |re| :: states[m + i] == rs[i]
    requires forall i | 0 <= i < |re| :: events[m + i] == re[i]
    ensures IsRound(states, events, n, |events|, input)
  {
    forall i | n < i < |events| ensures states[i].main != Idle && Undisturbed(states[i].main, events[i], input) {
      assert states[m + (i - m)] == rs[i - m] && events[m + (i - m)] == re[i - m];
    }
    assert states[m + |re|] == rs[|re|];
  }

  lemma BeginCanFollow(states: seq<World>, events: seq<Event>, input: Input)
    returns (more: seq<World>, further: seq<Event>)
    requires IsRun(states, events) && Starts(states[|events|], input)
    ensures Extends(states, events, more, further) && further == events + [Begin]
    ensures more[|further|] == Step(states[|events|], Begin)
    ensures RoundInv(states[|events|], input, more[|further|]) && Current(more[|further|])
  {
    var w := states[|events|];
    BeginInv(w, input);
    OneStep(w, Begin);
    more, further := GoOn(states, events, [w, Step(w, Begin)], [Begin]);
    assert more[|events| + 1] == Step(w, Begin) && further[|events|] == Begin;
  }

  lemma CompleteRound(states: seq<World>, events: seq<Event>, n: nat, input: Input, rs: seq<World>, re: seq<Event>)
    returns (more: seq<World>, further: seq<Event>)
    requires IsRun(states, events) && |events| == n + 1 && states[n].main == Idle && events[n] == Begin
    requires Finishes(rs, re, input) && rs[0] == states[n + 1]
    ensures Extends(states, events, more, further) && IsRound(more, further, n, |further|, input)
  {
    more, further := GoOn(states, events, rs, re);
    PrefixKeeps(states, events, more, further, n);
    BegunRound(more, further, rs, re, n, |events|, input);
  }

  /** One reconcile from here to its end. */
  lemma ReconcileCanFollow(states: seq<World>, events: seq<Event>, input: Input)
    returns (more: seq<World>, further: seq<Event>)
    requires IsRun(states, events) && Starts(states[|events|], input)
    ensures Extends(states, events, more, further) && IsRound(more, further, |events|, |further|, input)
  {
    var n := |events|;
    var ss, es := BeginCanFollow(states, events, input);
    assert ss[n] == states[n] && es[n] == Begin;
    var rs, re := RoundCanFinish(states[n], input, ss[n + 1]);
    more, further := CompleteRound(ss, es, n, input, rs, re);
  }

  /** A lap that works, from any point at which things have settled. */
  lemma LapCanFollow(states: seq<World>, events: seq<Event>, input: Input)
    returns (more: seq<World>, further: seq<Event>, lap: Lap)
    requires IsRun(states, events) && Starts(states[|events|], input) && Good(input, states[|events|].reg, states[|events|].op)
    ensures Extends(states, events, more, further) && lap.end == |further|
    ensures IsLap(more, further, |events|, lap) && Works(more, further, |events|, lap)
    ensures Settled(more[lap.end]) && Rank(more[lap.end]) < Rank(states[|events|])
    ensures more[lap.end].op == states[|events|].op
    ensures Reached(more[lap.end]) || more[lap.end].reg.currentVersion == states[|events|].reg.currentVersion
  {
    var n := |events|;
    var ss, es := ReconcileCanFollow(states, events, input);
    InsideRound(ss, es, n, |es|, input, |es|);
    more, further := CanSettle(ss, es);
    lap := Lap(|es|, |further|, input);
    RoundInPrefix(ss, es, more, further, n, |es|, input);
    EveryRoundAdvances(more, further, n, |es|, |further|, input);
    assert Done(states[n], ss[|es|]);
    NoReplacement(more, further, n, lap);
  }

  lemma NoReplacement(states: seq<World>, events: seq<Event>, at: nat, lap: Lap)
    requires IsRound(states, events, at, lap.mid, lap.input) && IsSettling(states, events, lap.mid, lap.end)
    ensures forall i | at <= i < lap.end :: !events[i].ReplaceOperator?
  {
    forall i | at <= i < lap.end ensures !events[i].ReplaceOperator? {
      if i < lap.mid {
        assert Undisturbed(states[i].main, events[i], lap.input) || ByOthers(states[i], events[i]);
      }
    }
  }

  lemma RoundInPrefix(
    states: seq<World>, events: seq<Event>, more: seq<World>, further: seq<Event>, lo: nat, hi: nat, input: Input
  )
    requires Extends(states, events, more, further) && IsRound(states, events, lo, hi, input)
    ensures IsRound(more, further, lo, hi, input)
  {
    forall i | lo <= i < hi
      ensures Undisturbed(more[i].main, further[i], input) || ByOthers(more[i], further[i])
      ensures i > lo ==> more[i].main != Idle
    {
      assert more[i] == states[i] && further[i] == events[i];
    }
    assert more[hi] == states[hi] && more[lo] == states[lo];
  }

  lemma LapInPrefix(
    states: seq<World>, events: seq<Event>, more: seq<World>, further: seq<Event>, at: nat, lap: Lap
  )
    requires Extends(states, events, more, further) && at <= |events|
    requires IsLap(states, events, at, lap) && Works(states, events, at, lap)
    ensures IsLap(more, further, at, lap) && Works(more, further, at, lap)
  {
    RoundInPrefix(states, events, more, further, at, lap.mid, lap.input);
    forall i | lap.mid <= i < lap.end ensures ByOthers(more[i], further[i]) || Polls(more[i], further[i]) {
      assert more[i] == states[i] && further[i] == events[i];
    }
    assert more[lap.end] == states[lap.end] && more[at] == states[at];
    NoReplacement(more, further, at, lap);
  }

  /** Working laps, one after the other, until the version is reached. */
  lemma {:induction false} LapsCanFollow(states: seq<World>, events: seq<Event>, inputs: seq<Input>)
    returns (more: seq<World>, further: seq<Event>, laps: seq<Lap>)
    requires IsRun(states, events) && Settled(states[|events|]) && Rank(states[|events|]) <= |inputs|
    requires forall i | 0 <= i < |inputs| :: Good(inputs[i], states[|events|].reg, states[|events|].op)
    ensures Extends(states, events, more, further) && AreLaps(more, further, |events|, laps)
    ensures End(more, further, |events|, laps) == |further|
    ensures TotalWorth(more, further, |events|, laps) == |laps| <= |inputs|
    ensures Reached(more[|further|]) && more[|further|].op == states[|events|].op
    decreases |inputs|
  {
    var w := states[|events|];
    if Reached(w) {
      more, further, laps := states, events, [];
    } else {
      var ss, es, lap := LapCanFollow(states, events, inputs[0]);
      var left, rest := inputs[1..], [];
      if Reached(ss[|es|]) {
        more, further := ss, es;
      } else {
        forall i | 0 <= i < |left| ensures Good(left[i], ss[|es|].reg, ss[|es|].op) {
          GoodForVersion(inputs[i + 1], w.reg, ss[|es|].reg, w.op);
        }
        more, further, rest := LapsCanFollow(ss, es, left);
        LapInPrefix(ss, es, more, further, |events|, lap);
      }
      laps := [lap] + rest;
      assert laps[1..] == rest && Worth(more, further, |events|, lap) == 1;
    }
  }

  /**
   From any point of any run that is not in a database upgrade: the run can go on, over a restart
   of the operator and at most four reconciles, to a state in which the recorded version is the
   operator's.
   */
  lemma UpgradeConverges(states: seq<World>, past: seq<Event>, inputs: seq<Input>)
    returns (more: seq<World>, further: seq<Event>, at: nat, laps: seq<Lap>)
    requires IsRun(states, past) && Fresh(states[0])
    requires !PostgresUpgradeRunning(states[|past|].reg)
    requires |inputs| == 4 && forall i | 0 <= i < 4 :: Good(inputs[i], states[|past|].reg, states[|past|].op)
    ensures Extends(states, past, more, further) && |past| <= at <= |further| && Settled(more[at])
    ensures AreLaps(more, further, at, laps) && End(more, further, at, laps) == |further|
    ensures TotalWorth(more, further, at, laps) == |laps| <= 4
    ensures more[|further|].op == states[|past|].op == more[|further|].reg.currentVersion
  {
    var w := states[|past|];
    FreshIsInv(states[0]);
    RunKeepsInv(states, past, |past|);
    StepKeepsInv(w, Crash);
    OneStep(w, Crash);
    var ss, es := GoOn(states, past, [w, Step(w, Crash)], [Crash]);
    assert ss[|es|] == Step(w, Crash);
    var rs, re := CanSettle(ss, es);
    at := |re|;
    more, further, laps := LapsCanFollow(rs, re, inputs);
  }
}
