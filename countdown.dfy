/**
 * The countdown timer of the timer tab (tracker.py lines 42-118): four
 * session-state fields changed by the Set/Reset, Start/Resume and Pause
 * buttons and by each rerun of the page while the timer runs.
 *
 * The transitions are first given as functions on a `TimerState` value;
 * the class `Timer` below updates its fields in place and is proved to
 * follow them. One rerun of the page is one call of `Step`.
 */
module Countdown {
  import opened Wrappers
  import opened SessionStore

  /** The ranges of the Hours and Minutes number inputs (tracker.py lines 69-70). */
  type Hours = h: int | 0 <= h <= 24
  type Minutes = m: int | 0 <= m <= 59

  /** The longest duration the inputs allow, in seconds. */
  const MAX_SECONDS := 24 * 3600 + 59 * 60

  datatype TimerState = TimerState(timeLeft: int, initialTime: int, running: bool, breakCount: int)

  /** The state before any button is pressed (tracker.py lines 42-49). */
  const IDLE := TimerState(0, 0, false, 0)

  /**
   * What holds of every state the buttons and reruns can reach: the time
   * left never exceeds the configured duration, which is a whole number of
   * minutes within the inputs' range.
   */
  predicate Inv(s: TimerState) {
    && 0 <= s.timeLeft <= s.initialTime <= MAX_SECONDS
    && s.initialTime % 60 == 0
    && s.breakCount >= 0
  }

  /** Set / Reset Timer (tracker.py lines 72-77), from any prior state. */
  function Configured(s: TimerState, hours: Hours, minutes: Minutes): (r: TimerState)
    ensures Inv(r)
  {
    var total := hours * 3600 + minutes * 60;
    TimerState(total, total, false, 0)
  }

  /** Start / Resume (tracker.py lines 99-101); the button is shown only while stopped. */
  function Resumed(s: TimerState): (r: TimerState)
    requires !s.running
    ensures Inv(s) ==> Inv(r)
  {
    s.(running := true)
  }

  /** Pause (tracker.py lines 94-97); the button is shown only while running. */
  function Paused(s: TimerState): (r: TimerState)
    requires s.running
    ensures Inv(s) ==> Inv(r)
  {
    s.(running := false, breakCount := s.breakCount + 1)
  }

  /**
   * The timer block of one rerun (tracker.py lines 104-118): count one
   * second down, or, once nothing is left, save the session (its duration
   * is the configured one, in minutes) and zero every counter.
   */
  function Ticked(s: TimerState, date: string, subject: string, topic: string): (r: (TimerState, Option<Row>))
    ensures Inv(s) ==> Inv(r.0)
    ensures r.1.Some? <==> s.running && s.timeLeft <= 0
  {
    if !s.running then (s, None)
    else if s.timeLeft > 0 then (s.(timeLeft := s.timeLeft - 1), None)
    else (IDLE, Some(Row(date, subject, topic, s.initialTime as real / 60.0, s.breakCount)))
  }

  /**
   * The value given to the progress bar (tracker.py lines 84-88): the
   * fraction of the configured duration already spent, capped at 1.
   */
  function Progress(s: TimerState): (p: real)
    ensures Inv(s) ==> 0.0 <= p <= 1.0
    ensures s.initialTime <= 0 ==> p == 0.0
    ensures Inv(s) && s.initialTime > 0 ==> p * s.initialTime as real == (s.initialTime - s.timeLeft) as real
  {
    if s.initialTime > 0 then
      var total := s.initialTime as real;
      var prog := 1.0 - s.timeLeft as real / total;
      assert prog * total == total - s.timeLeft as real;
      if prog < 1.0 then prog else 1.0
    else 0.0
  }

  // ----- Runs of the page: sequences of button presses and reruns -----

  /** What can happen between two reruns: one button press, or one rerun of the timer block. */
  datatype Action =
    | SetTimer(hours: Hours, minutes: Minutes)
    | StartResume
    | Pause
    | Rerun(date: string, subject: string, topic: string)

  /** Whether the button an action presses is on the page in state `s`. */
  predicate Shown(s: TimerState, a: Action) {
    match a
    case StartResume => !s.running
    case Pause => s.running
    case _ => true
  }

  /** One action; a press of a button that is not shown changes nothing. */
  function Apply(s: TimerState, a: Action): (r: (TimerState, seq<Row>))
    ensures Inv(s) ==> Inv(r.0)
    ensures |r.1| <= 1
  {
    match a
    case SetTimer(h, m) => (Configured(s, h, m), [])
    case StartResume => (if s.running then s else Resumed(s), [])
    case Pause => (if s.running then Paused(s) else s, [])
    case Rerun(date, subject, topic) =>
      var t := Ticked(s, date, subject, topic);
      (t.0, ToSeq(t.1))
  }

  /** Every press in `acts` is of a button shown at that moment. */
  predicate Enabled(s: TimerState, acts: seq<Action>)
    decreases |acts|
  {
    acts == [] || (Shown(s, acts[0]) && Enabled(Apply(s, acts[0]).0, acts[1..]))
  }

  /** The final state and the rows saved, in order, by a sequence of actions. */
  function Run(s: TimerState, acts: seq<Action>): (r: (TimerState, seq<Row>))
    ensures Inv(s) ==> Inv(r.0)
    ensures |r.1| <= |acts|
    decreases |acts|
  {
    if acts == [] then (s, [])
    else
      var first := Apply(s, acts[0]);
      var rest := Run(first.0, acts[1..]);
      (rest.0, first.1 + rest.1)
  }

  /** The number of Pause presses in `acts`. */
  function Pauses(acts: seq<Action>): nat
  {
    if acts == [] then 0 else (if acts[0].Pause? then 1 else 0) + Pauses(acts[1..])
  }

  /** The number of reruns in `acts` that find the timer running, each of them one countdown step. */
  function Ticks(s: TimerState, acts: seq<Action>): nat
    decreases |acts|
  {
    if acts == [] then 0
    else (if acts[0].Rerun? && s.running then 1 else 0) + Ticks(Apply(s, acts[0]).0, acts[1..])
  }

  predicate NoReset(acts: seq<Action>) {
    forall i :: 0 <= i < |acts| ==> !acts[i].SetTimer?
  }

  predicate OnlyReruns(acts: seq<Action>) {
    forall i :: 0 <= i < |acts| ==> acts[i].Rerun?
  }

  lemma {:induction false} RunAppend(s: TimerState, a: seq<Action>, b: seq<Action>)
    ensures Run(s, a + b) == (Run(Run(s, a).0, b).0, Run(s, a).1 + Run(Run(s, a).0, b).1)
    ensures Enabled(s, a + b) <==> Enabled(s, a) && Enabled(Run(s, a).0, b)
    decreases |a|
  {
    if a == [] {
      assert a + b == b;
      assert Run(s, a).1 + Run(s, b).1 == Run(s, b).1;
    } else {
      assert (a + b)[0] == a[0];
      assert (a + b)[1..] == a[1..] + b;
      var first := Apply(s, a[0]);
      RunAppend(first.0, a[1..], b);
      var mid := Run(first.0, a[1..]);
      var tail := Run(mid.0, b);
      assert first.1 + (mid.1 + tail.1) == (first.1 + mid.1) + tail.1;
    }
  }

  lemma RunSingle(s: TimerState, a: Action)
    ensures Run(s, [a]) == Apply(s, a)
    ensures Enabled(s, [a]) == Shown(s, a)
  {
    assert [a][1..] == [];
    assert Apply(s, a).1 + [] == Apply(s, a).1;
  }

  lemma RunCons(s: TimerState, a: Action, rest: seq<Action>)
    ensures Run(s, [a] + rest)
            == (Run(Apply(s, a).0, rest).0, Apply(s, a).1 + Run(Apply(s, a).0, rest).1)
  {
    assert ([a] + rest)[0] == a;
    assert ([a] + rest)[1..] == rest;
  }

  /** While time is left, each rerun takes exactly one second off and saves nothing. */
  lemma {:induction false} CountDown(s: TimerState, ticks: seq<Action>)
    requires s.running && OnlyReruns(ticks) && |ticks| <= s.timeLeft
    ensures Run(s, ticks) == (s.(timeLeft := s.timeLeft - |ticks|), [])
    ensures Enabled(s, ticks)
    decreases |ticks|
  {
    if ticks != [] {
      var next := s.(timeLeft := s.timeLeft - 1);
      assert Apply(s, ticks[0]) == (next, []);
      CountDown(next, ticks[1..]);
    }
  }

  /**
   * Without Set/Reset and before anything is saved, the break count grows
   * by exactly the number of Pause presses and the configured duration
   * stays as it was.
   */
  lemma {:induction false} BreaksArePauses(s: TimerState, acts: seq<Action>)
    requires Enabled(s, acts) && NoReset(acts) && Run(s, acts).1 == []
    ensures Run(s, acts).0.breakCount == s.breakCount + Pauses(acts)
    ensures Run(s, acts).0.initialTime == s.initialTime
    decreases |acts|
  {
    if acts != [] {
      var first := Apply(s, acts[0]);
      assert first.1 == [];
      assert NoReset(acts[1..]) by {
        forall i | 0 <= i < |acts[1..]| ensures !acts[1..][i].SetTimer? {
          assert acts[1..][i] == acts[i + 1];
        }
      }
      BreaksArePauses(first.0, acts[1..]);
    }
  }

  /**
   * Time accounting for any interleaving of pauses, resumes and reruns:
   * as long as the running reruns do not outnumber the seconds left,
   * nothing is saved, each running rerun takes exactly one second off, and
   * the configured duration stays as it was.
   */
  lemma {:induction false} Accounting(s: TimerState, acts: seq<Action>)
    requires Enabled(s, acts) && NoReset(acts) && Ticks(s, acts) <= s.timeLeft
    ensures Run(s, acts).1 == []
    ensures Run(s, acts).0.timeLeft == s.timeLeft - Ticks(s, acts)
    ensures Run(s, acts).0.initialTime == s.initialTime
    decreases |acts|
  {
    if acts != [] {
      var first := Apply(s, acts[0]);
      assert first.1 == [];
      assert NoReset(acts[1..]) by {
        forall i | 0 <= i < |acts[1..]| ensures !acts[1..][i].SetTimer? {
          assert acts[1..][i] == acts[i + 1];
        }
      }
      Accounting(first.0, acts[1..]);
    }
  }

  /** The saved duration of a session configured to `hours`:`minutes` is that many whole minutes. */
  lemma ConfiguredMinutes(s: TimerState, hours: Hours, minutes: Minutes)
    ensures Configured(s, hours, minutes).initialTime as real / 60.0 == (hours * 60 + minutes) as real
  {
    var total := hours * 3600 + minutes * 60;
    assert total == (hours * 60 + minutes) * 60;
    assert total as real == (hours * 60 + minutes) as real * 60.0;
  }

  /**
   * A session configured to `hours`:`minutes` that reaches the end after
   * any interleaving of pauses and resumes is saved as one row whose
   * duration is the configured number of minutes and whose break count is
   * the number of pauses; the timer then returns to its idle state.
   */
  lemma SessionIsLogged(s: TimerState, hours: Hours, minutes: Minutes, acts: seq<Action>,
                        date: string, subject: string, topic: string)
    requires Enabled(Configured(s, hours, minutes), acts) && NoReset(acts)
    requires Run(Configured(s, hours, minutes), acts).1 == []
    requires Run(Configured(s, hours, minutes), acts).0.running
    requires Run(Configured(s, hours, minutes), acts).0.timeLeft == 0
    ensures Ticked(Run(Configured(s, hours, minutes), acts).0, date, subject, topic)
            == (IDLE, Some(Row(date, subject, topic, (hours * 60 + minutes) as real, Pauses(acts))))
  {
    BreaksArePauses(Configured(s, hours, minutes), acts);
    ConfiguredMinutes(s, hours, minutes);
  }

  /**
   * A session configured to `hours`:`minutes`, paused and resumed any
   * number of times, whose running reruns number exactly its seconds: the
   * countdown has saved nothing so far, and the next rerun saves it once,
   * with the configured minutes and one break per pause.
   */
  lemma SessionAccounted(s: TimerState, hours: Hours, minutes: Minutes, acts: seq<Action>,
                         date: string, subject: string, topic: string)
    requires Enabled(Configured(s, hours, minutes), acts) && NoReset(acts)
    requires Ticks(Configured(s, hours, minutes), acts) == hours * 3600 + minutes * 60
    requires Run(Configured(s, hours, minutes), acts).0.running
    ensures Run(Configured(s, hours, minutes), acts).1 == []
    ensures Run(Configured(s, hours, minutes), acts + [Rerun(date, subject, topic)])
            == (IDLE, [Row(date, subject, topic, (hours * 60 + minutes) as real, Pauses(acts))])
  {
    var c := Configured(s, hours, minutes);
    var last := Rerun(date, subject, topic);
    var row := Row(date, subject, topic, (hours * 60 + minutes) as real, Pauses(acts));
    Accounting(c, acts);
    var ended := Run(c, acts).0;
    SessionIsLogged(s, hours, minutes, acts, date, subject, topic);
    assert Ticked(ended, date, subject, topic) == (IDLE, Some(row));
    RunSingle(ended, last);
    RunAppend(c, acts, [last]);
    assert [] + [row] == [row];
  }

  /** A running timer with `n` seconds left saves its session on the `n + 1`-th rerun. */
  lemma RunsOut(s: TimerState, ticks: seq<Action>, date: string, subject: string, topic: string)
    requires s.running && OnlyReruns(ticks) && |ticks| == s.timeLeft
    ensures Run(s, ticks + [Rerun(date, subject, topic)])
            == (IDLE, [Row(date, subject, topic, s.initialTime as real / 60.0, s.breakCount)])
    ensures Enabled(s, ticks + [Rerun(date, subject, topic)])
  {
    var last := Rerun(date, subject, topic);
    var ended := s.(timeLeft := 0);
    var row := Row(date, subject, topic, s.initialTime as real / 60.0, s.breakCount);
    CountDown(s, ticks);
    assert Ticked(ended, date, subject, topic) == (IDLE, Some(row));
    RunSingle(ended, last);
    RunAppend(s, ticks, [last]);
    assert [] + [row] == [row];
  }

  /**
   * Configure, press Start and leave the timer alone: the first `total`
   * reruns only count down, and the next one saves exactly one session,
   * with no breaks and the configured duration, and resets the timer.
   */
  lemma UninterruptedSession(s: TimerState, hours: Hours, minutes: Minutes, ticks: seq<Action>,
                             date: string, subject: string, topic: string)
    requires OnlyReruns(ticks) && |ticks| == hours * 3600 + minutes * 60
    ensures var started := Apply(Configured(s, hours, minutes), StartResume).0;
      Run(started, ticks) == (started.(timeLeft := 0), [])
    ensures Run(Configured(s, hours, minutes), [StartResume] + (ticks + [Rerun(date, subject, topic)]))
            == (IDLE, [Row(date, subject, topic, (hours * 60 + minutes) as real, 0)])
  {
    var c := Configured(s, hours, minutes);
    var started := c.(running := true);
    var rest := ticks + [Rerun(date, subject, topic)];
    var row := Row(date, subject, topic, (hours * 60 + minutes) as real, 0);
    assert Apply(c, StartResume) == (started, []);
    assert started.timeLeft == |ticks| && started.breakCount == 0;
    CountDown(started, ticks);
    ConfiguredMinutes(s, hours, minutes);
    assert started.initialTime as real / 60.0 == (hours * 60 + minutes) as real;
    RunsOut(started, ticks, date, subject, topic);
    assert Run(started, rest) == (IDLE, [row]);
    RunCons(c, StartResume, rest);
    assert [] + [row] == [row];
  }

  /**
   * Start pressed with no time left is not ignored: the next rerun saves a
   * session of the configured duration (zero minutes from the idle state).
   */
  lemma StartWithNoTimeLeft(s: TimerState, date: string, subject: string, topic: string)
    requires Inv(s) && !s.running && s.timeLeft == 0
    ensures Run(s, [StartResume] + [Rerun(date, subject, topic)])
            == (IDLE, [Row(date, subject, topic, s.initialTime as real / 60.0, s.breakCount)])
  {
    var started := s.(running := true);
    var row := Row(date, subject, topic, s.initialTime as real / 60.0, s.breakCount);
    RunSingle(started, Rerun(date, subject, topic));
    RunCons(s, StartResume, [Rerun(date, subject, topic)]);
    assert [] + [row] == [row];
  }

  /**
   * A timer set to 25 minutes and left alone counts down for 1500 reruns
   * and saves a 25-minute session with no breaks on the rerun after that.
   */
  lemma TwentyFiveMinuteSession(s: TimerState, date: string, subject: string, topic: string)
    ensures var tick := Rerun(date, subject, topic);
      Run(Configured(s, 0, 25), [StartResume] + (seq(1500, _ => tick) + [tick]))
      == (IDLE, [Row(date, subject, topic, 25.0, 0)])
  {
    var tick := Rerun(date, subject, topic);
    UninterruptedSession(s, 0, 25, seq(1500, _ => tick), date, subject, topic);
  }

  /** Pause and resume a running timer, then let it run out: the saved row counts one more break. */
  lemma PauseThenRunOut(s: TimerState, after: seq<Action>, date: string, subject: string, topic: string)
    requires s.running && OnlyReruns(after) && |after| == s.timeLeft
    ensures Run(s, [Pause] + ([StartResume] + (after + [Rerun(date, subject, topic)])))
            == (IDLE, [Row(date, subject, topic, s.initialTime as real / 60.0, s.breakCount + 1)])
  {
    var tail := after + [Rerun(date, subject, topic)];
    var paused := s.(running := false, breakCount := s.breakCount + 1);
    var resumed := paused.(running := true);
    var row := Row(date, subject, topic, s.initialTime as real / 60.0, s.breakCount + 1);
    RunsOut(resumed, after, date, subject, topic);
    RunCons(paused, StartResume, tail);
    assert Run(paused, [StartResume] + tail) == (IDLE, [] + [row]);
    RunCons(s, Pause, [StartResume] + tail);
    assert [] + ([] + [row]) == [row];
  }

  /** A running timer paused once after `|before|` reruns saves one more break when it runs out. */
  lemma PauseMidway(s: TimerState, before: seq<Action>, after: seq<Action>,
                    date: string, subject: string, topic: string)
    requires s.running && OnlyReruns(before) && OnlyReruns(after)
    requires |before| + |after| == s.timeLeft
    ensures Run(s, before + ([Pause] + ([StartResume] + (after + [Rerun(date, subject, topic)]))))
            == (IDLE, [Row(date, subject, topic, s.initialTime as real / 60.0, s.breakCount + 1)])
  {
    var rest := [Pause] + ([StartResume] + (after + [Rerun(date, subject, topic)]));
    var mid := s.(timeLeft := s.timeLeft - |before|);
    var row := Row(date, subject, topic, s.initialTime as real / 60.0, s.breakCount + 1);
    CountDown(s, before);
    PauseThenRunOut(mid, after, date, subject, topic);
    RunAppend(s, before, rest);
    assert [] + [row] == [row];
  }

  /**
   * One pause and a resume: the session is still saved once, on the rerun
   * after the time runs out, with its full configured duration and one break.
   */
  lemma SessionWithOnePause(s: TimerState, hours: Hours, minutes: Minutes,
                            before: seq<Action>, after: seq<Action>,
                            date: string, subject: string, topic: string)
    requires OnlyReruns(before) && OnlyReruns(after)
    requires |before| + |after| == hours * 3600 + minutes * 60
    ensures Run(Configured(s, hours, minutes),
                [StartResume] + (before + ([Pause] + ([StartResume] + (after + [Rerun(date, subject, topic)])))))
            == (IDLE, [Row(date, subject, topic, (hours * 60 + minutes) as real, 1)])
  {
    var s0 := Configured(s, hours, minutes);
    var s1 := s0.(running := true);
    var rest := before + ([Pause] + ([StartResume] + (after + [Rerun(date, subject, topic)])));
    var row := Row(date, subject, topic, (hours * 60 + minutes) as real, 1);
    ConfiguredMinutes(s, hours, minutes);
    assert s1.initialTime as real / 60.0 == (hours * 60 + minutes) as real;
    assert s1.breakCount + 1 == 1;
    PauseMidway(s1, before, after, date, subject, topic);
    assert Run(s1, rest) == (IDLE, [row]);
    assert Apply(s0, StartResume) == (s1, []);
    RunCons(s0, StartResume, rest);
    assert [] + [row] == [row];
  }

  /** The ten-second pause of a one-minute session: saved as one minute with one break. */
  lemma OneMinuteWithPause(s: TimerState, date: string, subject: string, topic: string)
    ensures var tick := Rerun(date, subject, topic);
      Run(Configured(s, 0, 1),
          [StartResume] + (seq(10, _ => tick) + ([Pause] + ([StartResume] + (seq(50, _ => tick) + [tick])))))
      == (IDLE, [Row(date, subject, topic, 1.0, 1)])
  {
    var tick := Rerun(date, subject, topic);
    SessionWithOnePause(s, 0, 1, seq(10, _ => tick), seq(50, _ => tick), date, subject, topic);
  }

  /** A timer whose fields the page's buttons and reruns update in place. */
  class Timer {
    var timeLeft: int
    var initialTime: int
    var running: bool
    var breakCount: int

    function State(): TimerState
      reads this
    {
      TimerState(timeLeft, initialTime, running, breakCount)
    }

    ghost predicate Valid()
      reads this
    {
      Inv(State())
    }

    /** The session-state initialisation (tracker.py lines 42-49). */
    constructor ()
      ensures Valid() && State() == IDLE
    {
      timeLeft := 0;
      running := false;
      initialTime := 0;
      breakCount := 0;
    }

    /** Set / Reset Timer (tracker.py lines 72-77). */
    method SetReset(hours: Hours, minutes: Minutes)
      modifies this
      ensures Valid() && State() == Configured(old(State()), hours, minutes)
      ensures timeLeft == initialTime == hours * 3600 + minutes * 60
      ensures !running && breakCount == 0
    {
      var totalSeconds := hours * 3600 + minutes * 60;
      timeLeft := totalSeconds;
      initialTime := totalSeconds;
      running := false;
      breakCount := 0;
    }

    /** Start / Resume (tracker.py lines 99-101). */
    method StartResume()
      requires Valid() && !running
      modifies this
      ensures Valid() && State() == Resumed(old(State()))
      ensures running
      ensures timeLeft == old(timeLeft) && initialTime == old(initialTime) && breakCount == old(breakCount)
    {
      running := true;
    }

    /** Pause (tracker.py lines 94-97): every pause counts as one break. */
    method Pause()
      requires Valid() && running
      modifies this
      ensures Valid() && State() == Paused(old(State()))
      ensures !running && breakCount == old(breakCount) + 1
      ensures timeLeft == old(timeLeft) && initialTime == old(initialTime)
    {
      running := false;
      breakCount := breakCount + 1;
    }

    /**
     * One rerun of the timer block (tracker.py lines 104-118). On expiry it
     * saves the session to `store` and returns the saved row.
     */
    method Step(store: Store, date: string, subject: string, topic: string) returns (row: Option<Row>)
      requires Valid()
      modifies this, store
      ensures Valid() && (State(), row) == Ticked(old(State()), date, subject, topic)
      ensures !old(running) ==> row.None? && State() == old(State())
      ensures old(running) && old(timeLeft) > 0 ==>
        row.None? && timeLeft == old(timeLeft) - 1 && running
        && initialTime == old(initialTime) && breakCount == old(breakCount)
      ensures old(running) && old(timeLeft) == 0 ==>
        row == Some(Row(date, subject, topic, old(initialTime) as real / 60.0, old(breakCount)))
        && State() == IDLE
      ensures store.Rows() == old(store.Rows()) + ToSeq(row)
      ensures row.None? ==> store.file == old(store.file)
    {
      row := None;
      if running {
        if timeLeft > 0 {
          timeLeft := timeLeft - 1;
        } else {
          running := false;
          var saved := store.Save(date, subject, topic, initialTime as real / 60.0, breakCount);
          row := Some(saved);
          timeLeft := 0;
          initialTime := 0;
          breakCount := 0;
        }
      }
    }
  }
}
