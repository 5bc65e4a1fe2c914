/**
 * The play/pause status machine of the music player widget.
 *
 * The widget holds one status value. A click on the main button moves a
 * playing or paused player to `Loading` and schedules one delayed follow-up
 * (a timer due `Delay` time units later) that sets the opposite of the status
 * the click started from. While loading, the button is disabled and a click
 * has no effect.
 *
 * The behaviour is first given on values (`State`, `OnPlayPause`,
 * `OnTimeout`, `Elapse`, `Run`) and then by the class `Player`, whose
 * methods update its fields in place and are proved against those functions.
 */
module MusicPlayer {

  datatype Status = Paused | Loading | Playing

  /** The delay of the follow-up that ends `Loading`, in time units. */
  const Delay: nat := 500

  /** A scheduled follow-up: at time `due` it sets the status to `target`. */
  datatype Timer = Timer(target: Status, due: nat)

  /**
   * What the widget holds at one instant: its status, the follow-ups that
   * are scheduled and not yet run (in the order they will run), and the
   * current time.
   */
  datatype State = State(status: Status, timers: seq<Timer>, now: nat)

  /**
   * The invariant of every state the widget can reach: the status is
   * `Loading` exactly when one follow-up is pending, there is never more than
   * one, and a pending follow-up targets `Paused` or `Playing` and is due
   * within `Delay` of now.
   */
  predicate Inv(s: State) {
    && |s.timers| <= 1
    && (s.status == Loading <==> |s.timers| == 1)
    && (forall t | t in s.timers :: t.target != Loading && s.now <= t.due <= s.now + Delay)
  }

  /** The status a follow-up restores: the other one of `Paused` and `Playing`. */
  function Opposite(st: Status): (r: Status)
    requires st != Loading
    ensures r != Loading && r != st
  {
    if st == Playing then Paused else Playing
  }

  /** The state at mount: paused, nothing scheduled. */
  function Initial(): (s: State)
    ensures Inv(s)
    ensures s.status == Paused && s.timers == []
  {
    State(Paused, [], 0)
  }

  /**
   * The click handler. From `Playing` or `Paused` it sets `Loading` at once
   * and schedules one follow-up to the opposite status; in `Loading` it has
   * no branch and leaves everything as it was.
   */
  function OnPlayPause(s: State): (r: State)
    requires Inv(s)
    ensures Inv(r) && r.now == s.now
    ensures s.status == Loading ==> r == s
    ensures s.status != Loading ==>
      && r.status == Loading
      && r.timers == [Timer(Opposite(s.status), s.now + Delay)]
  {
    match s.status
    case Playing => State(Loading, s.timers + [Timer(Paused, s.now + Delay)], s.now)
    case Paused => State(Loading, s.timers + [Timer(Playing, s.now + Delay)], s.now)
    case Loading => s
  }

  /** The earliest pending follow-up runs: it sets its target and is gone. */
  function OnTimeout(s: State): (r: State)
    requires s.timers != []
    ensures r.status == s.timers[0].target && r.now == s.now
    ensures Inv(s) ==> Inv(r) && r.status != Loading && r.timers == []
  {
    State(s.timers[0].target, s.timers[1..], s.now)
  }

  /**
   * `dt` time units pass. A pending follow-up whose due time is reached
   * within them runs; otherwise only the clock moves.
   */
  function Elapse(s: State, dt: nat): (r: State)
    requires Inv(s)
    ensures Inv(r) && r.now == s.now + dt
    ensures r.status == Loading <==> s.status == Loading && s.now + dt < s.timers[0].due
    ensures r.status != Loading ==> r.timers == [] && (s.status == Loading ==> r.status == s.timers[0].target)
    ensures s.status != Loading ==> r.status == s.status
  {
    if s.timers != [] && s.timers[0].due <= s.now + dt then
      OnTimeout(s).(now := s.now + dt)
    else
      s.(now := s.now + dt)
  }

  /** Whatever can happen to the widget: a click, or some time passing. */
  datatype Event = Click | Wait(dt: nat)

  function Step(s: State, e: Event): (r: State)
    requires Inv(s)
    ensures Inv(r)
  {
    match e
    case Click => OnPlayPause(s)
    case Wait(dt) => Elapse(s, dt)
  }

  /** The state after the events `evs`, in order; every state on the way keeps `Inv`. */
  function Run(s: State, evs: seq<Event>): (r: State)
    requires Inv(s)
    ensures Inv(r)
    decreases |evs|
  {
    if evs == [] then s else Run(Step(s, evs[0]), evs[1..])
  }

  lemma {:induction false} RunAppend(s: State, evs: seq<Event>, e: Event)
    requires Inv(s)
    ensures Run(s, evs + [e]) == Step(Run(s, evs), e)
    decreases |evs|
  {
    if evs != [] {
      assert (evs + [e])[1..] == evs[1..] + [e];
      RunAppend(Step(s, evs[0]), evs[1..], e);
    }
  }

  /**
   * Whatever the user does and however time passes, the widget stays in a
   * state where `Loading` means exactly one pending follow-up, a pending
   * follow-up never targets `Loading`, and at most one is pending.
   */
  lemma ReachableStatesKeepInvariant(evs: seq<Event>)
    ensures var r := Run(Initial(), evs);
      && |r.timers| <= 1
      && (r.status == Loading <==> |r.timers| == 1)
      && (forall t | t in r.timers :: t.target != Loading)
  {
  }

  /** The waits of the durations `ds`, in order. */
  function Waits(ds: seq<nat>): (evs: seq<Event>)
    ensures |evs| == |ds|
    ensures forall i :: 0 <= i < |ds| ==> evs[i] == Wait(ds[i])
  {
    seq(|ds|, i requires 0 <= i < |ds| => Wait(ds[i]))
  }

  /** The total of the durations `ds`. */
  function TotalWait(ds: seq<nat>): nat
  {
    if ds == [] then 0 else TotalWait(ds[..|ds| - 1]) + ds[|ds| - 1]
  }

  /** Waiting `a` and then `b` is the same as waiting `a + b`. */
  lemma WaitsCompose(s: State, a: nat, b: nat)
    requires Inv(s)
    ensures Elapse(Elapse(s, a), b) == Elapse(s, a + b)
  {
  }

  /**
   * However the time is split into waits, the widget ends where a single
   * wait of the total time leaves it: the follow-up runs once its due time
   * is reached, whichever wait reaches it. No wait at all changes nothing
   * (even a follow-up due right now waits for time to be advanced).
   */
  lemma {:induction false} RunWaits(s: State, ds: seq<nat>)
    requires Inv(s)
    ensures ds == [] ==> Run(s, Waits(ds)) == s
    ensures ds != [] ==> Run(s, Waits(ds)) == Elapse(s, TotalWait(ds))
    decreases |ds|
  {
    if ds == [] {
      assert Waits(ds) == [];
    } else {
      var init := ds[..|ds| - 1];
      var d := ds[|ds| - 1];
      assert Waits(ds) == Waits(init) + [Wait(d)];
      RunAppend(s, Waits(init), Wait(d));
      RunWaits(s, init);
      if init != [] {
        WaitsCompose(s, TotalWait(init), d);
      }
    }
  }

  /**
   * A click from `Paused` or `Playing` followed by any waits: `Loading`
   * while less than `Delay` has passed in total, the opposite status with
   * nothing pending once it has.
   */
  lemma {:induction false} FollowUpAfterSplitWaits(s: State, ds: seq<nat>)
    requires Inv(s) && s.status != Loading
    ensures TotalWait(ds) < Delay ==> Run(s, [Click] + Waits(ds)).status == Loading
    ensures TotalWait(ds) >= Delay ==>
      && Run(s, [Click] + Waits(ds)).status == Opposite(s.status)
      && Run(s, [Click] + Waits(ds)).timers == []
  {
    assert ([Click] + Waits(ds))[1..] == Waits(ds);
    RunWaits(OnPlayPause(s), ds);
    FollowUpAfterDelay(s, TotalWait(ds));
  }

  /**
   * A click from `Paused` or `Playing`: the status is `Loading` until the
   * follow-up is due, `Delay` units later, and from then on it is the
   * opposite of the status the click started from, with nothing pending.
   */
  lemma FollowUpAfterDelay(s: State, dt: nat)
    requires Inv(s) && s.status != Loading
    ensures dt < Delay ==> Elapse(OnPlayPause(s), dt).status == Loading
    ensures dt >= Delay ==>
      && Elapse(OnPlayPause(s), dt).status == Opposite(s.status)
      && Elapse(OnPlayPause(s), dt).timers == []
  {
  }

  /**
   * Click, wait `Delay`, click, wait `Delay` brings a paused or playing
   * player back to the status it started in, with nothing pending.
   */
  lemma {:induction false} ToggleTwiceRoundTrip(s: State)
    requires Inv(s) && s.status != Loading
    ensures Run(s, [Click, Wait(Delay), Click, Wait(Delay)]).status == s.status
    ensures Run(s, [Click, Wait(Delay), Click, Wait(Delay)]).timers == []
  {
    var s1 := OnPlayPause(s);
    var s2 := Elapse(s1, Delay);
    var s3 := OnPlayPause(s2);
    var s4 := Elapse(s3, Delay);
    FollowUpAfterDelay(s, Delay);
    FollowUpAfterDelay(s2, Delay);
    assert s4.status == Opposite(Opposite(s.status)) == s.status;
    var evs := [Click, Wait(Delay), Click, Wait(Delay)];
    assert Run(s4, []) == s4;
    assert Run(s3, evs[3..]) == s4;
    assert Run(s2, evs[2..]) == s4;
    assert Run(s1, evs[1..]) == s4;
  }

  /**
   * Click, let the follow-up run, click, let it run: a paused or playing
   * player is back where it started, with nothing pending.
   */
  lemma ToggleFireRoundTrip(s: State)
    requires Inv(s) && s.status != Loading
    ensures var s2 := OnTimeout(OnPlayPause(s));
      && Inv(s2) && s2.status == Opposite(s.status)
      && OnTimeout(OnPlayPause(s2)).status == s.status
      && OnTimeout(OnPlayPause(s2)).timers == []
  {
  }

  // ---------------------------------------------------------------------
  // What the button shows, as a function of the status.
  // ---------------------------------------------------------------------

  datatype Icon = LoaderIcon | PauseIcon | PlayIcon

  /** The icon inside the main button. */
  function IconFor(st: Status): (i: Icon)
    ensures i == LoaderIcon <==> st == Loading
    ensures i == PauseIcon <==> st == Playing
    ensures i == PlayIcon <==> st == Paused
  {
    match st
    case Loading => LoaderIcon
    case Playing => PauseIcon
    case Paused => PlayIcon
  }

  /** Whether the main button is disabled: exactly while the loader shows. */
  function ButtonDisabled(st: Status): (d: bool)
    ensures d <==> IconFor(st) == LoaderIcon
  {
    st == Loading
  }

  /**
   * The button is disabled exactly while a follow-up is pending, which is
   * exactly when the loader icon shows; a click then changes nothing, and a
   * click on the enabled button disables it.
   */
  lemma DisabledWhilePending(s: State)
    requires Inv(s)
    ensures ButtonDisabled(s.status) <==> |s.timers| == 1
    ensures ButtonDisabled(s.status) <==> IconFor(s.status) == LoaderIcon
    ensures ButtonDisabled(s.status) ==> OnPlayPause(s) == s
    ensures !ButtonDisabled(s.status) ==> ButtonDisabled(OnPlayPause(s).status)
  {
  }

  /** Distinct statuses show distinct icons: the icon tells the status. */
  lemma IconDeterminesStatus(a: Status, b: Status)
    ensures IconFor(a) == IconFor(b) ==> a == b
  {
  }

  // ---------------------------------------------------------------------
  // The widget itself: one mutable status, the pending follow-ups, a clock.
  // ---------------------------------------------------------------------

  class Player {
    var status: Status
    var timers: seq<Timer>
    var now: nat

    /** The value of the fields, as a `State`. */
    function Snapshot(): State
      reads this
    {
      State(status, timers, now)
    }

    predicate Valid()
      reads this
    {
      Inv(Snapshot())
    }

    /** Mount: the status starts as `Paused`, with nothing scheduled. */
    constructor ()
      ensures Valid()
      ensures Snapshot() == Initial()
    {
      status := Paused;
      timers := [];
      now := 0;
    }

    /** The button's click handler. */
    method HandlePlayPause()
      requires Valid()
      modifies this
      ensures Valid()
      ensures Snapshot() == OnPlayPause(old(Snapshot()))
    {
      if status == Playing {
        status := Loading;
        timers := timers + [Timer(Paused, now + Delay)];
      } else if status == Paused {
        status := Loading;
        timers := timers + [Timer(Playing, now + Delay)];
      }
    }

    /**
     * The earliest pending follow-up runs, at its due time. This is not an
     * event a client sees on its own: a click schedules its follow-up
     * `Delay` units ahead, and `Advance` runs it when the clock reaches it,
     * so only `Advance` calls this.
     */
    method TimerFires()
      requires Valid() && timers != [] && now == timers[0].due
      modifies this
      ensures Valid()
      ensures Snapshot() == OnTimeout(old(Snapshot()))
    {
      status := timers[0].target;
      timers := timers[1..];
    }

    /** `dt` time units pass; a follow-up that falls due runs on time. */
    method Advance(dt: nat)
      requires Valid()
      modifies this
      ensures Valid()
      ensures Snapshot() == Elapse(old(Snapshot()), dt)
    {
      var later := now + dt;
      if timers != [] && timers[0].due <= later {
        now := timers[0].due;
        TimerFires();
        now := later;
      } else {
        now := later;
      }
    }
  }

  /**
   * Mount, click, wait 500, click, wait 500: the statuses seen after each
   * step.
   */
  method PlayPauseScenario() returns (seen: seq<Status>)
    ensures seen == [Paused, Loading, Playing, Loading, Paused]
  {
    var p := new Player();
    seen := [p.status];
    p.HandlePlayPause();
    seen := seen + [p.status];
    p.Advance(500);
    seen := seen + [p.status];
    p.HandlePlayPause();
    seen := seen + [p.status];
    p.Advance(500);
    seen := seen + [p.status];
  }
}
