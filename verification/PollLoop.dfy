/** The chat's polling loop (`usePoll`): timers, polls under way, and the tab coming into view.

    A browser timer is a number; `pending` holds those set and neither fired nor cleared, with the
    delay each was given. `timer` is the one handle the loop remembers. */
module PollLoop {
  import opened Options

  const IDLE_AFTER_EMPTY := 5
  const IDLE_MS := 60_000

  function NextPollDelay(activeMs: nat, emptyStreak: nat, hidden: bool): nat {
    if hidden || emptyStreak >= IDLE_AFTER_EMPTY then IDLE_MS else activeMs
  }

  /** The variables of one effect, and the browser's side of them. `polls` counts the calls of
      `poll` under way, `nextTimer` numbers the timers. */
  datatype Loop = Loop(
    activeMs: nat,
    cancelled: bool,
    timer: Option<nat>,
    emptyStreak: nat,
    pending: map<nat, nat>,
    polls: nat,
    nextTimer: nat)

  // ----- The closures of the effect, each up to its await

  function Schedule(l: Loop, hidden: bool): Loop {
    if l.cancelled then l
    else
      l.(timer := Some(l.nextTimer),
         pending := l.pending[l.nextTimer := NextPollDelay(l.activeMs, l.emptyStreak, hidden)],
         nextTimer := l.nextTimer + 1)
  }

  function Start(l: Loop): Loop {
    l.(timer := None, polls := l.polls + 1)
  }

  /** The end of a poll, successful or not; a failure counts as nothing new. */
  function PollEnds(l: Loop, changed: bool, hidden: bool): Loop
    requires l.polls > 0
  {
    Schedule(l.(polls := l.polls - 1, emptyStreak := if changed then 0 else l.emptyStreak + 1), hidden)
  }

  function ClearTimer(l: Loop): Loop {
    match l.timer
    case None => l
    case Some(t) => l.(pending := l.pending - {t})
  }

  function OnVisible(l: Loop, hidden: bool): Loop {
    if hidden || l.cancelled then l else Start(ClearTimer(l.(emptyStreak := 0)))
  }

  /** The effect's clean-up: the remembered timer is cleared, and nothing else can be. */
  function TearDown(l: Loop): Loop {
    ClearTimer(l.(cancelled := true))
  }

  function Mounted(activeMs: nat, hidden: bool): Loop {
    Schedule(Loop(activeMs, false, None, 0, map[], 0, 0), hidden)
  }

  class Poller {
    const activeMs: nat
    var cancelled: bool
    var timer: Option<nat>
    var emptyStreak: nat
    var pending: map<nat, nat>
    var polls: nat
    var nextTimer: nat

    function View(): Loop
      reads this
    {
      Loop(activeMs, cancelled, timer, emptyStreak, pending, polls, nextTimer)
    }

    constructor (activeMs: nat, hidden: bool)
      ensures View() == Mounted(activeMs, hidden)
    {
      this.activeMs := activeMs;
      cancelled, timer, emptyStreak := false, None, 0;
      pending, polls, nextTimer := map[], 0, 0;
      new;
      SetTimer(hidden);
    }

    method SetTimer(hidden: bool)
      modifies this
      ensures View() == Schedule(old(View()), hidden)
    {
      if cancelled {
        return;
      }
      pending := pending[nextTimer := NextPollDelay(activeMs, emptyStreak, hidden)];
      timer := Some(nextTimer);
      nextTimer := nextTimer + 1;
    }

    /** `run` up to the await. */
    method RunStarts()
      modifies this
      ensures View() == Start(old(View()))
    {
      timer := None;
      polls := polls + 1;
    }

    /** `run` from the await on. */
    method RunEnds(changed: bool, hidden: bool)
      requires polls > 0
      modifies this
      ensures View() == PollEnds(old(View()), changed, hidden)
    {
      polls := polls - 1;
      emptyStreak := if changed then 0 else emptyStreak + 1;
      SetTimer(hidden);
    }

    method VisibilityChanged(hidden: bool)
      modifies this
      ensures View() == OnVisible(old(View()), hidden)
    {
      if hidden || cancelled {
        return;
      }
      emptyStreak := 0;
      if timer.Some? {
        pending := pending - {timer.value};
      }
      RunStarts();
    }

    method CleanUp()
      modifies this
      ensures View() == TearDown(old(View()))
    {
      cancelled := true;
      if timer.Some? {
        pending := pending - {timer.value};
      }
    }
  }

  // ----- Every order of timers, answers, visibility changes and the clean-up

  datatype Event =
    | Fire(t: nat)
    | PollDone(changed: bool, hidden: bool)
    | Visibility(hidden: bool)
    | Unmount

  /** The clean-up runs once and removes the visibility listener. */
  predicate Enabled(l: Loop, e: Event) {
    match e
    case Fire(t) => t in l.pending
    case PollDone(_, _) => l.polls > 0
    case Visibility(_) => !l.cancelled
    case Unmount => !l.cancelled
  }

  function Step(l: Loop, e: Event): Loop
    requires Enabled(l, e)
  {
    match e
    case Fire(t) => Start(l.(pending := l.pending - {t}))
    case PollDone(changed, hidden) => PollEnds(l, changed, hidden)
    case Visibility(hidden) => OnVisible(l, hidden)
    case Unmount => TearDown(l)
  }

  predicate Legal(l: Loop, es: seq<Event>)
    decreases |es|
  {
    es == [] || (Enabled(l, es[0]) && Legal(Step(l, es[0]), es[1..]))
  }

  function Run(l: Loop, es: seq<Event>): Loop
    requires Legal(l, es)
    decreases |es|
  {
    if es == [] then l else Run(Step(l, es[0]), es[1..])
  }

  // ----- What every step keeps

  /** Chains of the loop: each is waiting for its timer or for its poll. */
  function Chains(l: Loop): nat {
    |l.pending| + l.polls
  }

  ghost predicate Inv(l: Loop) {
    && (forall t :: t in l.pending ==> t < l.nextTimer && l.pending[t] in {l.activeMs, IDLE_MS})
    && (!l.cancelled ==> match l.timer case Some(t) => t in l.pending case None => l.polls > 0)
  }

  lemma MountedIsGood(activeMs: nat, hidden: bool)
    ensures Inv(Mounted(activeMs, hidden)) && Chains(Mounted(activeMs, hidden)) == 1
  {
  }

  lemma OneLess(m: map<nat, nat>, t: nat)
    requires t in m
    ensures |m - {t}| == |m| - 1
  {
    assert (m - {t}).Keys == m.Keys - {t};
    assert |m| == |m.Keys| && |m - {t}| == |(m - {t}).Keys|;
  }

  lemma OneMore(m: map<nat, nat>, t: nat, d: nat)
    requires t !in m
    ensures |m[t := d]| == |m| + 1
  {
    assert m[t := d].Keys == m.Keys + {t};
    assert |m| == |m.Keys| && |m[t := d]| == |m[t := d].Keys|;
  }

  /** When a tab comes into view with no timer to replace, because a poll is under way or another
      chain's timer took the handle, a further chain begins. */
  predicate Splits(l: Loop, e: Event) {
    e.Visibility? && !e.hidden && l.timer == None
  }

  /** Chains are conserved: none ends while the effect lives, and one more begins exactly when the
      tab comes into view with no timer to replace. */
  lemma StepKeepsChains(l: Loop, e: Event)
    requires Inv(l) && !l.cancelled && Enabled(l, e)
    ensures Inv(Step(l, e))
    ensures e != Unmount ==> Chains(Step(l, e)) == Chains(l) + (if Splits(l, e) then 1 else 0)
  {
    match e
    case Fire(t) => OneLess(l.pending, t);
    case PollDone(changed, hidden) =>
      OneMore(l.pending, l.nextTimer, NextPollDelay(l.activeMs, if changed then 0 else l.emptyStreak + 1, hidden));
    case Visibility(hidden) =>
      if !hidden && l.timer.Some? {
        OneLess(l.pending, l.timer.value);
      }
    case Unmount =>
  }

  /** How often a run splits a chain. */
  function Split(l: Loop, es: seq<Event>): nat
    requires Legal(l, es)
    decreases |es|
  {
    if es == [] then 0 else (if Splits(l, es[0]) then 1 else 0) + Split(Step(l, es[0]), es[1..])
  }

  lemma {:induction false} RunKeepsChains(l: Loop, es: seq<Event>)
    requires Inv(l) && !l.cancelled && Legal(l, es)
    requires forall i :: 0 <= i < |es| ==> es[i] != Unmount
    ensures Inv(Run(l, es)) && !Run(l, es).cancelled
    ensures Chains(Run(l, es)) == Chains(l) + Split(l, es)
    decreases |es|
  {
    if es != [] {
      assert es[0] != Unmount;
      StepKeepsChains(l, es[0]);
      RunKeepsChains(Step(l, es[0]), es[1..]);
    }
  }

  // ----- What holds of every run

  /** While enabled the loop has one chain and one more for each split, so it never dies; and every
      timer was set to the active or the idle interval. */
  lemma LoopNeverDies(activeMs: nat, hidden: bool, es: seq<Event>)
    requires Legal(Mounted(activeMs, hidden), es)
    requires forall i :: 0 <= i < |es| ==> es[i] != Unmount
    ensures var l := Run(Mounted(activeMs, hidden), es);
            && Chains(l) == 1 + Split(Mounted(activeMs, hidden), es)
            && (l.pending != map[] || l.polls > 0)
            && (forall t :: t in l.pending ==> l.pending[t] in {l.activeMs, IDLE_MS})
  {
    MountedIsGood(activeMs, hidden);
    RunKeepsChains(Mounted(activeMs, hidden), es);
  }

  /** Polls in a row that brought nothing, since the last that did and since the tab was last brought
      into view. */
  function Streak(es: seq<Event>): nat {
    if es == [] then 0
    else
      var before := es[..|es| - 1];
      match es[|es| - 1]
      case PollDone(changed, _) => if changed then 0 else Streak(before) + 1
      case Visibility(hidden) => if hidden then Streak(before) else 0
      case _ => Streak(before)
  }

  lemma {:induction false} LastStep(l: Loop, es: seq<Event>, e: Event)
    requires Legal(l, es + [e])
    ensures Legal(l, es) && Enabled(Run(l, es), e) && Run(l, es + [e]) == Step(Run(l, es), e)
    decreases |es|
  {
    if es == [] {
      assert [e][1..] == [];
    } else {
      assert (es + [e])[1..] == es[1..] + [e];
      LastStep(Step(l, es[0]), es[1..], e);
    }
  }

  lemma {:induction false} StreakIsCounted(activeMs: nat, hidden: bool, es: seq<Event>)
    requires Legal(Mounted(activeMs, hidden), es)
    requires forall i :: 0 <= i < |es| ==> es[i] != Unmount
    ensures Run(Mounted(activeMs, hidden), es).emptyStreak == Streak(es)
    ensures Run(Mounted(activeMs, hidden), es).activeMs == activeMs
  {
    if es != [] {
      var before, last := es[..|es| - 1], es[|es| - 1];
      assert es == before + [last];
      LastStep(Mounted(activeMs, hidden), before, last);
      StreakIsCounted(activeMs, hidden, before);
      MountedIsGood(activeMs, hidden);
      RunKeepsChains(Mounted(activeMs, hidden), before);
    }
  }

  /** In every run, the end of a poll sets one timer, to the idle interval when the tab is hidden or
      enough polls in a row brought nothing, and to the active interval otherwise. */
  lemma DelayFollowsStreak(activeMs: nat, hidden: bool, es: seq<Event>, changed: bool, hiddenNow: bool)
    requires Legal(Mounted(activeMs, hidden), es + [PollDone(changed, hiddenNow)])
    requires forall i :: 0 <= i < |es| ==> es[i] != Unmount
    ensures Legal(Mounted(activeMs, hidden), es)
    ensures var now := es + [PollDone(changed, hiddenNow)];
            var l := Run(Mounted(activeMs, hidden), es);
            var v := Run(Mounted(activeMs, hidden), now);
            && v.timer == Some(l.nextTimer)
            && v.pending
               == l.pending[l.nextTimer := if hiddenNow || Streak(now) >= 5 then 60_000 else activeMs]
            && l.nextTimer !in l.pending
  {
    var now := es + [PollDone(changed, hiddenNow)];
    LastStep(Mounted(activeMs, hidden), es, PollDone(changed, hiddenNow));
    StreakIsCounted(activeMs, hidden, es);
    MountedIsGood(activeMs, hidden);
    RunKeepsChains(Mounted(activeMs, hidden), es);
    assert now[..|now| - 1] == es;
  }

  /** The loop begins with one timer, idle in a hidden tab, and no poll. */
  lemma BeginsWithATimer(activeMs: nat, hidden: bool)
    ensures var l := Mounted(activeMs, hidden);
            && l.timer.Some? && l.pending == map[l.timer.value := if hidden then 60_000 else activeMs]
            && l.polls == 0 && !l.cancelled && l.activeMs == activeMs
  {
  }

  /** In every run a timer that fires starts a poll; a tab that comes into view starts one at once, in
      place of the remembered timer; a tab that is hidden changes nothing; and no other timer is
      touched. */
  lemma PollsStart(activeMs: nat, hidden: bool, es: seq<Event>, e: Event)
    requires Legal(Mounted(activeMs, hidden), es) && Enabled(Run(Mounted(activeMs, hidden), es), e)
    requires e.Fire? || e.Visibility?
    ensures var l := Run(Mounted(activeMs, hidden), es);
            var v := Step(l, e);
            && (e.Fire? ==> v.polls == l.polls + 1 && v.timer == None && v.pending == l.pending - {e.t})
            && (e == Visibility(true) ==> v == l)
            && (e == Visibility(false) ==>
                  && v.polls == l.polls + 1 && v.timer == None
                  && v.pending == (if l.timer.Some? then l.pending - {l.timer.value} else l.pending))
  {
  }

  // ----- After the clean-up

  /** Once cleaned up, no timer is set, and each poll that still starts uses one up. */
  lemma StepAfterCleanUp(l: Loop, e: Event)
    requires l.cancelled && Enabled(l, e)
    ensures var v := Step(l, e);
            && v.cancelled && v.nextTimer == l.nextTimer && v.pending.Keys <= l.pending.Keys
            && |v.pending| == |l.pending| - (if e.Fire? then 1 else 0)
  {
    if e.Fire? {
      OneLess(l.pending, e.t);
    }
  }

  function Fires(es: seq<Event>): nat {
    if es == [] then 0 else (if es[0].Fire? then 1 else 0) + Fires(es[1..])
  }

  lemma {:induction false} RunAfterCleanUp(l: Loop, es: seq<Event>)
    requires l.cancelled && Legal(l, es)
    ensures var v := Run(l, es);
            v.cancelled && v.nextTimer == l.nextTimer && |v.pending| + Fires(es) == |l.pending|
    decreases |es|
  {
    if es != [] {
      StepAfterCleanUp(l, es[0]);
      RunAfterCleanUp(Step(l, es[0]), es[1..]);
    }
  }

  /** The timers that are pending and that the loop has lost sight of. */
  function Forgotten(l: Loop): set<nat> {
    set t | t in l.pending && l.timer != Some(t)
  }

  /** The chains of a loop: the one whose timer is remembered, those that wait for a timer the loop
      has lost sight of, and those that are polling. */
  lemma KindsOfChain(l: Loop)
    requires Inv(l) && !l.cancelled
    ensures Chains(l) == (if l.timer.Some? then 1 else 0) + |Forgotten(l)| + l.polls
    ensures TearDown(l).pending.Keys == Forgotten(l) && |TearDown(l).pending| == |Forgotten(l)|
  {
    if l.timer.Some? {
      OneLess(l.pending, l.timer.value);
    }
    assert TearDown(l).pending.Keys == Forgotten(l);
    assert |TearDown(l).pending| == |TearDown(l).pending.Keys|;
  }

  lemma RunOfCons(l: Loop, e: Event, es: seq<Event>)
    requires Enabled(l, e) && Legal(Step(l, e), es)
    ensures Legal(l, [e] + es) && Run(l, [e] + es) == Run(Step(l, e), es)
    ensures Fires([e] + es) == (if e.Fire? then 1 else 0) + Fires(es)
  {
    assert ([e] + es)[1..] == es;
  }

  /** After the clean-up every timer that is left may still fire. */
  lemma {:induction false} AllLeftFire(l: Loop) returns (es: seq<Event>)
    requires l.cancelled
    ensures Legal(l, es) && Fires(es) == |l.pending|
    decreases |l.pending|
  {
    es := [];
    if l.pending != map[] {
      var t :| t in l.pending;
      OneLess(l.pending, t);
      var rest := AllLeftFire(Step(l, Fire(t)));
      RunOfCons(l, Fire(t), rest);
      es := [Fire(t)] + rest;
    }
  }

  /** After the clean-up no timer is ever set again, and as many polls may start, and no more, as
      there are timers the loop has lost sight of: fewer than it has chains. */
  lemma NothingAfterCleanUp(activeMs: nat, hidden: bool, before: seq<Event>, after: seq<Event>)
    returns (most: seq<Event>)
    requires Legal(Mounted(activeMs, hidden), before)
    requires forall i :: 0 <= i < |before| ==> before[i] != Unmount
    requires Legal(TearDown(Run(Mounted(activeMs, hidden), before)), after)
    ensures var l := Run(Mounted(activeMs, hidden), before);
            && Run(TearDown(l), after).nextTimer == l.nextTimer
            && Fires(after) <= |Forgotten(l)| <= Split(Mounted(activeMs, hidden), before)
            && Legal(TearDown(l), most) && Fires(most) == |Forgotten(l)|
  {
    var m := Mounted(activeMs, hidden);
    MountedIsGood(activeMs, hidden);
    RunKeepsChains(m, before);
    KindsOfChain(Run(m, before));
    RunAfterCleanUp(TearDown(Run(m, before)), after);
    most := AllLeftFire(TearDown(Run(m, before)));
  }

  ghost predicate Silent(l: Loop) {
    forall after :: Legal(l, after) ==> Fires(after) == 0
  }

  /** No poll starts after the clean-up exactly when, at the clean-up, every pending timer is the one
      the loop remembers. */
  lemma SilentAfterCleanUp(l: Loop)
    requires Inv(l) && !l.cancelled
    ensures Silent(TearDown(l)) <==> forall t :: t in l.pending ==> l.timer == Some(t)
  {
    var v := TearDown(l);
    KindsOfChain(l);
    assert Forgotten(l) == {} <==> forall t :: t in l.pending ==> l.timer == Some(t);
    if v.pending == map[] {
      forall after | Legal(v, after)
        ensures Fires(after) == 0
      {
        RunAfterCleanUp(v, after);
      }
    } else {
      var most := AllLeftFire(v);
      assert |v.pending| != 0;
    }
  }

  /** Of a run: no poll starts after the clean-up exactly when, at the clean-up, every chain that was
      split off is polling, and so is the first when no timer is remembered. */
  lemma SilentAfterRun(activeMs: nat, hidden: bool, es: seq<Event>)
    requires Legal(Mounted(activeMs, hidden), es)
    requires forall i :: 0 <= i < |es| ==> es[i] != Unmount
    ensures var l := Run(Mounted(activeMs, hidden), es);
            Silent(TearDown(l)) <==> l.polls == Split(Mounted(activeMs, hidden), es) + (if l.timer.Some? then 0 else 1)
  {
    var l := Run(Mounted(activeMs, hidden), es);
    MountedIsGood(activeMs, hidden);
    RunKeepsChains(Mounted(activeMs, hidden), es);
    SilentAfterCleanUp(l);
    KindsOfChain(l);
    assert Forgotten(l) == {} <==> forall t :: t in l.pending ==> l.timer == Some(t);
  }

  /** A tab that comes into view during a poll leaves, once both polls are over, a timer the clean-up
      does not know of: the poll it starts is one nobody asked for. */
  lemma PollAfterCleanUp(activeMs: nat)
    ensures var es := [Fire(0)] + ([Visibility(false)] + ([PollDone(false, false)] + ([PollDone(false, false)]
                      + ([Unmount] + ([Fire(1)] + [])))));
            && Legal(Mounted(activeMs, false), es)
            && Run(Mounted(activeMs, false), es).cancelled && Run(Mounted(activeMs, false), es).polls == 1
  {
    var split := Step(Step(Mounted(activeMs, false), Fire(0)), Visibility(false));
    var both := Step(Step(split, PollDone(false, false)), PollDone(false, false));
    assert 1 in both.pending && both.timer == Some(2);
    RunOfCons(Step(both, Unmount), Fire(1), []);
    RunOfCons(both, Unmount, [Fire(1)] + []);
    RunOfCons(Step(split, PollDone(false, false)), PollDone(false, false), [Unmount] + ([Fire(1)] + []));
    var ending := [PollDone(false, false)] + ([Unmount] + ([Fire(1)] + []));
    RunOfCons(split, PollDone(false, false), ending);
    RunOfCons(Step(Mounted(activeMs, false), Fire(0)), Visibility(false), [PollDone(false, false)] + ending);
    RunOfCons(Mounted(activeMs, false), Fire(0), [Visibility(false)] + ([PollDone(false, false)] + ending));
  }
}
