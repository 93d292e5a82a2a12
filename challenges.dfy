/** The session state machine of the gift vault as pure functions: one
    function per handler of the page, the deferred continuations those
    handlers schedule, and the invariants every run of the page keeps. */
module Challenges {
  import opened Audio
  import opened Navigation

  /** Kicks that score Sean's goal. */
  const KICK_GOAL: nat := 10
  /** Microphone taps that finish Paloma's song. */
  const MIC_GOAL: nat := 5
  /** Milliseconds within which both ornament taps must fall. */
  const SYNC_WINDOW_MS: nat := 2000

  datatype Person = Sean | Paloma

  function Other(p: Person): Person {
    match p
    case Sean => Paloma
    case Paloma => Sean
  }

  /** The unlock affordances a finished challenge reveals. */
  datatype Unlock = SeanUnlock | PalomaUnlock | TogetherUnlock

  /** The three texts of the together hint. */
  datatype Hint = BothTap | DidIt | TryAgain

  function HintText(h: Hint): string {
    match h
    case BothTap => "Both tap together!"
    case DidIt => "You did it together!"
    case TryAgain => "Try again together!"
  }

  /** The continuations the handlers schedule: revealing an unlock 500 ms
      after a challenge is finished, and clearing both ornament taps 1000 ms
      after a failed attempt. */
  datatype Deferred = Reveal(unlock: Unlock) | ClearTaps

  /** The state of one page session. `pages` are the screens the markup has;
      `shown` are those carrying the active mark; `seanTap` and `palomaTap`
      are the last ornament tap times (0 = none); `revealed` are the unlocks
      currently visible; `pending` the scheduled continuations; `bursts` the
      confetti bursts spawned so far. */
  datatype State = State(
    pages: set<string>,
    screen: string,
    shown: set<string>,
    kicks: nat,
    mics: nat,
    seanTap: nat,
    palomaTap: nat,
    revealed: set<Unlock>,
    hint: Hint,
    finale: Option<FinaleText>,
    pending: seq<Deferred>,
    bursts: nat,
    speaker: Speaker)

  /** The state when the page has loaded: the welcome screen is showing. */
  function Start(pages: set<string>): State {
    State(pages, WELCOME_SCREEN, if WELCOME_SCREEN in pages then {WELCOME_SCREEN} else {},
          0, 0, 0, 0, {}, BothTap, None, [], 0, INITIAL_SPEAKER)
  }

  /** Every challenge at its starting values. */
  predicate Cleared(s: State) {
    s.kicks == 0 && s.mics == 0 && s.seanTap == 0 && s.palomaTap == 0 &&
    s.revealed == {} && s.hint == BothTap
  }

  /** The state of the challenges alone: what `resetChallenges` writes. */
  predicate SameChallenges(s: State, r: State) {
    r.kicks == s.kicks && r.mics == s.mics && r.seanTap == s.seanTap &&
    r.palomaTap == s.palomaTap && r.revealed == s.revealed && r.hint == s.hint
  }

  /** `resetChallenges`: every challenge back to its start, nothing else touched. */
  function Reset(s: State): (r: State)
    ensures Cleared(r) && HintText(r.hint) == "Both tap together!"
    ensures r.(kicks := s.kicks, mics := s.mics, seanTap := s.seanTap, palomaTap := s.palomaTap,
               revealed := s.revealed, hint := s.hint) == s
  {
    s.(kicks := 0, mics := 0, seanTap := 0, palomaTap := 0, revealed := {}, hint := BothTap)
  }

  /** `showFinale`: the chosen text, a confetti burst and the success cue. */
  function Present(s: State, who: Option<string>): (r: State)
    ensures r.finale == Some(ChooseFinale(who)) && r.bursts == s.bursts + 1
    ensures r.speaker == Sounded(s.speaker, Success)
    ensures r.(finale := s.finale, bursts := s.bursts, speaker := s.speaker) == s
  {
    s.(finale := Some(ChooseFinale(who)), bursts := s.bursts + 1, speaker := Sounded(s.speaker, Success))
  }

  /** `goToScreen`: the current screen always loses its active mark; the
      target is entered only when the markup has it, with the click cue, the
      finale text for the finale and a reset of every challenge for the vault. */
  function GoTo(s: State, id: string): (r: State)
    ensures r.pages == s.pages && r.pending == s.pending
    ensures ParseTarget(id).screen !in s.pages ==> r == s.(shown := s.shown - {s.screen})
    ensures ParseTarget(id).screen in s.pages ==>
              r.screen == ParseTarget(id).screen &&
              r.shown == (s.shown - {s.screen}) + {r.screen}
    ensures ParseTarget(id).screen in s.pages && ParseTarget(id).screen == FINALE_SCREEN ==>
              r.finale == Some(ChooseFinale(ParseTarget(id).finaleFor))
    ensures ParseTarget(id).screen != FINALE_SCREEN ==> r.finale == s.finale
    ensures ParseTarget(id).screen in s.pages && ParseTarget(id).screen == VAULT_SCREEN ==> Cleared(r)
    ensures ParseTarget(id).screen !in s.pages || ParseTarget(id).screen != VAULT_SCREEN ==>
              SameChallenges(s, r)
    ensures ParseTarget(id).screen in s.pages ==>
              r.speaker == (if ParseTarget(id).screen == FINALE_SCREEN
                            then Sounded(Sounded(s.speaker, Click), Success)
                            else Sounded(s.speaker, Click)) &&
              r.bursts == s.bursts + (if ParseTarget(id).screen == FINALE_SCREEN then 1 else 0)
  {
    var t := ParseTarget(id);
    var hidden := s.(shown := s.shown - {s.screen});
    if t.screen !in s.pages then hidden
    else
      var entered := hidden.(screen := t.screen, shown := hidden.shown + {t.screen},
                             speaker := Sounded(s.speaker, Click));
      var presented := if t.screen == FINALE_SCREEN then Present(entered, t.finaleFor) else entered;
      if t.screen == VAULT_SCREEN then Reset(presented) else presented
  }

  /** A challenge was finished on this call: confetti, and the reveal of `u` scheduled. */
  predicate Celebrated(s: State, r: State, u: Unlock) {
    r.bursts == s.bursts + 1 && r.pending == s.pending + [Reveal(u)]
  }

  /** `kickBall`: ignored from 10 kicks on; otherwise one more kick, a click
      below 10, and the goal celebration on the kick that reaches 10. */
  function Kick(s: State): (r: State)
    ensures s.kicks >= KICK_GOAL ==> r == s
    ensures s.kicks < KICK_GOAL ==> r.kicks == s.kicks + 1
    ensures s.kicks <= KICK_GOAL ==> r.kicks <= KICK_GOAL
    ensures Celebrated(s, r, SeanUnlock) <==> s.kicks < KICK_GOAL && r.kicks == KICK_GOAL
    ensures !Celebrated(s, r, SeanUnlock) ==> r.pending == s.pending && r.bursts == s.bursts
    ensures s.kicks < KICK_GOAL ==>
              r.speaker == Sounded(s.speaker, if r.kicks < KICK_GOAL then Click else Goal)
    ensures r.(kicks := s.kicks, pending := s.pending, bursts := s.bursts, speaker := s.speaker) == s
  {
    if s.kicks >= KICK_GOAL then s
    else if s.kicks + 1 < KICK_GOAL then
      s.(kicks := s.kicks + 1, speaker := Sounded(s.speaker, Click))
    else
      s.(kicks := s.kicks + 1, speaker := Sounded(s.speaker, Goal), bursts := s.bursts + 1,
         pending := s.pending + [Reveal(SeanUnlock)])
  }

  /** `tapMic`: ignored from 5 taps on; otherwise a note cue, one more tap,
      and the stage celebration on the tap that reaches 5. */
  function Mic(s: State): (r: State)
    ensures s.mics >= MIC_GOAL ==> r == s
    ensures s.mics < MIC_GOAL ==> r.mics == s.mics + 1 && r.speaker == Sounded(s.speaker, MicTap)
    ensures s.mics <= MIC_GOAL ==> r.mics <= MIC_GOAL
    ensures Celebrated(s, r, PalomaUnlock) <==> s.mics < MIC_GOAL && r.mics == MIC_GOAL
    ensures !Celebrated(s, r, PalomaUnlock) ==> r.pending == s.pending && r.bursts == s.bursts
    ensures r.(mics := s.mics, pending := s.pending, bursts := s.bursts, speaker := s.speaker) == s
  {
    if s.mics >= MIC_GOAL then s
    else
      var tapped := s.(speaker := Sounded(s.speaker, MicTap), mics := s.mics + 1);
      if tapped.mics == MIC_GOAL then
        tapped.(bursts := s.bursts + 1, pending := s.pending + [Reveal(PalomaUnlock)])
      else tapped
  }

  function Stamp(s: State, p: Person): nat {
    match p
    case Sean => s.seanTap
    case Paloma => s.palomaTap
  }

  function WithStamp(s: State, p: Person, t: nat): State {
    match p
    case Sean => s.(seanTap := t)
    case Paloma => s.(palomaTap := t)
  }

  /** `Math.abs` of the difference of two tap times. */
  function Gap(a: nat, b: nat): nat {
    if a >= b then a - b else b - a
  }

  /** The success condition of `tapOrnament`: the other child has tapped
      (time > 0) less than 2000 ms away from `now`. */
  predicate Syncs(s: State, who: Person, now: nat) {
    Stamp(s, Other(who)) > 0 && Gap(now, Stamp(s, Other(who))) < SYNC_WINDOW_MS
  }

  /** The failure condition of `tapOrnament`: both children have tapped and
      the taps are 2000 ms or more apart. */
  predicate Misses(s: State, who: Person, now: nat) {
    now > 0 && Stamp(s, Other(who)) > 0 && Gap(now, Stamp(s, Other(who))) >= SYNC_WINDOW_MS
  }

  /** A tap never both succeeds and fails. */
  lemma SyncsExcludesMisses(s: State, who: Person, now: nat)
    ensures !(Syncs(s, who, now) && Misses(s, who, now))
  {
  }

  /** `tapOrnament(who)` at time `now`: records the tap, plays a click, then
      succeeds when the other child tapped less than 2000 ms before, and fails
      (scheduling the clearing of both taps) when they tapped further apart. */
  function Tap(s: State, who: Person, now: nat): (r: State)
    ensures Stamp(r, who) == now && Stamp(r, Other(who)) == Stamp(s, Other(who))
    ensures r.hint == DidIt && Celebrated(s, r, TogetherUnlock) <==> Syncs(s, who, now)
    ensures r.hint == TryAgain && r.pending == s.pending + [ClearTaps] <==> Misses(s, who, now)
    ensures Syncs(s, who, now) ==>
              HintText(r.hint) == "You did it together!" &&
              r.speaker == Sounded(Sounded(s.speaker, Click), Magic)
    ensures Misses(s, who, now) ==>
              HintText(r.hint) == "Try again together!" && r.bursts == s.bursts && r.speaker == Sounded(Sounded(s.speaker, Click), Fail)
    ensures !Syncs(s, who, now) && !Misses(s, who, now) ==>
              r.pending == s.pending && r.hint == s.hint && r.bursts == s.bursts &&
              r.speaker == Sounded(s.speaker, Click)
    ensures r.(seanTap := s.seanTap, palomaTap := s.palomaTap, hint := s.hint, pending := s.pending,
               bursts := s.bursts, speaker := s.speaker) == s
  {
    var stamped := WithStamp(s, who, now).(speaker := Sounded(s.speaker, Click));
    if Syncs(s, who, now) then
      stamped.(hint := DidIt, speaker := Sounded(stamped.speaker, Magic), bursts := s.bursts + 1,
               pending := s.pending + [Reveal(TogetherUnlock)])
    else if Misses(s, who, now) then
      stamped.(hint := TryAgain, speaker := Sounded(stamped.speaker, Fail),
               pending := s.pending + [ClearTaps])
    else stamped
  }

  /** The pending continuations without the one at index `i`. */
  function Without(xs: seq<Deferred>, i: nat): seq<Deferred>
    requires i < |xs|
  {
    xs[..i] + xs[i + 1..]
  }

  /** A scheduled continuation runs: a reveal shows its unlock with the
      success cue; the clearing continuation zeroes both taps and restores
      the hint. An index with nothing scheduled leaves the state as it is. */
  function Fire(s: State, i: nat): (r: State)
    ensures i >= |s.pending| ==> r == s
    ensures i < |s.pending| ==> r.pending == Without(s.pending, i) && |r.pending| == |s.pending| - 1
    ensures i < |s.pending| && s.pending[i].Reveal? ==>
              r == s.(pending := r.pending, revealed := s.revealed + {s.pending[i].unlock},
                      speaker := Sounded(s.speaker, Success))
    ensures i < |s.pending| && s.pending[i] == ClearTaps ==>
              r == s.(pending := r.pending, seanTap := 0, palomaTap := 0, hint := BothTap)
  {
    if i >= |s.pending| then s
    else
      var rest := s.(pending := Without(s.pending, i));
      match s.pending[i]
      case Reveal(u) => rest.(revealed := s.revealed + {u}, speaker := Sounded(s.speaker, Success))
      case ClearTaps => rest.(seanTap := 0, palomaTap := 0, hint := BothTap)
  }

  /** The inputs the page reacts to, one constructor per handler or timer. */
  datatype Event =
    | Navigated(id: string)
    | Kicked
    | MicTapped
    | OrnamentTapped(who: Person, now: nat)
    | TimerFired(index: nat)
    | SoundToggled
    | AudioStarted

  function Step(s: State, e: Event): State {
    match e
    case Navigated(id) => GoTo(s, id)
    case Kicked => Kick(s)
    case MicTapped => Mic(s)
    case OrnamentTapped(who, now) => Tap(s, who, now)
    case TimerFired(i) => Fire(s, i)
    case SoundToggled => s.(speaker := Toggled(s.speaker).0)
    case AudioStarted => s.(speaker := Started(s.speaker))
  }

  function Run(s: State, events: seq<Event>): State
    decreases |events|
  {
    if events == [] then s else Run(Step(s, events[0]), events[1..])
  }

  function Repeat(e: Event, n: nat): (es: seq<Event>)
    ensures |es| == n
    ensures forall k :: 0 <= k < n ==> es[k] == e
  {
    if n == 0 then [] else [e] + Repeat(e, n - 1)
  }

  /** What every session keeps: the counters within their goals, at most the
      current screen marked active, and every finished challenge (and every
      success hint) on its way to a revealed unlock; a failure hint always has
      its clearing continuation pending. */
  predicate Inv(s: State) {
    && s.kicks <= KICK_GOAL
    && s.mics <= MIC_GOAL
    && s.shown <= {s.screen}
    && s.shown <= s.pages
    && (s.screen == WELCOME_SCREEN || s.screen in s.pages)
    && (s.kicks == KICK_GOAL ==> SeanUnlock in s.revealed || Reveal(SeanUnlock) in s.pending)
    && (s.mics == MIC_GOAL ==> PalomaUnlock in s.revealed || Reveal(PalomaUnlock) in s.pending)
    && (s.hint == DidIt ==> TogetherUnlock in s.revealed || Reveal(TogetherUnlock) in s.pending)
    && (s.hint == TryAgain ==> ClearTaps in s.pending)
  }

  lemma StartInv(pages: set<string>)
    ensures Inv(Start(pages)) && Cleared(Start(pages))
  {
  }

  lemma ResetKeepsInv(s: State)
    requires Inv(s)
    ensures Inv(Reset(s))
  {
  }

  lemma PresentKeepsInv(s: State, who: Option<string>)
    requires Inv(s)
    ensures Inv(Present(s, who))
  {
  }

  lemma GoToKeepsInv(s: State, id: string)
    requires Inv(s)
    ensures Inv(GoTo(s, id))
  {
  }

  lemma KickKeepsInv(s: State)
    requires Inv(s)
    ensures Inv(Kick(s))
  {
  }

  lemma MicKeepsInv(s: State)
    requires Inv(s)
    ensures Inv(Mic(s))
  {
  }

  lemma TapKeepsInv(s: State, who: Person, now: nat)
    requires Inv(s)
    ensures Inv(Tap(s, who, now))
  {
  }

  lemma FireKeepsInv(s: State, i: nat)
    requires Inv(s)
    ensures Inv(Fire(s, i))
  {
  }

  lemma StepKeepsInv(s: State, e: Event)
    requires Inv(s)
    ensures Inv(Step(s, e))
  {
    match e
    case Navigated(id) => GoToKeepsInv(s, id);
    case Kicked => KickKeepsInv(s);
    case MicTapped => MicKeepsInv(s);
    case OrnamentTapped(who, now) => TapKeepsInv(s, who, now);
    case TimerFired(i) => FireKeepsInv(s, i);
    case SoundToggled =>
    case AudioStarted =>
  }

  /** Every run of the page, whatever its inputs and however its timers
      interleave, keeps the invariant. */
  lemma {:induction false} RunKeepsInv(s: State, events: seq<Event>)
    requires Inv(s)
    ensures Inv(Run(s, events))
    decreases |events|
  {
    if events != [] {
      StepKeepsInv(s, events[0]);
      RunKeepsInv(Step(s, events[0]), events[1..]);
    }
  }

  /** From page load, every reachable state keeps the invariant. */
  lemma Reachable(pages: set<string>, events: seq<Event>)
    ensures Inv(Run(Start(pages), events))
    ensures Run(Start(pages), events).kicks <= KICK_GOAL
    ensures Run(Start(pages), events).mics <= MIC_GOAL
  {
    StartInv(pages);
    RunKeepsInv(Start(pages), events);
  }

  function Min(a: nat, b: nat): nat {
    if a <= b then a else b
  }

  /** The number of times continuation `d` is pending. */
  function Scheduled(s: State, d: Deferred): nat {
    multiset(s.pending)[d]
  }

  /** `n` kicks in a row score `min(kicks + n, 10)`, and schedule the reveal
      of Sean's unlock once if they cross 10 and never otherwise. */
  lemma {:induction false} KickRun(s: State, n: nat)
    requires s.kicks <= KICK_GOAL
    ensures Run(s, Repeat(Kicked, n)).kicks == Min(s.kicks + n, KICK_GOAL)
    ensures Scheduled(Run(s, Repeat(Kicked, n)), Reveal(SeanUnlock)) ==
            Scheduled(s, Reveal(SeanUnlock)) + (if s.kicks < KICK_GOAL <= s.kicks + n then 1 else 0)
    decreases n
  {
    if n > 0 {
      var r := Kick(s);
      assert Repeat(Kicked, n)[1..] == Repeat(Kicked, n - 1);
      assert Run(s, Repeat(Kicked, n)) == Run(r, Repeat(Kicked, n - 1));
      if s.kicks < KICK_GOAL && r.kicks == KICK_GOAL {
        assert multiset(r.pending) == multiset(s.pending) + multiset{Reveal(SeanUnlock)};
      }
      KickRun(r, n - 1);
    }
  }

  /** `n` microphone taps in a row reach `min(mics + n, 5)`, and schedule the
      reveal of Paloma's unlock once if they cross 5 and never otherwise. */
  lemma {:induction false} MicRun(s: State, n: nat)
    requires s.mics <= MIC_GOAL
    ensures Run(s, Repeat(MicTapped, n)).mics == Min(s.mics + n, MIC_GOAL)
    ensures Scheduled(Run(s, Repeat(MicTapped, n)), Reveal(PalomaUnlock)) ==
            Scheduled(s, Reveal(PalomaUnlock)) + (if s.mics < MIC_GOAL <= s.mics + n then 1 else 0)
    decreases n
  {
    if n > 0 {
      var r := Mic(s);
      assert Repeat(MicTapped, n)[1..] == Repeat(MicTapped, n - 1);
      assert Run(s, Repeat(MicTapped, n)) == Run(r, Repeat(MicTapped, n - 1));
      if s.mics < MIC_GOAL && r.mics == MIC_GOAL {
        assert multiset(r.pending) == multiset(s.pending) + multiset{Reveal(PalomaUnlock)};
      }
      MicRun(r, n - 1);
    }
  }

  /** Entering any screen other than the vault, or a screen the markup lacks,
      leaves every counter and tap time as it was. */
  lemma OnlyVaultResets(s: State, id: string)
    requires ParseTarget(id).screen != VAULT_SCREEN || VAULT_SCREEN !in s.pages
    ensures SameChallenges(s, GoTo(s, id))
  {
  }

  /** The first tap, by either child, never succeeds or fails on its own. */
  lemma FirstTapWaits(s: State, who: Person, now: nat)
    requires s.seanTap == 0 && s.palomaTap == 0
    ensures Tap(s, who, now).hint == s.hint && Tap(s, who, now).pending == s.pending
  {
  }

  /** Two taps by the two children, from no taps: together they succeed
      exactly when less than 2000 ms apart and fail exactly otherwise. */
  lemma TwoTaps(s: State, first: Person, t1: nat, t2: nat)
    requires s.seanTap == 0 && s.palomaTap == 0 && t1 > 0 && t2 > 0
    ensures Tap(Tap(s, first, t1), Other(first), t2).hint == DidIt <==> Gap(t1, t2) < SYNC_WINDOW_MS
    ensures Tap(Tap(s, first, t1), Other(first), t2).hint == TryAgain <==> Gap(t1, t2) >= SYNC_WINDOW_MS
    ensures Tap(Tap(s, first, t1), Other(first), t2).pending ==
            s.pending + [if Gap(t1, t2) < SYNC_WINDOW_MS then Reveal(TogetherUnlock) else ClearTaps]
  {
  }

  /** A failed attempt's continuation, when it runs, zeroes both taps and
      restores the hint; so the next tap starts afresh. */
  lemma FailThenClear(s: State, who: Person, now: nat)
    requires Tap(s, who, now).pending == s.pending + [ClearTaps]
    ensures Fire(Tap(s, who, now), |s.pending|).seanTap == 0
    ensures Fire(Tap(s, who, now), |s.pending|).palomaTap == 0
    ensures Fire(Tap(s, who, now), |s.pending|).hint == BothTap
    ensures Fire(Tap(s, who, now), |s.pending|).pending == s.pending
  {
  }

  /** A reveal scheduled before a return to the vault still runs after the
      reset: the script does not cancel its timers, so an unlock can be
      visible while its challenge is back at zero. */
  lemma RevealSurvivesReset(s: State)
    requires VAULT_SCREEN in s.pages && s.pending == [Reveal(SeanUnlock)]
    ensures SeanUnlock in Fire(GoTo(s, VAULT_SCREEN), 0).revealed
    ensures Fire(GoTo(s, VAULT_SCREEN), 0).kicks == 0
  {
  }

  /** Finishing through a child's unlock shows that child's name; finishing
      together shows both. */
  lemma FinaleNames(s: State, who: string)
    requires FINALE_SCREEN in s.pages
    ensures GoTo(s, FINALE_PREFIX + who).screen == FINALE_SCREEN
    ensures GoTo(s, FINALE_PREFIX + who).finale == Some(ChooseFinale(Some(who)))
    ensures who == "sean" ==> GoTo(s, FINALE_PREFIX + who).finale.value.names == "Sean"
    ensures who == "together" ==> GoTo(s, FINALE_PREFIX + who).finale.value.names == "Sean & Paloma"
  {
  }
}
