/** The page session as the script keeps it: module-level variables that the
    event handlers update in place. Each method is proved to move the session
    exactly as its function in `Challenges` says, and to keep `Inv`. Timers
    are not run by the session: a scheduled continuation waits in `pending`
    until its caller runs it with `RunDeferred`. */
module GiftVault {
  import opened Audio
  import opened Navigation
  import opened Challenges

  class Session {
    /** The screens the markup has (`screen-<id>` elements). */
    const pages: set<string>
    const audio: AudioManager

    var currentScreen: string
    /** The screens whose element carries the active mark. */
    var shown: set<string>
    var kickCount: nat
    var micCount: nat
    /** `ornamentTaps.sean` and `ornamentTaps.paloma`. */
    var seanTap: nat
    var palomaTap: nat
    /** The unlocks whose hidden mark has been removed. */
    var revealed: set<Unlock>
    var hint: Hint
    var finale: Option<FinaleText>
    var pending: seq<Deferred>
    var bursts: nat

    function Model(): State
      reads this, audio
    {
      State(pages, currentScreen, shown, kickCount, micCount, seanTap, palomaTap,
            revealed, hint, finale, pending, bursts, audio.Model())
    }

    ghost predicate Valid()
      reads this, audio
    {
      Inv(Model())
    }

    constructor (pages: set<string>)
      ensures fresh(audio)
      ensures Model() == Start(pages) && Valid()
    {
      this.pages := pages;
      audio := new AudioManager();
      currentScreen := WELCOME_SCREEN;
      shown := if WELCOME_SCREEN in pages then {WELCOME_SCREEN} else {};
      kickCount, micCount := 0, 0;
      seanTap, palomaTap := 0, 0;
      revealed, hint, finale := {}, BothTap, None;
      pending, bursts := [], 0;
      new;
      StartInv(pages);
    }

    /** `resetChallenges`. */
    method ResetChallenges()
      modifies this
      ensures Model() == Reset(old(Model()))
      ensures old(Valid()) ==> Valid()
    {
      kickCount := 0;
      revealed := revealed - {SeanUnlock};
      micCount := 0;
      revealed := revealed - {PalomaUnlock};
      seanTap, palomaTap := 0, 0;
      revealed := revealed - {TogetherUnlock};
      hint := BothTap;
      assert revealed == {} by {
        forall u: Unlock ensures u !in revealed {
          match u
          case SeanUnlock =>
          case PalomaUnlock =>
          case TogetherUnlock =>
        }
      }
      if old(Valid()) {
        ResetKeepsInv(old(Model()));
      }
    }

    /** `showFinale(who)`. */
    method ShowFinale(who: Option<string>)
      modifies this, audio
      ensures Model() == Present(old(Model()), who)
      ensures old(Valid()) ==> Valid()
    {
      finale := Some(ChooseFinale(who));
      bursts := bursts + 1;
      audio.Play(Success);
      if old(Valid()) {
        PresentKeepsInv(old(Model()), who);
      }
    }

    /** `goToScreen(id)`. */
    method GoToScreen(id: string)
      requires Valid()
      modifies this, audio
      ensures Model() == GoTo(old(Model()), id) && Valid()
    {
      var target := ParseTarget(id);
      shown := shown - {currentScreen};
      if target.screen in pages {
        shown := shown + {target.screen};
        currentScreen := target.screen;
        audio.Play(Click);
        if target.screen == FINALE_SCREEN {
          ShowFinale(target.finaleFor);
        }
        if target.screen == VAULT_SCREEN {
          ResetChallenges();
        }
      }
      GoToKeepsInv(old(Model()), id);
    }

    /** `kickBall`. */
    method KickBall()
      requires Valid()
      modifies this, audio
      ensures Model() == Kick(old(Model())) && Valid()
    {
      if kickCount >= KICK_GOAL {
        return;
      }
      kickCount := kickCount + 1;
      if kickCount < KICK_GOAL {
        audio.Play(Click);
      }
      if kickCount == KICK_GOAL {
        audio.Play(Goal);
        bursts := bursts + 1;
        pending := pending + [Reveal(SeanUnlock)];
      }
      KickKeepsInv(old(Model()));
    }

    /** `tapMic`. */
    method TapMic()
      requires Valid()
      modifies this, audio
      ensures Model() == Mic(old(Model())) && Valid()
    {
      if micCount >= MIC_GOAL {
        return;
      }
      audio.Play(MicTap);
      micCount := micCount + 1;
      if micCount == MIC_GOAL {
        bursts := bursts + 1;
        pending := pending + [Reveal(PalomaUnlock)];
      }
      MicKeepsInv(old(Model()));
    }

    /** `tapOrnament(who)`, with `Date.now()` passed in as `now`. */
    method TapOrnament(who: Person, now: nat)
      requires Valid()
      modifies this, audio
      ensures Model() == Tap(old(Model()), who, now) && Valid()
    {
      if who == Sean {
        seanTap := now;
      } else {
        palomaTap := now;
      }
      audio.Play(Click);
      var other := if who == Sean then palomaTap else seanTap;
      var timeDiff := Gap(now, other);
      if other > 0 && timeDiff < SYNC_WINDOW_MS {
        hint := DidIt;
        audio.Play(Magic);
        bursts := bursts + 1;
        pending := pending + [Reveal(TogetherUnlock)];
      } else if seanTap > 0 && palomaTap > 0 && timeDiff >= SYNC_WINDOW_MS {
        hint := TryAgain;
        audio.Play(Fail);
        pending := pending + [ClearTaps];
      }
      TapKeepsInv(old(Model()), who, now);
    }

    /** The timer system runs the continuation scheduled at index `i`. */
    method RunDeferred(i: nat)
      requires Valid()
      modifies this, audio
      ensures Model() == Fire(old(Model()), i) && Valid()
    {
      if i >= |pending| {
        return;
      }
      var task := pending[i];
      pending := Without(pending, i);
      match task {
        case Reveal(u) =>
          revealed := revealed + {u};
          audio.Play(Success);
        case ClearTaps =>
          seanTap, palomaTap := 0, 0;
          hint := BothTap;
      }
      FireKeepsInv(old(Model()), i);
    }
  }
}
