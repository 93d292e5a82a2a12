# Kids Gift Vault: the session state machine

The gift vault is a web page of linked screens: a welcome screen, a vault
hub, one challenge per child and a finale. The only stateful logic in
`script.js` is its session: the current screen, Sean's kick counter (10
kicks score a goal), Paloma's microphone counter (5 taps finish a song),
the two ornament tap times of the together challenge (both must tap less
than 2000 ms apart), the unlocks that finished challenges reveal, and the
audio manager's on/off flag.

The project models that session in four modules:

- `Audio` (`audio.dfy`): the audio manager. `Speaker` is its value, with
  `Sounded` (one `play*` call behind the guard of `beep`), `Started`
  (`init`) and `Toggled` (`toggle`). The class `AudioManager` updates the
  same fields in place.
- `Navigation` (`navigation.dfy`): the pure decisions of navigation.
  `ParseTarget` reads a `finale-<who>` id, and `TargetId` is its inverse.
  `ChooseFinale` is the name choice of `showFinale`.
- `Challenges` (`challenges.dfy`): the session as a value, `State`. There is
  one function per handler: `GoTo`, `Reset`, `Kick`, `Mic`, `Tap` and
  `Present`. `Fire` runs one scheduled continuation. `Step` and `Run`
  replay a sequence of page events. `Inv` is the invariant every run keeps.
- `GiftVault` (`gift_vault.dfy`): the class `Session`. Its fields are the
  script's module-level variables and its methods are the handlers. Each
  method is proved to produce exactly the state its `Challenges` function
  gives, and each keeps `Inv`.

Timers are modelled like this. Each continuation that changes the session
is appended to `pending`. These are the 500 ms unlock reveal and the 1000 ms
clearing of the ornament taps. The cosmetic animation timers and the timers
of the multi-tone cues are not in `pending`. The caller
later runs any pending continuation, in any order, with `RunDeferred`
(`Fire` in the value model). `Date.now()` is the parameter `now` of
`TapOrnament`. The markup is the parameter `pages`: the screen ids whose
`screen-<id>` element exists.

Three behaviours of `script.js` shape the model:

- Navigating to a screen whose element is missing still removes the active
  mark from the current screen (script.js:118-121). `GoTo` says so: `shown`
  loses the current screen and nothing else changes.
- The navigation click plays only when the target exists (script.js:125-130).
- No pending timer is ever cancelled: `ornamentTimeout` (script.js:101) is
  declared and never used. So a reveal scheduled before a return to the vault
  still runs after the reset; `RevealSurvivesReset` exhibits this. For the
  same reason `Inv` does not claim that a revealed unlock implies a finished
  challenge.

## Model

| member | source | states |
|---|---|---|
| Audio.Sounded | script.js:22-23 | a cue is heard exactly when sound is enabled and a context exists; otherwise the manager is unchanged |
| Audio.Started | script.js:15-19 | `init` makes a context exist and leaves the flag and the history alone |
| Audio.Toggled | script.js:87-90 | `toggle` negates the flag and returns the new value, touching nothing else |
| Audio.ToggleTwice | script.js:87-90 | two toggles in a row restore the original manager and return the original flag |
| Audio.MutedStaysSilent | script.js:23 | any series of plays while sound is off produces nothing |
| Audio.AudioManager.constructor | script.js:10-13 | the manager starts enabled, without a context, having sounded nothing |
| Audio.AudioManager.Init | script.js:15-19 | the in-place `init` is `Started` |
| Audio.AudioManager.Play | script.js:22-23 | the in-place cue is `Sounded` |
| Audio.AudioManager.Toggle | script.js:87-90 | the in-place `toggle` is `Toggled`, returning the new flag |
| Navigation.ParseTarget | script.js:109-115 | an id names a finale completer exactly when it starts with `finale-`; the target is then the finale and prefix + completer is the id; any other id names its own screen |
| Navigation.IdRoundTrip | script.js:109-115 | every id is rebuilt from the target it names, and that target is well formed |
| Navigation.TargetRoundTrip | script.js:109-115 | every well-formed target is recovered from its id |
| Navigation.ChooseFinale | script.js:293-302 | the title is always "Merry Christmas!"; "Sean" exactly for "sean", "Paloma" exactly for "paloma", "Sean & Paloma" exactly for every other value including null |
| Challenges.Reset | script.js:144-161 | both counters and both tap times are 0, every unlock is hidden, the hint reads "Both tap together!", and nothing else changes |
| Challenges.Present | script.js:289-307 | the finale shows `ChooseFinale(who)`, with one confetti burst and the success cue, and nothing else changes |
| Challenges.GoTo | script.js:107-141 | the current screen loses the active mark; a missing target changes nothing else; an existing target becomes the current screen and gains the active mark (with `Inv`, kept by `GoToKeepsInv`, it is the only one); the finale gets the completer's text; the vault clears every challenge; otherwise the challenges are untouched; entering plays the click, and the finale adds one confetti burst and the success cue, while other screens add no confetti; no timer is added or removed |
| Challenges.Kick | script.js:167-193 | no change from 10 kicks on; otherwise exactly one more kick, staying within 10; the click only below 10; celebration and a scheduled Sean reveal exactly on the kick that reaches 10 |
| Challenges.Mic | script.js:200-231 | no change from 5 taps on; otherwise exactly one more tap with the note cue, staying within 5; celebration and a scheduled Paloma reveal exactly on the tap that reaches 5 |
| Challenges.Tap | script.js:238-283 | the tapper's time becomes `now` and the other's is kept; a click always; success (hint "You did it together!", the magic cue, confetti, a scheduled together reveal) exactly when the other tapped (time > 0) less than 2000 ms away; failure (hint "Try again together!", the fail cue, a scheduled clearing, no confetti) exactly when both tapped and the gap is 2000 ms or more; otherwise nothing is scheduled and the hint and confetti stay |
| Challenges.SyncsExcludesMisses | script.js:255-268 | no tap both succeeds and fails |
| Challenges.Fire | script.js:264-281 | running a pending continuation removes exactly it; a reveal shows its unlock with the success cue; the clearing zeroes both tap times and restores the hint; an index with nothing scheduled changes nothing |
| Challenges.StartInv | script.js:97-101 | the initial session keeps the invariant with every challenge at its start |
| Challenges.ResetKeepsInv | script.js:144-161 | `resetChallenges` keeps the invariant |
| Challenges.PresentKeepsInv | script.js:289-307 | `showFinale` keeps the invariant |
| Challenges.GoToKeepsInv | script.js:107-141 | `goToScreen` keeps the invariant: at most the current screen is active and the current screen exists |
| Challenges.KickKeepsInv | script.js:167-193 | `kickBall` keeps kicks within 10, and 10 kicks always come with Sean's unlock revealed or its reveal pending |
| Challenges.MicKeepsInv | script.js:200-231 | `tapMic` keeps taps within 5, and 5 taps always come with Paloma's unlock revealed or its reveal pending |
| Challenges.TapKeepsInv | script.js:238-283 | `tapOrnament` keeps the invariant: a success hint comes with the together unlock revealed or pending, and a failure hint with its clearing pending |
| Challenges.FireKeepsInv | script.js:264-281 | running any pending continuation keeps the invariant |
| Challenges.StepKeepsInv | script.js:107-283 | every handler and every continuation keeps the invariant |
| Challenges.RunKeepsInv | script.js:107-283 | every sequence of page events, with timers interleaved in any order, keeps the invariant |
| Challenges.Reachable | script.js:97-283 | from page load, every reachable session has at most 10 kicks and at most 5 microphone taps, and keeps the invariant |
| Challenges.KickRun | script.js:167-193 | n kicks in a row score min(kicks + n, 10) and schedule Sean's reveal exactly once when they cross 10, never otherwise |
| Challenges.MicRun | script.js:200-231 | n microphone taps reach min(mics + n, 5) and schedule Paloma's reveal exactly once when they cross 5, never otherwise |
| Challenges.OnlyVaultResets | script.js:137-140 | entering any screen but the vault, or a missing screen, leaves every counter, tap time, unlock and hint unchanged |
| Challenges.FirstTapWaits | script.js:251-268 | with no taps recorded, a first tap by either child neither succeeds nor fails |
| Challenges.TwoTaps | script.js:246-281 | from no taps, one tap by each child succeeds exactly when they are less than 2000 ms apart and fails exactly otherwise, scheduling exactly one reveal or one clearing |
| Challenges.FailThenClear | script.js:268-281 | after a failed attempt, its continuation zeroes both tap times and restores "Both tap together!", leaving the other timers |
| Challenges.RevealSurvivesReset | script.js:138-192 | a Sean reveal scheduled before a return to the vault still shows the unlock after the reset, with the kick count at 0 |
| Challenges.FinaleNames | script.js:112-134 | navigating to `finale-<who>` enters the finale with `ChooseFinale(who)`: "Sean" for `finale-sean`, "Sean & Paloma" for `finale-together` |
| GiftVault.Session.constructor | script.js:97-101 | the session starts at the welcome screen with every challenge at its start, and keeps the invariant |
| GiftVault.Session.ResetChallenges | script.js:144-161 | the in-place reset is `Reset` and keeps the invariant |
| GiftVault.Session.ShowFinale | script.js:289-307 | the in-place finale is `Present` and keeps the invariant |
| GiftVault.Session.GoToScreen | script.js:107-141 | the in-place navigation is `GoTo` and keeps the invariant |
| GiftVault.Session.KickBall | script.js:167-193 | the in-place kick is `Kick` and keeps the invariant |
| GiftVault.Session.TapMic | script.js:200-231 | the in-place microphone tap is `Mic` and keeps the invariant |
| GiftVault.Session.TapOrnament | script.js:238-283 | the in-place ornament tap is `Tap` and keeps the invariant |
| GiftVault.Session.RunDeferred | script.js:264-281 | running a scheduled continuation in place is `Fire` and keeps the invariant |

## Left out

- Tone synthesis in `init`, `beep` and the `play*` sequences (script.js:15-85): Web Audio calls over floating-point frequencies and gains. Only the enabled flag, the context's existence and the cue played are modelled.
- Audio.Sounded: a cue stands for a whole `play*` call. The guard is applied once, at the call. The later beeps of a multi-tone cue, each guarded again when its own timer fires, are not modelled. Neither is resuming a suspended context.
- `createConfetti` and `createSnowfall` (script.js:313-362): random decoration that does not touch the session. A confetti burst is only counted, in `bursts`.
- The random note glyph and position in `tapMic`, and the clearing of `notes-container` on reset: cosmetic.
- The `kick` and `tapped` animation classes and their removal timers: cosmetic.
- The `kick-count` and `mic-count` texts: they always equal the counters. The hint's class name always follows its text: `Hint` holds both.
- `setupSoundToggle` and the `DOMContentLoaded` bootstrap (script.js:368-402): event wiring and icon display. Of the bootstrap, only the `init` call is modelled, as `AudioManager.Init`.
- Wall-clock time: `Date.now()` is the parameter `now`.
- Timer delays: any pending continuation may run at any time. This admits every order the page's timers produce, and more.
- Ornament ids other than `sean` and `paloma`: the script would fail on the missing element, and `Person` admits only the two children.
- The initial markup is assumed to show only the welcome screen, to hide every unlock and to read "Both tap together!".
- Every element a handler uses other than the `screen-<id>` elements is assumed present: `football`, `kick-count`, `mic-count`, `notes-container`, the three unlocks, `together-hint`, `finale-title` and `finale-names`. A missing one would make the handler throw partway through, leaving its later updates undone; each handler is modelled as completing.
