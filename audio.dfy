/** The audio manager of the gift vault: an on/off flag, whether a sound
    context has been created, and the cues it has sounded so far. Tone
    synthesis itself is not modelled; a cue stands for one `play*` call. */
module Audio {

  /** The named sound cues the page plays. */
  datatype Cue = Click | Goal | MicTap | Magic | Success | Fail

  /** The abstract value of the audio manager. */
  datatype Speaker = Speaker(enabled: bool, ready: bool, heard: seq<Cue>)

  /** Sound is on, no context exists yet, nothing has been heard. */
  const INITIAL_SPEAKER: Speaker := Speaker(true, false, [])

  /** The guard at the head of `beep`: nothing sounds while sound is off
      or before a context has been created. */
  predicate Audible(sp: Speaker) {
    sp.enabled && sp.ready
  }

  /** One `play*` call: the cue is heard exactly when the guard lets it through. */
  function Sounded(sp: Speaker, c: Cue): (r: Speaker)
    ensures r.enabled == sp.enabled && r.ready == sp.ready
    ensures Audible(sp) <==> r.heard == sp.heard + [c]
    ensures !Audible(sp) <==> r == sp
  {
    if Audible(sp) then sp.(heard := sp.heard + [c]) else sp
  }

  /** `init`: a sound context now exists. */
  function Started(sp: Speaker): (r: Speaker)
    ensures r.ready && r.enabled == sp.enabled && r.heard == sp.heard
  {
    sp.(ready := true)
  }

  /** `toggle`: flips the flag and returns its new value. */
  function Toggled(sp: Speaker): (r: (Speaker, bool))
    ensures r.1 == r.0.enabled && r.0.enabled != sp.enabled
    ensures r.0.ready == sp.ready && r.0.heard == sp.heard
  {
    (sp.(enabled := !sp.enabled), !sp.enabled)
  }

  /** Two toggles in a row restore the original manager. */
  lemma ToggleTwice(sp: Speaker)
    ensures Toggled(Toggled(sp).0).0 == sp
    ensures Toggled(Toggled(sp).0).1 == sp.enabled
  {
  }

  /** Any series of plays while sound is off leaves the manager as it was. */
  lemma {:induction false} MutedStaysSilent(sp: Speaker, cues: seq<Cue>)
    requires !sp.enabled
    ensures PlayAll(sp, cues) == sp
    decreases |cues|
  {
    if cues != [] {
      MutedStaysSilent(Sounded(sp, cues[0]), cues[1..]);
    }
  }

  /** A series of `play*` calls, one after another. */
  function PlayAll(sp: Speaker, cues: seq<Cue>): Speaker
    decreases |cues|
  {
    if cues == [] then sp else PlayAll(Sounded(sp, cues[0]), cues[1..])
  }

  class AudioManager {
    var enabled: bool
    var ready: bool
    var heard: seq<Cue>

    function Model(): Speaker
      reads this
    {
      Speaker(enabled, ready, heard)
    }

    constructor ()
      ensures Model() == INITIAL_SPEAKER
    {
      enabled, ready, heard := true, false, [];
    }

    /** `init`: creates the sound context. */
    method Init()
      modifies this
      ensures Model() == Started(old(Model()))
    {
      ready := true;
    }

    /** A `play*` call: its first beep passes the guard or does nothing. */
    method Play(c: Cue)
      modifies this
      ensures Model() == Sounded(old(Model()), c)
    {
      if enabled && ready {
        heard := heard + [c];
      }
    }

    /** `toggle`: negates the flag and returns the new value. */
    method Toggle() returns (on: bool)
      modifies this
      ensures (Model(), on) == Toggled(old(Model()))
    {
      enabled := !enabled;
      on := enabled;
    }
  }
}
