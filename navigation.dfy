/** The pure decisions behind screen navigation: how a screen id names its
    target screen, and which names the finale shows. */
module Navigation {

  datatype Option<T> = None | Some(value: T)

  const FINALE_PREFIX: string := "finale-"
  const FINALE_SCREEN: string := "finale"
  const VAULT_SCREEN: string := "vault"
  const WELCOME_SCREEN: string := "welcome"
  const FINALE_TITLE: string := "Merry Christmas!"

  predicate StartsWith(s: string, prefix: string) {
    |prefix| <= |s| && s[..|prefix|] == prefix
  }

  /** The screen `goToScreen` shows, and for the finale who completed it
      (`None` stands for the script's `null`). */
  datatype Target = Target(screen: string, finaleFor: Option<string>)

  /** An id starting with `finale-` names the finale screen and, after the
      prefix, who finished; any other id names its own screen. The script's
      `replace` removes the first occurrence of the prefix, which for such an
      id is the one at its start. */
  function ParseTarget(id: string): (t: Target)
    ensures t.finaleFor.Some? <==> StartsWith(id, FINALE_PREFIX)
    ensures t.finaleFor.Some? ==> t.screen == FINALE_SCREEN && FINALE_PREFIX + t.finaleFor.value == id
    ensures t.finaleFor.None? ==> t.screen == id
  {
    if StartsWith(id, FINALE_PREFIX) then
      assert id == id[..|FINALE_PREFIX|] + id[|FINALE_PREFIX|..];
      Target(FINALE_SCREEN, Some(id[|FINALE_PREFIX|..]))
    else
      Target(id, None)
  }

  /** The id that names a target: the inverse of `ParseTarget`. */
  function TargetId(t: Target): string {
    match t.finaleFor
    case Some(who) => FINALE_PREFIX + who
    case None => t.screen
  }

  /** The targets that some id names. */
  predicate WellFormed(t: Target) {
    match t.finaleFor
    case Some(_) => t.screen == FINALE_SCREEN
    case None => !StartsWith(t.screen, FINALE_PREFIX)
  }

  /** Every id is recovered from the target it names, and that target is well formed. */
  lemma IdRoundTrip(id: string)
    ensures WellFormed(ParseTarget(id))
    ensures TargetId(ParseTarget(id)) == id
  {
  }

  /** Every well-formed target is recovered from its id. */
  lemma TargetRoundTrip(t: Target)
    requires WellFormed(t)
    ensures ParseTarget(TargetId(t)) == t
  {
  }

  /** The text the finale shows. */
  datatype FinaleText = FinaleText(title: string, names: string)

  /** The name choice of `showFinale`: "sean" and "paloma" name one child,
      every other value, `null` included, names both. */
  function ChooseFinale(who: Option<string>): (f: FinaleText)
    ensures f.title == FINALE_TITLE
    ensures f.names == "Sean" <==> who == Some("sean")
    ensures f.names == "Paloma" <==> who == Some("paloma")
    ensures f.names == "Sean & Paloma" <==> who != Some("sean") && who != Some("paloma")
  {
    if who == Some("sean") then FinaleText(FINALE_TITLE, "Sean")
    else if who == Some("paloma") then FinaleText(FINALE_TITLE, "Paloma")
    else FinaleText(FINALE_TITLE, "Sean & Paloma")
  }
}
