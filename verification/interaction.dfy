/** The things the player can read or use: signs (`Sign`), whose text
    changes once suspicion is high, and the code terminal (`CodeTerminal`).
    Each has an interaction rectangle larger than its picture; the player is
    "near" one when its own rectangle overlaps that zone. */
module Interaction {
  import opened Geometry
  import opened Optional

  /** `high_threshold`'s default. */
  const DefaultThreshold: real := 80.0

  /** A sign: its 40 x 60 picture at `(x, y)`, its two texts and its
      interaction zone. */
  datatype Sign = Sign(rect: Rect, normalText: string, highText: string, interactRect: Rect)

  /** `Sign(x, y, normal_text, high_suspicion_text=None)`: a missing or empty
      alternate text falls back to the normal text; the interaction zone
      reaches 30 beyond the picture on every side. */
  function NewSign(x: int, y: int, normal: string, high: Option<string>): (s: Sign)
    ensures s.rect == Rect(x, y, 40, 60) && s.normalText == normal
    ensures high.Some? && high.value != "" ==> s.highText == high.value
    ensures high.None? || high.value == "" ==> s.highText == normal
    ensures s.interactRect == Rect(x - 30, y - 30, 100, 120)
    ensures Inside(s.rect, s.interactRect)
  {
    Sign(Rect(x, y, 40, 60), normal,
         if high.Some? && high.value != "" then high.value else normal,
         Rect(x - 30, y - 30, 100, 120))
  }

  /** `get_text(suspicion_level, high_threshold)`: the alternate text only
      when the level is strictly above the threshold and that text is not
      empty. */
  function GetText(s: Sign, level: real, threshold: real): (t: string)
    ensures level <= threshold ==> t == s.normalText
    ensures level > threshold && s.highText != "" ==> t == s.highText
    ensures level > threshold && s.highText == "" ==> t == s.normalText
    ensures t == s.normalText || t == s.highText
  {
    if level > threshold && s.highText != "" then s.highText else s.normalText
  }

  /** A sign built without an alternate text reads the same at every level. */
  lemma PlainSignNeverChanges(x: int, y: int, normal: string, level: real, threshold: real)
    ensures GetText(NewSign(x, y, normal, None), level, threshold) == normal
    ensures GetText(NewSign(x, y, normal, Some("")), level, threshold) == normal
  {
  }

  /** With the default threshold, a sign shows its alternate text exactly
      when suspicion is above 80 (and the sign has a non-empty text at all). */
  lemma AlternateTextAboveEighty(x: int, y: int, normal: string, high: string, level: real)
    requires high != ""
    ensures GetText(NewSign(x, y, normal, Some(high)), level, DefaultThreshold) ==
      if level > 80.0 then high else normal
  {
  }

  /** The code terminal: a 60 x 80 picture and a zone 40 larger on every side. */
  datatype Terminal = Terminal(rect: Rect, interactRect: Rect)

  function NewTerminal(x: int, y: int): (t: Terminal)
    ensures t.rect == Rect(x, y, 60, 80)
    ensures t.interactRect == Rect(x - 40, y - 40, 140, 160)
    ensures Inside(t.rect, t.interactRect)
  {
    Terminal(Rect(x, y, 60, 80), Rect(x - 40, y - 40, 140, 160))
  }

  /** The first sign, in group order, whose zone the rectangle overlaps. */
  function FirstOverlap(r: Rect, signs: seq<Sign>): (found: Option<nat>)
    ensures found.Some? ==> found.value < |signs| && Overlaps(r, signs[found.value].interactRect)
    ensures found.Some? ==> forall j :: 0 <= j < found.value ==> !Overlaps(r, signs[j].interactRect)
    ensures found.None? <==> forall j :: 0 <= j < |signs| ==> !Overlaps(r, signs[j].interactRect)
    decreases |signs|
  {
    if signs == [] then None
    else if Overlaps(r, signs[0].interactRect) then Some(0)
    else match FirstOverlap(r, signs[1..])
      case None => None
      case Some(k) => Some(k + 1)
  }

  /** The sign loop of `Player.update`: scan the signs in order and stop at
      the first one whose zone overlaps `r`. */
  method NearSign(r: Rect, signs: seq<Sign>) returns (found: Option<nat>)
    ensures found.Some? ==> found.value < |signs| && Overlaps(r, signs[found.value].interactRect)
    ensures found.Some? ==> forall j :: 0 <= j < found.value ==> !Overlaps(r, signs[j].interactRect)
    ensures found.None? ==> forall j :: 0 <= j < |signs| ==> !Overlaps(r, signs[j].interactRect)
    ensures found == FirstOverlap(r, signs)
  {
    found := None;
    var i := 0;
    while i < |signs|
      invariant 0 <= i <= |signs|
      invariant forall j :: 0 <= j < i ==> !Overlaps(r, signs[j].interactRect)
    {
      if Overlaps(r, signs[i].interactRect) {
        found := Some(i);
        break;
      }
      i := i + 1;
    }
  }

  /** Whether the terminal's zone is overlapped (`if terminal and ...`). */
  predicate NearTerminal(r: Rect, terminal: Option<Terminal>) {
    terminal.Some? && Overlaps(r, terminal.value.interactRect)
  }
}
