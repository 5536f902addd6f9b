/** The code terminal's key rule (`show_code_input_screen`): digits are
    collected into a buffer of at most four characters, backspace removes
    the last one, Return submits and Escape or closing the window abandons
    the entry. The events arrive in batches, one batch per frame. */
module CodeEntry {
  import opened Optional

  const SecretCode: string := "8514"
  const MaxLength: nat := 4

  /** The keys the rule tells apart; every other key is `OtherKey`. */
  datatype Key = Return | Escape | Backspace | OtherKey

  /** A window-close request, a key press with the text it types
      (`event.unicode`), or any other event. */
  datatype Event = Quit | KeyDown(key: Key, text: string) | OtherEvent

  /** `str.isdigit()` for the ASCII digits: non-empty and all digits. */
  predicate IsDigits(t: string) {
    |t| > 0 && forall i :: 0 <= i < |t| ==> '0' <= t[i] <= '9'
  }

  /** The buffer and the `input_active` flag. */
  datatype Entry = Entry(code: string, active: bool)

  /** How the screen ends: abandoned (`(False, False)`), submitted with a
      code (`(True, code == "8514")`), or still waiting when the events
      given run out. */
  datatype Outcome = Closed | Submitted(code: string) | Waiting(code: string)

  predicate Accepted(o: Outcome) {
    o.Submitted? && o.code == SecretCode
  }

  /** One event; `None` when it ends the screen at once. Return only clears
      `input_active`: the rest of the frame's events are still handled. */
  function Handle(e: Entry, ev: Event): Option<Entry> {
    match ev
    case Quit => None
    case OtherEvent => Some(e)
    case KeyDown(key, text) =>
      match key
      case Return => Some(e.(active := false))
      case Escape => None
      case Backspace => Some(e.(code := if e.code == "" then "" else e.code[..|e.code| - 1]))
      case OtherKey => if IsDigits(text) && |e.code| < MaxLength then Some(e.(code := e.code + text)) else Some(e)
  }

  /** One frame's batch of events, in order. */
  function HandleAll(e: Entry, evs: seq<Event>): Option<Entry>
    decreases |evs|
  {
    if evs == [] then Some(e)
    else match Handle(e, evs[0])
      case None => None
      case Some(e1) => HandleAll(e1, evs[1..])
  }

  /** The screen from a buffer `code`, frame by frame: it ends after the
      first frame whose events submitted the code. */
  function Session(code: string, frames: seq<seq<Event>>): Outcome
    decreases |frames|
  {
    if frames == [] then Waiting(code)
    else match HandleAll(Entry(code, true), frames[0])
      case None => Closed
      case Some(e) => if e.active then Session(e.code, frames[1..]) else Submitted(e.code)
  }

  /** Every typed text is at most one character, as a key press gives. */
  predicate SingleCharacters(evs: seq<Event>) {
    forall i :: 0 <= i < |evs| && evs[i].KeyDown? ==> |evs[i].text| <= 1
  }

  predicate SingleCharactersAll(frames: seq<seq<Event>>) {
    forall i :: 0 <= i < |frames| ==> SingleCharacters(frames[i])
  }

  /** A buffer the rule can build: at most four digits. */
  predicate WellFormed(code: string) {
    |code| <= MaxLength && forall i :: 0 <= i < |code| ==> '0' <= code[i] <= '9'
  }

  /** One event keeps a buffer well formed, changing its length by at most
      one. */
  lemma HandleKeepsWellFormed(e: Entry, ev: Event)
    requires WellFormed(e.code)
    requires ev.KeyDown? ==> |ev.text| <= 1
    ensures Handle(e, ev).Some? ==> WellFormed(Handle(e, ev).value.code)
    ensures Handle(e, ev).Some? ==> -1 <= |Handle(e, ev).value.code| - |e.code| <= 1
    ensures Handle(e, ev).Some? && !e.active ==> !Handle(e, ev).value.active
  {
  }

  lemma {:induction false} HandleAllKeepsWellFormed(e: Entry, evs: seq<Event>)
    requires WellFormed(e.code) && SingleCharacters(evs)
    ensures HandleAll(e, evs).Some? ==> WellFormed(HandleAll(e, evs).value.code)
    decreases |evs|
  {
    if evs != [] {
      HandleKeepsWellFormed(e, evs[0]);
      if Handle(e, evs[0]).Some? {
        assert SingleCharacters(evs[1..]) by {
          forall i | 0 <= i < |evs[1..]| && evs[1..][i].KeyDown?
            ensures |evs[1..][i].text| <= 1
          {
            assert evs[1..][i] == evs[i + 1];
          }
        }
        HandleAllKeepsWellFormed(Handle(e, evs[0]).value, evs[1..]);
      }
    }
  }

  /** Whatever keys are pressed, the code submitted (or still being typed)
      is at most four digits. */
  lemma {:induction false} SessionCodeIsFourDigitsAtMost(code: string, frames: seq<seq<Event>>)
    requires WellFormed(code) && SingleCharactersAll(frames)
    ensures Session(code, frames).Submitted? ==> WellFormed(Session(code, frames).code)
    ensures Session(code, frames).Waiting? ==> WellFormed(Session(code, frames).code)
    decreases |frames|
  {
    if frames != [] {
      HandleAllKeepsWellFormed(Entry(code, true), frames[0]);
      var r := HandleAll(Entry(code, true), frames[0]);
      if r.Some? && r.value.active {
        assert SingleCharactersAll(frames[1..]) by {
          forall i | 0 <= i < |frames[1..]|
            ensures SingleCharacters(frames[1..][i])
          {
            assert frames[1..][i] == frames[i + 1];
          }
        }
        SessionCodeIsFourDigitsAtMost(r.value.code, frames[1..]);
      }
    }
  }

  function Typed(c: char): Event { KeyDown(OtherKey, [c]) }

  /** Typing 8, 5, 1, 4 and Return opens the terminal. */
  lemma RightCodeAccepted()
    ensures Accepted(Session("", [[Typed('8'), Typed('5'), Typed('1'), Typed('4'), KeyDown(Return, "\r")]]))
  {
  }

  /** A fifth digit is ignored, so a wrong digit typed after the right four
      does not spoil them. */
  lemma FifthDigitIgnored()
    ensures Session("", [[Typed('8'), Typed('5'), Typed('1'), Typed('4'), Typed('9'), KeyDown(Return, "\r")]])
      == Submitted("8514")
  {
  }

  /** Backspace on an empty buffer does nothing. */
  lemma BackspaceOnEmpty()
    ensures Session("", [[KeyDown(Backspace, ""), Typed('3')]]) == Waiting("3")
  {
  }

  /** Letters are not typed, and backspace removes the last digit. */
  lemma LettersIgnored()
    ensures Session("", [[Typed('x'), Typed('7'), KeyDown(Backspace, ""), Typed('3')]]) == Waiting("3")
  {
  }

  /** Return submits only at the end of its frame: a digit typed later in
      the same frame still lands in the buffer, and an Escape later in that
      frame abandons the entry. */
  lemma ReturnTakesEffectAtEndOfFrame()
    ensures Session("", [[Typed('1'), KeyDown(Return, "\r"), Typed('2')]]) == Submitted("12")
    ensures Session("", [[Typed('1'), KeyDown(Return, "\r"), KeyDown(Escape, "")]]) == Closed
    ensures Session("", [[Typed('1'), KeyDown(Return, "\r")], [KeyDown(Escape, "")]]) == Submitted("1")
  {
  }

  /** The screen's loop: handle each frame's events until a frame ends
      with `input_active` cleared. */
  method ReadCode(frames: seq<seq<Event>>) returns (o: Outcome)
    ensures o == Session("", frames)
    ensures SingleCharactersAll(frames) && !o.Closed? ==> WellFormed(o.code)
  {
    if SingleCharactersAll(frames) {
      SessionCodeIsFourDigitsAtMost("", frames);
    }
    var code := "";
    var active := true;
    var f := 0;
    while active && f < |frames|
      invariant 0 <= f <= |frames|
      invariant active ==> Session(code, frames[f..]) == Session("", frames)
      invariant !active ==> Session("", frames) == Submitted(code)
    {
      ghost var start := code;
      var evs := frames[f];
      var i := 0;
      while i < |evs|
        invariant 0 <= i <= |evs|
        invariant HandleAll(Entry(start, true), evs) == HandleAll(Entry(code, active), evs[i..])
      {
        var ev := evs[i];
        assert evs[i..][0] == ev && evs[i..][1..] == evs[i + 1..];
        if ev.Quit? {
          return Closed;
        }
        if ev.KeyDown? {
          if ev.key == Return {
            active := false;
          } else if ev.key == Escape {
            return Closed;
          } else if ev.key == Backspace {
            code := if code == "" then "" else code[..|code| - 1];
          } else if IsDigits(ev.text) && |code| < MaxLength {
            code := code + ev.text;
          }
        }
        i := i + 1;
      }
      assert frames[f..][0] == evs && frames[f..][1..] == frames[f + 1..];
      f := f + 1;
    }
    if active {
      o := Waiting(code);
    } else {
      o := Submitted(code);
    }
  }
}
