/**
 * The hotkey listener: a background reader that turns terminal events into
 * hotkey presses on a channel, turns Ctrl+C into an interrupt signal to its own
 * process, and stops at the first read error; and the receiving end that hands
 * the presses to the supervisor one at a time.
 */
module Hotkey {
  import opened Wrappers

  datatype Modifier = Shift | Control | Alt | Super | Hyper | Meta

  /** A key: a character, or any other key (Enter, arrows, function keys, ...). */
  datatype KeyCode = Char(c: char) | OtherKey

  /**
   * One item of the terminal event stream: a key event with the modifiers held,
   * any other event (resize, mouse, focus, paste), or a read error.
   */
  datatype TermEvent = Key(code: KeyCode, modifiers: set<Modifier>) | OtherEvent | ReadError

  /** `HotkeyPressed`: the marker sent for each press of the hotkey. */
  datatype HotkeyPressed = HotkeyPressed

  /** What the reader does with one event. */
  datatype Reaction = SendPress | Interrupt | Quit | Ignore

  /** The `match` in the reader loop, arm by arm. */
  function React(e: TermEvent, hotkey: char): (r: Reaction)
    ensures r == SendPress <==> e.Key? && e.code.Char? && e.code.c == hotkey && e.modifiers == {}
    ensures r == Interrupt <==> e.Key? && e.code.Char? && e.code.c == 'c' && e.modifiers == {Control}
    ensures r == Quit <==> e.ReadError?
  {
    match e
    case Key(Char(c), mods) =>
      if mods == {} && c == hotkey then SendPress
      else if c == 'c' && mods == {Control} then Interrupt
      else Ignore
    case Key(OtherKey, _) => Ignore
    case OtherEvent => Ignore
    case ReadError => Quit
  }

  /**
   * The event at index `i` ends the reader: Ctrl+C, a read error, or a hotkey
   * press whose send fails because the receiver was dropped before event `dropAt`.
   */
  predicate EndsReader(events: seq<TermEvent>, hotkey: char, dropAt: nat, i: nat)
    requires i < |events|
  {
    var r := React(events[i], hotkey);
    r == Interrupt || r == Quit || (r == SendPress && i >= dropAt)
  }

  /** The index of the event that ends the reader, or `|events|` when the stream runs out first. */
  function StopIndex(events: seq<TermEvent>, hotkey: char, dropAt: nat, from: nat): (k: nat)
    requires from <= |events|
    ensures from <= k <= |events|
    ensures forall j :: from <= j < k ==> !EndsReader(events, hotkey, dropAt, j)
    ensures k < |events| ==> EndsReader(events, hotkey, dropAt, k)
    decreases |events| - from
  {
    if from == |events| then from
    else if EndsReader(events, hotkey, dropAt, from) then from
    else StopIndex(events, hotkey, dropAt, from + 1)
  }

  /** The first event that ends the reader is the one `StopIndex` finds. */
  lemma StopIndexIsFirst(events: seq<TermEvent>, hotkey: char, dropAt: nat, i: nat)
    requires i <= |events|
    requires forall j :: 0 <= j < i ==> !EndsReader(events, hotkey, dropAt, j)
    requires i < |events| ==> EndsReader(events, hotkey, dropAt, i)
    ensures StopIndex(events, hotkey, dropAt, 0) == i
  {
  }

  /** The number of hotkey presses among `events`. */
  function Presses(events: seq<TermEvent>, hotkey: char): nat
  {
    if events == [] then 0
    else Presses(events[..|events| - 1], hotkey) + (if React(events[|events| - 1], hotkey) == SendPress then 1 else 0)
  }

  /** The listener: the channel's buffered presses and the interrupts the reader delivered. */
  class HotkeyListener {
    const hotkey: char
    /** Presses sent and not yet received, oldest first. */
    var queue: seq<HotkeyPressed>
    /** How many SIGINTs the reader sent to its own process. */
    var interrupts: nat
    /** How many events the reader took from the stream. */
    ghost var examined: nat

    /**
     * `HotkeyListener::new` together with the whole run of its background
     * reader over the terminal's event stream `events`; the receiver is
     * dropped before event `dropAt` is read.
     */
    constructor (hotkey: char, events: seq<TermEvent>, dropAt: nat)
      ensures this.hotkey == hotkey
      ensures var k := StopIndex(events, hotkey, dropAt, 0);
              && |queue| == Presses(events[..k], hotkey)
              && interrupts == (if k < |events| && React(events[k], hotkey) == Interrupt then 1 else 0)
              && examined == (if k < |events| then k + 1 else k)
    {
      this.hotkey := hotkey;
      queue := [];
      interrupts := 0;
      examined := 0;
      new;
      var i := 0;
      while i < |events|
        invariant i <= |events|
        invariant forall j :: 0 <= j < i ==> !EndsReader(events, hotkey, dropAt, j)
        invariant |queue| == Presses(events[..i], hotkey)
        invariant interrupts == 0
        invariant examined == i
      {
        var event := events[i];
        examined := examined + 1;
        match React(event, hotkey) {
          case SendPress =>
            if i >= dropAt {
              break;
            }
            queue := queue + [HotkeyPressed];
          case Interrupt =>
            interrupts := interrupts + 1;
            break;
          case Quit =>
            break;
          case Ignore =>
        }
        assert events[..i + 1][..i] == events[..i];
        i := i + 1;
      }
      StopIndexIsFirst(events, hotkey, dropAt, i);
    }

    /** `HotkeyListener::next`: the oldest press, or `None` once the reader has finished and nothing is left. */
    method Next() returns (r: Option<HotkeyPressed>)
      modifies this`queue
      ensures old(queue) == [] ==> r == None && queue == []
      ensures old(queue) != [] ==> r == Some(old(queue)[0]) && queue == old(queue)[1..]
    {
      if queue == [] {
        r := None;
      } else {
        r := Some(queue[0]);
        queue := queue[1..];
      }
    }
  }

  // ---------------------------------------------------------------------------
  // Properties of the reader

  /** The hotkey character with no modifier is a press; with any modifier it is not. */
  lemma HotkeyNeedsNoModifiers(c: char, mods: set<Modifier>, hotkey: char)
    ensures React(Key(Char(c), mods), hotkey) == SendPress <==> c == hotkey && mods == {}
    ensures React(Key(Char(c), mods), hotkey) == Interrupt <==> c == 'c' && mods == {Control}
  {
  }

  /** Only a read error makes the reader quit; no other event does anything but send, interrupt or nothing. */
  lemma OnlyErrorsQuit(e: TermEvent, hotkey: char)
    ensures React(e, hotkey) == Quit <==> e == ReadError
    ensures e.OtherEvent? || (e.Key? && e.code.OtherKey?) ==> React(e, hotkey) == Ignore
  {
  }

  /** Once the reader has stopped inside `events`, what follows is never examined. */
  lemma LaterEventsNotExamined(events: seq<TermEvent>, more: seq<TermEvent>, hotkey: char, dropAt: nat)
    requires StopIndex(events, hotkey, dropAt, 0) < |events|
    ensures StopIndex(events + more, hotkey, dropAt, 0) == StopIndex(events, hotkey, dropAt, 0)
  {
    var k1 := StopIndex(events, hotkey, dropAt, 0);
    var k2 := StopIndex(events + more, hotkey, dropAt, 0);
    assert (events + more)[k1] == events[k1];
    assert EndsReader(events + more, hotkey, dropAt, k1);
    if k2 < k1 {
      assert (events + more)[k2] == events[k2];
      assert EndsReader(events, hotkey, dropAt, k2);
    }
  }

  /** Presses are counted over prefixes: a longer prefix has at least as many. */
  lemma {:induction false} PressesMonotone(events: seq<TermEvent>, hotkey: char, i: nat, j: nat)
    requires i <= j <= |events|
    ensures Presses(events[..i], hotkey) <= Presses(events[..j], hotkey) <= Presses(events[..i], hotkey) + (j - i)
    decreases j - i
  {
    if i < j {
      PressesMonotone(events, hotkey, i, j - 1);
      assert events[..j][..j - 1] == events[..j - 1];
    }
  }

  /** What typing the characters of `s` with no modifier produces. */
  function Typed(s: string): (events: seq<TermEvent>)
    ensures |events| == |s|
    ensures forall i :: 0 <= i < |s| ==> events[i] == Key(Char(s[i]), {})
  {
    if s == [] then [] else Typed(s[..|s| - 1]) + [Key(Char(s[|s| - 1]), {})]
  }

  /** Typing `s` without modifiers sends one press per occurrence of the hotkey in `s`. */
  lemma {:induction false} TypedPresses(s: string, hotkey: char)
    ensures Presses(Typed(s), hotkey) == multiset(s)[hotkey]
  {
    if s != [] {
      var t := s[..|s| - 1];
      TypedPresses(t, hotkey);
      assert Typed(s)[..|s| - 1] == Typed(t);
      assert s == t + [s[|s| - 1]];
    }
  }

  /** Typing never interrupts or quits, so the reader reads everything it is typed while the receiver lives. */
  lemma TypedRunsToEnd(s: string, hotkey: char)
    ensures StopIndex(Typed(s), hotkey, |s|, 0) == |s|
  {
  }

  /** Typing "abc123xyz" with the default hotkey 'r' sends nothing. */
  lemma OtherCharactersIgnored()
    ensures Presses(Typed("abc123xyz"), 'r') == 0
  {
    TypedPresses("abc123xyz", 'r');
  }
}
