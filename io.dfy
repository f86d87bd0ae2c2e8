/**
 * The keypad latch of `src/io.cpp`: `IO::update` reads one SDL event and
 * moves the two fields `key_pressed` and `key_value`, `IO::wait_key` calls it
 * until a key is pressed, and `IO::last_key` reads the latched digit.  SDL's
 * event queue becomes a sequence of pending events.
 */
module Keyboard {
  import opened Words

  datatype Option<T> = None | Some(value: T)

  /** The events `IO::update` tells apart: a key going down (with its key symbol), a key going up, anything else. */
  datatype Event = KeyDown(sym: int) | KeyUp | Other

  /** `key_value` before any key was mapped. */
  const NO_KEY: u8 := 0xFF

  /** The `switch` of `IO::update`: the hex digit of each of the sixteen keypad keys. */
  function KeyMap(sym: int): (d: Option<u8>)
    ensures d.Some? ==> d.value < 16
  {
    if sym == '1' as int then Some(0x1)
    else if sym == '2' as int then Some(0x2)
    else if sym == '3' as int then Some(0x3)
    else if sym == '4' as int then Some(0xC)
    else if sym == 'q' as int then Some(0x4)
    else if sym == 'w' as int then Some(0x5)
    else if sym == 'e' as int then Some(0x6)
    else if sym == 'r' as int then Some(0xD)
    else if sym == 'a' as int then Some(0x7)
    else if sym == 's' as int then Some(0x8)
    else if sym == 'd' as int then Some(0x9)
    else if sym == 'f' as int then Some(0xE)
    else if sym == 'z' as int then Some(0xA)
    else if sym == 'x' as int then Some(0x0)
    else if sym == 'c' as int then Some(0xB)
    else if sym == 'v' as int then Some(0xF)
    else None
  }

  /** The key each hex digit sits on: the keypad layout read the other way round. */
  function KeyFor(d: u8): int
    requires d < 16
  {
    match d
    case 0x0 => 'x' as int
    case 0x1 => '1' as int
    case 0x2 => '2' as int
    case 0x3 => '3' as int
    case 0x4 => 'q' as int
    case 0x5 => 'w' as int
    case 0x6 => 'e' as int
    case 0x7 => 'a' as int
    case 0x8 => 's' as int
    case 0x9 => 'd' as int
    case 0xA => 'z' as int
    case 0xB => 'c' as int
    case 0xC => '4' as int
    case 0xD => 'r' as int
    case 0xE => 'f' as int
    case _ => 'v' as int
  }

  /** Every hex digit is on some key: the image of the keymap is all of 0x0..0xF. */
  lemma KeyMapOnto(d: u8)
    requires d < 16
    ensures KeyMap(KeyFor(d)) == Some(d)
  {
  }

  /** A mapped key is the key its digit sits on. */
  lemma KeyForMapped(sym: int)
    requires KeyMap(sym).Some?
    ensures KeyFor(KeyMap(sym).value) == sym
  {
  }

  /** No two keys give the same digit. */
  lemma KeyMapInjective(a: int, b: int)
    requires KeyMap(a).Some? && KeyMap(a) == KeyMap(b)
    ensures a == b
  {
    KeyForMapped(a);
    KeyForMapped(b);
  }

  /** The two fields `IO::update` changes. */
  datatype Latch = Latch(pressed: bool, value: u8)

  /** `key_pressed = false` and `key_value = 0xFF`, as the object starts. */
  const INITIAL: Latch := Latch(false, NO_KEY)

  /** The latched value is a hex digit, or no key yet. */
  predicate ValueInRange(l: Latch)
  {
    l.value < 16 || l.value == NO_KEY
  }

  /** One `IO::update` on the event it reads: the key-down `if`, then the key-up `if`. */
  function Apply(l: Latch, e: Event): Latch
  {
    var down :=
      if e.KeyDown? && !l.pressed then
        Latch(true, match KeyMap(e.sym) case Some(d) => d case None => l.value)
      else l;
    if e.KeyUp? && down.pressed then down.(pressed := false) else down
  }

  /**
   * A key going down while none is held sets the latch, and records the key's
   * digit when it is one of the sixteen; an unmapped key keeps the old value.
   */
  lemma KeyDownWhenReleased(l: Latch, sym: int)
    requires !l.pressed
    ensures Apply(l, KeyDown(sym)).pressed
    ensures KeyMap(sym).Some? ==> Apply(l, KeyDown(sym)).value == KeyMap(sym).value
    ensures KeyMap(sym).None? ==> Apply(l, KeyDown(sym)).value == l.value
  {
  }

  /** A key going down while one is held changes nothing. */
  lemma KeyDownWhenHeld(l: Latch, sym: int)
    requires l.pressed
    ensures Apply(l, KeyDown(sym)) == l
  {
  }

  /** A key going up releases the latch and keeps the value, whether or not a key was held. */
  lemma KeyUpReleases(l: Latch)
    ensures Apply(l, KeyUp) == Latch(false, l.value)
  {
  }

  /** Any other event changes nothing. */
  lemma OtherIgnored(l: Latch)
    ensures Apply(l, Other) == l
  {
  }

  /** Reading the same event twice has the effect of reading it once. */
  lemma ApplyIdempotent(l: Latch, e: Event)
    ensures Apply(Apply(l, e), e) == Apply(l, e)
  {
  }

  /** `IO::update` keeps the latched value a hex digit or 0xFF. */
  lemma ApplyKeepsRange(l: Latch, e: Event)
    requires ValueInRange(l)
    ensures ValueInRange(Apply(l, e))
  {
  }

  /**
   * The latch agrees with the last event read: after a key went down, a key
   * is held.  The object starts with no event read (`Other`).
   */
  predicate Agrees(l: Latch, last: Event)
  {
    last.KeyDown? ==> l.pressed
  }

  /** Every event read leaves the latch agreeing with it. */
  lemma ApplyAgrees(l: Latch, e: Event)
    ensures Agrees(Apply(l, e), e)
  {
  }

  /**
   * With no key held, reading the last event again changes nothing: an
   * `IO::update` that finds the queue empty re-reads the stale event and
   * stays where it is.
   */
  lemma StaleEventHarmless(l: Latch, last: Event)
    requires Agrees(l, last) && !l.pressed
    ensures Apply(l, last) == l
  {
  }

  /** The latch after reading `events` in order. */
  function Run(l: Latch, events: seq<Event>): Latch
    decreases |events|
  {
    if events == [] then l else Run(Apply(l, events[0]), events[1..])
  }

  /** Reading `events` one by one keeps the latched value in range. */
  lemma {:induction false} RunKeepsRange(l: Latch, events: seq<Event>)
    requires ValueInRange(l)
    ensures ValueInRange(Run(l, events))
    decreases |events|
  {
    if events != [] {
      ApplyKeepsRange(l, events[0]);
      RunKeepsRange(Apply(l, events[0]), events[1..]);
    }
  }

  /** Reading one more event after `events` is applying it to the latch they leave. */
  lemma {:induction false} RunSnoc(l: Latch, events: seq<Event>, e: Event)
    ensures Run(l, events + [e]) == Apply(Run(l, events), e)
    decreases |events|
  {
    if events == [] {
      assert events + [e] == [e];
    } else {
      assert (events + [e])[1..] == events[1..] + [e];
      RunSnoc(Apply(l, events[0]), events[1..], e);
    }
  }

  /**
   * What `IO::wait_key` returns: the value latched at the first point where a
   * key is held, reading the pending events in order; None when the events
   * run out with no key held (where the source would spin on the stale event).
   */
  function Wait(l: Latch, events: seq<Event>): Option<u8>
    decreases |events|
  {
    if l.pressed then Some(l.value)
    else if events == [] then None
    else Wait(Apply(l, events[0]), events[1..])
  }

  /**
   * `IO::wait_key` returns the value held at the first prefix of the events
   * after which a key is held.
   */
  lemma {:induction false} WaitIsFirstPress(l: Latch, events: seq<Event>, i: nat)
    requires i <= |events| && Run(l, events[..i]).pressed
    requires forall j :: 0 <= j < i ==> !Run(l, events[..j]).pressed
    ensures Wait(l, events) == Some(Run(l, events[..i]).value)
    decreases i
  {
    if i == 0 {
      assert events[..0] == [];
    } else {
      assert events[..0] == [];
      assert !l.pressed;
      var rest := events[1..];
      forall j | 0 <= j <= i - 1
        ensures Run(Apply(l, events[0]), rest[..j]) == Run(l, events[..j + 1])
      {
        assert events[..j + 1][1..] == rest[..j];
      }
      WaitIsFirstPress(Apply(l, events[0]), rest, i - 1);
    }
  }

  /** `IO::wait_key` finds no key exactly when none is held after any prefix of the events. */
  lemma {:induction false} WaitNone(l: Latch, events: seq<Event>)
    ensures Wait(l, events) == None <==> forall j :: 0 <= j <= |events| ==> !Run(l, events[..j]).pressed
    decreases |events|
  {
    assert events[..0] == [];
    if !l.pressed && events != [] {
      var rest := events[1..];
      WaitNone(Apply(l, events[0]), rest);
      forall j | 0 <= j <= |rest|
        ensures Run(Apply(l, events[0]), rest[..j]) == Run(l, events[..j + 1])
      {
        assert events[..j + 1][1..] == rest[..j];
      }
      if Wait(l, events) != None {
        assert !forall j :: 0 <= j <= |rest| ==> !Run(Apply(l, events[0]), rest[..j]).pressed;
        var k :| 0 <= k <= |rest| && Run(Apply(l, events[0]), rest[..k]).pressed;
        assert Run(l, events[..k + 1]).pressed;
      } else {
        forall j | 0 <= j <= |events|
          ensures !Run(l, events[..j]).pressed
        {
          if j > 0 {
            assert Run(Apply(l, events[0]), rest[..j - 1]) == Run(l, events[..j]);
          }
        }
      }
    }
  }

  /** The keyboard part of the `IO` object. */
  class IO {
    var keyPressed: bool
    var keyValue: u8
    /** `event`: the last SDL event read, which `SDL_PollEvent` leaves alone when the queue is empty. */
    var event: Event
    /** The SDL event queue. */
    var pending: seq<Event>

    ghost predicate Valid()
      reads this
    {
      ValueInRange(Latched()) && Agrees(Latched(), event)
    }

    /** The two latch fields as a value. */
    function Latched(): Latch
      reads this
    {
      Latch(keyPressed, keyValue)
    }

    /** The keyboard fields after construction: no key held, `key_value = 0xFF`, no event read yet. */
    constructor (events: seq<Event>)
      ensures Valid() && Latched() == INITIAL && event == Other && pending == events
    {
      keyPressed := false;
      keyValue := NO_KEY;
      event := Other;
      pending := events;
    }

    /**
     * `IO::update`: polls the next event (or keeps the stale one when the
     * queue is empty), then runs the key-down and key-up branches on it.
     */
    method Update()
      requires Valid()
      modifies this
      ensures Valid()
      ensures old(pending) == [] ==> event == old(event) && pending == []
      ensures old(pending) != [] ==> event == old(pending)[0] && pending == old(pending)[1..]
      ensures Latched() == Apply(old(Latched()), event)
    {
      if pending != [] {
        event := pending[0];
        pending := pending[1..];
      }
      if event.KeyDown? && !keyPressed {
        var d := KeyMap(event.sym);
        if d.Some? {
          keyValue := d.value;
        }
        keyPressed := true;
      }
      if event.KeyUp? && keyPressed {
        keyPressed := false;
      }
    }

    /**
     * `IO::wait_key`: updates until a key is held and returns its value.  When
     * the queue runs dry first, one more update re-reads the stale event and
     * changes nothing, so the source would loop for ever; the model returns None.
     */
    method WaitKey() returns (key: Option<u8>)
      requires Valid()
      modifies this
      ensures Valid()
      ensures key == Wait(old(Latched()), old(pending))
      ensures key.Some? ==> keyPressed && key.value == keyValue
      ensures key.None? ==> pending == [] && !keyPressed
      // the events read are a prefix of the queue, and reading stopped at the first press
      ensures |pending| <= |old(pending)| && pending == old(pending)[|old(pending)| - |pending|..]
      ensures Latched() == Run(old(Latched()), old(pending)[..|old(pending)| - |pending|])
      ensures forall j :: 0 <= j < |old(pending)| - |pending| ==> !Run(old(Latched()), old(pending)[..j]).pressed
      ensures event == if |pending| == |old(pending)| then old(event) else old(pending)[|old(pending)| - |pending| - 1]
    {
      ghost var used := 0;
      while !keyPressed && pending != []
        invariant Valid()
        invariant 0 <= used <= |old(pending)| && pending == old(pending)[used..]
        invariant Latched() == Run(old(Latched()), old(pending)[..used])
        invariant forall j :: 0 <= j < used ==> !Run(old(Latched()), old(pending)[..j]).pressed
        invariant event == if used == 0 then old(event) else old(pending)[used - 1]
        invariant Wait(Latched(), pending) == Wait(old(Latched()), old(pending))
        decreases |pending|
      {
        Update();
        RunSnoc(old(Latched()), old(pending)[..used], old(pending)[used]);
        assert old(pending)[..used + 1] == old(pending)[..used] + [old(pending)[used]];
        used := used + 1;
      }
      if keyPressed {
        return Some(keyValue);
      }
      StaleEventHarmless(Latched(), event);
      Update();
      assert !keyPressed;
      return None;
    }

    /** `IO::last_key`: the latched digit, or 0xFF before any mapped key. */
    function LastKey(): (k: u8)
      requires Valid()
      reads this
      ensures k == Latched().value && (k < 16 || k == NO_KEY)
    {
      keyValue
    }
  }
}
