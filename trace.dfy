/** Measures over a sequence of Arduino calls: how long it blocks, how many
    times a value is written, what level the pin is left at and how long it
    is held at a given level. A sound pattern is specified by the exact
    sequence of calls it makes; these measures, and the lemmas about how they
    behave under concatenation and repetition, give its duration and shape. */
module Trace {
  import opened Arduino

  datatype Option<T> = None | Some(value: T)

  /** `n` copies of `s`, one after the other: the calls made by a counted loop
      whose body makes the calls `s`. */
  function Repeat(s: seq<Event>, n: nat): seq<Event>
  {
    if n == 0 then [] else Repeat(s, n - 1) + s
  }

  /** Milliseconds `e` blocks the caller for. */
  function DelayOf(e: Event): nat
  {
    if e.Delay? then e.ms else 0
  }

  /** Milliseconds the caller is blocked for while making the calls `t`. */
  function TotalDelay(t: seq<Event>): nat
  {
    if t == [] then 0 else TotalDelay(t[..|t| - 1]) + DelayOf(t[|t| - 1])
  }

  /** Number of `digitalWrite` calls in `t` that write the value `v`. */
  function CountWrites(t: seq<Event>, v: byte): nat
  {
    if t == [] then 0
    else CountWrites(t[..|t| - 1], v) + (if t[|t| - 1].DigitalWrite? && t[|t| - 1].value == v then 1 else 0)
  }

  /** Value last written to the pin after the calls `t`, when the last value
      written before them was `before` (None: nothing written yet). */
  function LevelAfter(t: seq<Event>, before: Option<byte>): Option<byte>
  {
    if t == [] then before
    else if t[|t| - 1].DigitalWrite? then Some(t[|t| - 1].value)
    else LevelAfter(t[..|t| - 1], before)
  }

  /** Milliseconds of `delay` spent while the last value written is `v`, over
      the calls `t` started at level `before`: the time the output is held at
      `v`. */
  function TimeAt(t: seq<Event>, v: byte, before: Option<byte>): nat
  {
    if t == [] then 0
    else TimeAt(t[..|t| - 1], v, before)
         + (if LevelAfter(t[..|t| - 1], before) == Some(v) then DelayOf(t[|t| - 1]) else 0)
  }

  /** A sequence of calls that begins by writing the pin: nothing it does
      depends on the level the pin was left at before it. */
  predicate StartsWithWrite(s: seq<Event>)
  {
    |s| > 0 && s[0].DigitalWrite?
  }

  // ---------------------------------------------------------------------
  // Concatenation

  lemma {:induction false} TotalDelayAppend(a: seq<Event>, b: seq<Event>)
    ensures TotalDelay(a + b) == TotalDelay(a) + TotalDelay(b)
  {
    if b == [] {
      assert a + b == a;
    } else {
      var b' := b[..|b| - 1];
      assert (a + b)[..|a + b| - 1] == a + b';
      TotalDelayAppend(a, b');
    }
  }

  lemma {:induction false} CountWritesAppend(a: seq<Event>, b: seq<Event>, v: byte)
    ensures CountWrites(a + b, v) == CountWrites(a, v) + CountWrites(b, v)
  {
    if b == [] {
      assert a + b == a;
    } else {
      var b' := b[..|b| - 1];
      assert (a + b)[..|a + b| - 1] == a + b';
      CountWritesAppend(a, b', v);
    }
  }

  /** The level after `a + b` is the level after `b` started where `a` left
      the pin. */
  lemma {:induction false} LevelAfterAppend(a: seq<Event>, b: seq<Event>, before: Option<byte>)
    ensures LevelAfter(a + b, before) == LevelAfter(b, LevelAfter(a, before))
  {
    if b == [] {
      assert a + b == a;
    } else {
      var b' := b[..|b| - 1];
      assert (a + b)[..|a + b| - 1] == a + b';
      LevelAfterAppend(a, b', before);
    }
  }

  lemma {:induction false} TimeAtAppend(a: seq<Event>, b: seq<Event>, v: byte, before: Option<byte>)
    ensures TimeAt(a + b, v, before) == TimeAt(a, v, before) + TimeAt(b, v, LevelAfter(a, before))
  {
    if b == [] {
      assert a + b == a;
    } else {
      var b' := b[..|b| - 1];
      assert (a + b)[..|a + b| - 1] == a + b';
      TimeAtAppend(a, b', v, before);
      LevelAfterAppend(a, b', before);
    }
  }

  /** A sequence of calls that writes the pin first behaves the same from
      every starting level. */
  lemma {:induction false} StartsWithWriteForgetsBefore(s: seq<Event>, v: byte, x: Option<byte>, y: Option<byte>)
    requires StartsWithWrite(s)
    ensures LevelAfter(s, x) == LevelAfter(s, y)
    ensures TimeAt(s, v, x) == TimeAt(s, v, y)
  {
    if |s| > 1 {
      var s' := s[..|s| - 1];
      assert s'[0] == s[0];
      StartsWithWriteForgetsBefore(s', v, x, y);
    } else {
      assert s[..|s| - 1] == [];
    }
  }

  // ---------------------------------------------------------------------
  // Repetition

  lemma {:induction false} RepeatLength(s: seq<Event>, n: nat)
    ensures |Repeat(s, n)| == n * |s|
  {
    if n > 0 {
      RepeatLength(s, n - 1);
      assert |Repeat(s, n)| == (n - 1) * |s| + |s|;
    }
  }

  lemma {:induction false} RepeatTotalDelay(s: seq<Event>, n: nat)
    ensures TotalDelay(Repeat(s, n)) == n * TotalDelay(s)
  {
    if n > 0 {
      RepeatTotalDelay(s, n - 1);
      TotalDelayAppend(Repeat(s, n - 1), s);
      assert TotalDelay(Repeat(s, n)) == (n - 1) * TotalDelay(s) + TotalDelay(s);
    }
  }

  lemma {:induction false} RepeatCountWrites(s: seq<Event>, n: nat, v: byte)
    ensures CountWrites(Repeat(s, n), v) == n * CountWrites(s, v)
  {
    if n > 0 {
      RepeatCountWrites(s, n - 1, v);
      CountWritesAppend(Repeat(s, n - 1), s, v);
      assert CountWrites(Repeat(s, n), v) == (n - 1) * CountWrites(s, v) + CountWrites(s, v);
    }
  }

  /** A repeated block that writes the pin first starts by making that
      write. */
  lemma {:induction false} RepeatStartsWithWrite(s: seq<Event>, n: nat)
    requires StartsWithWrite(s) && n > 0
    ensures StartsWithWrite(Repeat(s, n)) && Repeat(s, n)[0] == s[0]
  {
    if n > 1 {
      RepeatStartsWithWrite(s, n - 1);
    }
  }

  /** Repeating a block that writes the pin first leaves the pin where one
      copy of the block leaves it. */
  lemma {:induction false} RepeatLevelAfter(s: seq<Event>, n: nat, before: Option<byte>)
    requires StartsWithWrite(s) && n > 0
    ensures LevelAfter(Repeat(s, n), before) == LevelAfter(s, before)
  {
    var v: byte := 0;
    LevelAfterAppend(Repeat(s, n - 1), s, before);
    StartsWithWriteForgetsBefore(s, v, LevelAfter(Repeat(s, n - 1), before), before);
  }

  /** Repeating a block that writes the pin first holds each level `n` times
      as long as one copy does. */
  lemma {:induction false} RepeatTimeAt(s: seq<Event>, n: nat, v: byte, before: Option<byte>)
    requires StartsWithWrite(s)
    ensures TimeAt(Repeat(s, n), v, before) == n * TimeAt(s, v, before)
  {
    if n > 0 {
      RepeatTimeAt(s, n - 1, v, before);
      TimeAtAppend(Repeat(s, n - 1), s, v, before);
      StartsWithWriteForgetsBefore(s, v, LevelAfter(Repeat(s, n - 1), before), before);
      assert TimeAt(Repeat(s, n), v, before) == (n - 1) * TimeAt(s, v, before) + TimeAt(s, v, before);
    }
  }
}
