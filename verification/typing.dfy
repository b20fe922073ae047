/**
 * The typewriter coroutine shared by the dialogues: it appends one character
 * of the line, waits the per-character delay, and repeats until the line is
 * complete.
 */
module Typing {
  import opened Common

  /** A running TypeLine coroutine: characters typed so far and time left on its wait. */
  datatype Typewriter = Typewriter(typed: nat, left: real)

  /**
   * Starting to type `line`: the first character is typed at once; an empty
   * line completes at once (None).
   */
  function Begin(line: string, wordSpeed: real): (r: Option<Typewriter>)
    ensures r.None? <==> line == []
    ensures r.Some? ==> r.value == Typewriter(1, wordSpeed)
  {
    if line == [] then None else Some(Typewriter(1, wordSpeed))
  }

  /**
   * A frame of dt: when the wait is over the next character is typed and the
   * wait restarts, or, after the last character, the coroutine completes.
   */
  function Tick(line: string, t: Typewriter, dt: real, wordSpeed: real): (r: Option<Typewriter>)
    requires 1 <= t.typed <= |line|
    ensures r.None? ==> t.typed == |line| && t.left - dt <= 0.0
    ensures r.Some? ==> 1 <= r.value.typed <= |line|
    ensures r.Some? && r.value.typed != t.typed ==> r.value == Typewriter(t.typed + 1, wordSpeed)
    ensures r.Some? && r.value.typed == t.typed ==> r.value.left == t.left - dt > 0.0
  {
    if t.left - dt > 0.0 then Some(t.(left := t.left - dt))
    else if t.typed < |line| then Some(Typewriter(t.typed + 1, wordSpeed))
    else None
  }

  /** The coroutine after a run of frames; None once it has completed. */
  function RunFor(line: string, t: Typewriter, dts: seq<real>, wordSpeed: real): Option<Typewriter>
    requires 1 <= t.typed <= |line|
    decreases |dts|
  {
    if dts == [] then Some(t)
    else match Tick(line, t, dts[0], wordSpeed)
      case None => None
      case Some(t') => RunFor(line, t', dts[1..], wordSpeed)
  }

  /**
   * When no frame is shorter than the delay, each frame types one character:
   * after k frames k more characters are typed, and the frame after the last
   * character completes the line.
   */
  lemma {:induction false} OneCharacterPerFrame(line: string, typed: nat, dts: seq<real>, wordSpeed: real)
    requires 1 <= typed <= |line|
    requires forall i :: 0 <= i < |dts| ==> dts[i] >= wordSpeed
    ensures |dts| <= |line| - typed ==> RunFor(line, Typewriter(typed, wordSpeed), dts, wordSpeed) == Some(Typewriter(typed + |dts|, wordSpeed))
    ensures |dts| > |line| - typed ==> RunFor(line, Typewriter(typed, wordSpeed), dts, wordSpeed).None?
    decreases |dts|
  {
    if dts != [] {
      if typed < |line| {
        assert Tick(line, Typewriter(typed, wordSpeed), dts[0], wordSpeed) == Some(Typewriter(typed + 1, wordSpeed));
        OneCharacterPerFrame(line, typed + 1, dts[1..], wordSpeed);
      }
    }
  }
}
