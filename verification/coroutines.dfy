/**
 * Unity coroutines suspended on `yield return new WaitForSeconds(d)`, modelled
 * as pending waits that each frame shortens by the frame time `dt`. A wait
 * whose remaining time reaches zero or less is due: its continuation (the
 * `event`) runs in that frame.
 */
module Coroutines {

  datatype Wait<E> = Wait(event: E, left: real)

  /** The continuations that run in a frame of length dt, in the order their coroutines started. */
  function Due<E>(ws: seq<Wait<E>>, dt: real): (r: seq<E>)
    ensures |r| <= |ws|
  {
    if ws == [] then []
    else (if ws[0].left - dt <= 0.0 then [ws[0].event] else []) + Due(ws[1..], dt)
  }

  /** The waits still suspended after a frame of length dt, each shortened by dt. */
  function Later<E>(ws: seq<Wait<E>>, dt: real): (r: seq<Wait<E>>)
    ensures forall i :: 0 <= i < |r| ==> r[i].left > 0.0
  {
    if ws == [] then []
    else (if ws[0].left - dt <= 0.0 then [] else [Wait(ws[0].event, ws[0].left - dt)]) + Later(ws[1..], dt)
  }

  /** Every pending wait either runs or stays suspended, never both and never neither. */
  lemma {:induction false} DueOrLater<E>(ws: seq<Wait<E>>, dt: real)
    ensures |Due(ws, dt)| + |Later(ws, dt)| == |ws|
  {
    if ws != [] {
      DueOrLater(ws[1..], dt);
    }
  }

  /** An event runs in a frame exactly when one of its waits has at most dt left. */
  lemma {:induction false} DueIff<E>(ws: seq<Wait<E>>, dt: real, e: E)
    ensures e in Due(ws, dt) <==> exists i :: 0 <= i < |ws| && ws[i].event == e && ws[i].left <= dt
  {
    if ws != [] {
      DueIff(ws[1..], dt, e);
      if e in Due(ws[1..], dt) {
        var i :| 0 <= i < |ws[1..]| && ws[1..][i].event == e && ws[1..][i].left <= dt;
        assert ws[i + 1].event == e && ws[i + 1].left <= dt;
      }
      if exists i :: 0 <= i < |ws| && ws[i].event == e && ws[i].left <= dt {
        var i :| 0 <= i < |ws| && ws[i].event == e && ws[i].left <= dt;
        if i > 0 {
          assert ws[1..][i - 1] == ws[i];
        }
      }
    }
  }

  /** The continuations due after appending one more wait. */
  lemma {:induction false} DueSnoc<E>(ws: seq<Wait<E>>, w: Wait<E>, dt: real)
    ensures Due(ws + [w], dt) == Due(ws, dt) + (if w.left - dt <= 0.0 then [w.event] else [])
  {
    if ws == [] {
      assert [] + [w] == [w];
    } else {
      var v := ws + [w];
      assert v[0] == ws[0] && v[1..] == ws[1..] + [w];
      DueSnoc(ws[1..], w, dt);
      var head: seq<E> := if ws[0].left - dt <= 0.0 then [ws[0].event] else [];
      var tail: seq<E> := if w.left - dt <= 0.0 then [w.event] else [];
      assert Due(v, dt) == head + (Due(ws[1..], dt) + tail);
      assert head + (Due(ws[1..], dt) + tail) == (head + Due(ws[1..], dt)) + tail;
    }
  }

  /** The waits still pending after appending one more wait. */
  lemma {:induction false} LaterSnoc<E>(ws: seq<Wait<E>>, w: Wait<E>, dt: real)
    ensures Later(ws + [w], dt) == Later(ws, dt) + (if w.left - dt <= 0.0 then [] else [Wait(w.event, w.left - dt)])
  {
    if ws == [] {
      assert [] + [w] == [w];
    } else {
      var v := ws + [w];
      assert v[0] == ws[0] && v[1..] == ws[1..] + [w];
      LaterSnoc(ws[1..], w, dt);
      var head: seq<Wait<E>> := if ws[0].left - dt <= 0.0 then [] else [Wait(ws[0].event, ws[0].left - dt)];
      var tail: seq<Wait<E>> := if w.left - dt <= 0.0 then [] else [Wait(w.event, w.left - dt)];
      assert Later(v, dt) == head + (Later(ws[1..], dt) + tail);
      assert head + (Later(ws[1..], dt) + tail) == (head + Later(ws[1..], dt)) + tail;
    }
  }

  /** Starting a coroutine appends a wait; the waits already pending are unaffected. */
  lemma DueAppend<E>(ws: seq<Wait<E>>, w: Wait<E>, dt: real)
    ensures Due(ws + [w], dt) == Due(ws, dt) + (if w.left - dt <= 0.0 then [w.event] else [])
    ensures Later(ws + [w], dt) == Later(ws, dt) + (if w.left - dt <= 0.0 then [] else [Wait(w.event, w.left - dt)])
  {
    DueSnoc(ws, w, dt);
    LaterSnoc(ws, w, dt);
  }

  /** Total time of a sequence of frames. */
  function Sum(dts: seq<real>): real
  {
    if dts == [] then 0.0 else dts[0] + Sum(dts[1..])
  }

  /** Every continuation that runs over a sequence of frames, in order. */
  function Fired<E>(ws: seq<Wait<E>>, dts: seq<real>): seq<E>
    decreases dts
  {
    if dts == [] then [] else Due(ws, dts[0]) + Fired(Later(ws, dts[0]), dts[1..])
  }

  lemma {:induction false} SumNonNegative(dts: seq<real>)
    requires forall i :: 0 <= i < |dts| ==> dts[i] >= 0.0
    ensures Sum(dts) >= 0.0
  {
    if dts != [] {
      SumNonNegative(dts[1..]);
    }
  }

  lemma {:induction false} NothingFiresFromNothing<E>(dts: seq<real>)
    ensures Fired<E>([], dts) == []
  {
    if dts != [] {
      NothingFiresFromNothing<E>(dts[1..]);
    }
  }

  /**
   * A single `WaitForSeconds(d)` resumes exactly once, in the first frame by
   * which the frames that followed it add up to at least d (never before a
   * frame has passed).
   */
  lemma {:induction false} WaitResumesOnceAfterDuration<E>(e: E, d: real, dts: seq<real>)
    requires forall i :: 0 <= i < |dts| ==> dts[i] >= 0.0
    ensures Fired([Wait(e, d)], dts) == if dts != [] && Sum(dts) >= d then [e] else []
    decreases dts
  {
    if dts != [] {
      var ws := [Wait(e, d)];
      assert ws[1..] == [];
      SumNonNegative(dts[1..]);
      if d - dts[0] <= 0.0 {
        assert Due(ws, dts[0]) == [e];
        assert Later(ws, dts[0]) == [];
        NothingFiresFromNothing<E>(dts[1..]);
      } else {
        assert Due(ws, dts[0]) == [];
        assert Later(ws, dts[0]) == [Wait(e, d - dts[0])];
        WaitResumesOnceAfterDuration(e, d - dts[0], dts[1..]);
      }
    }
  }

  /** How many suspended coroutines have continuation e. */
  ghost function Occurrences<E>(ws: seq<Wait<E>>, e: E): nat
  {
    if ws == [] then 0 else (if ws[0].event == e then 1 else 0) + Occurrences(ws[1..], e)
  }

  /** How many times e occurs in a run of continuations. */
  ghost function Count<E>(es: seq<E>, e: E): nat
  {
    if es == [] then 0 else (if es[0] == e then 1 else 0) + Count(es[1..], e)
  }

  lemma {:induction false} CountPositive<E>(es: seq<E>, e: E)
    ensures Count(es, e) > 0 <==> e in es
  {
    if es != [] {
      CountPositive(es[1..], e);
      assert es == [es[0]] + es[1..];
    }
  }

  lemma CountCons<E>(x: E, rest: seq<E>, e: E)
    ensures Count([x] + rest, e) == (if x == e then 1 else 0) + Count(rest, e)
  {
    assert ([x] + rest)[1..] == rest;
  }

  lemma OccurrencesCons<E>(w: Wait<E>, rest: seq<Wait<E>>, e: E)
    ensures Occurrences([w] + rest, e) == (if w.event == e then 1 else 0) + Occurrences(rest, e)
  {
    assert ([w] + rest)[1..] == rest;
  }

  /** Each suspended continuation e either runs in the frame or stays suspended after it. */
  lemma {:induction false} OccurrencesRunOrStay<E>(ws: seq<Wait<E>>, dt: real, e: E)
    ensures Occurrences(ws, e) == Count(Due(ws, dt), e) + Occurrences(Later(ws, dt), e)
  {
    if ws != [] {
      OccurrencesRunOrStay(ws[1..], dt, e);
      if ws[0].left - dt <= 0.0 {
        assert Later(ws, dt) == Later(ws[1..], dt);
        assert Due(ws, dt) == [ws[0].event] + Due(ws[1..], dt);
        CountCons(ws[0].event, Due(ws[1..], dt), e);
      } else {
        var w := Wait(ws[0].event, ws[0].left - dt);
        assert Due(ws, dt) == Due(ws[1..], dt);
        assert Later(ws, dt) == [w] + Later(ws[1..], dt);
        OccurrencesCons(w, Later(ws[1..], dt), e);
      }
    }
  }

  /** Starting a coroutine adds one suspended continuation. */
  lemma {:induction false} OccurrencesAppend<E>(ws: seq<Wait<E>>, w: Wait<E>, e: E)
    ensures Occurrences(ws + [w], e) == Occurrences(ws, e) + (if w.event == e then 1 else 0)
  {
    if ws == [] {
      assert ([] + [w])[1..] == [];
    } else {
      assert (ws + [w])[1..] == ws[1..] + [w];
      OccurrencesAppend(ws[1..], w, e);
    }
  }
}
