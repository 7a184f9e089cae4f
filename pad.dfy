/** The gamepad poller's last-seen raw state of one controller, and the
    bit-by-bit diff of two button masks into press and release events. */
module Pad {
  import opened Types

  function Pow2(j: nat): (r: nat)
    ensures r > 0
  {
    if j == 0 then 1 else 2 * Pow2(j - 1)
  }

  /** `x` shifted right by `k` bits. */
  function Shr(x: nat, k: nat): nat
  {
    if k == 0 then x else Shr(x / 2, k - 1)
  }

  /** Bit `j` of `x`. */
  function Bit(x: nat, j: nat): nat
  {
    Shr(x, j) % 2
  }

  /** The event for bit `j`: none when the bit is unchanged, a press of that
      bit's mask for 0 to 1 and a release for 1 to 0. */
  function BitEvent(o: nat, n: nat, j: nat): seq<ControllerEvent>
  {
    if Bit(o, j) == Bit(n, j) then []
    else if Bit(o, j) == 0 then [ButtonPress(Pow2(j))]
    else [ButtonRelease(Pow2(j))]
  }

  /** The events for bits `j` to 15 of two 16-bit masks, lowest bit first. */
  function ButtonEvents(o: nat, n: nat, j: nat): seq<ControllerEvent>
    decreases 16 - j
  {
    if j >= 16 then [] else BitEvent(o, n, j) + ButtonEvents(o, n, j + 1)
  }

  function Mask(e: ControllerEvent): nat
  {
    match e
    case ButtonPress(m) => m
    case ButtonRelease(m) => m
    case _ => 0
  }

  lemma {:induction false} Pow2Monotone(i: nat, j: nat)
    requires i < j
    ensures Pow2(i) < Pow2(j)
  {
    if i + 1 < j {
      Pow2Monotone(i, j - 1);
    }
  }

  /** Shifting right once more halves. */
  lemma {:induction false} ShrStep(x: nat, k: nat)
    ensures Shr(x, k) / 2 == Shr(x, k + 1)
  {
    if k > 0 {
      ShrStep(x / 2, k - 1);
    }
  }

  /** Nothing is left of a value below 2^k after shifting it right k bits. */
  lemma {:induction false} ShrBelow(x: nat, k: nat)
    requires x < Pow2(k)
    ensures Shr(x, k) == 0
  {
    if k > 0 {
      ShrBelow(x / 2, k - 1);
    }
  }

  lemma ShrSixteen(x: U16)
    ensures Shr(x, 16) == 0
  {
    assert Pow2(4) == 16;
    assert Pow2(8) == 256;
    assert Pow2(12) == 4096;
    assert Pow2(16) == 0x1_0000;
    ShrBelow(x, 16);
  }

  /** Once the remaining high parts agree, no bit from `k` on differs. */
  lemma {:induction false} NoEventsAbove(o: nat, n: nat, k: nat)
    requires k <= 16 && Shr(o, k) == Shr(n, k)
    ensures ButtonEvents(o, n, k) == []
    decreases 16 - k
  {
    if k < 16 {
      ShrStep(o, k);
      ShrStep(n, k);
      NoEventsAbove(o, n, k + 1);
    }
  }

  /** While the remaining high parts differ, some bit from `k` on differs. */
  lemma {:induction false} EventsWhileDifferent(o: U16, n: U16, k: nat)
    requires k <= 16 && Shr(o, k) != Shr(n, k)
    ensures ButtonEvents(o, n, k) != []
    decreases 16 - k
  {
    if k == 16 {
      ShrSixteen(o);
      ShrSixteen(n);
    } else if Bit(o, k) == Bit(n, k) {
      ShrStep(o, k);
      ShrStep(n, k);
      EventsWhileDifferent(o, n, k + 1);
    }
  }

  /** No events exactly when the two masks are equal. */
  lemma ButtonEventsEmpty(o: U16, n: U16)
    ensures ButtonEvents(o, n, 0) == [] <==> o == n
  {
    if o == n {
      NoEventsAbove(o, n, 0);
    } else {
      EventsWhileDifferent(o, n, 0);
    }
  }

  /** Every event from bit `k` on is a press or release of one bit at or
      above `k`, and the masks strictly increase along the list. */
  lemma {:induction false} ButtonEventsOrdered(o: nat, n: nat, k: nat)
    ensures forall e :: e in ButtonEvents(o, n, k) ==>
      (e.ButtonPress? || e.ButtonRelease?) && Mask(e) >= Pow2(k)
    ensures forall i, j :: 0 <= i < j < |ButtonEvents(o, n, k)| ==>
      Mask(ButtonEvents(o, n, k)[i]) < Mask(ButtonEvents(o, n, k)[j])
    decreases 16 - k
  {
    if k < 16 {
      ButtonEventsOrdered(o, n, k + 1);
      Pow2Monotone(k, k + 1);
      var head, tail := BitEvent(o, n, k), ButtonEvents(o, n, k + 1);
      assert ButtonEvents(o, n, k) == head + tail;
      forall i, j | 0 <= i < j < |head + tail|
        ensures Mask((head + tail)[i]) < Mask((head + tail)[j])
      {
        if i < |head| {
          assert (head + tail)[i] == head[0];
          assert (head + tail)[j] in tail;
        } else {
          assert (head + tail)[i] == tail[i - |head|];
          assert (head + tail)[j] == tail[j - |head|];
        }
      }
    }
  }

  /** One iteration of the shift loop: the low bits of the shifted masks
      give the event for bit `k`, and the shifted masks move on to bit k+1. */
  lemma ButtonEventsStep(o: nat, n: nat, k: nat, done: seq<ControllerEvent>)
    requires k < 16
    ensures done + ButtonEvents(o, n, k) == (done + BitEvent(o, n, k)) + ButtonEvents(o, n, k + 1)
    ensures BitEvent(o, n, k) ==
      if Shr(n, k) % 2 == Shr(o, k) % 2 then []
      else if Shr(o, k) % 2 == 0 then [ButtonPress(Pow2(k))]
      else [ButtonRelease(Pow2(k))]
    ensures Shr(o, k) / 2 == Shr(o, k + 1) && Shr(n, k) / 2 == Shr(n, k + 1)
    ensures Pow2(k) * 2 == Pow2(k + 1)
  {
    ShrStep(o, k);
    ShrStep(n, k);
  }

  /** The poller's last-seen state of one controller. */
  class ControllerRaw {
    var packNum: nat
    var button: U16
    var triL: U8
    var triR: U8
    var lx: I16
    var ly: I16
    var rx: I16
    var ry: I16

    constructor ()
      ensures packNum == 0 && button == 0 && triL == 0 && triR == 0
      ensures lx == 0 && ly == 0 && rx == 0 && ry == 0
    {
      packNum, button, triL, triR := 0, 0, 0, 0;
      lx, ly, rx, ry := 0, 0, 0, 0;
    }

    /** Store new trigger bytes and report them scaled to [0, 1]. */
    method TriggerChange(l: U8, r: U8) returns (ev: ControllerEvent)
      modifies this
      ensures triL == l && triR == r
      ensures ev == TriggerMove(l as real / 255.0, r as real / 255.0)
      ensures 0.0 <= ev.l <= 1.0 && 0.0 <= ev.r <= 1.0
      ensures packNum == old(packNum) && button == old(button)
      ensures lx == old(lx) && ly == old(ly) && rx == old(rx) && ry == old(ry)
    {
      triL, triR := l, r;
      ev := TriggerMove(l as real / 255.0, r as real / 255.0);
    }

    /** Store a new left stick position and report it scaled by 1/32767. */
    method LeftStickChange(x: I16, y: I16) returns (ev: ControllerEvent)
      modifies this
      ensures lx == x && ly == y
      ensures ev == LSticksMove(x as real / 32767.0, y as real / 32767.0)
      ensures packNum == old(packNum) && button == old(button) && triL == old(triL) && triR == old(triR)
      ensures rx == old(rx) && ry == old(ry)
    {
      lx, ly := x, y;
      ev := LSticksMove(x as real / 32767.0, y as real / 32767.0);
    }

    /** Store a new right stick position and report it scaled by 1/32767. */
    method RightStickChange(x: I16, y: I16) returns (ev: ControllerEvent)
      modifies this
      ensures rx == x && ry == y
      ensures ev == RSticksMove(x as real / 32767.0, y as real / 32767.0)
      ensures packNum == old(packNum) && button == old(button) && triL == old(triL) && triR == old(triR)
      ensures lx == old(lx) && ly == old(ly)
    {
      rx, ry := x, y;
      ev := RSticksMove(x as real / 32767.0, y as real / 32767.0);
    }

    /** Store a new button mask and report one event per changed bit, lowest
        bit first: no events exactly when the mask is unchanged. */
    method BtnChange(newButton: U16) returns (events: seq<ControllerEvent>)
      modifies this
      ensures button == newButton
      ensures events == ButtonEvents(old(button), newButton, 0)
      ensures events == [] <==> old(button) == newButton
      ensures packNum == old(packNum) && triL == old(triL) && triR == old(triR)
      ensures lx == old(lx) && ly == old(ly) && rx == old(rx) && ry == old(ry)
    {
      var o0: nat := button;
      var btn: nat := newButton;
      var prev: nat := button;
      button := newButton;
      events := [];
      var index: nat := 1;
      ghost var k: nat := 0;
      while btn != prev
        invariant k <= 16
        modifies {}
        invariant btn == Shr(newButton, k) && prev == Shr(o0, k) && index == Pow2(k)
        invariant events + ButtonEvents(o0, newButton, k) == ButtonEvents(o0, newButton, 0)
        decreases 16 - k
      {
        if k == 16 {
          ShrSixteen(newButton);
          ShrSixteen(o0);
          assert false;
        }
        var step: seq<ControllerEvent> := [];
        if btn % 2 != prev % 2 {
          if prev % 2 == 0 {
            step := [ButtonPress(index)];
          } else {
            step := [ButtonRelease(index)];
          }
        }
        ButtonEventsStep(o0, newButton, k, events);
        events := events + step;
        index := index * 2;
        btn := btn / 2;
        prev := prev / 2;
        k := k + 1;
      }
      NoEventsAbove(o0, newButton, k);
      ButtonEventsEmpty(o0, newButton);
    }
  }
}
