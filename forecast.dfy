/** The hourly forecast: up to three slots, 3, 6 and 9 hours after the
    current hour, each taken from the hourly arrays of the weather response. */
module Forecast {
  import opened WeatherCodes

  /** One forecast entry. `time` is the hourly time stamp as received; the
      script reformats it for display. */
  datatype Slot = Slot(time: string, icon: Icon, temp: int)

  /** The offsets, in hours from the current hour, in display order. */
  const Offsets: seq<nat> := [3, 6, 9]

  /** A slot at index `idx` exists when both the temperature and the code
      arrays reach it. */
  predicate Available(idx: nat, temps: seq<int>, codes: seq<int>) {
    idx < |temps| && idx < |codes|
  }

  /** The indices that get a slot, in offset order. */
  function Selected(hour: nat, offsets: seq<nat>, temps: seq<int>, codes: seq<int>): (r: seq<nat>)
    ensures |r| <= |offsets|
    ensures forall i :: 0 <= i < |r| ==> Available(r[i], temps, codes)
  {
    if offsets == [] then []
    else
      var r := Selected(hour, offsets[..|offsets| - 1], temps, codes);
      var idx := hour + offsets[|offsets| - 1];
      if Available(idx, temps, codes) then r + [idx] else r
  }

  /** Strictly increasing. */
  predicate Increasing(s: seq<nat>) {
    forall i, j :: 0 <= i < j < |s| ==> s[i] < s[j]
  }

  /** Each selected index is the current hour plus one of the offsets. */
  lemma {:induction false} SelectedFromOffsets(hour: nat, offsets: seq<nat>, temps: seq<int>, codes: seq<int>)
    ensures forall x :: x in Selected(hour, offsets, temps, codes) ==> x >= hour && x - hour in offsets
  {
    if offsets != [] {
      var front := offsets[..|offsets| - 1];
      SelectedFromOffsets(hour, front, temps, codes);
      var last := offsets[|offsets| - 1];
      assert last in offsets;
      assert forall o :: o in front ==> o in offsets;
      var r := Selected(hour, offsets, temps, codes);
      var rf := Selected(hour, front, temps, codes);
      assert r == rf || r == rf + [hour + last];
      forall x | x in r
        ensures x >= hour && x - hour in offsets
      {
        if x in rf {
          assert x - hour in front;
        } else {
          assert x == hour + last;
        }
      }
    }
  }

  /** Every offset whose index both arrays reach is selected. */
  lemma {:induction false} SelectedComplete(hour: nat, offsets: seq<nat>, temps: seq<int>, codes: seq<int>, o: nat)
    requires o in offsets && Available(hour + o, temps, codes)
    ensures hour + o in Selected(hour, offsets, temps, codes)
  {
    var front := offsets[..|offsets| - 1];
    if o != offsets[|offsets| - 1] {
      assert o in front by {
        var j :| 0 <= j < |offsets| && offsets[j] == o;
        assert j < |offsets| - 1 && front[j] == o;
      }
      SelectedComplete(hour, front, temps, codes, o);
    }
  }

  /** Increasing offsets give increasing indices. */
  lemma {:induction false} SelectedOrdered(hour: nat, offsets: seq<nat>, temps: seq<int>, codes: seq<int>)
    requires Increasing(offsets)
    ensures Increasing(Selected(hour, offsets, temps, codes))
  {
    if offsets != [] {
      var front := offsets[..|offsets| - 1];
      SelectedOrdered(hour, front, temps, codes);
      SelectedFromOffsets(hour, front, temps, codes);
      var rf := Selected(hour, front, temps, codes);
      var last := offsets[|offsets| - 1];
      forall i | 0 <= i < |rf|
        ensures rf[i] < hour + last
      {
        assert rf[i] in rf;
        var j :| 0 <= j < |front| && front[j] == rf[i] - hour;
        assert offsets[j] < last;
      }
      var r := Selected(hour, offsets, temps, codes);
      assert r == rf || r == rf + [hour + last];
      if r != rf {
        forall i, j | 0 <= i < j < |r| ensures r[i] < r[j] {
          if j < |rf| { assert r[i] == rf[i] && r[j] == rf[j]; }
        }
      }
    }
  }

  /** The slots for the given indices. */
  function Slots(idxs: seq<nat>, temps: seq<int>, codes: seq<int>, times: seq<string>): seq<Slot>
    requires forall i :: 0 <= i < |idxs| ==> idxs[i] < |temps| && idxs[i] < |codes| && idxs[i] < |times|
  {
    seq(|idxs|, i requires 0 <= i < |idxs| =>
      Slot(times[idxs[i]], CodeToIcon(codes[idxs[i]]), temps[idxs[i]]))
  }

  /** Every selected index has a time stamp; otherwise reading the time
      stamp raises and no forecast is produced. */
  predicate TimesCover(idxs: seq<nat>, times: seq<string>) {
    forall i :: 0 <= i < |idxs| ==> idxs[i] < |times|
  }

  /** The forecast loop. `ok` is false when a selected index has no time
      stamp (the script raises there). */
  method BuildForecast(hour: nat, temps: seq<int>, codes: seq<int>, times: seq<string>)
    returns (forecast: seq<Slot>, ok: bool)
    ensures var sel := Selected(hour, Offsets, temps, codes);
            ok == TimesCover(sel, times) && (ok ==> forecast == Slots(sel, temps, codes, times))
  {
    forecast := [];
    for k := 0 to |Offsets|
      invariant var sel := Selected(hour, Offsets[..k], temps, codes);
                TimesCover(sel, times) && forecast == Slots(sel, temps, codes, times)
    {
      assert Offsets[..k + 1][..k] == Offsets[..k];
      var idx := hour + Offsets[k];
      if idx < |temps| && idx < |codes| {
        if idx >= |times| {
          assert Offsets[..3] == Offsets;
          SelectedGrows(hour, Offsets, k + 1, temps, codes);
          ghost var p := Selected(hour, Offsets[..k + 1], temps, codes);
          assert p[|p| - 1] == idx;
          assert Selected(hour, Offsets, temps, codes)[|p| - 1] == idx;
          return forecast, false;
        }
        forecast := forecast + [Slot(times[idx], CodeToIcon(codes[idx]), temps[idx])];
      }
    }
    assert Offsets[..3] == Offsets;
    ok := true;
  }

  /** The selection for a prefix of the offsets is a prefix of the full selection. */
  lemma {:induction false} SelectedGrows(hour: nat, offsets: seq<nat>, k: nat, temps: seq<int>, codes: seq<int>)
    requires k <= |offsets|
    ensures var r := Selected(hour, offsets, temps, codes);
            var p := Selected(hour, offsets[..k], temps, codes);
            |p| <= |r| && r[..|p|] == p
  {
    if k < |offsets| {
      var front := offsets[..|offsets| - 1];
      assert offsets[..k] == front[..k];
      SelectedGrows(hour, front, k, temps, codes);
    } else {
      assert offsets[..k] == offsets;
    }
  }

  /** The offsets among 3, 6 and 9 whose index both arrays reach, in order. */
  function ReachedOffsets(hour: nat, temps: seq<int>, codes: seq<int>): seq<nat> {
    (if Available(hour + 3, temps, codes) then [3] else [])
    + (if Available(hour + 6, temps, codes) then [6] else [])
    + (if Available(hour + 9, temps, codes) then [9] else [])
  }

  /** The selection is the current hour plus each reached offset. */
  lemma SelectedIsReached(hour: nat, temps: seq<int>, codes: seq<int>)
    ensures var sel := Selected(hour, Offsets, temps, codes);
            var reached := ReachedOffsets(hour, temps, codes);
            |sel| == |reached| && forall i :: 0 <= i < |sel| ==> sel[i] == hour + reached[i]
  {
    var s1 := Selected(hour, [3], temps, codes);
    assert [3][..0] == [];
    assert s1 == if Available(hour + 3, temps, codes) then [hour + 3] else [];
    var s2 := Selected(hour, [3, 6], temps, codes);
    assert [3, 6][..1] == [3];
    assert s2 == s1 + if Available(hour + 6, temps, codes) then [hour + 6] else [];
    assert Offsets[..2] == [3, 6];
    var sel := Selected(hour, Offsets, temps, codes);
    assert sel == s2 + if Available(hour + 9, temps, codes) then [hour + 9] else [];
  }

  /** When the loop completes, the i-th slot of the forecast is the slot of
      hour + o, for o the i-th offset among 3, 6 and 9 that both arrays
      reach: its time stamp, its code's table icon and its temperature. */
  lemma ForecastSlotsByOffset(hour: nat, temps: seq<int>, codes: seq<int>, times: seq<string>)
    requires TimesCover(Selected(hour, Offsets, temps, codes), times)
    ensures var f := Slots(Selected(hour, Offsets, temps, codes), temps, codes, times);
            var reached := ReachedOffsets(hour, temps, codes);
            && |f| == |reached|
            && forall i :: 0 <= i < |f| ==>
                 var idx := hour + reached[i];
                 && idx < |temps| && idx < |codes| && idx < |times|
                 && f[i] == Slot(times[idx], CodeToIcon(codes[idx]), temps[idx])
  {
    SelectedIsReached(hour, temps, codes);
  }

  /** The window: at most three slots, in offset order, one for an offset
      exactly when both arrays reach it. */
  lemma WindowShape(hour: nat, temps: seq<int>, codes: seq<int>)
    ensures var sel := Selected(hour, Offsets, temps, codes);
            && |sel| <= 3
            && Increasing(sel)
            && (forall o :: o in Offsets ==> (hour + o in sel <==> Available(hour + o, temps, codes)))
  {
    SelectedOrdered(hour, Offsets, temps, codes);
    forall o | o in Offsets && Available(hour + o, temps, codes)
      ensures hour + o in Selected(hour, Offsets, temps, codes)
    {
      SelectedComplete(hour, Offsets, temps, codes, o);
    }
  }
}
