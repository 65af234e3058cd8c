/** Cutting a time range into windows: services/weatherlink-kafka/util/time.go, SplitInto24HourWindows,
    and the range check of services/weatherlink-kafka/api/weatherlink.go. */
module Windows {

  const DAY := 86400

  datatype Window = Window(start: int, end: int)

  /** FetchHistoricData accepts the range. */
  predicate RangeAccepted(start: int, end: int) {
    end - start <= DAY && start < end
  }

  /** The windows follow one another from `start` to `end` without gap or overlap. */
  ghost predicate Tiles(ws: seq<Window>, start: int, end: int) {
    if ws == [] then start == end
    else ws[0].start == start && start < ws[0].end && Tiles(ws[1..], ws[0].end, end)
  }

  lemma TilesSnoc(ws: seq<Window>, start: int, mid: int, end: int)
    requires Tiles(ws, start, mid) && mid < end
    ensures Tiles(ws + [Window(mid, end)], start, end)
  {
    if ws == [] {
      assert ([Window(mid, end)])[1..] == [];
    } else {
      TilesSnoc(ws[1..], ws[0].end, mid, end);
      assert (ws + [Window(mid, end)])[1..] == ws[1..] + [Window(mid, end)];
    }
  }

  /** Every second of the range lies in exactly one window, and no second outside it lies in any. */
  lemma {:induction false} TilesCoverOnce(ws: seq<Window>, start: int, end: int, t: int)
    requires Tiles(ws, start, end)
    ensures start <= end
    ensures start <= t < end <==> exists i :: 0 <= i < |ws| && ws[i].start <= t < ws[i].end
    ensures forall i, j :: 0 <= i < j < |ws| ==> ws[i].end <= ws[j].start
    ensures forall i :: 0 <= i < |ws| ==> start <= ws[i].start && ws[i].end <= end
  {
    if ws != [] {
      var more := ws[1..];
      TilesCoverOnce(more, ws[0].end, end, t);
      assert forall i | 1 <= i < |ws| :: ws[i] == more[i - 1];
      assert forall i | 0 <= i < |more| :: more[i] == ws[i + 1];
      if start <= t < end {
        if t < ws[0].end {
          assert ws[0].start <= t < ws[0].end;
        } else {
          var i :| 0 <= i < |more| && more[i].start <= t < more[i].end;
          assert ws[i + 1].start <= t < ws[i + 1].end;
        }
      }
      if exists i :: 0 <= i < |ws| && ws[i].start <= t < ws[i].end {
        var i :| 0 <= i < |ws| && ws[i].start <= t < ws[i].end;
        assert i > 0 ==> more[i - 1].start <= t;
      }
    }
  }

  /** The windows tile the range (there are none when it is empty), every one but the last is a full day,
      and the API's range check accepts each of them. */
  method SplitInto24HourWindows(startTs: int, endTs: int) returns (windows: seq<Window>)
    ensures Tiles(windows, startTs, if startTs < endTs then endTs else startTs)
    ensures forall i :: 0 <= i < |windows| ==>
              0 < windows[i].end - windows[i].start <= 86400 && RangeAccepted(windows[i].start, windows[i].end)
    ensures forall i :: 0 <= i < |windows| - 1 ==> windows[i].end - windows[i].start == 86400
  {
    windows := [];
    var currentStart := startTs;
    while currentStart < endTs
      invariant if startTs < endTs then startTs <= currentStart <= endTs else currentStart == startTs
      invariant Tiles(windows, startTs, currentStart)
      invariant forall i :: 0 <= i < |windows| ==> RangeAccepted(windows[i].start, windows[i].end)
      invariant forall i :: 0 <= i < |windows| ==>
                  windows[i].end - windows[i].start == DAY || (i == |windows| - 1 && currentStart == endTs)
    {
      var currentEnd := currentStart + DAY;
      if currentEnd > endTs {
        currentEnd := endTs;
      }
      TilesSnoc(windows, startTs, currentStart, currentEnd);
      windows := windows + [Window(currentStart, currentEnd)];
      currentStart := currentEnd;
    }
  }
}
