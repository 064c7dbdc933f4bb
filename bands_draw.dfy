/** `drawBands`: the band bookkeeping that survives once canvas drawing is
    left aside. Every band is stretched to the current time; volumes and
    start times stay. */
module BandDrawing {
  import opened Types
  import opened Calc
  import opened State

  method DrawBands(v: VizState, curTimestamp: real)
    modifies v`activeBands
    ensures |v.activeBands| == |old(v.activeBands)|
    ensures forall i :: 0 <= i < |v.activeBands| ==>
      v.activeBands[i] == old(v.activeBands[i]).(endTimestamp := curTimestamp)
  {
    var i := 0;
    while i < |v.activeBands|
      invariant 0 <= i <= |v.activeBands| == |old(v.activeBands)|
      invariant forall j :: 0 <= j < i ==>
        v.activeBands[j] == old(v.activeBands[j]).(endTimestamp := curTimestamp)
      invariant forall j :: i <= j < |v.activeBands| ==> v.activeBands[j] == old(v.activeBands[j])
    {
      v.activeBands := v.activeBands[i := v.activeBands[i].(endTimestamp := curTimestamp)];
      i := i + 1;
    }
  }

  /** Bands that differ only in their timestamps hold the same ledger. */
  lemma BandsHoldTimestamps(bands: seq<Band>, bands': seq<Band>, m: map<int, Level>, w: PriceWindow)
    requires w.Valid() && BandsHold(bands, m, w)
    requires |bands'| == |bands|
    requires forall i :: 0 <= i < |bands| ==> bands'[i].volume == bands[i].volume && bands'[i].blank == bands[i].blank
    ensures BandsHold(bands', m, w)
  {
  }
}
