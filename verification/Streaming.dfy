/** The narration that is still streaming, before the transcript commits it. */
module Streaming {
  import opened Layout
  import opened Spilling
  import Text
  import Transcript
  import UnitStability
  import opened Wrappers

  lemma {:induction false} LargestExists(keys: set<int>)
    requires keys != {}
    ensures exists k :: k in keys && forall j | j in keys :: j <= k
  {
    assert exists x :: x in keys by {
      assert (forall x :: x !in keys) ==> keys == {};
    }
    var x :| x in keys;
    if keys != {x} {
      var rest := keys - {x};
      LargestExists(rest);
      var k :| k in rest && forall j | j in rest :: j <= k;
      var top := if x > k then x else k;
      assert top in keys;
      assert forall j | j in keys :: j == x || j in rest;
    } else {
      assert forall j | j in keys :: j == x;
    }
  }

  function Largest(keys: set<int>): int
    requires keys != {}
  {
    LargestExists(keys);
    var k :| k in keys && forall j | j in keys :: j <= k;
    k
  }

  /** The deltas in the order of their indices. */
  function Deltas(segments: map<int, string>): string
    decreases |segments|
  {
    if segments == map[] then ""
    else
      var k := Largest(segments.Keys);
      Deltas(segments - {k}) + segments[k]
  }

  function LiveText(live: Option<LiveState>): string {
    match live
    case None => ""
    case Some(l) => Text.Strip(Deltas(l.segments))
  }

  /** A displayed delta joins the buffer of its message; another message starts a new buffer. */
  function TrackLive(live: Option<LiveState>, messageId: Option<string>, delta: Option<string>, index: int)
    : LiveState
  {
    var held := live.GetOr(LiveState(None, map[]));
    var mine := if held.messageId != messageId then LiveState(messageId, map[]) else held;
    if delta.Some? then mine.(segments := mine.segments[index := delta.value]) else mine
  }

  lemma NextDelta(segments: map<int, string>, index: int, delta: string)
    requires forall k | k in segments :: k < index
    ensures Deltas(segments[index := delta]) == Deltas(segments) + delta
  {
    var grown := segments[index := delta];
    assert index in grown.Keys;
    assert grown - {index} == segments;
  }

  /** A delta that arrives in order only lets the streamed text grow at its end, so every unit of it
      but the last is final, behind whatever units the transcript holds. */
  lemma DeltaKeepsCompletedUnits(full: seq<Item>, live: LiveState, delta: string, index: int)
    requires forall k | k in live.segments :: k < index
    ensures var now := TrackLive(Some(live), live.messageId, Some(delta), index);
            var was := full + Transcript.Units([Item(Narration, LiveText(Some(live)))]);
            var shown := full + Transcript.Units([Item(Narration, LiveText(Some(now)))]);
            && LiveText(Some(live)) <= LiveText(Some(now))
            && |was| <= |shown| && was[..|was| - 1] <= shown
  {
    NextDelta(live.segments, index, delta);
    Text.StripGrows(Deltas(live.segments), delta);
    var now := TrackLive(Some(live), live.messageId, Some(delta), index);
    UnitStability.GrowthKeepsCompletedUnits(full, LiveText(Some(live)), LiveText(Some(now)));
  }
}
